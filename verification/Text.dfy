/** Go's string helpers, as far as the modelled code uses them. */
module Text {
  import StableSort

  /** Go's < on strings. */
  predicate Less(a: string, b: string) {
    b != [] && (a == [] || a[0] < b[0] || (a[0] == b[0] && Less(a[1..], b[1..])))
  }

  lemma {:induction false} LessTotal(a: string, b: string)
    ensures Less(a, b) || Less(b, a) || a == b
    ensures !(Less(a, b) && Less(b, a)) && !Less(a, a)
    decreases |a|
  {
    if a != [] {
      if b != [] && a[0] == b[0] {
        LessTotal(a[1..], b[1..]);
        assert a == [a[0]] + a[1..] && b == [b[0]] + b[1..];
      }
      LessTotal(a[1..], a[1..]);
    }
  }

  lemma {:induction false} LessTransitive(a: string, b: string, c: string)
    requires Less(a, b) && Less(b, c)
    ensures Less(a, c)
    decreases |a|
  {
    if a != [] && a[0] == b[0] == c[0] {
      LessTransitive(a[1..], b[1..], c[1..]);
    }
  }

  lemma NotAfterTransitive(a: string, b: string, c: string)
    ensures !Less(b, a) && !Less(c, b) ==> !Less(c, a)
    ensures !Less(b, a) && !Less(c, b) && a == c ==> a == b
  {
    LessTotal(a, b);
    LessTotal(b, c);
    LessTotal(a, c);
    if Less(a, b) && Less(b, c) {
      LessTransitive(a, b, c);
    }
  }

  lemma LessOrders()
    ensures StableSort.Orders(Less)
  {
    forall a, b | Less(a, b) ensures !Less(b, a) {
      LessTotal(a, b);
    }
    forall a, b, c | !Less(b, a) && !Less(c, b) ensures !Less(c, a) {
      NotAfterTransitive(a, b, c);
    }
  }

  /** The order is decided by the first character in which they differ, or by length. */
  lemma {:induction false} LessIsFirstDifference(a: string, b: string)
    ensures Less(a, b) <==> exists k ::
              0 <= k <= |a| && k < |b| && a[..k] == b[..k] && (k == |a| || a[k] < b[k])
    decreases |a|
  {
    if b == [] {
    } else if a == [] || a[0] != b[0] {
      assert a[..0] == b[..0];
    } else {
      LessIsFirstDifference(a[1..], b[1..]);
      if Less(a, b) {
        var k :| 0 <= k <= |a[1..]| && k < |b[1..]| && a[1..][..k] == b[1..][..k] &&
                 (k == |a[1..]| || a[1..][k] < b[1..][k]);
        assert a[..k + 1] == [a[0]] + a[1..][..k] && b[..k + 1] == [b[0]] + b[1..][..k];
      }
      if k :| 0 <= k <= |a| && k < |b| && a[..k] == b[..k] && (k == |a| || a[k] < b[k]) {
        assert k > 0;
        assert a[1..][..k - 1] == a[..k][1..] && b[1..][..k - 1] == b[..k][1..];
      }
    }
  }

  /** unicode.IsSpace. */
  predicate IsSpace(c: char) {
    || '\t' <= c <= '\r' || c == ' ' || c == '\U{85}' || c == '\U{A0}' || c == '\U{1680}'
    || '\U{2000}' <= c <= '\U{200A}' || c == '\U{2028}' || c == '\U{2029}' || c == '\U{202F}' || c == '\U{205F}'
    || c == '\U{3000}'
  }

  function TrimLeft(s: string): string {
    if s != [] && IsSpace(s[0]) then TrimLeft(s[1..]) else s
  }

  function TrimRight(s: string): string {
    if s != [] && IsSpace(s[|s| - 1]) then TrimRight(s[..|s| - 1]) else s
  }

  /** strings.TrimSpace. */
  function Trim(s: string): string {
    TrimRight(TrimLeft(s))
  }

  predicate Trimmed(s: string) {
    s == [] || (!IsSpace(s[0]) && !IsSpace(s[|s| - 1]))
  }

  lemma {:induction false} TrimLeftStarts(s: string)
    ensures TrimLeft(s) == [] || !IsSpace(TrimLeft(s)[0])
  {
    if s != [] && IsSpace(s[0]) {
      TrimLeftStarts(s[1..]);
    }
  }

  lemma {:induction false} TrimRightKeeps(s: string)
    ensures TrimRight(s) <= s
    ensures TrimRight(s) == [] || !IsSpace(TrimRight(s)[|TrimRight(s)| - 1])
  {
    if s != [] && IsSpace(s[|s| - 1]) {
      TrimRightKeeps(s[..|s| - 1]);
    }
  }

  lemma {:induction false} TrimLeftPadded(before: string, s: string)
    requires forall x | x in before :: IsSpace(x)
    ensures TrimLeft(before + s) == TrimLeft(s)
  {
    if before == [] {
      assert before + s == s;
    } else {
      assert before[0] in before;
      assert (before + s)[1..] == before[1..] + s;
      TrimLeftPadded(before[1..], s);
    }
  }

  lemma {:induction false} TrimRightPadded(s: string, after: string)
    requires forall x | x in after :: IsSpace(x)
    ensures TrimRight(s + after) == TrimRight(s)
  {
    if after == [] {
      assert s + after == s;
    } else {
      var n := |after| - 1;
      assert after[n] in after;
      assert (s + after)[..|s + after| - 1] == s + after[..n];
      TrimRightPadded(s, after[..n]);
    }
  }

  lemma {:induction false} TrimLeftAppends(s: string, after: string)
    ensures TrimLeft(s) != [] ==> TrimLeft(s + after) == TrimLeft(s) + after
    ensures TrimLeft(s) == [] ==> TrimLeft(s + after) == TrimLeft(after) && forall x | x in s :: IsSpace(x)
  {
    if s == [] {
      assert s + after == after;
    } else if IsSpace(s[0]) {
      assert (s + after)[1..] == s[1..] + after;
      TrimLeftAppends(s[1..], after);
      assert s == [s[0]] + s[1..];
    }
  }

  /** Trimming takes blanks off both ends, and nothing else. */
  lemma TrimPadded(before: string, s: string, after: string)
    requires (forall x | x in before :: IsSpace(x)) && (forall x | x in after :: IsSpace(x))
    ensures Trim(before + s + after) == Trim(s)
  {
    assert before + s + after == before + (s + after);
    TrimLeftPadded(before, s + after);
    TrimLeftAppends(s, after);
    if TrimLeft(s) != [] {
      TrimRightPadded(TrimLeft(s), after);
    } else {
      TrimLeftPadded(after, "");
      assert after + "" == after;
    }
  }

  /** Trimming leaves a trimmed string, and leaves a trimmed string alone. */
  lemma TrimTrims(s: string)
    ensures Trimmed(Trim(s))
    ensures Trimmed(s) ==> Trim(s) == s
    ensures Trim(Trim(s)) == Trim(s)
  {
    TrimLeftStarts(s);
    TrimRightKeeps(TrimLeft(s));
    var t := Trim(s);
    assert t != [] ==> t[0] == TrimLeft(s)[0];
    assert TrimLeft(t) == t && TrimRight(t) == t;
  }

  /** unicode.ToLower, exactly for every character whose lower case is an ASCII letter. */
  function Lower(c: char): char {
    if 'A' <= c <= 'Z' then c - 'A' + 'a'
    else if c == '\U{212A}' then 'k'
    else if c == '\U{130}' then 'i'
    else c
  }

  function ToLower(s: string): string {
    seq(|s|, i requires 0 <= i < |s| => Lower(s[i]))
  }

  /** A letter mapping such as unicode.ToUpper: it leaves spaces spaces, makes no new ones, and
      has nothing more to do the second time. */
  ghost predicate Casing(upper: char -> char) {
    forall c :: IsSpace(upper(c)) == IsSpace(c) && upper(upper(c)) == upper(c)
  }

  /** strings.ToUpper, for any such mapping. */
  function ToUpper(upper: char -> char, s: string): string {
    seq(|s|, i requires 0 <= i < |s| => upper(s[i]))
  }

  lemma {:induction false} TrimLeftUpper(upper: char -> char, s: string)
    requires Casing(upper)
    ensures TrimLeft(ToUpper(upper, s)) == ToUpper(upper, TrimLeft(s))
  {
    if s != [] && IsSpace(s[0]) {
      assert ToUpper(upper, s)[1..] == ToUpper(upper, s[1..]);
      TrimLeftUpper(upper, s[1..]);
    }
  }

  lemma {:induction false} TrimRightUpper(upper: char -> char, s: string)
    requires Casing(upper)
    ensures TrimRight(ToUpper(upper, s)) == ToUpper(upper, TrimRight(s))
  {
    if s != [] && IsSpace(s[|s| - 1]) {
      assert ToUpper(upper, s)[..|s| - 1] == ToUpper(upper, s[..|s| - 1]);
      TrimRightUpper(upper, s[..|s| - 1]);
    }
  }

  /** Trimming and upper-casing do not care which comes first, or how often. */
  lemma UpperTrims(upper: char -> char, s: string)
    requires Casing(upper)
    ensures Trim(ToUpper(upper, s)) == ToUpper(upper, Trim(s))
    ensures ToUpper(upper, ToUpper(upper, s)) == ToUpper(upper, s)
    ensures ToUpper(upper, Trim(Trim(ToUpper(upper, s)))) == ToUpper(upper, Trim(s))
  {
    TrimLeftUpper(upper, s);
    TrimRightUpper(upper, TrimLeft(s));
    TrimTrims(ToUpper(upper, s));
    assert ToUpper(upper, ToUpper(upper, Trim(s))) == ToUpper(upper, Trim(s));
  }

  // ---------- lines ----------

  /** strings.Split(s, "\n") */
  function Split(s: string): (lines: seq<string>)
    ensures lines != []
  {
    if s == [] then [""]
    else
      var rest := Split(s[1..]);
      if s[0] == '\n' then [""] + rest else [[s[0]] + rest[0]] + rest[1..]
  }

  /** strings.Join(lines, "\n") */
  function Join(lines: seq<string>): string {
    if lines == [] then ""
    else if |lines| == 1 then lines[0]
    else lines[0] + "\n" + Join(lines[1..])
  }

  lemma {:induction false} SplitHasNoNewline(s: string)
    ensures forall l | l in Split(s) :: '\n' !in l
  {
    if s != [] {
      SplitHasNoNewline(s[1..]);
      var rest := Split(s[1..]);
      assert rest[0] in rest;
      forall l | l in Split(s) ensures '\n' !in l {
        if l in rest[1..] {
          assert l in rest;
        }
      }
    }
  }

  lemma {:induction false} SplitAfter(line: string, s: string)
    requires '\n' !in line
    ensures Split(line + "\n" + s) == [line] + Split(s)
    ensures Split(line) == [line]
    decreases |line|
  {
    if line == [] {
      assert line + "\n" + s == "\n" + s;
      assert ("\n" + s)[1..] == s;
    } else {
      SplitAfter(line[1..], s);
      assert (line + "\n" + s)[1..] == line[1..] + "\n" + s;
      assert [line[0]] + line[1..] == line;
    }
  }

  /** Splitting undoes joining, for at least one line and lines without newlines. */
  lemma {:induction false} SplitJoin(lines: seq<string>)
    requires lines != [] && forall l | l in lines :: '\n' !in l
    ensures Split(Join(lines)) == lines
  {
    assert lines[0] in lines;
    if |lines| == 1 {
      SplitAfter(lines[0], "");
    } else {
      forall l | l in lines[1..] ensures '\n' !in l {
        assert l in lines;
      }
      SplitJoin(lines[1..]);
      SplitAfter(lines[0], Join(lines[1..]));
    }
  }
}

/** Off-hours detection (offHours and formatHours in pkg/anomaly/anomaly.go): which starts are
    flagged, and the compact list of hours the flag quotes. */
module HourRanges {
  import opened Wrappers
  import StableSort

  const MIN_HISTORY := 10
  const TOLERANCE := 1

  predicate IsHour(h: int) {
    0 <= h < 24
  }

  type Hour = h: int | 0 <= h < 24

  // ---------- ranges and their text ----------

  datatype Range = Range(lo: int, hi: int)

  predicate InSome(ranges: seq<Range>, h: int) {
    exists i :: 0 <= i < |ranges| && ranges[i].lo <= h <= ranges[i].hi
  }

  /** Ranges in ascending order with a gap between any two, so that none overlap and no two
      could be one. */
  predicate Separate(ranges: seq<Range>) {
    && (forall i | 0 <= i < |ranges| :: IsHour(ranges[i].lo) && IsHour(ranges[i].hi) && ranges[i].lo <= ranges[i].hi)
    && (forall i, j | 0 <= i < j < |ranges| :: ranges[i].hi + 1 < ranges[j].lo)
  }

  /** The ranges say exactly which hours are in the set, as shortly as can be. */
  ghost predicate Compact(ranges: seq<Range>, hours: set<int>) {
    Separate(ranges) && forall h :: h in hours <==> InSome(ranges, h)
  }

  function Digit(d: int): char
    requires 0 <= d < 10
  {
    ('0' as int + d) as char
  }

  /** %02d */
  function Digits(h: int): string
    requires IsHour(h)
  {
    [Digit(h / 10), Digit(h % 10)]
  }

  function Show(r: Range): string
    requires IsHour(r.lo) && IsHour(r.hi)
  {
    if r.lo == r.hi then Digits(r.lo) else Digits(r.lo) + "-" + Digits(r.hi)
  }

  /** The ranges joined with ", ". */
  function Render(ranges: seq<Range>): string
    requires forall i | 0 <= i < |ranges| :: IsHour(ranges[i].lo) && IsHour(ranges[i].hi)
  {
    if ranges == [] then ""
    else if |ranges| == 1 then Show(ranges[0])
    else Show(ranges[0]) + ", " + Render(ranges[1..])
  }

  function Number(t: string): int
    requires |t| >= 2
  {
    (t[0] as int - '0' as int) * 10 + (t[1] as int - '0' as int)
  }

  lemma NumberOfDigits(h: int, t: string)
    requires IsHour(h)
    ensures Number(Digits(h) + t) == h
  {}

  predicate Wide(t: string) {
    |t| >= 5 && t[2] == '-'
  }

  /** The first range of a text, and what follows it. */
  function Head(t: string): Range
    requires |t| >= 2
  {
    Range(Number(t), if Wide(t) then Number(t[3..]) else Number(t))
  }

  function Tail(t: string): string
    requires |t| >= 2
  {
    t[if Wide(t) then 5 else 2..]
  }

  /** Reads such a list back. */
  function Parse(t: string): Option<seq<Range>> {
    if t == "" then Some([])
    else if |t| < 2 then None
    else
      var rest := Tail(t);
      if rest == "" then Some([Head(t)])
      else if |rest| < 3 || rest[..2] != ", " then None
      else
        var more := Parse(rest[2..]);
        if more.None? then None else Some([Head(t)] + more.value)
  }

  /** One range at the head of the text. */
  lemma HeadOfShow(r: Range, t: string)
    requires IsHour(r.lo) && IsHour(r.hi) && (t == "" || t[0] != '-')
    ensures var s := Show(r) + t;
            |s| >= 2 && Head(s) == r && Tail(s) == t
  {
    var s := Show(r) + t;
    if r.lo == r.hi {
      NumberOfDigits(r.lo, t);
      assert s[2..] == t;
    } else {
      NumberOfDigits(r.lo, "-" + Digits(r.hi) + t);
      assert s == Digits(r.lo) + ("-" + Digits(r.hi) + t);
      NumberOfDigits(r.hi, t);
      assert s[3..] == Digits(r.hi) + t && s[5..] == t;
    }
  }

  lemma ParseLast(r: Range)
    requires IsHour(r.lo) && IsHour(r.hi)
    ensures Parse(Show(r)) == Some([r])
  {
    HeadOfShow(r, "");
    assert Show(r) + "" == Show(r);
  }

  lemma ParseNext(r: Range, more: string)
    requires IsHour(r.lo) && IsHour(r.hi) && more != "" && Parse(more).Some?
    ensures Parse(Show(r) + ", " + more) == Some([r] + Parse(more).value)
  {
    var t := ", " + more;
    HeadOfShow(r, t);
    assert Show(r) + ", " + more == Show(r) + t;
    assert t[..2] == ", " && t[2..] == more;
  }

  /** Nothing is lost in the text. */
  lemma {:induction false} ParseRender(ranges: seq<Range>)
    requires forall i | 0 <= i < |ranges| :: IsHour(ranges[i].lo) && IsHour(ranges[i].hi)
    ensures Parse(Render(ranges)) == Some(ranges)
  {
    if |ranges| == 1 {
      ParseLast(ranges[0]);
      assert ranges == [ranges[0]];
    } else if |ranges| > 1 {
      RenderNotEmpty(ranges[1..]);
      ParseRender(ranges[1..]);
      ParseNext(ranges[0], Render(ranges[1..]));
      assert ranges == [ranges[0]] + ranges[1..];
    }
  }

  lemma RenderNotEmpty(ranges: seq<Range>)
    requires ranges != [] && forall i | 0 <= i < |ranges| :: IsHour(ranges[i].lo) && IsHour(ranges[i].hi)
    ensures |Render(ranges)| >= 2
  {}

  /** A set of hours has one compact list. */
  lemma {:induction false} CompactIsUnique(a: seq<Range>, b: seq<Range>, hours: set<int>)
    requires Compact(a, hours) && Compact(b, hours)
    ensures a == b
  {
    if a == [] || b == [] {
      assert a != [] ==> InSome(a, a[0].lo);
      assert b != [] ==> InSome(b, b[0].lo);
    } else {
      FirstsAgree(a, b, hours);
      var rest := set h | h in hours && h > a[0].hi;
      RestIsCompact(a, hours, rest);
      RestIsCompact(b, hours, rest);
      CompactIsUnique(a[1..], b[1..], rest);
      assert a == [a[0]] + a[1..] && b == [b[0]] + b[1..];
    }
  }

  lemma FirstsAgree(a: seq<Range>, b: seq<Range>, hours: set<int>)
    requires Compact(a, hours) && Compact(b, hours) && a != [] && b != []
    ensures a[0] == b[0]
  {
    var p, q := a[0], b[0];
    assert InSome(a, p.lo) && InSome(b, q.lo);
    FirstIsLeast(a, hours, q.lo);
    FirstIsLeast(b, hours, p.lo);
    FirstEnds(a, hours);
    FirstEnds(b, hours);
    FirstHolds(a, q.hi + 1);
    FirstHolds(b, p.hi + 1);
  }

  lemma FirstHolds(a: seq<Range>, h: int)
    requires a != []
    ensures a[0].lo <= h <= a[0].hi ==> InSome(a, h)
  {}

  lemma FirstIsLeast(a: seq<Range>, hours: set<int>, h: int)
    requires Compact(a, hours) && a != [] && h in hours
    ensures a[0].lo <= h
  {
    var i :| 0 <= i < |a| && a[i].lo <= h <= a[i].hi;
  }

  /** The hour after a range is not in the set. */
  lemma FirstEnds(a: seq<Range>, hours: set<int>)
    requires Compact(a, hours) && a != []
    ensures a[0].hi + 1 !in hours
  {}

  lemma RestIsCompact(a: seq<Range>, hours: set<int>, rest: set<int>)
    requires Compact(a, hours) && a != [] && rest == set h | h in hours && h > a[0].hi
    ensures Compact(a[1..], rest)
  {
    forall h ensures h in rest <==> InSome(a[1..], h) {
      if h in rest {
        var i :| 0 <= i < |a| && a[i].lo <= h <= a[i].hi;
        assert a[1..][i - 1] == a[i];
      }
      if InSome(a[1..], h) {
        var i :| 0 <= i < |a[1..]| && a[1..][i].lo <= h <= a[1..][i].hi;
        assert a[i + 1].lo <= h <= a[i + 1].hi;
        assert InSome(a, h);
      }
    }
  }

  /** So the text says which set it came from. */
  lemma TextDeterminesHours(a: seq<Range>, s: set<int>, b: seq<Range>, t: set<int>)
    requires Compact(a, s) && Compact(b, t) && Render(a) == Render(b)
    ensures s == t
  {
    ParseRender(a);
    ParseRender(b);
    assert forall h :: h in s <==> h in t;
  }

  // ---------- formatHours ----------

  predicate Below(a: Hour, b: Hour) {
    a < b
  }

  predicate Ascending(xs: seq<Hour>) {
    forall i, j | 0 <= i < j < |xs| :: xs[i] < xs[j]
  }

  predicate Distinct(xs: seq<Hour>) {
    forall i, j | 0 <= i < j < |xs| :: xs[i] != xs[j]
  }

  method Listed(hours: set<Hour>) returns (listed: seq<Hour>)
    ensures forall h :: h in listed <==> h in hours
    ensures Distinct(listed)
  {
    listed := [];
    var rest := hours;
    while rest != {}
      invariant rest <= hours
      invariant forall h :: h in listed <==> h in hours && h !in rest
      invariant Distinct(listed)
    {
      var h :| h in rest;
      listed, rest := listed + [h], rest - {h};
    }
  }

  method SortedHours(hours: set<Hour>) returns (out: seq<Hour>)
    ensures forall h :: h in out <==> h in hours
    ensures Ascending(out)
  {
    var listed := Listed(hours);
    SortedDistinct(listed);
    out := StableSort.Sort(listed, Below);
  }

  lemma SortedDistinct(listed: seq<Hour>)
    requires Distinct(listed)
    ensures var out := StableSort.Sort(listed, Below);
            && (forall h :: h in out <==> h in listed)
            && Ascending(out)
  {
    StableSort.SortSorts(listed, Below);
    StableSort.SortPermutes(listed, Below);
    var out := StableSort.Sort(listed, Below);
    assert forall h :: h in out <==> h in multiset(out);
    assert forall h :: h in listed <==> h in multiset(listed);
    OnceEach(listed);
    forall i, j | 0 <= i < j < |out| ensures out[i] < out[j] {
      assert !Below(out[j], out[i]);
      if out[i] == out[j] {
        Twice(out, i, j);
      }
    }
  }

  lemma {:induction false} OnceEach(xs: seq<Hour>)
    requires Distinct(xs)
    ensures forall x :: multiset(xs)[x] <= 1
  {
    if xs != [] {
      var n := |xs| - 1;
      OnceEach(xs[..n]);
      assert xs == xs[..n] + [xs[n]];
      assert xs[n] !in xs[..n];
    }
  }

  lemma Twice(xs: seq<Hour>, i: nat, j: nat)
    requires i < j < |xs| && xs[i] == xs[j]
    ensures multiset(xs)[xs[i]] >= 2
  {
    assert xs == xs[..j] + [xs[j]] + xs[j + 1..];
    assert xs[i] in xs[..j];
  }

  method FormatHours(hours: set<Hour>) returns (text: string)
    ensures exists ranges :: Compact(ranges, hours) && text == Render(ranges)
  {
    var sorted := SortedHours(hours);
    ghost var ranges: seq<Range> := [];
    var parts: seq<string> := [];
    var i := 0;
    while i < |sorted|
      invariant 0 <= i <= |sorted|
      invariant Separate(ranges) && (forall h :: InSome(ranges, h) <==> h in sorted[..i])
      invariant i < |sorted| ==> forall k | 0 <= k < |ranges| :: ranges[k].hi + 1 < sorted[i]
      invariant parts == seq(|ranges|, k requires 0 <= k < |ranges| => Show(ranges[k]))
    {
      var j := i;
      while j + 1 < |sorted| && sorted[j + 1] - sorted[j] == 1
        invariant i <= j < |sorted|
        invariant forall k | i <= k <= j :: sorted[k] == sorted[i] + (k - i)
      {
        j := j + 1;
      }
      assert sorted[i] in hours && sorted[j] in hours;
      var part := Digits(sorted[i]);
      if i != j {
        part := Digits(sorted[i]) + "-" + Digits(sorted[j]);
      }
      RangeAdded(sorted, i, j, ranges);
      ranges := ranges + [Range(sorted[i], sorted[j])];
      parts := parts + [part];
      i := j + 1;
    }
    assert sorted[..|sorted|] == sorted;
    text := JoinParts(parts);
    Joined(ranges);
    assert Compact(ranges, hours);
  }

  lemma RangeAdded(sorted: seq<Hour>, i: nat, j: nat, ranges: seq<Range>)
    requires i <= j < |sorted| && Ascending(sorted)
    requires forall k | i <= k <= j :: sorted[k] == sorted[i] + (k - i)
    requires forall h :: InSome(ranges, h) <==> h in sorted[..i]
    ensures forall h :: InSome(ranges + [Range(sorted[i], sorted[j])], h) <==> h in sorted[..j + 1]
  {
    var more := ranges + [Range(sorted[i], sorted[j])];
    forall h ensures InSome(more, h) <==> h in sorted[..j + 1] {
      assert sorted[..j + 1] == sorted[..i] + sorted[i..j + 1];
      if h in sorted[..i] {
        var k :| 0 <= k < |ranges| && ranges[k].lo <= h <= ranges[k].hi;
        assert more[k] == ranges[k];
      }
      if sorted[i] <= h <= sorted[j] {
        assert sorted[i..j + 1][h - sorted[i]] == h;
        assert more[|ranges|].lo <= h <= more[|ranges|].hi;
      }
      if InSome(more, h) {
        var k :| 0 <= k < |more| && more[k].lo <= h <= more[k].hi;
        assert k < |ranges| ==> InSome(ranges, h);
      }
    }
  }

  function JoinParts(parts: seq<string>): string {
    if parts == [] then "" else if |parts| == 1 then parts[0] else parts[0] + ", " + JoinParts(parts[1..])
  }

  lemma {:induction false} Joined(ranges: seq<Range>)
    requires forall i | 0 <= i < |ranges| :: IsHour(ranges[i].lo) && IsHour(ranges[i].hi)
    ensures JoinParts(seq(|ranges|, k requires 0 <= k < |ranges| => Show(ranges[k]))) == Render(ranges)
  {
    if |ranges| > 1 {
      var rest := ranges[1..];
      Joined(rest);
      assert seq(|ranges|, k requires 0 <= k < |ranges| => Show(ranges[k]))[1..] ==
             seq(|rest|, k requires 0 <= k < |rest| => Show(rest[k]));
    }
  }

  // ---------- offHours ----------

  /** Hours apart, the short way round the clock. */
  function Apart(a: int, b: int): int {
    var d := if a >= b then a - b else b - a;
    if d <= 12 then d else 24 - d
  }

  function Ahead(hour: int, k: int): int {
    (hour + k) % 24
  }

  /** The least number of hours that takes the clock from one to the other, either way. */
  lemma ApartIsTheShortWay(a: Hour, b: Hour)
    ensures 0 <= Apart(a, b) <= 12 && (Ahead(a, Apart(a, b)) == b || Ahead(b, Apart(a, b)) == a)
    ensures forall k | 0 <= k < Apart(a, b) :: Ahead(a, k) != b && Ahead(b, k) != a
  {}

  function Shifted(hour: Hour, d: int): Hour
    requires -TOLERANCE <= d <= TOLERANCE
  {
    (hour + d + 24) % 24
  }

  /** Flags a start further than the tolerance from every earlier one, once there are enough of
      those, and quotes their hours. */
  method OffHours(hour: Hour, past: seq<Hour>) returns (flag: Option<string>)
    ensures flag.Some? <==> |past| >= 10 && forall p | p in past :: Apart(hour, p) > 1
    ensures flag.Some? ==>
              exists ranges :: Compact(ranges, set p | p in past) && flag.value == Render(ranges)
  {
    if |past| < MIN_HISTORY {
      return None;
    }
    var usual: set<Hour> := {};
    for i := 0 to |past|
      invariant usual == set p | p in past[..i]
    {
      usual := usual + {past[i]};
    }
    assert past[..|past|] == past;
    var d := -TOLERANCE;
    while d <= TOLERANCE
      invariant -TOLERANCE <= d <= TOLERANCE + 1
      invariant forall e | -TOLERANCE <= e < d :: Shifted(hour, e) !in usual
    {
      if Shifted(hour, d) in usual {
        ShiftedIsNeighbour(hour);
        NearIsNeighbour(hour, Shifted(hour, d));
        return None;
      }
      d := d + 1;
    }
    forall p | p in past ensures Apart(hour, p) > TOLERANCE {
      NearbyIsTried(hour, p, usual);
    }
    var text := FormatHours(usual);
    flag := Some(text);
  }

  function Next(hour: int): int {
    if hour == 23 then 0 else hour + 1
  }

  function Previous(hour: int): int {
    if hour == 0 then 23 else hour - 1
  }

  lemma ShiftedIsNeighbour(hour: Hour)
    ensures Shifted(hour, -1) == Previous(hour) && Shifted(hour, 0) == hour && Shifted(hour, 1) == Next(hour)
  {}

  lemma NearIsNeighbour(hour: Hour, p: Hour)
    ensures Apart(hour, p) <= 1 <==> p == hour || p == Next(hour) || p == Previous(hour)
  {}

  lemma NearbyIsTried(hour: Hour, p: Hour, usual: set<Hour>)
    requires p in usual
    requires forall e | -TOLERANCE <= e <= TOLERANCE :: Shifted(hour, e) !in usual
    ensures Apart(hour, p) > TOLERANCE
  {
    assert Shifted(hour, -1) !in usual && Shifted(hour, 0) !in usual && Shifted(hour, 1) !in usual;
    ShiftedIsNeighbour(hour);
    NearIsNeighbour(hour, p);
  }
}

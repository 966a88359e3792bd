/** One-time backup codes (pkg/auth/mfa.go): an account keeps the hashes of its unused codes,
    one a line, and a good code is removed from them.

    The letter mapping and the hash function are parameters.  All that is used of them is that
    upper-casing keeps spaces apart from letters and is done after one time, and that a hash is
    a non-blank line. */
module BackupCodes {
  import Text

  // ---------- the store ----------

  predicate Tidy(line: string) {
    line != "" && Text.Trim(line) == line && '\n' !in line
  }

  datatype Coding = Coding(upper: char -> char, hash: string -> string)

  ghost predicate Sound(c: Coding) {
    Text.Casing(c.upper) && forall x :: Tidy(c.hash(x))
  }

  /** The lines of a list, trimmed, without the blank ones. */
  function Tidied(lines: seq<string>): seq<string> {
    if lines == [] then []
    else
      var l := Text.Trim(lines[|lines| - 1]);
      Tidied(lines[..|lines| - 1]) + if l == "" then [] else [l]
  }

  /** The hashes a store holds. */
  function Lines(store: string): seq<string> {
    Tidied(Text.Split(store))
  }

  /** The list without the first occurrence of one entry. */
  function Without(lines: seq<string>, entry: string): seq<string> {
    if lines == [] then []
    else
      var init, last := lines[..|lines| - 1], lines[|lines| - 1];
      if entry in init then Without(init, entry) + [last] else if last == entry then init else lines
  }

  function BackupHash(c: Coding, code: string): string {
    c.hash(Text.ToUpper(c.upper, Text.Trim(code)))
  }

  lemma {:induction false} WithoutTakesOne(lines: seq<string>, entry: string)
    ensures entry in lines ==> multiset(Without(lines, entry)) + multiset{entry} == multiset(lines)
    ensures entry !in lines ==> Without(lines, entry) == lines
    ensures forall l | l in Without(lines, entry) :: l in lines
  {
    if lines != [] {
      var n := |lines| - 1;
      WithoutTakesOne(lines[..n], entry);
      assert lines == lines[..n] + [lines[n]];
    }
  }

  lemma {:induction false} TidiedIsTidy(lines: seq<string>)
    requires forall l | l in lines :: '\n' !in l
    ensures forall l | l in Tidied(lines) :: Tidy(l)
  {
    if lines != [] {
      var n := |lines| - 1;
      assert lines[n] in lines;
      forall l | l in lines[..n] ensures '\n' !in l {
        assert l in lines;
      }
      TidiedIsTidy(lines[..n]);
      Text.TrimTrims(lines[n]);
      TrimHasNoNewline(lines[n]);
    }
  }

  lemma TrimHasNoNewline(line: string)
    requires '\n' !in line
    ensures '\n' !in Text.Trim(line)
  {
    TrimLeftIsSuffix(line);
    Text.TrimRightKeeps(Text.TrimLeft(line));
  }

  lemma {:induction false} TrimLeftIsSuffix(line: string)
    ensures |Text.TrimLeft(line)| <= |line| && Text.TrimLeft(line) == line[|line| - |Text.TrimLeft(line)|..]
  {
    if line != [] && Text.IsSpace(line[0]) {
      TrimLeftIsSuffix(line[1..]);
    }
  }

  lemma {:induction false} TidiedTidy(lines: seq<string>)
    requires forall l | l in lines :: Tidy(l)
    ensures Tidied(lines) == lines
  {
    if lines != [] {
      var n := |lines| - 1;
      assert lines[n] in lines;
      forall l | l in lines[..n] ensures Tidy(l) {
        assert l in lines;
      }
      TidiedTidy(lines[..n]);
    }
  }

  lemma LinesAreTidy(store: string)
    ensures forall l | l in Lines(store) :: Tidy(l)
  {
    Text.SplitHasNoNewline(store);
    TidiedIsTidy(Text.Split(store));
  }

  /** Joined hashes split back into themselves, none of them included. */
  lemma LinesOfJoin(lines: seq<string>)
    requires forall l | l in lines :: Tidy(l)
    ensures Lines(Text.Join(lines)) == lines
  {
    if lines == [] {
      assert Text.Split("") == [""];
      assert Tidied([""]) == [];
    } else {
      Text.SplitJoin(lines);
      TidiedTidy(lines);
    }
  }

  /** Case and blanks around a code do not matter: a code typed in any case, between blanks, has
      the hash of the code in upper case. */
  lemma TypedAnyhow(c: Coding, before: string, code: string, after: string)
    requires Sound(c)
    requires (forall x | x in before :: Text.IsSpace(x)) && (forall x | x in after :: Text.IsSpace(x))
    ensures BackupHash(c, before + code + after) == BackupHash(c, code)
    ensures BackupHash(c, Text.ToUpper(c.upper, code)) == BackupHash(c, code)
    ensures Text.Trim(code) == code ==> BackupHash(c, code) == c.hash(Text.ToUpper(c.upper, code))
  {
    Text.TrimPadded(before, code, after);
    Text.UpperTrims(c.upper, code);
    assert Text.ToUpper(c.upper, Text.ToUpper(c.upper, Text.Trim(code))) == Text.ToUpper(c.upper, Text.Trim(code)) by {
      Text.UpperTrims(c.upper, Text.Trim(code));
    }
  }

  // ---------- the operations ----------

  /** The store for a set of fresh codes. */
  method GenerateBackupCodes(c: Coding, codes: seq<string>) returns (store: string)
    requires Sound(c)
    ensures Lines(store) == seq(|codes|, i requires 0 <= i < |codes| => BackupHash(c, codes[i]))
  {
    var hashes: seq<string> := [];
    for i := 0 to |codes|
      invariant hashes == seq(i, j requires 0 <= j < i => BackupHash(c, codes[j]))
    {
      hashes := hashes + [BackupHash(c, codes[i])];
    }
    LinesOfJoin(hashes);
    store := Text.Join(hashes);
  }

  /** Accepts a code, in any case and with blanks around it, exactly when its hash is in the
      store, and takes one copy of it out. */
  method ConsumeBackupCode(c: Coding, store: string, code: string) returns (after: string, ok: bool)
    requires Sound(c)
    ensures ok <==> BackupHash(c, code) in Lines(store)
    ensures ok ==> Lines(after) == Without(Lines(store), BackupHash(c, code))
    ensures !ok ==> after == store
  {
    var want := BackupHash(c, Text.Trim(Text.ToUpper(c.upper, code)));
    Text.UpperTrims(c.upper, code);
    var lines := Text.Split(store);
    var kept: seq<string> := [];
    var matched := false;
    for i := 0 to |lines|
      invariant matched <==> want in Tidied(lines[..i])
      invariant kept == Without(Tidied(lines[..i]), want)
    {
      TidiedGrows(lines, i, want);
      var line := Text.Trim(lines[i]);
      if line == "" {
        continue;
      }
      if !matched && line == want {
        matched := true;
        continue;
      }
      kept := kept + [line];
    }
    assert lines[..|lines|] == lines;
    if !matched {
      return store, false;
    }
    LinesAreTidy(store);
    WithoutTakesOne(Lines(store), want);
    LinesOfJoin(kept);
    after, ok := Text.Join(kept), true;
  }

  lemma TidiedGrows(lines: seq<string>, i: nat, want: string)
    requires i < |lines|
    ensures var line := Text.Trim(lines[i]);
            var before, now := Tidied(lines[..i]), Tidied(lines[..i + 1]);
            && (line == "" ==> now == before)
            && (line != "" ==>
                  && (want in now <==> want in before || line == want)
                  && Without(now, want) == if want in before then Without(before, want) + [line]
                                           else if line == want then Without(before, want)
                                           else Without(before, want) + [line])
  {
    assert lines[..i + 1][..i] == lines[..i];
    var line := Text.Trim(lines[i]);
    var before, now := Tidied(lines[..i]), Tidied(lines[..i + 1]);
    WithoutTakesOne(before, want);
    if line != "" {
      assert now == before + [line] && now[..|now| - 1] == before;
    }
  }

  /** `totpOk` is the outcome of checking the code as a time-based one. */
  method ValidateMFACode(c: Coding, totpOk: bool, store: string, code: string)
    returns (updated: string, ok: bool)
    requires Sound(c)
    ensures ok <==> totpOk || BackupHash(c, code) in Lines(store)
    ensures totpOk ==> updated == store
    ensures ok && !totpOk ==> Lines(updated) == Without(Lines(store), BackupHash(c, code))
    ensures !ok ==> updated == ""
  {
    if totpOk {
      return store, true;
    }
    if store == "" {
      LinesOfJoin([]);
      return "", false;
    }
    var after, matched := ConsumeBackupCode(c, store, code);
    if !matched {
      return "", false;
    }
    updated, ok := after, true;
  }

  /** An account, and the handlers' rule: store what comes back when the code was good. */
  class Account {
    var backupCodes: string

    constructor (store: string)
      ensures backupCodes == store
    {
      backupCodes := store;
    }

    method Present(c: Coding, a: Attempt) returns (ok: bool)
      requires Sound(c)
      modifies this
      ensures ok == Accepted(c, Lines(old(backupCodes)), a)
      ensures Lines(backupCodes) == AfterOne(c, Lines(old(backupCodes)), a)
      ensures !ok ==> backupCodes == old(backupCodes)
    {
      WithoutTakesOne(Lines(backupCodes), BackupHash(c, a.code));
      var updated, good := ValidateMFACode(c, a.totpOk, backupCodes, a.code);
      if good {
        backupCodes := updated;
      }
      ok := good;
    }
  }

  // ---------- any sequence of attempts ----------

  datatype Attempt = Attempt(totpOk: bool, code: string)

  predicate Accepted(c: Coding, lines: seq<string>, a: Attempt) {
    a.totpOk || BackupHash(c, a.code) in lines
  }

  function AfterOne(c: Coding, lines: seq<string>, a: Attempt): seq<string> {
    if a.totpOk then lines else Without(lines, BackupHash(c, a.code))
  }

  function After(c: Coding, lines: seq<string>, run: seq<Attempt>): seq<string>
    decreases |run|
  {
    if run == [] then lines else After(c, AfterOne(c, lines, run[0]), run[1..])
  }

  /** The hashes of the codes accepted as backup codes. */
  function Spent(c: Coding, lines: seq<string>, run: seq<Attempt>): multiset<string>
    decreases |run|
  {
    if run == [] then multiset{}
    else
      (if !run[0].totpOk && Accepted(c, lines, run[0]) then multiset{BackupHash(c, run[0].code)} else multiset{}) +
      Spent(c, AfterOne(c, lines, run[0]), run[1..])
  }

  /** The hashes of the codes presented as backup codes, accepted or not. */
  function Presented(c: Coding, run: seq<Attempt>): multiset<string>
    decreases |run|
  {
    if run == [] then multiset{}
    else (if run[0].totpOk then multiset{} else multiset{BackupHash(c, run[0].code)}) + Presented(c, run[1..])
  }

  /** Whatever is presented, what is left and what was spent make up what was there. */
  lemma {:induction false} CodesAreConserved(c: Coding, lines: seq<string>, run: seq<Attempt>)
    ensures multiset(After(c, lines, run)) + Spent(c, lines, run) == multiset(lines)
    ensures |Spent(c, lines, run)| <= |lines|
    decreases |run|
  {
    if run != [] {
      WithoutTakesOne(lines, BackupHash(c, run[0].code));
      CodesAreConserved(c, AfterOne(c, lines, run[0]), run[1..]);
    }
    assert |multiset(lines)| == |lines|;
  }

  function Min(a: int, b: int): int {
    if a <= b then a else b
  }

  /** Each stored code is accepted exactly as often as it is presented, up to the copies
      stored: a fresh code works once, whatever else is presented before or between. */
  lemma {:induction false} EachCodeWorksOnce(c: Coding, lines: seq<string>, run: seq<Attempt>, h: string)
    ensures Spent(c, lines, run)[h] == Min(multiset(lines)[h], Presented(c, run)[h])
    decreases |run|
  {
    if run != [] {
      var a := run[0];
      WithoutTakesOne(lines, BackupHash(c, a.code));
      EachCodeWorksOnce(c, AfterOne(c, lines, a), run[1..], h);
    }
  }
}

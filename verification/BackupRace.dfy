/** Several requests presenting backup codes of one account at the same moment (the handlers of
    pkg/api/mfa.go and pkg/api/password.go).

    Each reads the account, checks its code against the hashes it read, and stores what is left
    of those; here that is two steps, and anything may come between.  A time-based code stores
    nothing, and is left out. */
module BackupRace {
  import BackupCodes

  type Who = string

  datatype Event =
    | Read(who: Who)
    | Finish(who: Who, hash: string) // accept and store the rest, or refuse

  /** What one request read, with the codes that had been spent by then. */
  datatype Seen = Seen(lines: seq<string>, spent: multiset<string>)

  datatype State = State(
    lines: seq<string>, // the stored hashes
    seen: map<Who, Seen>,
    finished: set<Who>,
    // history
    spent: multiset<string>, // every hash accepted
    current: set<Who>) // who read since the last acceptance

  function Init(lines: seq<string>): State {
    State(lines, map[], {}, multiset{}, {})
  }

  /** Every request reads once and finishes once. */
  predicate Enabled(s: State, e: Event) {
    if e.Read? then e.who !in s.seen else e.who in s.seen && e.who !in s.finished
  }

  predicate Accepts(s: State, e: Event) {
    e.Finish? && e.who in s.seen && e.hash in s.seen[e.who].lines
  }

  function Apply(s: State, e: Event): State {
    match e
    case Read(who) => s.(seen := s.seen[who := Seen(s.lines, s.spent)], current := s.current + {who})
    case Finish(who, hash) =>
      var t := s.(finished := s.finished + {who});
      if !Accepts(s, e) then t
      else t.(lines := BackupCodes.Without(s.seen[who].lines, hash), spent := s.spent + multiset{hash}, current := {})
  }

  function After(lines: seq<string>, run: seq<Event>): State {
    if run == [] then Init(lines) else Apply(After(lines, run[..|run| - 1]), run[|run| - 1])
  }

  predicate Runs(lines: seq<string>, run: seq<Event>) {
    run == [] ||
    (Runs(lines, run[..|run| - 1]) && Enabled(After(lines, run[..|run| - 1]), run[|run| - 1]))
  }

  // ---------- in terms of the run alone ----------

  predicate AcceptedAt(lines: seq<string>, run: seq<Event>, k: nat)
    requires k < |run|
  {
    Accepts(After(lines, run[..k]), run[k])
  }

  /** who read the account, and no code was accepted after that. */
  predicate ReadLast(lines: seq<string>, run: seq<Event>, who: Who) {
    exists i | 0 <= i < |run| :: run[i] == Read(who) && Unchanged(lines, run, i)
  }

  predicate Unchanged(lines: seq<string>, run: seq<Event>, i: nat) {
    forall k | i < k < |run| :: !AcceptedAt(lines, run, k)
  }

  /** Event j accepts a code of a list that another acceptance had replaced meanwhile. */
  predicate StaleAt(lines: seq<string>, run: seq<Event>, j: nat)
    requires j < |run|
  {
    AcceptedAt(lines, run, j) && !ReadLast(lines, run[..j], run[j].who)
  }

  predicate NoneStale(lines: seq<string>, run: seq<Event>) {
    forall j | 0 <= j < |run| :: !StaleAt(lines, run, j)
  }

  lemma PrefixAgrees(lines: seq<string>, run: seq<Event>, n: nat, j: nat)
    requires j < n <= |run|
    ensures AcceptedAt(lines, run[..n], j) == AcceptedAt(lines, run, j)
    ensures StaleAt(lines, run[..n], j) == StaleAt(lines, run, j)
  {
    assert run[..n][..j] == run[..j];
  }

  lemma UnchangedGrows(lines: seq<string>, run: seq<Event>, i: nat)
    requires run != [] && i < |run| - 1
    ensures var n := |run| - 1;
            Unchanged(lines, run, i) <==> Unchanged(lines, run[..n], i) && !AcceptedAt(lines, run, n)
  {
    var n := |run| - 1;
    forall k | i < k < n ensures AcceptedAt(lines, run[..n], k) == AcceptedAt(lines, run, k) {
      PrefixAgrees(lines, run, n, k);
    }
  }

  /** One more event. */
  lemma ReadLastGrows(lines: seq<string>, run: seq<Event>, who: Who)
    requires run != []
    ensures var n := |run| - 1;
            ReadLast(lines, run, who) <==>
              run[n] == Read(who) || (ReadLast(lines, run[..n], who) && !AcceptedAt(lines, run, n))
  {
    var n := |run| - 1;
    assert Unchanged(lines, run, n);
    forall i | 0 <= i < n
      ensures Unchanged(lines, run, i) <==> Unchanged(lines, run[..n], i) && !AcceptedAt(lines, run, n)
    {
      UnchangedGrows(lines, run, i);
    }
    assert forall i | 0 <= i < n :: run[..n][i] == run[i];
  }

  lemma NoneStaleGrows(lines: seq<string>, run: seq<Event>)
    requires run != []
    ensures var n := |run| - 1;
            NoneStale(lines, run) <==> NoneStale(lines, run[..n]) && !StaleAt(lines, run, n)
  {
    var n := |run| - 1;
    forall j | 0 <= j < n ensures StaleAt(lines, run[..n], j) == StaleAt(lines, run, j) {
      PrefixAgrees(lines, run, n, j);
    }
  }

  lemma {:induction false} FreshReadLast(lines: seq<string>, run: seq<Event>, who: Who)
    requires Runs(lines, run)
    ensures who in After(lines, run).current <==> ReadLast(lines, run, who)
  {
    if run != [] {
      FreshReadLast(lines, run[..|run| - 1], who);
      ReadLastGrows(lines, run, who);
    }
  }

  // ---------- the invariant ----------

  /** Nothing is lost: what was read, with what had been spent by then, covers what was there. */
  predicate SeenOk(lines: seq<string>, s: State, who: Who)
    requires who in s.seen
  {
    var seen := s.seen[who];
    && multiset(lines) <= multiset(seen.lines) + seen.spent
    && seen.spent <= s.spent
    && (who in s.current ==> seen == Seen(s.lines, s.spent))
    && (who !in s.current ==> |seen.spent| < |s.spent|)
  }

  predicate Covers(lines: seq<string>, s: State) {
    && multiset(lines) <= multiset(s.lines) + s.spent
    && s.current <= s.seen.Keys
    && forall who | who in s.seen :: SeenOk(lines, s, who)
  }

  lemma StepCovers(lines: seq<string>, s: State, e: Event)
    requires Covers(lines, s) && Enabled(s, e)
    ensures Covers(lines, Apply(s, e))
  {
    var s1 := Apply(s, e);
    if Accepts(s, e) {
      assert SeenOk(lines, s, e.who);
      BackupCodes.WithoutTakesOne(s.seen[e.who].lines, e.hash);
    }
    forall who | who in s1.seen ensures SeenOk(lines, s1, who) {
      assert who in s.seen ==> SeenOk(lines, s, who);
    }
  }

  /** How many codes the store and the acceptances account for together. */
  function Total(s: State): nat {
    |s.lines| + |s.spent|
  }

  /** An acceptance of a fresh reader keeps the total; one of a stale reader makes it too much. */
  lemma StepTotal(lines: seq<string>, s: State, e: Event)
    requires Covers(lines, s) && Enabled(s, e)
    ensures !Accepts(s, e) || e.who in s.current ==> Total(Apply(s, e)) == Total(s)
    ensures Accepts(s, e) && e.who !in s.current ==> Total(Apply(s, e)) > |lines|
  {
    if Accepts(s, e) {
      var seen := s.seen[e.who];
      assert SeenOk(lines, s, e.who);
      BackupCodes.WithoutTakesOne(seen.lines, e.hash);
      SizeOf(seen.lines, BackupCodes.Without(seen.lines, e.hash), e.hash);
      CoverSize(lines, seen.lines, seen.spent);
    }
  }

  lemma SizeOf(before: seq<string>, after: seq<string>, hash: string)
    requires multiset(after) + multiset{hash} == multiset(before)
    ensures |after| + 1 == |before|
  {
    assert |multiset(before)| == |before| && |multiset(after)| == |after|;
  }

  lemma CoverSize(lines: seq<string>, left: seq<string>, spent: multiset<string>)
    requires multiset(lines) <= multiset(left) + spent
    ensures |lines| <= |left| + |spent|
    ensures |lines| == |left| + |spent| ==> multiset(lines) == multiset(left) + spent
  {
    var rest := multiset(left) + spent - multiset(lines);
    assert multiset(left) + spent == multiset(lines) + rest;
    assert |multiset(lines)| == |lines| && |multiset(left)| == |left|;
    assert |rest| == 0 ==> rest == multiset{};
  }

  lemma {:induction false} RunCovers(lines: seq<string>, run: seq<Event>)
    requires Runs(lines, run)
    ensures Covers(lines, After(lines, run))
    ensures Total(After(lines, run)) >= |lines|
    ensures Total(After(lines, run)) == |lines| <==> NoneStale(lines, run)
  {
    if run != [] {
      var n := |run| - 1;
      var s, e := After(lines, run[..n]), run[n];
      RunCovers(lines, run[..n]);
      StepCovers(lines, s, e);
      StepTotal(lines, s, e);
      CoverSize(lines, Apply(s, e).lines, Apply(s, e).spent);
      NoneStaleGrows(lines, run);
      FreshReadLast(lines, run[..n], e.who);
    }
  }

  // ---------- when codes are used once ----------

  /** Codes may come back, and never get lost; what is left and what was accepted make up what
      was there if and only if no request was accepted on a list it had read before another
      acceptance. */
  lemma ConservedIffNoneStale(lines: seq<string>, run: seq<Event>)
    requires Runs(lines, run)
    ensures multiset(lines) <= multiset(After(lines, run).lines) + After(lines, run).spent
    ensures multiset(lines) == multiset(After(lines, run).lines) + After(lines, run).spent <==> NoneStale(lines, run)
  {
    RunCovers(lines, run);
    var s := After(lines, run);
    CoverSize(lines, s.lines, s.spent);
    if multiset(lines) == multiset(s.lines) + s.spent {
      assert |multiset(lines)| == |lines| && |multiset(s.lines)| == |s.lines|;
    }
  }

  /** Then no code is accepted more often than it was stored. */
  lemma NoneStaleWorksOnce(lines: seq<string>, run: seq<Event>, hash: string)
    requires Runs(lines, run) && NoneStale(lines, run)
    ensures After(lines, run).spent[hash] <= multiset(lines)[hash]
  {
    ConservedIffNoneStale(lines, run);
  }

  predicate OnlyFinish(run: seq<Event>, i: nat, j: nat) {
    forall k | 0 <= k < |run| && run[k].Finish? :: k == i || k == j
  }

  /** After n events that are all reads, nobody has read anything but the first list. */
  lemma {:induction false} QuietReads(lines: seq<string>, run: seq<Event>)
    requires Runs(lines, run) && forall k | 0 <= k < |run| :: run[k].Read?
    ensures After(lines, run).lines == lines
    ensures forall who | who in After(lines, run).seen :: After(lines, run).seen[who].lines == lines
    ensures forall who :: who in After(lines, run).seen <==> Read(who) in run
  {
    if run != [] {
      var n := |run| - 1;
      QuietReads(lines, run[..n]);
      assert run == run[..n] + [run[n]];
    }
  }

  lemma {:induction false} PrefixRuns(lines: seq<string>, run: seq<Event>, n: nat)
    requires Runs(lines, run) && n <= |run|
    ensures Runs(lines, run[..n])
    decreases |run|
  {
    if n < |run| {
      PrefixRuns(lines, run[..|run| - 1], n);
      assert run[..|run| - 1][..n] == run[..n];
    } else {
      assert run[..n] == run;
    }
  }

  /** What who was told, in the end, when from n on there are only reads. */
  predicate ToldBy(before: State, after: State, who: Who) {
    && (who in before.seen ==> who in after.seen && after.seen[who] == before.seen[who])
    && (who !in before.seen && who in after.seen ==> after.seen[who].lines == before.lines)
  }

  lemma {:induction false} LaterReads(lines: seq<string>, run: seq<Event>, n: nat, who: Who)
    requires Runs(lines, run) && n <= |run| && forall k | n <= k < |run| :: run[k].Read?
    ensures After(lines, run).lines == After(lines, run[..n]).lines
    ensures ToldBy(After(lines, run[..n]), After(lines, run), who)
    decreases |run|
  {
    if n == |run| {
      assert run[..n] == run;
    } else {
      LaterReads(lines, run[..|run| - 1], n, who);
      assert run[..|run| - 1][..n] == run[..n];
    }
  }

  lemma PrefixEnabled(lines: seq<string>, run: seq<Event>, n: nat)
    requires Runs(lines, run) && n < |run|
    ensures Enabled(After(lines, run[..n]), run[n])
    ensures After(lines, run[..n + 1]) == Apply(After(lines, run[..n]), run[n])
  {
    PrefixRuns(lines, run, n + 1);
    assert run[..n + 1][..n] == run[..n];
  }

  /** The first to finish is accepted, and leaves no copy. */
  lemma FirstSpends(lines: seq<string>, run: seq<Event>, i: nat, hash: string)
    requires Runs(lines, run) && i < |run| && forall k | 0 <= k < i :: run[k].Read?
    requires run[i].Finish? && run[i].hash == hash && multiset(lines)[hash] == 1
    ensures AcceptedAt(lines, run, i)
    ensures hash !in After(lines, run[..i + 1]).lines
    ensures After(lines, run[..i + 1]).seen == After(lines, run[..i]).seen
    ensures forall who :: who in After(lines, run[..i]).seen <==> Read(who) in run[..i]
    ensures forall who | who in After(lines, run[..i]).seen :: After(lines, run[..i]).seen[who].lines == lines
  {
    PrefixRuns(lines, run, i);
    QuietReads(lines, run[..i]);
    PrefixEnabled(lines, run, i);
    BackupCodes.WithoutTakesOne(lines, hash);
  }

  /** What the other one had been told: the first list, or what the first to finish left. */
  lemma OtherWasTold(lines: seq<string>, run: seq<Event>, b: Who, i: nat, j: nat)
    requires Runs(lines, run) && i < j < |run| && OnlyFinish(run, i, j) && run[j].Finish? && run[j].who == b
    ensures b in After(lines, run[..j]).seen
    ensures ToldBy(After(lines, run[..i + 1]), After(lines, run[..j]), b)
  {
    var before := run[..j];
    PrefixRuns(lines, run, j);
    OnlyReadsBetween(run, i, j);
    LaterReads(lines, before, i + 1, b);
    assert before[..i + 1] == run[..i + 1];
    PrefixEnabled(lines, run, j);
  }

  lemma OnlyReadsBetween(run: seq<Event>, i: nat, j: nat)
    requires i < j < |run| && OnlyFinish(run, i, j)
    ensures forall k | i + 1 <= k < |run[..j]| :: run[..j][k].Read?
  {
    forall k | i + 1 <= k < |run[..j]| ensures run[..j][k].Read? {
      assert run[k].Finish? ==> k == i || k == j;
    }
  }

  /** Of two requests with the same code, of which one copy is stored, the first is accepted,
      and so is the other if and only if it had read the account before the first finished. */
  lemma SpentTwiceIffBothReadFirst(lines: seq<string>, run: seq<Event>, a: Who, b: Who, hash: string, i: nat, j: nat)
    requires Runs(lines, run) && i < j < |run| && OnlyFinish(run, i, j) && multiset(lines)[hash] == 1
    requires run[i] == Finish(a, hash) && run[j] == Finish(b, hash)
    ensures AcceptedAt(lines, run, i)
    ensures AcceptedAt(lines, run, j) <==> Read(b) in run[..i]
  {
    FirstSpends(lines, run, i, hash);
    OtherWasTold(lines, run, b, i, j);
    TellsWhich(lines, After(lines, run[..i]), After(lines, run[..i + 1]), After(lines, run[..j]), b, hash);
    assert AcceptedAt(lines, run, j) == (hash in After(lines, run[..j]).seen[b].lines);
  }

  lemma TellsWhich(lines: seq<string>, before: State, between: State, later: State, b: Who, hash: string)
    requires hash in lines && hash !in between.lines && between.seen == before.seen
    requires b in before.seen ==> before.seen[b].lines == lines
    requires ToldBy(between, later, b) && b in later.seen
    ensures hash in later.seen[b].lines <==> b in before.seen
  {}
}

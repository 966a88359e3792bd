/** Several people deciding one access request at the same moment
    (ApproveAccessRequestWithTTL and RejectAccessRequest in pkg/auth/auth.go).

    Each of them reads the request, refuses if it is not pending, and then stores the decision
    without looking again; an approval then writes a grant.  Here the read and the rest are two
    steps, and anything may come between. */
module ApprovalRace {
  import opened Wrappers

  type Who = string

  datatype Event =
    | Read(who: Who)
    | Finish(who: Who, approves: bool) // refuse, or store the decision and write the grant
    | Expire // the store's expiry of stale pending requests
    | Delete // the request goes with its user or machine

  datatype Status = Pending | Approved | Rejected | Expired

  /** The request, what each reader was told, who has finished, and who wrote a grant. */
  datatype State = State(
    present: bool, status: Status, sawPending: map<Who, bool>, finished: set<Who>, grants: seq<Who>)

  function Init(): State {
    State(true, Pending, map[], {}, [])
  }

  /** Everybody reads once and finishes once. */
  predicate Enabled(s: State, e: Event) {
    match e
    case Read(who) => who !in s.sawPending
    case Finish(who, _) => who in s.sawPending && who !in s.finished
    case _ => true
  }

  /** A decision is stored by id, whatever the status is by then; only a request that is gone
      stops it, before the grant. */
  function Apply(s: State, e: Event): State {
    match e
    case Read(who) => s.(sawPending := s.sawPending[who := s.present && s.status == Pending])
    case Finish(who, approves) =>
      var t := s.(finished := s.finished + {who});
      if who !in s.sawPending || !s.sawPending[who] || !s.present then t
      else t.(status := if approves then Approved else Rejected,
              grants := if approves then s.grants + [who] else s.grants)
    case Expire => if s.status == Pending then s.(status := Expired) else s
    case Delete => s.(present := false)
  }

  function After(run: seq<Event>): State {
    if run == [] then Init() else Apply(After(run[..|run| - 1]), run[|run| - 1])
  }

  predicate Runs(run: seq<Event>) {
    run == [] || (Runs(run[..|run| - 1]) && Enabled(After(run[..|run| - 1]), run[|run| - 1]))
  }

  // ---------- in terms of the run alone ----------

  /** Up to n nobody has finished, and the request neither expired nor went. */
  predicate Quiet(run: seq<Event>, n: nat)
    requires n <= |run|
  {
    forall i | 0 <= i < n :: run[i].Read?
  }

  predicate NotDeleted(run: seq<Event>, n: nat)
    requires n <= |run|
  {
    forall i | 0 <= i < n :: !run[i].Delete?
  }

  /** Read the request before anything happened to it. */
  predicate ReadEarly(run: seq<Event>, who: Who) {
    exists i | 0 <= i < |run| :: run[i] == Read(who) && Quiet(run, i)
  }

  predicate ApprovedInTime(run: seq<Event>, who: Who) {
    exists j | 0 <= j < |run| :: run[j] == Finish(who, true) && NotDeleted(run, j)
  }

  predicate Described(run: seq<Event>, s: State, w: Who) {
    && (s.present <==> NotDeleted(run, |run|))
    && (s.present && s.status == Pending <==> Quiet(run, |run|))
    && (w in s.sawPending <==> Read(w) in run)
    && (w in s.sawPending ==> (s.sawPending[w] <==> ReadEarly(run, w)))
    && (ReadEarly(run, w) ==> Read(w) in run)
    && (w in s.finished ==> w in s.sawPending)
    && (ApprovedInTime(run, w) ==> w in s.finished)
    && (w in s.grants <==> ReadEarly(run, w) && ApprovedInTime(run, w))
  }

  /** One more event. */
  lemma RunGrows(run: seq<Event>, w: Who)
    requires run != []
    ensures var before, e := run[..|run| - 1], run[|run| - 1];
            && (Quiet(run, |run|) <==> Quiet(before, |before|) && e.Read?)
            && (NotDeleted(run, |run|) <==> NotDeleted(before, |before|) && !e.Delete?)
            && (ReadEarly(run, w) <==> ReadEarly(before, w) || (e == Read(w) && Quiet(before, |before|)))
            && (ApprovedInTime(run, w) <==>
                  ApprovedInTime(before, w) || (e == Finish(w, true) && NotDeleted(before, |before|)))
            && (Read(w) in run <==> Read(w) in before || e == Read(w))
  {
    var n := |run| - 1;
    var before, e := run[..n], run[n];
    assert run == before + [e];
    assert forall i | 0 <= i < n :: Quiet(run, i) <==> Quiet(before, i);
    assert forall i | 0 <= i < n :: NotDeleted(run, i) <==> NotDeleted(before, i);
    assert Quiet(run, n) <==> Quiet(before, n);
    assert NotDeleted(run, n) <==> NotDeleted(before, n);
  }

  lemma QuietReaders(run: seq<Event>, w: Who)
    requires Quiet(run, |run|) && Read(w) in run
    ensures ReadEarly(run, w)
  {
    var i :| 0 <= i < |run| && run[i] == Read(w);
    assert Quiet(run, i);
  }

  lemma StepDescribed(run: seq<Event>, s: State, w: Who)
    requires run != []
    requires var before, e := run[..|run| - 1], run[|run| - 1];
             Enabled(s, e) && Described(before, s, w) && (e.Finish? ==> Described(before, s, e.who))
    ensures Described(run, Apply(s, run[|run| - 1]), w)
  {
    var before, e := run[..|run| - 1], run[|run| - 1];
    RunGrows(run, w);
    if e.Finish? && Quiet(before, |before|) {
      QuietReaders(before, e.who);
    }
  }

  lemma {:induction false} RunIsDescribed(run: seq<Event>, w: Who)
    requires Runs(run)
    ensures Described(run, After(run), w)
  {
    if run != [] {
      var before, e := run[..|run| - 1], run[|run| - 1];
      RunIsDescribed(before, w);
      if e.Finish? {
        RunIsDescribed(before, e.who);
      }
      StepDescribed(run, After(before), w);
    }
  }

  /** Nobody writes two grants. */
  lemma {:induction false} GrantsOnce(run: seq<Event>)
    requires Runs(run)
    ensures forall w | w in After(run).grants :: w in After(run).finished
    ensures forall i, j | 0 <= i < j < |After(run).grants| :: After(run).grants[i] != After(run).grants[j]
  {
    if run != [] {
      GrantsOnce(run[..|run| - 1]);
    }
  }

  // ---------- who writes a grant ----------

  /** Exactly those who read the request before anybody had finished with it, and approved it
      before it was deleted. */
  lemma GrantsWrittenBy(run: seq<Event>, who: Who)
    requires Runs(run)
    ensures who in After(run).grants <==> ReadEarly(run, who) && ApprovedInTime(run, who)
  {
    RunIsDescribed(run, who);
  }

  /** So of two people who both approve, both write a grant if and only if both had read before
      either, or anybody else, finished; nothing is deleted here. */
  lemma BothWriteIffBothReadFirst(run: seq<Event>, a: Who, b: Who)
    requires Runs(run) && NotDeleted(run, |run|)
    requires Finish(a, true) in run && Finish(b, true) in run
    ensures a in After(run).grants && b in After(run).grants <==> ReadEarly(run, a) && ReadEarly(run, b)
  {
    RunIsDescribed(run, a);
    RunIsDescribed(run, b);
    var i :| 0 <= i < |run| && run[i] == Finish(a, true);
    var j :| 0 <= j < |run| && run[j] == Finish(b, true);
    assert NotDeleted(run, i) && NotDeleted(run, j);
  }

  // ---------- what the request says in the end ----------

  /** What the last decision to be stored was. */
  function LastDecision(run: seq<Event>): Option<bool> {
    if run == [] then None
    else
      var before, e := run[..|run| - 1], run[|run| - 1];
      if e.Finish? && ReadEarly(before, e.who) && NotDeleted(before, |before|) then Some(e.approves)
      else LastDecision(before)
  }

  /** Everybody who read early stores a decision, and the last one stands. */
  lemma {:induction false} LastDecisionStands(run: seq<Event>)
    requires Runs(run)
    ensures After(run).status == Approved <==> LastDecision(run) == Some(true)
    ensures After(run).status == Rejected <==> LastDecision(run) == Some(false)
  {
    if run != [] {
      var before, e := run[..|run| - 1], run[|run| - 1];
      LastDecisionStands(before);
      if e.Finish? {
        RunIsDescribed(before, e.who);
      }
    }
  }

  predicate OnlyFinish(run: seq<Event>, i: nat, j: nat) {
    forall k | 0 <= k < |run| && run[k].Finish? :: k == i || k == j
  }

  lemma {:induction false} LastOfTwo(run: seq<Event>, i: nat, j: nat)
    requires Runs(run) && NotDeleted(run, |run|) && OnlyFinish(run, i, j) && i < |run| && j < |run| && i != j
    requires run[i].Finish? && run[j].Finish? && ReadEarly(run, run[i].who) && ReadEarly(run, run[j].who)
    ensures LastDecision(run) == Some(run[if i < j then j else i].approves)
  {
    var n := |run| - 1;
    RunGrows(run, run[i].who);
    RunGrows(run, run[j].who);
    if run[n].Finish? {
      assert n == i || n == j;
    } else {
      LastOfTwo(run[..n], i, j);
    }
  }

  /** Whoever read late stores nothing. */
  lemma {:induction false} LastWasEarly(run: seq<Event>)
    requires Runs(run) && LastDecision(run).Some?
    ensures exists k | 0 <= k < |run| ::
              run[k].Finish? && LastDecision(run) == Some(run[k].approves) && ReadEarly(run, run[k].who)
  {
    var n := |run| - 1;
    if run[n].Finish? && ReadEarly(run[..n], run[n].who) && NotDeleted(run[..n], n) {
      RunGrows(run, run[n].who);
    } else {
      LastWasEarly(run[..n]);
      var k :| 0 <= k < n && run[k].Finish? && LastDecision(run) == Some(run[k].approves)
               && ReadEarly(run[..n], run[k].who);
      RunGrows(run, run[k].who);
    }
  }

  /** One approves and one rejects: the request ends up rejected, with a grant written for it,
      if and only if both read it first and the approval was stored before the rejection. */
  lemma RejectedWithGrantIff(run: seq<Event>, a: Who, b: Who, i: nat, j: nat)
    requires Runs(run) && NotDeleted(run, |run|) && OnlyFinish(run, i, j) && i < |run| && j < |run|
    requires run[i] == Finish(a, true) && run[j] == Finish(b, false)
    ensures After(run).status == Rejected && After(run).grants != [] <==>
            i < j && ReadEarly(run, a) && ReadEarly(run, b)
  {
    RunIsDescribed(run, a);
    LastDecisionStands(run);
    assert NotDeleted(run, i);
    if ReadEarly(run, a) && ReadEarly(run, b) {
      LastOfTwo(run, i, j);
      assert a in After(run).grants;
    } else {
      if LastDecision(run).Some? {
        LastWasEarly(run);
      }
      if After(run).grants != [] {
        var w := After(run).grants[0];
        RunIsDescribed(run, w);
        assert w in After(run).grants;
        var k :| 0 <= k < |run| && run[k] == Finish(w, true);
        assert k == i;
      }
    }
  }

  /** Everybody finishes right after reading, as when a decision is one step. */
  predicate OneByOne(run: seq<Event>) {
    forall i | 0 <= i < |run| && run[i].Read? :: i + 1 == |run| || run[i + 1].Finish?
  }

  /** Then at most one grant is written. */
  lemma OneByOneGrantsOnce(run: seq<Event>)
    requires Runs(run) && OneByOne(run)
    ensures |After(run).grants| <= 1
  {
    GrantsOnce(run);
    var grants := After(run).grants;
    forall a, b | a in grants && b in grants ensures a == b {
      RunIsDescribed(run, a);
      RunIsDescribed(run, b);
      EarlyReadersAreOne(run, a, b);
    }
    TwoDiffer(grants);
  }

  lemma TwoDiffer(grants: seq<Who>)
    requires forall i, j | 0 <= i < j < |grants| :: grants[i] != grants[j]
    ensures |grants| <= 1 || exists a, b | a in grants && b in grants :: a != b
  {
    if |grants| > 1 {
      assert grants[0] in grants && grants[1] in grants;
    }
  }

  lemma ReadAfterAnother(run: seq<Event>, i: nat, j: nat)
    requires OneByOne(run) && i < |run| && j < |run| && run[i].Read? && run[j].Read?
    ensures i < j ==> !Quiet(run, j)
  {
    if i < j {
      assert run[i + 1].Finish?;
    }
  }

  lemma EarlyReadersAreOne(run: seq<Event>, a: Who, b: Who)
    requires OneByOne(run) && ReadEarly(run, a) && ReadEarly(run, b)
    ensures a == b
  {
    var i :| 0 <= i < |run| && run[i] == Read(a) && Quiet(run, i);
    var j :| 0 <= j < |run| && run[j] == Read(b) && Quiet(run, j);
    ReadAfterAnother(run, i, j);
    ReadAfterAnother(run, j, i);
  }

  /** And two can be: both read, then both approve. */
  lemma TwoGrants()
    ensures exists run :: Runs(run) && After(run).grants == ["ann", "ben"]
  {
    var r1 := [Read("ann")];
    var r2 := r1 + [Read("ben")];
    var r3 := r2 + [Finish("ann", true)];
    var r4 := r3 + [Finish("ben", true)];
    assert "ann" != "ben";
    Next([], Read("ann"));
    Next(r1, Read("ben"));
    Next(r2, Finish("ann", true));
    Next(r3, Finish("ben", true));
    assert [] + r1 == r1;
    assert After(r4).grants == ["ann", "ben"];
  }

  lemma Next(run: seq<Event>, e: Event)
    requires Runs(run) && Enabled(After(run), e)
    ensures Runs(run + [e]) && After(run + [e]) == Apply(After(run), e)
  {
    assert (run + [e])[..|run|] == run;
  }
}

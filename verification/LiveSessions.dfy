/** The tracker of sessions in flight (internal/livesessions/livesessions.go).

    Begin and the section of Drain run under the mutex; End deletes under the mutex and
    calls Done after releasing it, so those are two steps.  Drain calls the stop functions
    one by one, outside the mutex, and then waits. */
module LiveSessions {

  type Id = string // what the caller names a session
  type Sid = nat // one accepted session, numbered in the order of acceptance

  // ---------- the struct ----------

  datatype Table = Table(closing: bool, stops: map<Id, Sid>, wg: int)

  function Registered(x: Table, id: Id, stop: Sid): Table {
    if x.closing then x else x.(stops := x.stops[id := stop], wg := x.wg + 1)
  }

  function Unregistered(x: Table, id: Id): Table {
    x.(stops := x.stops - {id})
  }

  /** The fields of the Go struct; a stop function is known by the session it ends. */
  class Tracker {
    var closing: bool
    var stops: map<Id, Sid>
    var wg: int

    function State(): Table
      reads this
    {
      Table(closing, stops, wg)
    }

    constructor ()
      ensures State() == Table(false, map[], 0)
    {
      closing, stops, wg := false, map[], 0;
    }

    method Begin(id: Id, stop: Sid) returns (accepted: bool)
      modifies this
      ensures accepted == !old(closing)
      ensures State() == Registered(old(State()), id, stop)
    {
      if closing {
        return false;
      }
      stops := stops[id := stop];
      wg := wg + 1;
      accepted := true;
    }

    /** The locked half of End. */
    method Delete(id: Id)
      modifies this
      ensures State() == Unregistered(old(State()), id)
    {
      stops := stops - {id};
    }

    /** The other half of End. */
    method Done()
      modifies this
      ensures State() == old(State()).(wg := old(wg) - 1)
    {
      wg := wg - 1;
    }

    /** The locked part of Drain: refuse new sessions and snapshot the stop functions. */
    method Close() returns (snapshot: seq<Sid>)
      modifies this
      ensures State() == old(State()).(closing := true)
      ensures forall stop :: stop in snapshot <==> stop in old(stops).Values
      ensures |snapshot| == |old(stops)|
    {
      closing := true;
      snapshot := [];
      var rest := stops.Keys;
      while rest != {}
        invariant closing && stops == old(stops) && wg == old(wg)
        invariant rest <= stops.Keys && |snapshot| + |rest| == |stops.Keys|
        invariant forall stop :: stop in snapshot <==> exists id :: id in stops.Keys - rest && stops[id] == stop
      {
        var id :| id in rest;
        snapshot := snapshot + [stops[id]];
        rest := rest - {id};
      }
    }
  }

  // ---------- runs of the whole system ----------

  datatype DrainPc =
    | Stopping(found: set<Sid>, todo: set<Sid>)
    | Waiting(found: set<Sid>)
    | Drained(found: set<Sid>) // returned nil
    | GaveUp(found: set<Sid>) // returned the context's error

  datatype State = State(
    x: Table,
    ids: seq<Id>, // every session ever accepted
    live: set<Sid>,
    ending: set<Sid>, // deleted, Done not yet called
    ended: set<Sid>,
    stopped: set<Sid>, // whose stop function a Drain has called
    drains: map<nat, DrainPc>)

  function Init(): State {
    State(Table(false, map[], 0), [], {}, {}, {}, {}, map[])
  }

  datatype Event =
    | Begin(id: Id)
    | EndDelete(sid: Sid)
    | EndDone(sid: Sid)
    | DrainStart(d: nat)
    | CallStop(d: nat, sid: Sid)
    | StopsOver(d: nat)
    | WaitOver(d: nat)
    | ContextOver(d: nat)

  predicate Enabled(s: State, e: Event) {
    match e
    case Begin(_) => true
    case EndDelete(sid) => sid in s.live && sid < |s.ids|
    case EndDone(sid) => sid in s.ending
    case DrainStart(d) => d !in s.drains
    case CallStop(d, sid) => d in s.drains && s.drains[d].Stopping? && sid in s.drains[d].todo
    case StopsOver(d) => d in s.drains && s.drains[d].Stopping? && s.drains[d].todo == {}
    case WaitOver(d) => d in s.drains && s.drains[d].Waiting? && s.x.wg == 0
    case ContextOver(d) => d in s.drains && s.drains[d].Waiting?
  }

  function Apply(s: State, e: Event): State
    requires Enabled(s, e)
  {
    match e
    case Begin(id) =>
      if s.x.closing then s
      else
        var sid := |s.ids|;
        s.(x := Registered(s.x, id, sid), ids := s.ids + [id], live := s.live + {sid})
    case EndDelete(sid) =>
      s.(x := Unregistered(s.x, s.ids[sid]), live := s.live - {sid}, ending := s.ending + {sid})
    case EndDone(sid) =>
      s.(x := s.x.(wg := s.x.wg - 1), ending := s.ending - {sid}, ended := s.ended + {sid})
    case DrainStart(d) =>
      s.(x := s.x.(closing := true), drains := s.drains[d := Stopping(s.x.stops.Values, s.x.stops.Values)])
    case CallStop(d, sid) =>
      var pc := s.drains[d];
      s.(stopped := s.stopped + {sid}, drains := s.drains[d := Stopping(pc.found, pc.todo - {sid})])
    case StopsOver(d) => s.(drains := s.drains[d := Waiting(s.drains[d].found)])
    case WaitOver(d) => s.(drains := s.drains[d := Drained(s.drains[d].found)])
    case ContextOver(d) => s.(drains := s.drains[d := GaveUp(s.drains[d].found)])
  }

  predicate Runs(s: State, run: seq<Event>)
    decreases |run|
  {
    run == [] || (Enabled(s, run[0]) && Runs(Apply(s, run[0]), run[1..]))
  }

  function After(s: State, run: seq<Event>): State
    requires Runs(s, run)
    decreases |run|
  {
    if run == [] then s else After(Apply(s, run[0]), run[1..])
  }

  /** The event does not register an id that is registered already. */
  predicate Distinct(s: State, e: Event) {
    e.Begin? && !s.x.closing ==> e.id !in s.x.stops
  }

  predicate DistinctRun(s: State, run: seq<Event>)
    requires Runs(s, run)
    decreases |run|
  {
    run == [] || (Distinct(s, run[0]) && DistinctRun(Apply(s, run[0]), run[1..]))
  }

  // ---------- invariants that hold whatever the ids ----------

  predicate Known(s: State, sid: Sid) {
    sid in s.live || sid in s.ending || sid in s.ended
  }

  ghost predicate Partitioned(s: State) {
    && (forall sid: Sid :: Known(s, sid) <==> sid < |s.ids|)
    && s.live !! s.ending && s.live !! s.ended && s.ending !! s.ended
  }

  predicate Counted(s: State) {
    s.x.wg == |s.live| + |s.ending|
  }

  predicate DrainOk(s: State, pc: DrainPc) {
    && s.x.closing
    && (if pc.Stopping? then pc.todo <= pc.found && pc.found - pc.todo <= s.stopped else pc.found <= s.stopped)
    && (pc.Drained? ==> s.live == {} && s.ending == {})
  }

  ghost predicate Inv(s: State) {
    Partitioned(s) && Counted(s) && forall d | d in s.drains :: DrainOk(s, s.drains[d])
  }

  lemma PartitionStep(s: State, e: Event)
    requires Partitioned(s) && Enabled(s, e)
    ensures Partitioned(Apply(s, e))
  {
    var s1 := Apply(s, e);
    forall sid: Sid ensures Known(s1, sid) <==> sid < |s1.ids| {
      assert Known(s, sid) <==> sid < |s.ids|;
    }
    assert !Known(s, |s.ids|);
  }

  lemma CountedStep(s: State, e: Event)
    requires Partitioned(s) && Counted(s) && Enabled(s, e)
    ensures Counted(Apply(s, e))
  {
    assert !Known(s, |s.ids|);
  }

  lemma StepInv(s: State, e: Event)
    requires Inv(s) && Enabled(s, e)
    ensures Inv(Apply(s, e))
  {
    PartitionStep(s, e);
    CountedStep(s, e);
    var s1 := Apply(s, e);
    forall d | d in s1.drains ensures DrainOk(s1, s1.drains[d]) {
      assert d in s.drains ==> DrainOk(s, s.drains[d]);
      if e.WaitOver? {
        assert s.live == {} && s.ending == {};
      }
    }
  }

  // ---------- invariants that need distinct ids ----------

  /** The table lists exactly the live sessions. */
  predicate Listed(s: State) {
    && (forall sid: Sid | sid in s.live :: sid < |s.ids| && s.ids[sid] in s.x.stops && s.x.stops[s.ids[sid]] == sid)
    && (forall id | id in s.x.stops :: s.x.stops[id] in s.live && s.x.stops[id] < |s.ids| && s.ids[s.x.stops[id]] == id)
  }

  predicate FoundAll(s: State) {
    forall d | d in s.drains :: s.live <= s.drains[d].found
  }

  lemma ListedStep(s: State, e: Event)
    requires Partitioned(s) && Listed(s) && Enabled(s, e) && Distinct(s, e)
    ensures Listed(Apply(s, e))
  {
    match e
    case Begin(id) => assert !Known(s, |s.ids|);
    case EndDelete(sid) =>
      var s1 := Apply(s, e);
      forall o: Sid | o in s1.live ensures s.ids[o] != s.ids[sid] {
        assert s.x.stops[s.ids[o]] == o;
      }
    case _ =>
  }

  lemma FoundStep(s: State, e: Event)
    requires Inv(s) && Listed(s) && FoundAll(s) && Enabled(s, e)
    ensures FoundAll(Apply(s, e))
  {
  }

  lemma {:induction false} RunInv(s: State, run: seq<Event>)
    requires Inv(s) && Runs(s, run)
    ensures Inv(After(s, run))
    ensures Listed(s) && FoundAll(s) && DistinctRun(s, run) ==> Listed(After(s, run)) && FoundAll(After(s, run))
    decreases |run|
  {
    if run != [] {
      StepInv(s, run[0]);
      if Listed(s) && FoundAll(s) && DistinctRun(s, run) {
        ListedStep(s, run[0]);
        FoundStep(s, run[0]);
      }
      RunInv(Apply(s, run[0]), run[1..]);
    }
  }

  ghost predicate Reachable(s: State) {
    exists run :: Runs(Init(), run) && After(Init(), run) == s
  }

  /** Reached by a run in which no id is registered twice at a time. */
  ghost predicate ReachableDistinct(s: State) {
    exists run :: Runs(Init(), run) && DistinctRun(Init(), run) && After(Init(), run) == s
  }

  lemma ReachableInv(s: State)
    requires Reachable(s)
    ensures Inv(s)
  {
    var run :| Runs(Init(), run) && After(Init(), run) == s;
    RunInv(Init(), run);
  }

  lemma DistinctInv(s: State)
    requires ReachableDistinct(s)
    ensures Reachable(s) && Inv(s) && Listed(s) && FoundAll(s)
  {
    var run :| Runs(Init(), run) && DistinctRun(Init(), run) && After(Init(), run) == s;
    RunInv(Init(), run);
  }

  // ---------- what the tracker promises ----------

  /** No Add follows a Wait: once a Drain waits, Begin is refused. */
  lemma NoAddAfterWait(s: State, d: nat, id: Id)
    requires Reachable(s) && d in s.drains
    ensures Apply(s, Begin(id)) == s
  {
    ReachableInv(s);
    assert DrainOk(s, s.drains[d]);
  }

  /** A waiting Drain can return nil exactly when every accepted session has ended. */
  lemma WaitOverIffAllEnded(s: State, d: nat)
    requires Reachable(s) && d in s.drains && s.drains[d].Waiting?
    ensures Enabled(s, WaitOver(d)) <==> forall sid: Sid :: sid < |s.ids| ==> sid in s.ended
  {
    ReachableInv(s);
    forall sid: Sid ensures Known(s, sid) <==> sid < |s.ids| {}
    if s.live == {} && s.ending == {} {
      forall sid: Sid | sid < |s.ids| ensures sid in s.ended {
        assert Known(s, sid);
      }
    } else {
      var sid :| sid in s.live + s.ending;
      assert Known(s, sid);
    }
  }

  /** After a Drain has returned nil nothing is in flight, and nothing is ever accepted. */
  lemma {:induction false} DrainedForever(s: State, run: seq<Event>, d: nat)
    requires Inv(s) && Runs(s, run) && d in s.drains && s.drains[d].Drained?
    ensures After(s, run).ids == s.ids && After(s, run).ended == s.ended
    ensures After(s, run).live == {} && After(s, run).ending == {}
    decreases |run|
  {
    assert DrainOk(s, s.drains[d]);
    if run != [] {
      StepInv(s, run[0]);
      DrainedForever(Apply(s, run[0]), run[1..], d);
    }
  }

  /** Past its stop calls, a Drain has stopped every session that is still live. */
  lemma EveryLiveSessionStopped(s: State, d: nat, sid: Sid)
    requires ReachableDistinct(s) && d in s.drains && !s.drains[d].Stopping? && sid in s.live
    ensures sid in s.stopped
  {
    DistinctInv(s);
    assert DrainOk(s, s.drains[d]) && s.live <= s.drains[d].found;
  }

  lemma {:induction false} SizeOfListed(stops: map<Id, Sid>, live: set<Sid>, ids: seq<Id>)
    requires forall sid: Sid | sid in live :: sid < |ids| && ids[sid] in stops && stops[ids[sid]] == sid
    requires forall id | id in stops :: stops[id] in live && stops[id] < |ids| && ids[stops[id]] == id
    ensures |stops| == |live|
    decreases |live|
  {
    if live != {} {
      var sid :| sid in live;
      SizeOfListed(stops - {ids[sid]}, live - {sid}, ids);
      assert stops.Keys == (stops - {ids[sid]}).Keys + {ids[sid]};
    } else {
      assert stops.Keys == {};
    }
  }

  predicate CountMatches(s: State) {
    s.x.wg == |s.x.stops| + |s.ending|
  }

  /** The wait count is the registered sessions plus the ends in progress. */
  lemma WaitCount(s: State)
    requires ReachableDistinct(s)
    ensures CountMatches(s)
  {
    DistinctInv(s);
    SizeOfListed(s.x.stops, s.live, s.ids);
  }

  /** The ids must be distinct for that: an accepted Begin keeps the count exactly if its
      id was not registered. */
  lemma CountNeedsDistinctIds(s: State, id: Id)
    requires ReachableDistinct(s) && !s.x.closing
    ensures CountMatches(Apply(s, Begin(id))) <==> id !in s.x.stops
  {
    WaitCount(s);
    assert Apply(s, Begin(id)).x.stops.Keys == s.x.stops.Keys + {id};
  }

  /** And exactly then does it leave the next Drain able to stop every live session. */
  lemma DuplicateIdLosesASession(s: State, id: Id, d: nat)
    requires ReachableDistinct(s) && !s.x.closing && d !in s.drains
    ensures var s2 := Apply(Apply(s, Begin(id)), DrainStart(d));
            s2.live <= s2.drains[d].found <==> id !in s.x.stops
  {
    DistinctInv(s);
    var stops := s.x.stops[id := |s.ids|];
    assert Apply(s, Begin(id)).x.stops == stops;
    if id in s.x.stops {
      var lost := s.x.stops[id];
      assert Known(s, lost);
      assert lost in s.live && lost !in stops.Values;
    } else {
      forall sid | sid in s.live ensures sid in stops.Values {
        assert stops[s.ids[sid]] == sid;
      }
      assert stops[id] == |s.ids|;
    }
  }

  // ---------- who is refused, and that a Drain comes to its end ----------

  predicate Started(run: seq<Event>) {
    exists i | 0 <= i < |run| :: run[i].DrainStart?
  }

  lemma {:induction false} ClosingOver(s: State, run: seq<Event>)
    requires Runs(s, run)
    ensures After(s, run).x.closing <==> s.x.closing || Started(run)
    decreases |run|
  {
    if run != [] {
      ClosingOver(Apply(s, run[0]), run[1..]);
      assert run == [run[0]] + run[1..];
      assert Started(run) <==> run[0].DrainStart? || Started(run[1..]) by {
        assert forall i | 0 <= i < |run[1..]| :: run[1..][i] == run[i + 1];
        assert forall i | 1 <= i < |run| :: run[i] == run[1..][i - 1];
      }
    }
  }

  /** A session is refused exactly if a Drain has begun; an accepted one is live from then on. */
  lemma RefusedIffDrainBegan(run: seq<Event>, id: Id)
    requires Runs(Init(), run)
    ensures var s := After(Init(), run);
            if Started(run) then Apply(s, Begin(id)) == s
            else |s.ids| in Apply(s, Begin(id)).live && Apply(s, Begin(id)).x.wg == s.x.wg + 1
  {
    ClosingOver(Init(), run);
  }

  /** A step that a Drain takes itself, or that ends a session; none that begins anything. */
  predicate Closes(e: Event, d: nat) {
    match e
    case EndDelete(_) => true
    case EndDone(_) => true
    case CallStop(other, _) => other == d
    case StopsOver(other) => other == d
    case WaitOver(other) => other == d
    case _ => false
  }

  function Left(s: State, d: nat): nat
    requires d in s.drains
  {
    2 * |s.live| + |s.ending| + if s.drains[d].Stopping? then |s.drains[d].todo| + 1 else 0
  }

  lemma NextClosing(s: State, d: nat) returns (e: Event)
    requires Inv(s) && d in s.drains && (s.drains[d].Stopping? || s.drains[d].Waiting?) && Left(s, d) > 0
    ensures Enabled(s, e) && Closes(e, d) && d in Apply(s, e).drains && Left(Apply(s, e), d) < Left(s, d)
    ensures Apply(s, e).drains[d].Stopping? || Apply(s, e).drains[d].Waiting?
  {
    if s.drains[d].Stopping? && s.drains[d].todo != {} {
      var sid :| sid in s.drains[d].todo;
      e := CallStop(d, sid);
      assert |s.drains[d].todo - {sid}| == |s.drains[d].todo| - 1;
    } else if s.drains[d].Stopping? {
      e := StopsOver(d);
    } else if s.ending != {} {
      var sid :| sid in s.ending;
      e := EndDone(sid);
    } else {
      var sid :| sid in s.live;
      assert Known(s, sid);
      e := EndDelete(sid);
    }
  }

  /** Whatever state it is caught in, a Drain whose context lasts can return nil, by its own stop
      calls and by the live sessions ending. */
  lemma {:induction false} DrainCanReturn(s: State, d: nat) returns (run: seq<Event>)
    requires Inv(s) && d in s.drains && (s.drains[d].Stopping? || s.drains[d].Waiting?)
    ensures Runs(s, run) && forall e | e in run :: Closes(e, d)
    ensures d in After(s, run).drains && After(s, run).drains[d].Drained?
    decreases Left(s, d)
  {
    var e, rest;
    if Left(s, d) == 0 {
      e, rest := WaitOver(d), [];
    } else {
      e := NextClosing(s, d);
      StepInv(s, e);
      rest := DrainCanReturn(Apply(s, e), d);
    }
    run := [e] + rest;
    assert run[1..] == rest;
  }

  /** And it need not wait for longer than its context. */
  lemma DrainMayGiveUp(s: State, d: nat)
    requires d in s.drains && s.drains[d].Waiting?
    ensures Enabled(s, ContextOver(d)) && Apply(s, ContextOver(d)).drains[d] == GaveUp(s.drains[d].found)
  {}
}

/** The agent's work tracker (pkg/agent/manage.go): begin, end, drain and undrain.

    Every mutex-protected section is one atomic step.  Work items carry a closer; a drain
    hands its waiter a channel that `end` closes when the last item is gone.  The waiter
    itself runs outside the mutex: it wakes on its channel or on its timer, and on its
    timer it snapshots what is left and closes it. */
module AgentWork {
  import opened Wrappers

  type Id = nat // work[next++]
  type Chan = nat // an idle channel, numbered in the order of making
  type Closer = nat

  // ---------- the struct, and what its methods do to it ----------

  datatype Work = Work(
    draining: bool,
    next: Id,
    active: map<Id, Closer>,
    idle: Option<Chan>,
    made: nat, // idle channels made so far
    closed: seq<Chan>) // idle channels closed, in order

  const Fresh: Work := Work(false, 0, map[], None, 0, [])

  function Begun(w: Work, c: Closer): Work
    requires !w.draining
  {
    w.(next := w.next + 1, active := w.active[w.next := c])
  }

  function AfterEnd(w: Work, id: Id): Work {
    var left := w.active - {id};
    if w.draining && |left| == 0 && w.idle.Some?
    then w.(active := left, idle := None, closed := w.closed + [w.idle.value])
    else w.(active := left)
  }

  function Drained(w: Work): Work {
    if |w.active| == 0 then w.(draining := true)
    else w.(draining := true, idle := Some(w.made), made := w.made + 1)
  }

  function Undrained(w: Work): Work {
    w.(draining := false, idle := None)
  }

  class Agent {
    var draining: bool
    var next: Id
    var active: map<Id, Closer>
    var idle: Option<Chan>
    var made: nat
    var closed: seq<Chan>

    function State(): Work
      reads this
    {
      Work(draining, next, active, idle, made, closed)
    }

    constructor ()
      ensures State() == Fresh
    {
      draining, next, active, idle, made, closed := false, 0, map[], None, 0, [];
    }

    /** Refuses while draining; otherwise `end` names the closure that ends this item. */
    method Begin(c: Closer) returns (end: Option<Id>)
      modifies this
      ensures old(draining) ==> end == None && State() == old(State())
      ensures !old(draining) ==> end == Some(old(next)) && State() == Begun(old(State()), c)
    {
      if draining {
        return None;
      }
      var id := next;
      next := next + 1;
      active := active[id := c];
      end := Some(id);
    }

    /** The closure begin returned for id. */
    method End(id: Id)
      modifies this
      ensures State() == AfterEnd(old(State()), id)
    {
      active := active - {id};
      if draining && |active| == 0 && idle.Some? {
        closed := closed + [idle.value];
        idle := None;
      }
    }

    /** `waitOn` is the channel the drain's waiter selects on; None when nothing runs and
        the drain is done at once. */
    method Drain() returns (waitOn: Option<Chan>)
      modifies this
      ensures State() == Drained(old(State()))
      ensures waitOn == if |old(active)| == 0 then None else Some(old(made))
    {
      draining := true;
      if |active| == 0 {
        return None;
      }
      idle := Some(made);
      waitOn := idle;
      made := made + 1;
    }

    method Undrain()
      modifies this
      ensures State() == Undrained(old(State()))
    {
      draining := false;
      idle := None;
    }

    method WorkStatus() returns (isDraining: bool, running: nat)
      ensures isDraining == State().draining && running == |State().active|
    {
      isDraining, running := draining, |active|;
    }
  }

  // ---------- runs of the whole system ----------

  /** What a drain's waiter is doing.  `found` is its snapshot when its timer fired, `left`
      what it has still to close. */
  datatype Waiter =
    | Selecting
    | Released // its channel was closed first
    | Closing(found: map<Id, Closer>, left: map<Id, Closer>)
    | TimedOut(found: map<Id, Closer>)

  /** What became of an idle channel. */
  datatype Fate = Current | Fired | Replaced | Abandoned

  datatype State = State(
    w: Work,
    waiters: map<Chan, Waiter>,
    fates: map<Chan, Fate>,
    begun: map<Id, Closer>, // every item ever begun
    shut: set<Closer>) // closers a waiter has called

  function Init(): State {
    State(Fresh, map[], map[], map[], {})
  }

  datatype Event =
    | Begin(c: Closer)
    | End(id: Id) // any end closure, called any number of times
    | Drain
    | Undrain
    | Wake(ch: Chan) // the waiter sees its channel closed
    | Timeout(ch: Chan) // the waiter's timer fires: snapshot under the mutex
    | CloseOne(ch: Chan, id: Id) // it closes one of the items it found
    | Finish(ch: Chan) // it has closed them all

  predicate Enabled(s: State, e: Event) {
    match e
    case Begin(_) => true
    case End(id) => id in s.begun
    case Drain => true
    case Undrain => true
    case Wake(ch) => ch in s.waiters && s.waiters[ch].Selecting? && ch in s.w.closed
    case Timeout(ch) => ch in s.waiters && s.waiters[ch].Selecting?
    case CloseOne(ch, id) => ch in s.waiters && s.waiters[ch].Closing? && id in s.waiters[ch].left
    case Finish(ch) => ch in s.waiters && s.waiters[ch].Closing? && s.waiters[ch].left == map[]
  }

  /** The current channel, if there is one, meets its fate. */
  function Settle(s: State, fate: Fate): map<Chan, Fate> {
    if s.w.idle.Some? then s.fates[s.w.idle.value := fate] else s.fates
  }

  function Apply(s: State, e: Event): State
    requires Enabled(s, e)
  {
    match e
    case Begin(c) =>
      if s.w.draining then s else s.(w := Begun(s.w, c), begun := s.begun[s.w.next := c])
    case End(id) =>
      var w := AfterEnd(s.w, id);
      s.(w := w, fates := if w.closed != s.w.closed then Settle(s, Fired) else s.fates)
    case Drain =>
      var w := Drained(s.w);
      if |s.w.active| == 0 then s.(w := w)
      else s.(w := w, fates := Settle(s, Replaced)[s.w.made := Current],
              waiters := s.waiters[s.w.made := Selecting])
    case Undrain => s.(w := Undrained(s.w), fates := Settle(s, Abandoned))
    case Wake(ch) => s.(waiters := s.waiters[ch := Released])
    case Timeout(ch) => s.(waiters := s.waiters[ch := Closing(s.w.active, s.w.active)])
    case CloseOne(ch, id) =>
      var x := s.waiters[ch];
      s.(waiters := s.waiters[ch := Closing(x.found, x.left - {id})], shut := s.shut + {x.left[id]})
    case Finish(ch) => s.(waiters := s.waiters[ch := TimedOut(s.waiters[ch].found)])
  }

  predicate Runs(s: State, run: seq<Event>)
    decreases |run|
  {
    run == [] || (Enabled(s, run[0]) && Runs(Apply(s, run[0]), run[1..]))
  }

  function After(s: State, run: seq<Event>): State
    requires Runs(s, run)
    decreases |run|
  {
    if run == [] then s else After(Apply(s, run[0]), run[1..])
  }

  // ---------- the inductive invariant ----------

  predicate NoRepeats(log: seq<Chan>) {
    forall i, j | 0 <= i < j < |log| :: log[i] != log[j]
  }

  predicate WorkOk(w: Work, begun: map<Id, Closer>) {
    && (w.idle.Some? <==> w.draining && w.active != map[])
    && (w.idle.Some? ==> w.idle.value + 1 == w.made && w.idle.value !in w.closed)
    && (forall ch | ch in w.closed :: ch < w.made)
    && NoRepeats(w.closed)
    && (forall id | id in w.active :: id in begun && begun[id] == w.active[id])
    && (forall id | id in begun :: id < w.next)
  }

  ghost predicate FatesOk(w: Work, fates: map<Chan, Fate>) {
    && (forall ch: Chan :: ch in fates <==> ch < w.made)
    && (forall ch | ch in fates :: fates[ch] == Current <==> w.idle == Some(ch))
    && (forall ch | ch in fates :: fates[ch] == Fired <==> ch in w.closed)
  }

  predicate ReplacedOk(w: Work, fates: map<Chan, Fate>) {
    forall ch | ch in fates :: fates[ch] == Replaced ==> ch + 1 < w.made
  }

  predicate WaiterOk(s: State, ch: Chan, x: Waiter) {
    match x
    case Selecting => true
    case Released => ch in s.w.closed
    case Closing(found, left) =>
      && (forall id | id in left :: id in found && found[id] == left[id])
      && (forall id | id in found :: id in left || found[id] in s.shut)
    case TimedOut(found) => forall id | id in found :: found[id] in s.shut
  }

  ghost predicate Inv(s: State) {
    && WorkOk(s.w, s.begun)
    && FatesOk(s.w, s.fates)
    && ReplacedOk(s.w, s.fates)
    && s.waiters.Keys == s.fates.Keys
    && (forall ch | ch in s.waiters :: WaiterOk(s, ch, s.waiters[ch]))
  }

  lemma InitInv()
    ensures Inv(Init())
  {}

  /** Removing the last item empties the map, and only that. */
  lemma LastItem(active: map<Id, Closer>, id: Id)
    ensures |active - {id}| == 0 <==> active - {id} == map[]
    ensures active - {id} == map[] <==> active.Keys <= {id}
    ensures id !in active ==> active - {id} == active
  {
    assert (active - {id}).Keys == active.Keys - {id};
  }

  lemma EndKeepsWork(w: Work, begun: map<Id, Closer>, id: Id)
    requires WorkOk(w, begun)
    ensures WorkOk(AfterEnd(w, id), begun)
    ensures id !in w.active ==> AfterEnd(w, id) == w
    ensures AfterEnd(w, id).closed ==
            if w.idle.Some? && w.active.Keys == {id} then w.closed + [w.idle.value] else w.closed
    ensures AfterEnd(w, id).idle ==
            if w.idle.Some? && w.active.Keys == {id} then None else w.idle
  {
    LastItem(w.active, id);
  }

  lemma WorkStep(s: State, e: Event)
    requires WorkOk(s.w, s.begun) && Enabled(s, e)
    ensures WorkOk(Apply(s, e).w, Apply(s, e).begun)
  {
    match e
    case End(id) => EndKeepsWork(s.w, s.begun, id);
    case Begin(c) => assert s.w.next in Begun(s.w.(draining := false), c).active;
    case _ =>
  }

  lemma SettleOk(s: State, w: Work, fate: Fate)
    requires WorkOk(s.w, s.begun) && FatesOk(s.w, s.fates) && fate != Current
    requires w.idle == None && w.made == s.w.made
    requires w.closed == if fate == Fired && s.w.idle.Some? then s.w.closed + [s.w.idle.value] else s.w.closed
    ensures FatesOk(w, Settle(s, fate))
  {
    if s.w.idle.Some? {
      assert s.w.idle.value in s.fates;
    }
  }

  lemma FatesStep(s: State, e: Event)
    requires WorkOk(s.w, s.begun) && FatesOk(s.w, s.fates) && Enabled(s, e)
    ensures FatesOk(Apply(s, e).w, Apply(s, e).fates)
  {
    match e
    case End(id) =>
      EndKeepsWork(s.w, s.begun, id);
      if AfterEnd(s.w, id).closed != s.w.closed {
        SettleOk(s, AfterEnd(s.w, id), Fired);
      }
    case Drain =>
      if |s.w.active| > 0 {
        SettleOk(s, s.w.(idle := None), Replaced);
      }
    case Undrain => SettleOk(s, Undrained(s.w), Abandoned);
    case _ =>
  }

  lemma ReplacedStep(s: State, e: Event)
    requires WorkOk(s.w, s.begun) && ReplacedOk(s.w, s.fates) && Enabled(s, e)
    ensures ReplacedOk(Apply(s, e).w, Apply(s, e).fates)
  {}

  lemma WaiterStep(s: State, e: Event, ch: Chan)
    requires Enabled(s, e) && ch in Apply(s, e).waiters
    requires ch in s.waiters ==> WaiterOk(s, ch, s.waiters[ch])
    ensures WaiterOk(Apply(s, e), ch, Apply(s, e).waiters[ch])
  {
  }

  lemma StepInv(s: State, e: Event)
    requires Inv(s) && Enabled(s, e)
    ensures Inv(Apply(s, e))
  {
    WorkStep(s, e);
    FatesStep(s, e);
    ReplacedStep(s, e);
    forall ch | ch in Apply(s, e).waiters ensures WaiterOk(Apply(s, e), ch, Apply(s, e).waiters[ch]) {
      WaiterStep(s, e, ch);
    }
  }

  lemma {:induction false} RunInv(s: State, run: seq<Event>)
    requires Inv(s) && Runs(s, run)
    ensures Inv(After(s, run))
    decreases |run|
  {
    if run != [] {
      StepInv(s, run[0]);
      RunInv(Apply(s, run[0]), run[1..]);
    }
  }

  // ---------- what the protocol promises, in every reachable state ----------

  ghost predicate Reachable(s: State) {
    exists run :: Runs(Init(), run) && After(Init(), run) == s
  }

  lemma ReachableInv(s: State)
    requires Reachable(s)
    ensures Inv(s)
  {
    var run :| Runs(Init(), run) && After(Init(), run) == s;
    InitInv();
    RunInv(Init(), run);
  }

  /** There is an idle channel exactly while a drain waits for running work. */
  lemma IdleMeansWaiting(s: State)
    requires Reachable(s)
    ensures s.w.idle.Some? <==> s.w.draining && s.w.active != map[]
  {
    ReachableInv(s);
  }

  /** No idle channel is ever closed twice: that would panic. */
  lemma ClosedOnce(s: State)
    requires Reachable(s)
    ensures NoRepeats(s.w.closed)
    ensures s.w.idle.Some? ==> s.w.idle.value !in s.w.closed
  {
    ReachableInv(s);
  }

  /** A begin that is not refused gets an id no item ever had; a refused one changes nothing. */
  lemma BeginIsFresh(s: State, c: Closer)
    requires Reachable(s)
    ensures s.w.draining ==> Apply(s, Begin(c)) == s
    ensures !s.w.draining ==> s.w.next !in s.begun && Apply(s, Begin(c)).w.active == s.w.active[s.w.next := c]
  {
    ReachableInv(s);
  }

  /** Calling an end closure again, at any later time, does nothing. */
  lemma EndAgainIsHarmless(s: State, id: Id)
    requires Reachable(s) && id in s.begun && id !in s.w.active
    ensures Apply(s, End(id)) == s
  {
    ReachableInv(s);
    EndKeepsWork(s.w, s.begun, id);
  }

  /** A channel is closed by exactly one kind of step: the end that empties the active set
      while a drain waits; and the channel is then the newest one. */
  lemma OnlyTheLastEndReleases(s: State, e: Event, ch: Chan)
    requires Reachable(s) && Enabled(s, e) && ch !in s.w.closed
    ensures ch in Apply(s, e).w.closed <==>
            s.w.idle == Some(ch) && exists id: Id :: e == End(id) && s.w.active.Keys == {id}
    ensures ch in Apply(s, e).w.closed ==> s.w.draining && ch + 1 == s.w.made
  {
    ReachableInv(s);
    if e.End? {
      EndKeepsWork(s.w, s.begun, e.id);
    }
  }

  lemma FateIsFinal(s: State, e: Event, ch: Chan)
    requires Inv(s) && Enabled(s, e) && ch in s.fates && s.fates[ch] != Current
    ensures ch in Apply(s, e).fates && Apply(s, e).fates[ch] == s.fates[ch]
  {
  }

  lemma {:induction false} FateStays(s: State, run: seq<Event>, ch: Chan)
    requires Inv(s) && Runs(s, run) && ch in s.fates && s.fates[ch] != Current
    ensures ch in After(s, run).fates && After(s, run).fates[ch] == s.fates[ch]
    decreases |run|
  {
    if run != [] {
      FateIsFinal(s, run[0], ch);
      StepInv(s, run[0]);
      FateStays(Apply(s, run[0]), run[1..], ch);
    }
  }

  /** The waiter of a drain that a second drain replaced, or that undrain abandoned, is
      never released: whatever happens next, only its timer can wake it. */
  lemma SupersededNeverReleased(s: State, run: seq<Event>, ch: Chan)
    requires Reachable(s) && Runs(s, run)
    requires ch in s.fates && (s.fates[ch] == Replaced || s.fates[ch] == Abandoned)
    ensures ch !in After(s, run).w.closed
    ensures ch in After(s, run).waiters && After(s, run).waiters[ch] != Released
  {
    ReachableInv(s);
    FateStays(s, run, ch);
    RunInv(s, run);
    assert ch in After(s, run).waiters;
  }

  /** The newest drain cannot miss the end of the work: while it drains, its channel is
      closed exactly if nothing runs, unless undrain came between. */
  lemma NewestDrainIsReleased(s: State, ch: Chan)
    requires Reachable(s) && s.w.draining && ch in s.fates && ch + 1 == s.w.made && s.fates[ch] != Abandoned
    ensures ch in s.w.closed <==> s.w.active == map[]
  {
    ReachableInv(s);
  }

  /** A waiter whose timer fired is done only once every item it found was closed. */
  lemma TimeoutClosesWhatItFound(s: State, ch: Chan, id: Id)
    requires Reachable(s) && ch in s.waiters && s.waiters[ch].TimedOut? && id in s.waiters[ch].found
    ensures s.waiters[ch].found[id] in s.shut
  {
    ReachableInv(s);
  }

  /** From a drain until the next undrain nothing begins, and work only runs out. */
  lemma {:induction false} DrainAdmitsNothing(s: State, run: seq<Event>)
    requires Runs(s, run) && s.w.draining && forall e | e in run :: !e.Undrain?
    ensures After(s, run).w.draining && After(s, run).begun == s.begun
    ensures After(s, run).w.active.Keys <= s.w.active.Keys
    decreases |run|
  {
    if run != [] {
      assert Apply(s, run[0]).w.draining && Apply(s, run[0]).begun == s.begun;
      DrainAdmitsNothing(Apply(s, run[0]), run[1..]);
    }
  }

  // ---------- what the state is, in terms of the run ----------

  /** Some drain has no undrain after it. */
  predicate DrainStands(run: seq<Event>) {
    exists i | 0 <= i < |run| :: run[i] == Drain && NoUndrain(run, i)
  }

  predicate NoUndrain(run: seq<Event>, i: int) {
    forall k | i < k < |run| && 0 <= k :: run[k] != Undrain
  }

  lemma {:induction false} DrainingOver(s: State, run: seq<Event>)
    requires Runs(s, run)
    ensures After(s, run).w.draining <==> DrainStands(run) || (s.w.draining && NoUndrain(run, -1))
    decreases |run|
  {
    if run != [] {
      var e, rest := run[0], run[1..];
      DrainingOver(Apply(s, e), rest);
      assert forall i | -1 <= i < |rest| :: NoUndrain(run, i + 1) == NoUndrain(rest, i) by {
        forall i | -1 <= i < |rest| ensures NoUndrain(run, i + 1) == NoUndrain(rest, i) {
          NoUndrainShifts(run, i);
        }
      }
      DrainStandsShifts(run);
      assert NoUndrain(run, -1) <==> e != Undrain && NoUndrain(run, 0);
    }
  }

  lemma NoUndrainShifts(run: seq<Event>, i: int)
    requires run != [] && -1 <= i
    ensures NoUndrain(run, i + 1) == NoUndrain(run[1..], i)
  {
    assert forall k | i < k < |run[1..]| && 0 <= k :: run[1..][k] == run[k + 1];
    assert forall k | i + 1 < k < |run| :: run[k] == run[1..][k - 1];
  }

  lemma DrainStandsShifts(run: seq<Event>)
    requires run != []
    ensures DrainStands(run) <==> DrainStands(run[1..]) || (run[0] == Drain && NoUndrain(run, 0))
  {
    var rest := run[1..];
    forall i | 0 <= i < |rest| ensures NoUndrain(run, i + 1) == NoUndrain(rest, i) && run[i + 1] == rest[i] {
      NoUndrainShifts(run, i);
    }
    if DrainStands(run) {
      var i :| 0 <= i < |run| && run[i] == Drain && NoUndrain(run, i);
      if i > 0 {
        assert rest[i - 1] == Drain && NoUndrain(rest, i - 1);
      }
    }
    if DrainStands(rest) {
      var i :| 0 <= i < |rest| && rest[i] == Drain && NoUndrain(rest, i);
      assert run[i + 1] == Drain && NoUndrain(run, i + 1);
    }
  }

  /** The agent refuses work exactly while some drain has no undrain after it: an undrain always
      lets work in again. */
  lemma RefusesIffDrainStands(run: seq<Event>, c: Closer)
    requires Runs(Init(), run)
    ensures var s := After(Init(), run);
            && (s.w.draining <==> DrainStands(run))
            && (Apply(s, Begin(c)) == s <==> DrainStands(run))
  {
    DrainingOver(Init(), run);
    InitInv();
    RunInv(Init(), run);
  }

  /** What runs is what was begun and has not been ended. */
  lemma {:induction false} ActiveOver(s: State, run: seq<Event>, id: Id)
    requires Inv(s) && Runs(s, run)
    ensures s.begun.Keys <= After(s, run).begun.Keys
    ensures id in After(s, run).w.active <==>
              id in After(s, run).begun && End(id) !in run && (id in s.begun ==> id in s.w.active)
    decreases |run|
  {
    if run != [] {
      var e, rest := run[0], run[1..];
      StepInv(s, e);
      ActiveOver(Apply(s, e), rest, id);
      ActiveStep(s, e, id);
      assert run == [e] + rest;
      if e == End(id) {
        EndedIsGone(s, id);
      }
    }
  }

  lemma ActiveStep(s: State, e: Event, id: Id)
    requires Inv(s) && Enabled(s, e)
    ensures s.begun.Keys <= Apply(s, e).begun.Keys
    ensures id in s.begun ==> (id in Apply(s, e).w.active <==> id in s.w.active && e != End(id))
    ensures id !in s.begun && id in Apply(s, e).begun ==> id in Apply(s, e).w.active
  {}

  lemma EndedIsGone(s: State, id: Id)
    requires Enabled(s, End(id))
    ensures id in Apply(s, End(id)).begun && id !in Apply(s, End(id)).w.active
  {}

  lemma ActiveIsBegunNotEnded(run: seq<Event>, id: Id)
    requires Runs(Init(), run)
    ensures id in After(Init(), run).w.active <==> id in After(Init(), run).begun && End(id) !in run
  {
    InitInv();
    ActiveOver(Init(), run, id);
  }

  // ---------- nobody is stuck ----------

  /** begin, drain and undrain never block, nor does ending an item; a waiter wakes when its
      channel is closed, and its timer may go off at any time before. */
  lemma NobodyBlocks(s: State, c: Closer, id: Id, ch: Chan)
    requires Reachable(s)
    ensures Enabled(s, Begin(c)) && Enabled(s, Drain) && Enabled(s, Undrain) && (id in s.begun ==> Enabled(s, End(id)))
    ensures ch in s.waiters && s.waiters[ch] == Selecting ==>
              && Enabled(s, Timeout(ch))
              && Apply(s, Timeout(ch)).waiters[ch] == Closing(s.w.active, s.w.active)
              && (Enabled(s, Wake(ch)) <==> ch in s.w.closed)
    ensures Enabled(s, Wake(ch)) ==> Apply(s, Wake(ch)).waiters[ch] == Released
  {}

  /** The closing steps of one waiter. */
  predicate OwnOf(e: Event, ch: Chan) {
    e == Finish(ch) || (e.CloseOne? && e.ch == ch)
  }

  /** A waiter whose timer went off ends by itself, in one step for every item left and one more. */
  lemma {:induction false} TimedOutWaiterEnds(s: State, ch: Chan) returns (run: seq<Event>)
    requires ch in s.waiters && s.waiters[ch].Closing?
    ensures Runs(s, run) && (forall e | e in run :: OwnOf(e, ch)) && |run| == |s.waiters[ch].left| + 1
    ensures ch in After(s, run).waiters && After(s, run).waiters[ch] == TimedOut(s.waiters[ch].found)
    decreases |s.waiters[ch].left|
  {
    var x := s.waiters[ch];
    var e, rest;
    if x.left == map[] {
      e, rest := Finish(ch), [];
    } else {
      var id := OneOf(x.left);
      e := CloseOne(ch, id);
      assert (x.left - {id}).Keys == x.left.Keys - {id};
      assert |x.left - {id}| == |(x.left - {id}).Keys| && |x.left| == |x.left.Keys|;
      rest := TimedOutWaiterEnds(Apply(s, e), ch);
    }
    run := [e] + rest;
    assert run[1..] == rest;
  }

  lemma OneOf(m: map<Id, Closer>) returns (id: Id)
    requires m != map[]
    ensures id in m
  {
    assert m.Keys != {};
    id :| id in m.Keys;
  }
}

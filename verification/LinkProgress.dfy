/** close of a gateway link (pkg/client/link.go) can always finish, and does: once it waits, the
    goroutines that are under way bring the wait group to zero by themselves, whatever state
    they were caught in and in whatever order they run. */
module LinkProgress {
  import opened Wrappers
  import opened GatewayLink
  import LinkClose

  /** A step of a goroutine that finishes what it is at: no new caller or call, no help from the
      network, no dial that succeeds and none tried again. */
  predicate OwnStep(e: Event) {
    match e
    case Env(_) => false
    case Caller(_, _) => false
    case Get(_, get) => !get.DialOk? && get != BackoffOver(true)
    case Adopt(_, adopt) => adopt != KeepaliveEnd(true)
    case Lost(_, _) => true
    case Close(_, close) => close.CloseShut?
  }

  /** An own step, or a keepalive that gives up on its connection. */
  predicate Settles(e: Event) {
    OwnStep(e) || (e.Adopt? && e.adopt.KeepaliveEnd?)
  }

  /** close has marked the link closed and cancelled its context. */
  predicate Down(s: State) {
    s.fields.closed && s.sync.lifeEnded
  }

  /** How many own steps a goroutine is from its end, with those it will start. */
  function Rank(pc: Pc): nat {
    match pc
    case GetFirst => 6
    case GetLock => 5
    case GetRecheck => 4
    case GetDial => 3
    case GetBackoff => 2
    case GetUnlock(_) => 1
    case AdoptEnter(_) => 3
    case AdoptRefuse(_) => 2
    case AdoptGo(_) => 7
    case Watching(_) => 4
    case Keepalive(_) => 1
    case LostEnter(_) => 3
    case LostClose(_, _) => 2
    case LostLife(_) => 1
    case LostGo(_) => 7
    case CloseConn(_) => 1
    case _ => 0
  }

  function RankOf(pcs: map<Tid, Pc>, t: Tid): nat {
    if t in pcs then Rank(pcs[t]) else 0
  }

  /** The ranks of threads 0 to n - 1 together. */
  function Work(pcs: map<Tid, Pc>, n: nat): nat {
    if n == 0 then 0 else Work(pcs, n - 1) + RankOf(pcs, n - 1)
  }

  lemma {:induction false} WorkUpdate(pcs: map<Tid, Pc>, t: Tid, pc: Pc, n: nat)
    ensures Work(pcs[t := pc], n) == if t < n then Work(pcs, n) - RankOf(pcs, t) + Rank(pc) else Work(pcs, n)
  {
    if n > 0 {
      WorkUpdate(pcs, t, pc, n - 1);
    }
  }

  lemma {:induction false} WorkLeft(pcs: map<Tid, Pc>, n: nat) returns (t: Tid)
    ensures Work(pcs, n) > 0 ==> t in pcs && Rank(pcs[t]) > 0
    ensures Work(pcs, n) == 0 ==> forall u: Tid | u < n :: RankOf(pcs, u) == 0
  {
    if n > 0 {
      t := WorkLeft(pcs, n - 1);
      if RankOf(pcs, n - 1) > 0 {
        t := n - 1;
      }
    } else {
      t := 0;
    }
  }

  predicate Below(pcs: map<Tid, Pc>, n: nat) {
    forall t | t in pcs :: t < n
  }

  lemma {:induction false} WorkAgrees(pcs: map<Tid, Pc>, n: nat, m: nat)
    requires Below(pcs, n) && Below(pcs, m)
    ensures Work(pcs, n) == Work(pcs, m)
    decreases n + m
  {
    if n < m {
      WorkAgrees(pcs, n, m - 1);
    } else if m < n {
      WorkAgrees(pcs, n - 1, m);
    }
  }

  // ---------- somebody can always move ----------

  /** Nothing keeps a thread at pc from its next own step. */
  predicate Movable(s: State, pc: Pc) {
    && Rank(pc) > 0
    && (pc.GetLock? ==> s.sync.dialMu == None)
    && (pc.Watching? ==> Ended(s, pc.watched))
    && (pc.Keepalive? ==> Ended(s, pc.kept))
  }

  /** Thread t is held up by u: u holds dialMu, or has yet to close the connection whose end t
      waits for. */
  predicate WaitsFor(s: State, t: Tid, u: Tid)
    requires t in s.pcs
  {
    var pc := s.pcs[t];
    || (pc.GetLock? && s.sync.dialMu == Some(u))
    || ((pc.Watching? || pc.Keepalive?) && !Ended(s, ConnOf(pc).value)
        && u in s.pcs && Handles(s.pcs[u], ConnOf(pc).value))
  }

  /** Nobody waits in a circle: a thread with something left to do can do it, or waits for one
      that can. */
  lemma SomebodyMoves(s: State, t: Tid) returns (u: Tid)
    requires Inv(s) && Down(s) && t in s.pcs && Rank(s.pcs[t]) > 0
    ensures u in s.pcs && Movable(s, s.pcs[u])
    ensures if Movable(s, s.pcs[t]) then u == t else WaitsFor(s, t, u)
  {
    var pc := s.pcs[t];
    u := t;
    if pc.GetLock? && s.sync.dialMu.Some? {
      u := s.sync.dialMu.value;
      assert Local(s, u);
    } else if (pc.Watching? || pc.Keepalive?) && !Ended(s, ConnOf(pc).value) {
      var c := ConnOf(pc).value;
      assert Local(s, t) && IsCovered(s, c);
      u :| CoveredBy(s, c, u);
    }
  }

  /** The own step of a movable thread; new goroutines are n and n + 1. */
  function NextStep(t: Tid, pc: Pc, n: nat): Event
    requires Rank(pc) > 0
  {
    match pc
    case GetFirst => Get(t, FirstLook)
    case GetLock => Get(t, Lock)
    case GetRecheck => Get(t, SecondLook)
    case GetDial => Get(t, DialFail(true))
    case GetBackoff => Get(t, BackoffOver(false))
    case GetUnlock(_) => Get(t, Unlock)
    case AdoptEnter(_) => Adopt(t, AdoptLocked)
    case AdoptRefuse(_) => Adopt(t, RefuseClose)
    case AdoptGo(_) => Adopt(t, AdoptSpawn(n, n + 1))
    case Watching(_) => Adopt(t, WatchWake)
    case Keepalive(_) => Adopt(t, KeepaliveEnd(false))
    case LostEnter(_) => Lost(t, LostLocked)
    case LostClose(_, _) => Lost(t, LostShut)
    case LostLife(_) => Lost(t, LostCheck)
    case LostGo(_) => Lost(t, LostSpawn(n))
    case CloseConn(_) => Close(t, CloseShut)
  }

  // ---------- what a step does to the work left ----------

  /** The goroutines a step starts. */
  datatype Starts = Nobody | One(t: Tid, first: Pc) | Two(k: Tid, one: Pc, w: Tid, other: Pc)

  function StartsOf(pc: Pc, e: Event): Starts {
    if e.Adopt? && e.adopt.AdoptSpawn? && pc.AdoptGo? then
      Two(e.adopt.keeper, Keepalive(pc.adopted), e.adopt.watcher, Watching(pc.adopted))
    else if e.Lost? && e.lost.LostSpawn? then
      One(e.lost.redialler, GetFirst)
    else
      Nobody
  }

  predicate Fresh(pcs: map<Tid, Pc>, starts: Starts) {
    match starts
    case Nobody => true
    case One(r, _) => r !in pcs
    case Two(k, _, w, _) => k !in pcs && w !in pcs && k != w
  }

  function Started(pcs: map<Tid, Pc>, starts: Starts): map<Tid, Pc> {
    match starts
    case Nobody => pcs
    case One(r, p) => pcs[r := p]
    case Two(k, p, w, q) => pcs[k := p][w := q]
  }

  function StartedRank(starts: Starts): nat {
    match starts
    case Nobody => 0
    case One(_, p) => Rank(p)
    case Two(_, p, _, q) => Rank(p) + Rank(q)
  }

  /** What a step that is not own may add: a call, another try at dialling, a closer's section. */
  function Brings(e: Event): nat {
    match e
    case Caller(_, CallGet) => 6
    case Caller(_, CallLost) => 3
    case Get(_, BackoffOver(true)) => 1
    case Close(_, CloseLocked) => 1
    case _ => 0
  }

  function Counted(e: Event): nat {
    if Settles(e) then 1 else 0
  }

  /** Thread t moves to where it stands in t1, starting some goroutines; a step that settles
      uses up work, and no other makes more than it brings. */
  predicate Pays(s: State, t: Tid, e: Event, s1: State)
    requires t in s.pcs
  {
    && Down(s1) && t in s1.pcs
    && Fresh(s.pcs, StartsOf(s.pcs[t], e))
    && s1.pcs == Started(s.pcs, StartsOf(s.pcs[t], e))[t := s1.pcs[t]]
    && StartedRank(StartsOf(s.pcs[t], e)) + Rank(s1.pcs[t]) + Counted(e) <= Rank(s.pcs[t]) + Brings(e)
  }

  lemma GetPays(s: State, e: Event)
    requires Down(s) && CurrentOk(s.fields, s.net, s.log) && Enabled(s, e) && (e.Get? || e.Caller?)
    ensures Pays(s, e.t, e, Apply(s, e))
  {}

  lemma AdoptPays(s: State, e: Event)
    requires Down(s) && Enabled(s, e) && e.Adopt?
    ensures Pays(s, e.t, e, Apply(s, e))
  {}

  lemma LostPays(s: State, e: Event)
    requires Down(s) && CurrentOk(s.fields, s.net, s.log) && Enabled(s, e) && e.Lost?
    ensures Pays(s, e.t, e, Apply(s, e))
  {}

  lemma ClosePays(s: State, e: Event)
    requires Down(s) && Enabled(s, e) && e.Close?
    ensures Pays(s, e.t, e, Apply(s, e))
  {}

  lemma WorkOfMove(pcs: map<Tid, Pc>, n: nat, t: Tid, starts: Starts, pc: Pc, m: nat)
    requires Below(pcs, n) && Fresh(pcs, starts) && (t in pcs || starts == Nobody)
    requires Below(Started(pcs, starts)[t := pc], m)
    ensures Work(Started(pcs, starts)[t := pc], m) + RankOf(pcs, t) == Work(pcs, n) + StartedRank(starts) + Rank(pc)
  {
    var mid := Started(pcs, starts);
    assert t in mid[t := pc] && forall u | u in pcs :: u in mid && u in mid[t := pc];
    WorkAgrees(pcs, n, m);
    WorkUpdate(mid, t, pc, m);
    match starts
    case Nobody =>
    case One(r, p) =>
      assert r in mid[t := pc];
      WorkUpdate(pcs, r, p, m);
    case Two(k, p, w, q) =>
      assert k in mid[t := pc] && w in mid[t := pc];
      WorkUpdate(pcs, k, p, m);
      WorkUpdate(pcs[k := p], w, q, m);
  }

  lemma StepPays(s: State, e: Event, n: nat) returns (m: nat)
    requires Inv(s) && Down(s) && Enabled(s, e) && Below(s.pcs, n)
    ensures Inv(Apply(s, e)) && Down(Apply(s, e)) && Below(Apply(s, e).pcs, m)
    ensures Work(Apply(s, e).pcs, m) + Counted(e) <= Work(s.pcs, n) + Brings(e)
  {
    StepInv(s, e);
    var s1 := Apply(s, e);
    m := LinkClose.FreshTid(s1.pcs);
    match e {
      case Env(NewCaller(t)) => WorkOfMove(s.pcs, n, t, Nobody, Ready, m);
      case Env(NewCloser(t)) => WorkOfMove(s.pcs, n, t, Nobody, StopLife, m);
      case Env(_) => WorkAgrees(s.pcs, n, m);
      case Get(_, _) => GetPays(s, e);
      case Caller(_, _) => GetPays(s, e);
      case Adopt(_, _) => AdoptPays(s, e);
      case Lost(_, _) => LostPays(s, e);
      case Close(_, _) => ClosePays(s, e);
    }
    if !e.Env? {
      WorkOfMove(s.pcs, n, e.t, StartsOf(s.pcs[e.t], e), s1.pcs[e.t], m);
    }
  }

  // ---------- every schedule ends ----------

  function Settled(run: seq<Event>): nat {
    if run == [] then 0 else Counted(run[0]) + Settled(run[1..])
  }

  function Brought(run: seq<Event>): nat {
    if run == [] then 0 else Brings(run[0]) + Brought(run[1..])
  }

  /** Over every run of a link that is down, whoever else takes part and in whatever order, the
      goroutines take at most as many own steps as there was work left, with what was brought. */
  lemma {:induction false} OwnStepsAreBounded(s: State, run: seq<Event>, n: nat)
    requires Inv(s) && Down(s) && Below(s.pcs, n) && Runs(s, run)
    ensures Settled(run) <= Work(s.pcs, n) + Brought(run)
    decreases |run|
  {
    if run != [] {
      var m := StepPays(s, run[0], n);
      OwnStepsAreBounded(Apply(s, run[0]), run[1..], m);
    }
  }

  lemma {:induction false} AllSettled(run: seq<Event>)
    requires forall e | e in run :: Settles(e)
    ensures Settled(run) == |run| && Brought(run) == 0
  {
    if run != [] {
      AllSettled(run[1..]);
    }
  }

  /** With no work left nobody is in the background. */
  lemma NoWorkNoBackground(s: State, n: nat)
    requires Inv(s) && Below(s.pcs, n) && Work(s.pcs, n) == 0
    ensures s.sync.background == {} && s.sync.wg == 0
  {
    var _ := WorkLeft(s.pcs, n);
    forall u ensures u !in s.sync.background {
      assert Local(s, u);
      assert u in s.pcs ==> RankOf(s.pcs, u) == 0;
    }
  }

  /** While there is work somebody can take an own step. */
  lemma OneMove(s: State, n: nat) returns (e: Event)
    requires Inv(s) && Down(s) && Below(s.pcs, n) && Work(s.pcs, n) > 0
    ensures OwnStep(e) && Enabled(s, e)
  {
    var t := WorkLeft(s.pcs, n);
    t := SomebodyMoves(s, t);
    assert Local(s, t);
    e := NextStep(t, s.pcs[t], n);
  }

  lemma WaiterStays(s: State, e: Event, t: Tid)
    requires Enabled(s, e) && Settles(e) && t in s.pcs && s.pcs[t].CloseWait?
    ensures t in Apply(s, e).pcs && Apply(s, e).pcs[t].CloseWait?
  {}

  /** A closer that waits goes on waiting while others take own steps. */
  lemma {:induction false} WaitsOn(s: State, run: seq<Event>, t: Tid)
    requires Inv(s) && Down(s) && t in s.pcs && s.pcs[t].CloseWait?
    requires Runs(s, run) && forall e | e in run :: Settles(e)
    ensures Inv(After(s, run)) && Down(After(s, run)) && t in After(s, run).pcs && After(s, run).pcs[t].CloseWait?
    decreases |run|
  {
    if run != [] {
      var n := LinkClose.FreshTid(s.pcs);
      var _ := StepPays(s, run[0], n);
      WaiterStays(s, run[0], t);
      WaitsOn(Apply(s, run[0]), run[1..], t);
    }
  }

  /** Whatever the schedule, a closer's wait comes to its end: no schedule of own steps is longer
      than the work that was left, and where one cannot go on, the wait is over. */
  lemma CloseFinishes(s: State, t: Tid, n: nat, run: seq<Event>)
    requires Reachable(s) && t in s.pcs && s.pcs[t].CloseWait? && Below(s.pcs, n)
    requires Runs(s, run) && forall e | e in run :: Settles(e)
    ensures |run| <= Work(s.pcs, n)
    ensures (exists e :: OwnStep(e) && Enabled(After(s, run), e)) || Enabled(After(s, run), Close(t, WaitOver))
  {
    ReachableInv(s);
    assert Local(s, t);
    OwnStepsAreBounded(s, run, n);
    AllSettled(run);
    WaitsOn(s, run, t);
    var m := LinkClose.FreshTid(After(s, run).pcs);
    if Work(After(s, run).pcs, m) == 0 {
      NoWorkNoBackground(After(s, run), m);
    } else {
      var e := OneMove(After(s, run), m);
    }
  }

  lemma {:induction false} RunToTheEnd(s: State, n: nat) returns (run: seq<Event>)
    requires Inv(s) && Down(s) && Below(s.pcs, n)
    ensures Runs(s, run) && After(s, run).sync.wg == 0 && forall e | e in run :: OwnStep(e)
    decreases Work(s.pcs, n)
  {
    if Work(s.pcs, n) == 0 {
      NoWorkNoBackground(s, n);
      run := [];
    } else {
      var e := OneMove(s, n);
      var m := StepPays(s, e, n);
      var rest := RunToTheEnd(Apply(s, e), m);
      run := [e] + rest;
      assert run[1..] == rest;
    }
  }

  /** From every reachable state in which a closer waits, own steps alone lead to one in which
      its wait is over. */
  lemma CloseCanFinish(s: State, t: Tid)
    requires Reachable(s) && t in s.pcs && s.pcs[t].CloseWait?
    ensures exists run: seq<Event> | Runs(s, run) ::
              (forall e | e in run :: OwnStep(e)) && Enabled(After(s, run), Close(t, WaitOver))
  {
    ReachableInv(s);
    assert Local(s, t);
    var n := LinkClose.FreshTid(s.pcs);
    var run := RunToTheEnd(s, n);
    WaitsOn(s, run, t);
    assert Enabled(After(s, run), Close(t, WaitOver));
  }
}

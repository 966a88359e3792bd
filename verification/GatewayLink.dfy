/** The connection protocol of a forward's gateway link (pkg/client/link.go).

    One SSH connection is shared by any number of callers.  Two mutexes guard it:
    `dialMu` is held for a whole dial, `mu` only for a few assignments.  Everything
    between two critical sections is an interleaving point, so the protocol is a
    transition system over thread program counters: an event is one step of one thread
    (or of the environment), and a run is any sequence of enabled events. */
module GatewayLink {
  import opened Wrappers

  type Conn = nat // a dialled connection, numbered in the order of dialling
  type Tid = nat // a goroutine

  // ---------- the fields behind mu, and the sections that change them ----------

  datatype Fields = Fields(client: Option<Conn>, closed: bool, wasUp: bool)

  function AdoptSection(f: Fields, cl: Conn): Fields {
    if f.closed then f else f.(client := Some(cl), wasUp := true)
  }

  predicate IsCurrent(f: Fields, cl: Conn) {
    f.client == Some(cl) && !f.closed
  }

  function LostSection(f: Fields, cl: Conn): Fields {
    if IsCurrent(f, cl) then f.(client := None) else f
  }

  function CloseSection(f: Fields): Fields {
    f.(closed := true, client := None)
  }

  /** The fields of the Go struct, with one method per critical section of `mu`. */
  class Link {
    var client: Option<Conn>
    var closed: bool
    var wasUp: bool

    function Snapshot(): Fields
      reads this
    {
      Fields(client, closed, wasUp)
    }

    constructor ()
      ensures Snapshot() == Init().fields
    {
      client, closed, wasUp := None, false, false;
    }

    method Current() returns (cl: Option<Conn>)
      ensures cl == Snapshot().client
    {
      cl := client;
    }

    /** The locked part of adopt; `adopted` is false when the link had closed meanwhile. */
    method Adopt(cl: Conn) returns (adopted: bool, reconnected: bool)
      modifies this
      ensures Snapshot() == AdoptSection(old(Snapshot()), cl)
      ensures adopted == !old(closed)
      ensures reconnected == (adopted && old(wasUp))
    {
      if closed {
        return false, false;
      }
      client := Some(cl);
      reconnected := wasUp;
      wasUp := true;
      adopted := true;
    }

    /** The locked part of lost. */
    method Lose(cl: Conn) returns (current: bool)
      modifies this
      ensures Snapshot() == LostSection(old(Snapshot()), cl)
      ensures current == IsCurrent(old(Snapshot()), cl)
    {
      current := client == Some(cl) && !closed;
      if current {
        client := None;
      }
    }

    /** The locked part of close; `cl` is the connection the closer must close. */
    method MarkClosed() returns (cl: Option<Conn>)
      modifies this
      ensures Snapshot() == CloseSection(old(Snapshot()))
      ensures cl == old(client)
    {
      closed := true;
      cl := client;
      client := None;
    }
  }

  // ---------- program counters ----------

  /** Where a goroutine stands: the next thing it will do. */
  datatype Pc =
    | Ready // a forwarder between two calls
    | Using(using: Conn) // a forwarder that was handed a connection
    | GetFirst // get: first look, without dialMu
    | GetLock // get: waiting for dialMu
    | GetRecheck // get: holds dialMu, second look
    | GetDial // get: dialling
    | GetBackoff // get: waiting to dial again
    | AdoptEnter(dialled: Conn) // adopt: about to take mu
    | AdoptRefuse(refused: Conn) // adopt: the link has closed, about to close the connection
    | AdoptGo(adopted: Conn) // adopt: about to start the keepalive and the watcher
    | GetUnlock(result: Option<Conn>) // get: about to release dialMu
    | Watching(watched: Conn) // watcher: waiting for the connection to end
    | Keepalive(kept: Conn) // keepalive loop
    | LostEnter(losing: Conn) // lost: about to take mu
    | LostClose(retiring: Conn, wasCurrent: bool) // lost: about to close the connection
    | LostLife(retired: Conn) // lost: retired it, about to look at the link's context
    | LostGo(announcing: Conn) // lost: about to announce and start the redial
    | StopLife // close: about to cancel the link's context
    | CloseEnter // close: about to take mu
    | CloseConn(held: Option<Conn>) // close: about to close what was current
    | CloseWait // close: waiting for background goroutines
    | Finished // the goroutine has returned

  /** Holding dialMu. */
  predicate InDial(pc: Pc) {
    pc.GetRecheck? || pc.GetDial? || pc.GetBackoff? || pc.AdoptEnter? || pc.AdoptRefuse? ||
    pc.AdoptGo? || pc.GetUnlock?
  }

  /** Past the second look that found no connection, before adopt's section. */
  predicate Dialling(pc: Pc) {
    pc.GetDial? || pc.GetBackoff? || pc.AdoptEnter?
  }

  /** The connection a program counter speaks of. */
  function ConnOf(pc: Pc): Option<Conn> {
    match pc
    case Using(c) => Some(c)
    case AdoptEnter(c) => Some(c)
    case AdoptRefuse(c) => Some(c)
    case AdoptGo(c) => Some(c)
    case GetUnlock(result) => result
    case Watching(c) => Some(c)
    case Keepalive(c) => Some(c)
    case LostEnter(c) => Some(c)
    case LostClose(c, _) => Some(c)
    case LostLife(c) => Some(c)
    case LostGo(c) => Some(c)
    case CloseConn(held) => held
    case _ => None
  }

  /** Bound to either adopt or close its connection. */
  predicate Handles(pc: Pc, c: Conn) {
    (pc.AdoptEnter? || pc.AdoptRefuse? || pc.LostClose? || pc.CloseConn?) && ConnOf(pc) == Some(c)
  }

  /** Will notice the end of connection c and try to retire it. */
  predicate Watches(pc: Pc, c: Conn) {
    (pc.AdoptGo? || pc.Watching? || pc.LostEnter?) && ConnOf(pc) == Some(c)
  }

  /** Past the section of lost that retired its connection, not yet done with it. */
  predicate Retiring(pc: Pc) {
    (pc.LostClose? && pc.wasCurrent) || pc.LostLife? || pc.LostGo?
  }

  /** Will call wg.Add without looking at the link again. */
  predicate AboutToSpawn(pc: Pc) {
    pc.AdoptGo? || pc.LostGo?
  }

  /** Where only a forwarder or a closer can stand, or nobody any more. */
  predicate Foreground(pc: Pc) {
    pc.Ready? || pc.Using? || pc.StopLife? || pc.CloseEnter? || pc.CloseConn? || pc.CloseWait? || pc.Finished?
  }

  // ---------- the transition system ----------

  /** Locks, the link's context and its WaitGroup. */
  datatype Sync = Sync(
    lifeEnded: bool, // the link's context is cancelled
    dialMu: Option<Tid>, // who holds it
    background: set<Tid>, // running goroutines the link started
    wg: int) // the WaitGroup's counter

  datatype Net = Net(
    dials: nat, // connections dialled so far: 0 .. dials - 1
    shut: set<Conn>, // Close has been called
    dropped: set<Conn>) // the network ended it

  /** What has happened, for stating the properties; no step reads it. */
  datatype Log = Log(
    adopted: set<Conn>,
    retiredBy: map<Conn, Tid>,
    announced: seq<Conn>) // "Connection to the gateway lost", in order

  datatype State = State(fields: Fields, sync: Sync, net: Net, pcs: map<Tid, Pc>, log: Log)

  function Init(): State {
    State(Fields(None, false, false), Sync(false, None, {}, 0), Net(0, {}, {}), map[], Log({}, map[], []))
  }

  datatype EnvStep =
    | NewCaller(caller: Tid) // a forwarder appears
    | NewCloser(closer: Tid) // somebody calls close
    | Drop(c: Conn) // the network ends a connection
    | EndLife // the parent context ends

  datatype CallerStep = CallGet | CallLost | Leave
  datatype GetStep =
    | FirstLook | Lock | SecondLook | DialOk | DialFail(retry: bool) | BackoffOver(again: bool) | Unlock
  datatype AdoptStep =
    | AdoptLocked | RefuseClose | AdoptSpawn(keeper: Tid, watcher: Tid) | WatchWake | KeepaliveEnd(noReply: bool)
  datatype LostStep = LostLocked | LostShut | LostCheck | LostSpawn(redialler: Tid)
  datatype CloseStep = Cancel | CloseLocked | CloseShut | WaitOver

  datatype Event =
    | Env(env: EnvStep)
    | Caller(t: Tid, call: CallerStep)
    | Get(t: Tid, get: GetStep)
    | Adopt(t: Tid, adopt: AdoptStep)
    | Lost(t: Tid, lost: LostStep)
    | Close(t: Tid, close: CloseStep)

  predicate Ended(s: State, c: Conn) {
    c in s.net.shut || c in s.net.dropped
  }

  /** Thread t moves to pc. */
  function Go(s: State, t: Tid, pc: Pc): State {
    s.(pcs := s.pcs[t := pc])
  }

  function Shut(s: State, c: Conn): State {
    s.(net := s.net.(shut := s.net.shut + {c}))
  }

  /** wg.Add(1) and the go statement. */
  function Spawn(s: State, t: Tid, pc: Pc): State {
    Go(s, t, pc).(sync := s.sync.(background := s.sync.background + {t}, wg := s.sync.wg + 1))
  }

  /** A goroutine returns from get or lost: a background one ends (its deferred wg.Done
      runs), a forwarder carries on with pc. */
  function Return(s: State, t: Tid, pc: Pc): State {
    if t in s.sync.background
    then Go(s, t, Finished).(sync := s.sync.(background := s.sync.background - {t}, wg := s.sync.wg - 1))
    else Go(s, t, pc)
  }

  function Holding(result: Option<Conn>): Pc {
    if result.Some? then Using(result.value) else Ready
  }

  predicate EnvEnabled(s: State, e: EnvStep) {
    match e
    case NewCaller(t) => t !in s.pcs
    case NewCloser(t) => t !in s.pcs
    case Drop(c) => c < s.net.dials
    case EndLife => true
  }

  function ApplyEnv(s: State, e: EnvStep): State {
    match e
    case NewCaller(t) => Go(s, t, Ready)
    case NewCloser(t) => Go(s, t, StopLife)
    case Drop(c) => s.(net := s.net.(dropped := s.net.dropped + {c}))
    case EndLife => s.(sync := s.sync.(lifeEnded := true))
  }

  predicate CallerEnabled(s: State, pc: Pc, e: CallerStep) {
    match e
    case CallGet => pc.Ready? || pc.Using?
    case CallLost => pc.Using?
    case Leave => pc.Ready? || pc.Using?
  }

  function ApplyCaller(s: State, t: Tid, pc: Pc, e: CallerStep): State
    requires CallerEnabled(s, pc, e)
  {
    match e
    case CallGet => Go(s, t, GetFirst)
    case CallLost => Go(s, t, LostEnter(pc.using))
    case Leave => Go(s, t, Finished)
  }

  predicate GetEnabled(s: State, pc: Pc, e: GetStep) {
    match e
    case FirstLook => pc.GetFirst?
    case Lock => pc.GetLock? && s.sync.dialMu == None
    case SecondLook => pc.GetRecheck?
    case DialOk => pc.GetDial?
    case DialFail(_) => pc.GetDial?
    case BackoffOver(_) => pc.GetBackoff?
    case Unlock => pc.GetUnlock?
  }

  function ApplyGet(s: State, t: Tid, pc: Pc, e: GetStep): State
    requires GetEnabled(s, pc, e)
  {
    match e
    case FirstLook =>
      if s.fields.client.Some? then Return(s, t, Using(s.fields.client.value)) else Go(s, t, GetLock)
    case Lock => Go(s, t, GetRecheck).(sync := s.sync.(dialMu := Some(t)))
    case SecondLook =>
      if s.fields.client.Some? then Go(s, t, GetUnlock(s.fields.client)) else Go(s, t, GetDial)
    case DialOk => Go(s, t, AdoptEnter(s.net.dials)).(net := s.net.(dials := s.net.dials + 1))
    case DialFail(retry) => Go(s, t, if retry then GetBackoff else GetUnlock(None))
    case BackoffOver(again) => Go(s, t, if again then GetDial else GetUnlock(None))
    case Unlock => Return(s.(sync := s.sync.(dialMu := None)), t, Holding(pc.result))
  }

  predicate AdoptEnabled(s: State, pc: Pc, e: AdoptStep) {
    match e
    case AdoptLocked => pc.AdoptEnter?
    case RefuseClose => pc.AdoptRefuse?
    case AdoptSpawn(k, w) => pc.AdoptGo? && k !in s.pcs && w !in s.pcs && k != w
    case WatchWake => pc.Watching? && Ended(s, pc.watched)
    case KeepaliveEnd(noReply) => pc.Keepalive? && (noReply || Ended(s, pc.kept))
  }

  function ApplyAdopt(s: State, t: Tid, pc: Pc, e: AdoptStep): State
    requires AdoptEnabled(s, pc, e)
  {
    match e
    case AdoptLocked =>
      if s.fields.closed then Go(s, t, AdoptRefuse(pc.dialled))
      else Go(s, t, AdoptGo(pc.dialled)).(
             fields := AdoptSection(s.fields, pc.dialled),
             log := s.log.(adopted := s.log.adopted + {pc.dialled}))
    case RefuseClose => Go(Shut(s, pc.refused), t, GetUnlock(Some(pc.refused)))
    case AdoptSpawn(k, w) =>
      Go(Spawn(Spawn(s, k, Keepalive(pc.adopted)), w, Watching(pc.adopted)), t, GetUnlock(Some(pc.adopted)))
    case WatchWake => Go(s, t, LostEnter(pc.watched))
    case KeepaliveEnd(noReply) => Return(if noReply then Shut(s, pc.kept) else s, t, Finished)
  }

  predicate LostEnabled(s: State, pc: Pc, e: LostStep) {
    match e
    case LostLocked => pc.LostEnter?
    case LostShut => pc.LostClose?
    case LostCheck => pc.LostLife?
    case LostSpawn(r) => pc.LostGo? && r !in s.pcs
  }

  function ApplyLost(s: State, t: Tid, pc: Pc, e: LostStep): State
    requires LostEnabled(s, pc, e)
  {
    match e
    case LostLocked =>
      if IsCurrent(s.fields, pc.losing)
      then Go(s, t, LostClose(pc.losing, true)).(
             fields := LostSection(s.fields, pc.losing),
             log := s.log.(retiredBy := s.log.retiredBy[pc.losing := t]))
      else Go(s, t, LostClose(pc.losing, false))
    case LostShut =>
      if pc.wasCurrent then Go(Shut(s, pc.retiring), t, LostLife(pc.retiring))
      else Return(Shut(s, pc.retiring), t, Ready)
    case LostCheck =>
      if s.sync.lifeEnded then Return(s, t, Ready) else Go(s, t, LostGo(pc.retired))
    case LostSpawn(r) =>
      Return(Spawn(s, r, GetFirst).(log := s.log.(announced := s.log.announced + [pc.announcing])), t, Ready)
  }

  predicate CloseEnabled(s: State, pc: Pc, e: CloseStep) {
    match e
    case Cancel => pc.StopLife?
    case CloseLocked => pc.CloseEnter?
    case CloseShut => pc.CloseConn?
    case WaitOver => pc.CloseWait? && s.sync.wg == 0
  }

  function ApplyClose(s: State, t: Tid, pc: Pc, e: CloseStep): State
    requires CloseEnabled(s, pc, e)
  {
    match e
    case Cancel => Go(s, t, CloseEnter).(sync := s.sync.(lifeEnded := true))
    case CloseLocked => Go(s, t, CloseConn(s.fields.client)).(fields := CloseSection(s.fields))
    case CloseShut => Go(if pc.held.Some? then Shut(s, pc.held.value) else s, t, CloseWait)
    case WaitOver => Go(s, t, Finished)
  }

  predicate Enabled(s: State, e: Event) {
    match e
    case Env(e) => EnvEnabled(s, e)
    case Caller(t, e) => t in s.pcs && CallerEnabled(s, s.pcs[t], e)
    case Get(t, e) => t in s.pcs && GetEnabled(s, s.pcs[t], e)
    case Adopt(t, e) => t in s.pcs && AdoptEnabled(s, s.pcs[t], e)
    case Lost(t, e) => t in s.pcs && LostEnabled(s, s.pcs[t], e)
    case Close(t, e) => t in s.pcs && CloseEnabled(s, s.pcs[t], e)
  }

  function Apply(s: State, e: Event): State
    requires Enabled(s, e)
  {
    match e
    case Env(e) => ApplyEnv(s, e)
    case Caller(t, e) => ApplyCaller(s, t, s.pcs[t], e)
    case Get(t, e) => ApplyGet(s, t, s.pcs[t], e)
    case Adopt(t, e) => ApplyAdopt(s, t, s.pcs[t], e)
    case Lost(t, e) => ApplyLost(s, t, s.pcs[t], e)
    case Close(t, e) => ApplyClose(s, t, s.pcs[t], e)
  }

  /** Every event of the run is enabled where it happens. */
  predicate Runs(s: State, run: seq<Event>)
    decreases |run|
  {
    run == [] || (Enabled(s, run[0]) && Runs(Apply(s, run[0]), run[1..]))
  }

  function After(s: State, run: seq<Event>): (r: State)
    requires Runs(s, run)
    decreases |run|
  {
    if run == [] then s else After(Apply(s, run[0]), run[1..])
  }

  // ---------- the inductive invariant ----------

  /** What a thread at pc may rely on about the locks. */
  predicate ThreadOk(f: Fields, y: Sync, t: Tid, pc: Pc) {
    && (InDial(pc) <==> y.dialMu == Some(t))
    && (Dialling(pc) ==> f.client == None)
    && (Foreground(pc) ==> t !in y.background)
    && (pc.CloseEnter? || pc.CloseConn? || pc.CloseWait? ==> y.lifeEnded)
    && (pc.CloseConn? || pc.CloseWait? ==> f.closed)
  }

  /** What a thread at pc may rely on about its connection. */
  predicate ConnOk(n: Net, log: Log, t: Tid, pc: Pc) {
    ConnOf(pc).Some? ==>
      var c := ConnOf(pc).value;
      && c < n.dials
      && (pc.AdoptEnter? ==> c !in log.adopted)
      && (Retiring(pc) ==> c in log.retiredBy && log.retiredBy[c] == t && c !in log.announced)
  }

  predicate LocksOk(s: State, t: Tid) {
    t in s.pcs ==> ThreadOk(s.fields, s.sync, t, s.pcs[t])
  }

  predicate ConnsOk(s: State, t: Tid) {
    t in s.pcs ==> ConnOk(s.net, s.log, t, s.pcs[t])
  }

  predicate Local(s: State, t: Tid) {
    LocksOk(s, t) && ConnsOk(s, t)
  }

  /** The locks and the WaitGroup speak of existing threads only. */
  predicate Counted(s: State) {
    && s.sync.background <= s.pcs.Keys
    && (s.sync.dialMu.Some? ==> s.sync.dialMu.value in s.pcs)
    && s.sync.wg == |s.sync.background|
  }

  /** The current connection was dialled and has not been retired. */
  predicate CurrentOk(f: Fields, n: Net, log: Log) {
    && (f.closed ==> f.client == None)
    && (f.client.Some? ==>
          && f.client.value < n.dials
          && f.client.value in log.adopted
          && f.client.value !in log.retiredBy
          && f.client.value !in log.announced)
    && n.dials !in log.adopted
  }

  predicate NoRepeats(log: seq<Conn>) {
    forall i, j | 0 <= i < j < |log| :: log[i] != log[j]
  }

  predicate LogOk(n: Net, log: Log) {
    && (forall c | c in log.adopted :: c < n.dials)
    && (forall c | c in log.retiredBy :: c in log.adopted)
    && (forall c | c in log.announced :: c in log.retiredBy)
    && NoRepeats(log.announced)
  }

  /** Connection c is closed, current, or thread u is about to adopt or close it. */
  predicate CoveredBy(s: State, c: Conn, u: Tid) {
    c in s.net.shut || s.fields.client == Some(c) || (u in s.pcs && Handles(s.pcs[u], c))
  }

  ghost predicate IsCovered(s: State, c: Conn) {
    exists u :: CoveredBy(s, c, u)
  }

  /** If c is current, thread u watches it. */
  predicate WatchedBy(s: State, c: Conn, u: Tid) {
    s.fields.client == Some(c) ==> u in s.pcs && Watches(s.pcs[u], c)
  }

  ghost predicate IsWatched(s: State, c: Conn) {
    exists u :: WatchedBy(s, c, u)
  }

  ghost predicate Inv(s: State) {
    && (forall t :: Local(s, t))
    && Counted(s)
    && CurrentOk(s.fields, s.net, s.log)
    && LogOk(s.net, s.log)
    && (forall c: Conn | c < s.net.dials :: IsCovered(s, c))
    && (forall c :: IsWatched(s, c))
  }

  lemma InitInv()
    ensures Inv(Init())
  {
    forall c: Conn ensures IsWatched(Init(), c) {
      assert WatchedBy(Init(), c, 0);
    }
  }


  // ---------- every step keeps it ----------

  lemma SpawnCounted(s: State, t: Tid, pc: Pc)
    requires Counted(s) && t !in s.pcs
    ensures Counted(Spawn(s, t, pc))
  {}

  lemma ReturnCounted(s: State, t: Tid, pc: Pc)
    requires Counted(s) && t in s.pcs
    ensures Counted(Return(s, t, pc))
  {}

  lemma GetLocks(s: State, t: Tid, e: GetStep, u: Tid)
    requires t in s.pcs && GetEnabled(s, s.pcs[t], e)
    requires Counted(s) && Local(s, t) && Local(s, u)
    ensures LocksOk(ApplyGet(s, t, s.pcs[t], e), u)
  {}

  lemma GetConns(s: State, t: Tid, e: GetStep, u: Tid)
    requires t in s.pcs && GetEnabled(s, s.pcs[t], e)
    requires CurrentOk(s.fields, s.net, s.log)
    requires Local(s, t) && Local(s, u)
    ensures ConnsOk(ApplyGet(s, t, s.pcs[t], e), u)
  {}

  lemma GetCounted(s: State, t: Tid, e: GetStep)
    requires t in s.pcs && GetEnabled(s, s.pcs[t], e)
    requires Counted(s)
    ensures Counted(ApplyGet(s, t, s.pcs[t], e))
  {}

  lemma GetLog(s: State, t: Tid, e: GetStep)
    requires t in s.pcs && GetEnabled(s, s.pcs[t], e)
    requires CurrentOk(s.fields, s.net, s.log) && LogOk(s.net, s.log) && Local(s, t)
    ensures var s1 := ApplyGet(s, t, s.pcs[t], e); CurrentOk(s1.fields, s1.net, s1.log) && LogOk(s1.net, s1.log)
  {}

  lemma GetCovers(s: State, t: Tid, e: GetStep, c: Conn, u: Tid)
    requires t in s.pcs && GetEnabled(s, s.pcs[t], e)
    requires Local(s, t)
    ensures var s1 := ApplyGet(s, t, s.pcs[t], e);
            (c < s.net.dials && CoveredBy(s, c, u)) || s.net.dials <= c < s1.net.dials ==>
              CoveredBy(s1, c, u) || CoveredBy(s1, c, t)
  {}

  lemma GetWatches(s: State, t: Tid, e: GetStep, c: Conn, u: Tid)
    requires t in s.pcs && GetEnabled(s, s.pcs[t], e)
    requires Local(s, t) && WatchedBy(s, c, u)
    ensures WatchedBy(ApplyGet(s, t, s.pcs[t], e), c, u) || WatchedBy(ApplyGet(s, t, s.pcs[t], e), c, t)
  {}

  lemma SpawnLocks(s: State, t: Tid, keeper: Tid, watcher: Tid, u: Tid)
    requires t in s.pcs && AdoptEnabled(s, s.pcs[t], AdoptSpawn(keeper, watcher))
    requires Counted(s) && LocksOk(s, t) && LocksOk(s, u)
    ensures LocksOk(ApplyAdopt(s, t, s.pcs[t], AdoptSpawn(keeper, watcher)), u)
  {}

  lemma EndLocks(s: State, t: Tid, e: AdoptStep, u: Tid)
    requires t in s.pcs && AdoptEnabled(s, s.pcs[t], e) && (e.WatchWake? || e.KeepaliveEnd?)
    requires LocksOk(s, t) && LocksOk(s, u)
    ensures LocksOk(ApplyAdopt(s, t, s.pcs[t], e), u)
  {}

  lemma AdoptLocks(s: State, t: Tid, e: AdoptStep, u: Tid)
    requires t in s.pcs && AdoptEnabled(s, s.pcs[t], e)
    requires Counted(s) && LocksOk(s, t) && LocksOk(s, u)
    ensures LocksOk(ApplyAdopt(s, t, s.pcs[t], e), u)
  {
    match e
    case AdoptSpawn(keeper, watcher) => SpawnLocks(s, t, keeper, watcher, u);
    case WatchWake => EndLocks(s, t, e, u);
    case KeepaliveEnd(_) => EndLocks(s, t, e, u);
    case _ =>
  }

  lemma AdoptConns(s: State, t: Tid, e: AdoptStep, u: Tid)
    requires t in s.pcs && AdoptEnabled(s, s.pcs[t], e)
    requires CurrentOk(s.fields, s.net, s.log)
    requires Local(s, t) && Local(s, u)
    ensures ConnsOk(ApplyAdopt(s, t, s.pcs[t], e), u)
  {}

  lemma AdoptCounted(s: State, t: Tid, e: AdoptStep)
    requires t in s.pcs && AdoptEnabled(s, s.pcs[t], e)
    requires Counted(s)
    ensures Counted(ApplyAdopt(s, t, s.pcs[t], e))
  {
    match e
    case AdoptSpawn(k, w) =>
      SpawnCounted(s, k, Keepalive(s.pcs[t].adopted));
      SpawnCounted(Spawn(s, k, Keepalive(s.pcs[t].adopted)), w, Watching(s.pcs[t].adopted));
    case KeepaliveEnd(noReply) => ReturnCounted(if noReply then Shut(s, s.pcs[t].kept) else s, t, Finished);
    case _ =>
  }

  lemma AdoptLog(s: State, t: Tid, e: AdoptStep)
    requires t in s.pcs && AdoptEnabled(s, s.pcs[t], e)
    requires CurrentOk(s.fields, s.net, s.log) && LogOk(s.net, s.log) && Local(s, t)
    ensures var s1 := ApplyAdopt(s, t, s.pcs[t], e); CurrentOk(s1.fields, s1.net, s1.log) && LogOk(s1.net, s1.log)
  {}

  lemma AdoptCovers(s: State, t: Tid, e: AdoptStep, c: Conn, u: Tid)
    requires t in s.pcs && AdoptEnabled(s, s.pcs[t], e)
    requires Local(s, t)
    ensures var s1 := ApplyAdopt(s, t, s.pcs[t], e);
            (c < s.net.dials && CoveredBy(s, c, u)) || s.net.dials <= c < s1.net.dials ==>
              CoveredBy(s1, c, u) || CoveredBy(s1, c, t)
  {}

  lemma AdoptWatches(s: State, t: Tid, e: AdoptStep, c: Conn, u: Tid)
    requires t in s.pcs && AdoptEnabled(s, s.pcs[t], e)
    requires Local(s, t) && WatchedBy(s, c, u)
    ensures var s1 := ApplyAdopt(s, t, s.pcs[t], e);
            WatchedBy(s1, c, u) || WatchedBy(s1, c, t) || (e.AdoptSpawn? && WatchedBy(s1, c, e.watcher))
  {}

  lemma RedialLocks(s: State, t: Tid, redialler: Tid, u: Tid)
    requires t in s.pcs && LostEnabled(s, s.pcs[t], LostSpawn(redialler))
    requires Counted(s) && LocksOk(s, t) && LocksOk(s, u)
    ensures LocksOk(ApplyLost(s, t, s.pcs[t], LostSpawn(redialler)), u)
  {}

  lemma RetireLocks(s: State, t: Tid, u: Tid)
    requires t in s.pcs && LostEnabled(s, s.pcs[t], LostLocked)
    requires LocksOk(s, t) && LocksOk(s, u)
    ensures LocksOk(ApplyLost(s, t, s.pcs[t], LostLocked), u)
  {}

  lemma LostLocks(s: State, t: Tid, e: LostStep, u: Tid)
    requires t in s.pcs && LostEnabled(s, s.pcs[t], e)
    requires Counted(s) && LocksOk(s, t) && LocksOk(s, u)
    ensures LocksOk(ApplyLost(s, t, s.pcs[t], e), u)
  {
    match e
    case LostLocked => RetireLocks(s, t, u);
    case LostSpawn(redialler) => RedialLocks(s, t, redialler, u);
    case _ =>
  }

  lemma LostConns(s: State, t: Tid, e: LostStep, u: Tid)
    requires t in s.pcs && LostEnabled(s, s.pcs[t], e)
    requires CurrentOk(s.fields, s.net, s.log)
    requires Local(s, t) && Local(s, u)
    ensures ConnsOk(ApplyLost(s, t, s.pcs[t], e), u)
  {
    if u in s.pcs && u != t {
      assert ApplyLost(s, t, s.pcs[t], e).pcs[u] == s.pcs[u];
    }
  }

  lemma LostCounted(s: State, t: Tid, e: LostStep)
    requires t in s.pcs && LostEnabled(s, s.pcs[t], e)
    requires Counted(s)
    ensures Counted(ApplyLost(s, t, s.pcs[t], e))
  {
    match e
    case LostShut => ReturnCounted(Shut(s, s.pcs[t].retiring), t, Ready);
    case LostCheck => ReturnCounted(s, t, Ready);
    case LostSpawn(r) =>
      SpawnCounted(s, r, GetFirst);
      var log := s.log.(announced := s.log.announced + [s.pcs[t].announcing]);
      ReturnCounted(Spawn(s, r, GetFirst).(log := log), t, Ready);
    case _ =>
  }

  lemma LostLog(s: State, t: Tid, e: LostStep)
    requires t in s.pcs && LostEnabled(s, s.pcs[t], e)
    requires CurrentOk(s.fields, s.net, s.log) && LogOk(s.net, s.log) && Local(s, t)
    ensures var s1 := ApplyLost(s, t, s.pcs[t], e); CurrentOk(s1.fields, s1.net, s1.log) && LogOk(s1.net, s1.log)
  {}

  lemma LostCovers(s: State, t: Tid, e: LostStep, c: Conn, u: Tid)
    requires t in s.pcs && LostEnabled(s, s.pcs[t], e)
    requires Local(s, t)
    ensures var s1 := ApplyLost(s, t, s.pcs[t], e);
            (c < s.net.dials && CoveredBy(s, c, u)) || s.net.dials <= c < s1.net.dials ==>
              CoveredBy(s1, c, u) || CoveredBy(s1, c, t)
  {}

  lemma LostWatches(s: State, t: Tid, e: LostStep, c: Conn, u: Tid)
    requires t in s.pcs && LostEnabled(s, s.pcs[t], e)
    requires CurrentOk(s.fields, s.net, s.log) && WatchedBy(s, c, u)
    ensures WatchedBy(ApplyLost(s, t, s.pcs[t], e), c, u) || WatchedBy(ApplyLost(s, t, s.pcs[t], e), c, t)
  {}


  lemma EnvThread(s: State, e: EnvStep, u: Tid)
    requires EnvEnabled(s, e)
    requires Counted(s) && CurrentOk(s.fields, s.net, s.log) && Local(s, u)
    ensures Local(ApplyEnv(s, e), u)
  {}

  lemma EnvGlobal(s: State, e: EnvStep)
    requires EnvEnabled(s, e)
    requires Counted(s) && CurrentOk(s.fields, s.net, s.log) && LogOk(s.net, s.log)
    ensures var s1 := ApplyEnv(s, e);
            Counted(s1) && CurrentOk(s1.fields, s1.net, s1.log) && LogOk(s1.net, s1.log)
  {}

  lemma EnvTracks(s: State, e: EnvStep, c: Conn, u: Tid)
    requires EnvEnabled(s, e)
    ensures CoveredBy(s, c, u) ==> CoveredBy(ApplyEnv(s, e), c, u)
    ensures WatchedBy(s, c, u) ==> WatchedBy(ApplyEnv(s, e), c, u)
  {}

  lemma CallerThread(s: State, t: Tid, e: CallerStep, u: Tid)
    requires t in s.pcs && CallerEnabled(s, s.pcs[t], e)
    requires Counted(s) && CurrentOk(s.fields, s.net, s.log) && Local(s, u) && Local(s, t)
    ensures Local(ApplyCaller(s, t, s.pcs[t], e), u)
  {}

  lemma CallerGlobal(s: State, t: Tid, e: CallerStep)
    requires t in s.pcs && CallerEnabled(s, s.pcs[t], e)
    requires Counted(s) && CurrentOk(s.fields, s.net, s.log) && LogOk(s.net, s.log)
    ensures var s1 := ApplyCaller(s, t, s.pcs[t], e);
            Counted(s1) && CurrentOk(s1.fields, s1.net, s1.log) && LogOk(s1.net, s1.log)
  {}

  lemma CallerTracks(s: State, t: Tid, e: CallerStep, c: Conn, u: Tid)
    requires t in s.pcs && CallerEnabled(s, s.pcs[t], e)
    ensures var s1 := ApplyCaller(s, t, s.pcs[t], e);
            CoveredBy(s, c, u) ==> CoveredBy(s1, c, u) || CoveredBy(s1, c, t)
    ensures WatchedBy(s, c, u) ==> WatchedBy(ApplyCaller(s, t, s.pcs[t], e), c, u)
  {}

  lemma CloseThread(s: State, t: Tid, e: CloseStep, u: Tid)
    requires t in s.pcs && CloseEnabled(s, s.pcs[t], e)
    requires Counted(s) && CurrentOk(s.fields, s.net, s.log) && Local(s, u) && Local(s, t)
    ensures Local(ApplyClose(s, t, s.pcs[t], e), u)
  {}

  lemma CloseGlobal(s: State, t: Tid, e: CloseStep)
    requires t in s.pcs && CloseEnabled(s, s.pcs[t], e)
    requires Counted(s) && CurrentOk(s.fields, s.net, s.log) && LogOk(s.net, s.log)
    ensures var s1 := ApplyClose(s, t, s.pcs[t], e);
            Counted(s1) && CurrentOk(s1.fields, s1.net, s1.log) && LogOk(s1.net, s1.log)
  {}

  lemma CloseTracks(s: State, t: Tid, e: CloseStep, c: Conn, u: Tid)
    requires t in s.pcs && CloseEnabled(s, s.pcs[t], e)
    ensures var s1 := ApplyClose(s, t, s.pcs[t], e);
            CoveredBy(s, c, u) ==> CoveredBy(s1, c, u) || CoveredBy(s1, c, t)
    ensures WatchedBy(s, c, u) ==> WatchedBy(ApplyClose(s, t, s.pcs[t], e), c, u)
  {}

  lemma StepThread(s: State, e: Event, u: Tid)
    requires Inv(s) && Enabled(s, e)
    ensures Local(Apply(s, e), u)
  {
    assert Local(s, u);
    match e
    case Env(e) => EnvThread(s, e, u);
    case Caller(t, e) => CallerThread(s, t, e, u);
    case Get(t, e) =>
      assert Local(s, t);
      GetLocks(s, t, e, u);
      GetConns(s, t, e, u);
    case Adopt(t, e) =>
      assert Local(s, t);
      AdoptLocks(s, t, e, u);
      AdoptConns(s, t, e, u);
    case Lost(t, e) =>
      assert Local(s, t);
      LostLocks(s, t, e, u);
      LostConns(s, t, e, u);
    case Close(t, e) => CloseThread(s, t, e, u);
  }

  lemma StepGlobal(s: State, e: Event)
    requires Inv(s) && Enabled(s, e)
    ensures var s1 := Apply(s, e);
            Counted(s1) && CurrentOk(s1.fields, s1.net, s1.log) && LogOk(s1.net, s1.log)
  {
    match e
    case Env(e) => EnvGlobal(s, e);
    case Caller(t, e) => CallerGlobal(s, t, e);
    case Get(t, e) => GetCounted(s, t, e); GetLog(s, t, e);
    case Adopt(t, e) => AdoptCounted(s, t, e); AdoptLog(s, t, e);
    case Lost(t, e) => LostCounted(s, t, e); LostLog(s, t, e);
    case Close(t, e) => CloseGlobal(s, t, e);
  }

  lemma StepCovered(s: State, e: Event, c: Conn)
    requires Inv(s) && Enabled(s, e) && c < Apply(s, e).net.dials
    ensures IsCovered(Apply(s, e), c)
  {
    assert c < s.net.dials ==> IsCovered(s, c);
    var u := if c < s.net.dials then var u :| CoveredBy(s, c, u); u else 0;
    match e
    case Env(e) => EnvTracks(s, e, c, u);
    case Caller(t, e) => CallerTracks(s, t, e, c, u);
    case Get(t, e) => GetCovers(s, t, e, c, u);
    case Adopt(t, e) => AdoptCovers(s, t, e, c, u);
    case Lost(t, e) => LostCovers(s, t, e, c, u);
    case Close(t, e) => CloseTracks(s, t, e, c, u);
  }

  lemma StepWatched(s: State, e: Event, c: Conn)
    requires Inv(s) && Enabled(s, e)
    ensures IsWatched(Apply(s, e), c)
  {
    assert IsWatched(s, c);
    var u :| WatchedBy(s, c, u);
    match e
    case Env(e) => EnvTracks(s, e, c, u);
    case Caller(t, e) => CallerTracks(s, t, e, c, u);
    case Get(t, e) => GetWatches(s, t, e, c, u);
    case Adopt(t, e) => AdoptWatches(s, t, e, c, u);
    case Lost(t, e) => LostWatches(s, t, e, c, u);
    case Close(t, e) => CloseTracks(s, t, e, c, u);
  }

  lemma StepInv(s: State, e: Event)
    requires Inv(s) && Enabled(s, e)
    ensures Inv(Apply(s, e))
  {
    forall u ensures Local(Apply(s, e), u) { StepThread(s, e, u); }
    StepGlobal(s, e);
    forall c: Conn | c < Apply(s, e).net.dials ensures IsCovered(Apply(s, e), c) { StepCovered(s, e, c); }
    forall c: Conn ensures IsWatched(Apply(s, e), c) { StepWatched(s, e, c); }
  }

  lemma {:induction false} RunInv(s: State, run: seq<Event>)
    requires Inv(s) && Runs(s, run)
    ensures Inv(After(s, run))
    decreases |run|
  {
    if run != [] {
      StepInv(s, run[0]);
      RunInv(Apply(s, run[0]), run[1..]);
    }
  }

  // ---------- what callers may rely on, in every reachable state ----------

  ghost predicate Reachable(s: State) {
    exists run :: Runs(Init(), run) && After(Init(), run) == s
  }

  lemma ReachableInv(s: State)
    requires Reachable(s)
    ensures Inv(s)
  {
    var run :| Runs(Init(), run) && After(Init(), run) == s;
    InitInv();
    RunInv(Init(), run);
  }

  /** At most one dial is in progress. */
  lemma OneDialler(s: State, t1: Tid, t2: Tid)
    requires Reachable(s)
    requires t1 in s.pcs && InDial(s.pcs[t1]) && t2 in s.pcs && InDial(s.pcs[t2])
    ensures t1 == t2
  {
    ReachableInv(s);
    assert Local(s, t1) && Local(s, t2);
  }

  /** adopt never overwrites a live connection. */
  lemma AdoptFindsNoClient(s: State, t: Tid)
    requires Reachable(s)
    requires Enabled(s, Adopt(t, AdoptLocked))
    ensures s.fields.client == None
  {
    ReachableInv(s);
    assert Local(s, t);
  }

  lemma ClosedKeepsNothing(s: State)
    requires Reachable(s)
    ensures s.fields.closed ==> s.fields.client == None
  {
    ReachableInv(s);
  }

  /** A thread between calls, or one that no longer owes any connection a Close. */
  predicate Settled(pc: Pc) {
    !pc.AdoptEnter? && !pc.AdoptRefuse? && !pc.LostClose? && !pc.CloseConn?
  }

  /** Once no thread is between a section and the Close that follows it, every connection
      ever dialled is closed, except the current one; and a closed link has no current one. */
  lemma NothingLeaks(s: State, c: Conn)
    requires Reachable(s) && c < s.net.dials
    requires forall t | t in s.pcs :: Settled(s.pcs[t])
    ensures c in s.net.shut || s.fields.client == Some(c)
    ensures s.fields.closed ==> c in s.net.shut
  {
    ReachableInv(s);
    assert IsCovered(s, c);
  }

  /** A current connection that has ended is always noticed: some thread will try to
      retire it, and none of the three places it can stand at is blocked. */
  lemma EndIsNoticed(s: State, c: Conn)
    requires Reachable(s) && s.fields.client == Some(c) && Ended(s, c)
    ensures exists t | t in s.pcs ::
              s.pcs[t] == AdoptGo(c) || Enabled(s, Adopt(t, WatchWake)) || Enabled(s, Lost(t, LostLocked))
  {
    ReachableInv(s);
    assert IsWatched(s, c);
    var u :| WatchedBy(s, c, u);
    assert s.pcs[u] == AdoptGo(c) || Enabled(s, Adopt(u, WatchWake)) || Enabled(s, Lost(u, LostLocked));
  }

  // ---------- loss is announced at most once ----------

  /** The step is the section of lost that retires c. */
  predicate Retires(s: State, e: Event, c: Conn) {
    Enabled(s, e) && e.Lost? && e.lost.LostLocked? && s.pcs[e.t] == LostEnter(c) && IsCurrent(s.fields, c)
  }

  predicate Announces(s: State, e: Event, c: Conn) {
    Enabled(s, e) && e.Lost? && e.lost.LostSpawn? && s.pcs[e.t] == LostGo(c)
  }

  function Retirements(s: State, run: seq<Event>, c: Conn): nat
    requires Runs(s, run)
    decreases |run|
  {
    if run == [] then 0
    else (if Retires(s, run[0], c) then 1 else 0) + Retirements(Apply(s, run[0]), run[1..], c)
  }

  function Announcements(s: State, run: seq<Event>, c: Conn): nat
    requires Runs(s, run)
    decreases |run|
  {
    if run == [] then 0
    else (if Announces(s, run[0], c) then 1 else 0) + Announcements(Apply(s, run[0]), run[1..], c)
  }

  lemma LostRetires(s: State, t: Tid, e: LostStep, c: Conn)
    requires t in s.pcs && LostEnabled(s, s.pcs[t], e)
    requires CurrentOk(s.fields, s.net, s.log) && Local(s, t)
    ensures var r := e.LostLocked? && s.pcs[t] == LostEnter(c) && IsCurrent(s.fields, c);
            (c in ApplyLost(s, t, s.pcs[t], e).log.retiredBy <==> c in s.log.retiredBy || r) &&
            (r ==> c !in s.log.retiredBy)
    ensures var a := e.LostSpawn? && s.pcs[t] == LostGo(c);
            (c in ApplyLost(s, t, s.pcs[t], e).log.announced <==> c in s.log.announced || a) &&
            (a ==> c in s.log.retiredBy && c !in s.log.announced)
  {}

  lemma RetireStep(s: State, e: Event, c: Conn)
    requires Inv(s) && Enabled(s, e)
    ensures c in Apply(s, e).log.retiredBy <==> c in s.log.retiredBy || Retires(s, e, c)
    ensures Retires(s, e, c) ==> c !in s.log.retiredBy
    ensures c in Apply(s, e).log.announced <==> c in s.log.announced || Announces(s, e, c)
    ensures Announces(s, e, c) ==> c in s.log.retiredBy && c !in s.log.announced
  {
    match e
    case Lost(t, e) =>
      assert Local(s, t);
      LostRetires(s, t, e, c);
    case _ =>
  }

  lemma {:induction false} RetiredOnceFrom(s: State, run: seq<Event>, c: Conn)
    requires Inv(s) && Runs(s, run)
    ensures Retirements(s, run, c) <= (if c in s.log.retiredBy then 0 else 1)
    ensures Announcements(s, run, c) <= (if c in s.log.announced then 0 else 1)
    ensures c !in s.log.retiredBy ==> Announcements(s, run, c) <= Retirements(s, run, c)
    decreases |run|
  {
    if run != [] {
      StepInv(s, run[0]);
      RetireStep(s, run[0], c);
      RetiredOnceFrom(Apply(s, run[0]), run[1..], c);
    }
  }

  /** Over any run each connection is retired by at most one lost, and its loss is
      announced at most once, and only if it was retired. */
  lemma RetiredOnce(run: seq<Event>, c: Conn)
    requires Runs(Init(), run)
    ensures Announcements(Init(), run, c) <= Retirements(Init(), run, c) <= 1
  {
    InitInv();
    RetiredOnceFrom(Init(), run, c);
  }
}

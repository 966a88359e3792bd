/** What close of a gateway link waits for (pkg/client/link.go), and what may still start after
    it. */
module LinkClose {
  import opened Wrappers
  import opened GatewayLink

  ghost predicate NobodySpawns(s: State) {
    forall t | t in s.pcs :: !AboutToSpawn(s.pcs[t])
  }

  /** close has returned from its wait: the link is closed, and no goroutine counted in the wait
      group is running. */
  predicate Waited(s: State) {
    s.fields.closed && s.sync.lifeEnded && s.sync.background == {}
  }

  /** When close's wait is over, no goroutine counted in the wait group is running.  The two that
      a keepalive starts for its own use are not counted. */
  lemma WaitFindsNone(s: State, t: Tid)
    requires Reachable(s) && Enabled(s, Close(t, WaitOver))
    ensures Waited(Apply(s, Close(t, WaitOver)))
  {
    ReachableInv(s);
    assert Local(s, t);
  }

  lemma QuietStep(s: State, e: Event)
    requires Inv(s) && Waited(s) && NobodySpawns(s) && Enabled(s, e)
    ensures Waited(Apply(s, e)) && NobodySpawns(Apply(s, e))
  {
    assert e.Env? || Local(s, e.t);
  }

  lemma {:induction false} QuietForever(s: State, run: seq<Event>)
    requires Inv(s) && Waited(s) && NobodySpawns(s) && Runs(s, run)
    ensures After(s, run).sync.background == {}
    decreases |run|
  {
    if run != [] {
      QuietStep(s, run[0]);
      StepInv(s, run[0]);
      QuietForever(Apply(s, run[0]), run[1..]);
    }
  }

  lemma FreshTid(pcs: map<Tid, Pc>) returns (t: Tid)
    ensures forall u | u in pcs :: u < t
  {
    t := 0;
    var rest := pcs.Keys;
    while rest != {}
      invariant rest <= pcs.Keys && forall u | u in pcs :: u < t || u in rest
      decreases |rest|
    {
      var u :| u in rest;
      rest := rest - {u};
      t := if u < t then t else u + 1;
    }
  }

  lemma SpawnAhead(s: State, t: Tid) returns (e: Event)
    requires Inv(s) && t in s.pcs && AboutToSpawn(s.pcs[t])
    ensures Enabled(s, e) && Apply(s, e).sync.background != {}
  {
    var u := FreshTid(s.pcs);
    if s.pcs[t].AdoptGo? {
      e := Adopt(t, AdoptSpawn(u, u + 1));
    } else {
      e := Lost(t, LostSpawn(u));
    }
    assert u in Apply(s, e).sync.background;
  }

  /** close promises to wait for the background goroutines.  Once its wait is over, the
      promise holds for ever exactly if no thread stood between adopt's or lost's section
      and the wg.Add that follows it. */
  lemma CloseWaitedForAll(s: State)
    requires Reachable(s) && Waited(s)
    ensures (forall run | Runs(s, run) :: After(s, run).sync.background == {}) <==> NobodySpawns(s)
  {
    ReachableInv(s);
    if NobodySpawns(s) {
      forall run | Runs(s, run) ensures After(s, run).sync.background == {} {
        QuietForever(s, run);
      }
    } else {
      var t :| t in s.pcs && AboutToSpawn(s.pcs[t]);
      var e := SpawnAhead(s, t);
      assert Runs(s, []) && After(s, []) == s;
      Extend(s, [], e);
      var run := [] + [e];
      assert Runs(s, run) && After(s, run).sync.background != {};
    }
  }

  /** Nobody but the link's own goroutines and closers is at work. */
  predicate CallersGone(s: State) {
    forall t | t in s.pcs :: t in s.sync.background || Closing(s.pcs[t])
  }

  predicate Closing(pc: Pc) {
    pc.StopLife? || pc.CloseEnter? || pc.CloseConn? || pc.CloseWait? || pc.Finished?
  }

  predicate BringsCaller(e: Event) {
    e.Env? && e.env.NewCaller?
  }

  lemma GoneStep(s: State, e: Event)
    requires Inv(s) && CallersGone(s) && Enabled(s, e) && !BringsCaller(e)
    ensures CallersGone(Apply(s, e))
  {
    assert e.Env? || Local(s, e.t);
  }

  lemma {:induction false} GoneStays(s: State, run: seq<Event>)
    requires Inv(s) && CallersGone(s) && Runs(s, run) && forall e | e in run :: !BringsCaller(e)
    ensures CallersGone(After(s, run))
    decreases |run|
  {
    if run != [] {
      GoneStep(s, run[0]);
      StepInv(s, run[0]);
      GoneStays(Apply(s, run[0]), run[1..]);
    }
  }

  /** What a caller of close can do about it: if every other caller has left before, and none
      comes while it closes, then once it has waited no counted goroutine ever runs again. */
  lemma CloseAfterCallersIsComplete(s: State, run: seq<Event>, later: seq<Event>)
    requires Reachable(s) && CallersGone(s) && Runs(s, run) && forall e | e in run :: !BringsCaller(e)
    requires Waited(After(s, run)) && Runs(After(s, run), later)
    ensures After(After(s, run), later).sync.background == {}
  {
    ReachableInv(s);
    GoneStays(s, run);
    RunInv(s, run);
    var t := After(s, run);
    assert NobodySpawns(t) by {
      assert forall u | u in t.pcs :: Closing(t.pcs[u]);
    }
    QuietForever(t, later);
  }

  lemma {:induction false} Extend(s: State, run: seq<Event>, e: Event)
    requires Runs(s, run) && Enabled(After(s, run), e)
    ensures Runs(s, run + [e]) && After(s, run + [e]) == Apply(After(s, run), e)
    decreases |run|
  {
    if run == [] {
      assert ([] + [e])[1..] == [];
      assert Runs(Apply(s, e), []);
    } else {
      Extend(Apply(s, run[0]), run[1..], e);
      assert (run + [e])[1..] == run[1..] + [e];
    }
  }

  lemma ReachableStep(s: State, e: Event)
    requires Reachable(s) && Enabled(s, e)
    ensures Reachable(Apply(s, e))
  {
    var run :| Runs(Init(), run) && After(Init(), run) == s;
    Extend(Init(), run, e);
  }

  lemma ReachableInit()
    ensures Reachable(Init())
  {
    assert Runs(Init(), []) && After(Init(), []) == Init();
  }

  lemma AdoptedButUnwatched() returns (s: State)
    ensures Reachable(s)
    ensures s.pcs == map[0 := AdoptGo(0)] && s.sync == Sync(false, Some(0), {}, 0)
    ensures s.fields == Fields(Some(0), false, true) && s.net == Net(1, {}, {})
  {
    s := Init();
    ReachableInit();
    ReachableStep(s, Env(NewCaller(0))); s := Apply(s, Env(NewCaller(0)));
    ReachableStep(s, Caller(0, CallGet)); s := Apply(s, Caller(0, CallGet));
    ReachableStep(s, Get(0, FirstLook)); s := Apply(s, Get(0, FirstLook));
    ReachableStep(s, Get(0, Lock)); s := Apply(s, Get(0, Lock));
    ReachableStep(s, Get(0, SecondLook)); s := Apply(s, Get(0, SecondLook));
    ReachableStep(s, Get(0, DialOk)); s := Apply(s, Get(0, DialOk));
    ReachableStep(s, Adopt(0, AdoptLocked)); s := Apply(s, Adopt(0, AdoptLocked));
  }

  /** And a thread can stand there: forwarder 0 has adopted its connection but not yet
      started the watchers when closer 1 runs close from beginning to end. */
  lemma CloseCanOutrunAdopt() returns (s: State)
    ensures Reachable(s) && Waited(s) && !NobodySpawns(s)
    ensures s.pcs == map[0 := AdoptGo(0), 1 := Finished]
  {
    s := AdoptedButUnwatched();
    ReachableStep(s, Env(NewCloser(1))); s := Apply(s, Env(NewCloser(1)));
    ReachableStep(s, Close(1, Cancel)); s := Apply(s, Close(1, Cancel));
    ReachableStep(s, Close(1, CloseLocked)); s := Apply(s, Close(1, CloseLocked));
    ReachableStep(s, Close(1, CloseShut)); s := Apply(s, Close(1, CloseShut));
    ReachableStep(s, Close(1, WaitOver)); s := Apply(s, Close(1, WaitOver));
    assert AboutToSpawn(s.pcs[0]);
  }
}

/** What get of a gateway link hands its caller, and what becomes of a connection that was lost
    (pkg/client/link.go), over every run. */
module LinkGet {
  import opened Wrappers
  import opened GatewayLink

  // ---------- what a call of get found ----------

  /** What a thread's latest call of get has come to. */
  datatype Finding =
    | Looking
    | FoundCurrent(c: Conn) // at one of its two looks
    | Dialled(c: Conn) // by itself
    | GaveUp // it could not dial, or stopped waiting to

  /** Told from the events of the run and what the link held when they happened. */
  function Find(s: State, e: Event, t: Tid, f: Finding): Finding {
    if e == Get(t, FirstLook) then
      if s.fields.client.Some? then FoundCurrent(s.fields.client.value) else Looking
    else if e == Get(t, SecondLook) && s.fields.client.Some? then FoundCurrent(s.fields.client.value)
    else if e == Get(t, DialOk) then Dialled(s.net.dials)
    else if e == Get(t, DialFail(false)) || e == Get(t, BackoffOver(false)) then GaveUp
    else f
  }

  function FindOver(s: State, run: seq<Event>, t: Tid, f: Finding): Finding
    requires Runs(s, run)
    decreases |run|
  {
    if run == [] then f else FindOver(Apply(s, run[0]), run[1..], t, Find(s, run[0], t, f))
  }

  /** What thread t's latest call of get found, in a run from the start. */
  function Found(run: seq<Event>, t: Tid): Finding
    requires Runs(Init(), run)
  {
    FindOver(Init(), run, t, Looking)
  }

  predicate InCall(pc: Pc) {
    pc.GetLock? || pc.GetRecheck? || pc.GetDial? || pc.GetBackoff?
  }

  /** What a thread inside get goes by is what it found. */
  predicate FindsOk(s: State, t: Tid, f: Finding) {
    t in s.pcs ==>
      var pc := s.pcs[t];
      && (InCall(pc) ==> f == Looking)
      && (pc.AdoptEnter? || pc.AdoptRefuse? || pc.AdoptGo? ==> f == Dialled(ConnOf(pc).value))
      && (pc.GetUnlock? && pc.result == None ==> f == GaveUp)
      && (pc.GetUnlock? && pc.result.Some? ==> f == FoundCurrent(pc.result.value) || f == Dialled(pc.result.value))
  }

  lemma FindsGet(s: State, e: Event, t: Tid, f: Finding)
    requires FindsOk(s, t, f) && Enabled(s, e) && e.Get?
    ensures FindsOk(Apply(s, e), t, Find(s, e, t, f))
  {}

  lemma FindsAdopt(s: State, e: Event, t: Tid, f: Finding)
    requires FindsOk(s, t, f) && Enabled(s, e) && e.Adopt?
    ensures FindsOk(Apply(s, e), t, Find(s, e, t, f))
  {}

  lemma FindsOther(s: State, e: Event, t: Tid, f: Finding)
    requires FindsOk(s, t, f) && Enabled(s, e) && !e.Get? && !e.Adopt?
    ensures FindsOk(Apply(s, e), t, Find(s, e, t, f))
  {}

  lemma FindsStep(s: State, e: Event, t: Tid, f: Finding)
    requires FindsOk(s, t, f) && Enabled(s, e)
    ensures FindsOk(Apply(s, e), t, Find(s, e, t, f))
  {
    if e.Get? {
      FindsGet(s, e, t, f);
    } else if e.Adopt? {
      FindsAdopt(s, e, t, f);
    } else {
      FindsOther(s, e, t, f);
    }
  }

  lemma {:induction false} FindsOver(s: State, run: seq<Event>, t: Tid, f: Finding)
    requires FindsOk(s, t, f) && Runs(s, run)
    ensures FindsOk(After(s, run), t, FindOver(s, run, t, f))
    decreases |run|
  {
    if run != [] {
      FindsStep(s, run[0], t, f);
      FindsOver(Apply(s, run[0]), run[1..], t, Find(s, run[0], t, f));
    }
  }

  // ---------- what get hands over ----------

  /** The step with which a forwarder's call of get returns: the first look, if it finds a
      connection, or giving back dialMu. */
  predicate Returns(s: State, e: Event, t: Tid) {
    t in s.pcs && t !in s.sync.background &&
    (e == Get(t, Unlock) || (e == Get(t, FirstLook) && s.fields.client.Some?))
  }

  /** Whenever a forwarder's call of get returns, it is handed the connection that it found
      current or dialled in that call; it is handed none exactly if it gave up dialling. */
  lemma GetHandsWhatItFound(run: seq<Event>, e: Event, t: Tid)
    requires Runs(Init(), run) && Enabled(After(Init(), run), e) && Returns(After(Init(), run), e, t)
    ensures var s := After(Init(), run);
            var f := Find(s, e, t, Found(run, t));
            && f != Looking && t in Apply(s, e).pcs
            && Apply(s, e).pcs[t] == if f == GaveUp then Ready else Using(f.c)
  {
    FindsOver(Init(), run, t, Looking);
    var s := After(Init(), run);
    FindsStep(s, e, t, Found(run, t));
  }

  /** Since its latest first look the thread took that step. */
  predicate SinceFirstLook(run: seq<Event>, t: Tid, step: GetStep) {
    exists j | 0 <= j < |run| :: run[j] == Get(t, step) && NoFirstLook(run, j, t)
  }

  predicate NoFirstLook(run: seq<Event>, j: int, t: Tid) {
    forall k | 0 <= k < |run| && j < k :: run[k] != Get(t, FirstLook)
  }

  lemma {:induction false} GaveUpByFailing(s: State, run: seq<Event>, t: Tid, f: Finding)
    requires Runs(s, run) && FindOver(s, run, t, f) == GaveUp
    ensures SinceFirstLook(run, t, DialFail(false)) || SinceFirstLook(run, t, BackoffOver(false)) ||
            (f == GaveUp && NoFirstLook(run, -1, t))
    decreases |run|
  {
    if run != [] {
      var rest, e := run[1..], run[0];
      var f1 := Find(s, e, t, f);
      GaveUpByFailing(Apply(s, e), rest, t, f1);
      if SinceFirstLook(rest, t, DialFail(false)) {
        Shifted(run, t, DialFail(false));
      }
      if SinceFirstLook(rest, t, BackoffOver(false)) {
        Shifted(run, t, BackoffOver(false));
      }
      if NoFirstLook(rest, -1, t) && f1 == GaveUp {
        assert forall k | 1 <= k < |run| :: run[k] == rest[k - 1];
        assert NoFirstLook(run, 0, t);
      }
    }
  }

  lemma Shifted(run: seq<Event>, t: Tid, step: GetStep)
    requires run != [] && SinceFirstLook(run[1..], t, step)
    ensures SinceFirstLook(run, t, step)
  {
    var j :| 0 <= j < |run[1..]| && run[1..][j] == Get(t, step) && NoFirstLook(run[1..], j, t);
    assert forall k | j + 1 < k < |run| :: run[k] == run[1..][k - 1];
    assert run[j + 1] == Get(t, step) && NoFirstLook(run, j + 1, t);
  }

  /** So a call that hands over nothing had a dial that failed for good, or stopped waiting to
      dial again. */
  lemma EmptyHandedMeansGaveUp(run: seq<Event>, t: Tid)
    requires Runs(Init(), run) && Enabled(After(Init(), run), Get(t, Unlock))
    requires Returns(After(Init(), run), Get(t, Unlock), t)
    requires t in Apply(After(Init(), run), Get(t, Unlock)).pcs
    requires Apply(After(Init(), run), Get(t, Unlock)).pcs[t] == Ready
    ensures SinceFirstLook(run, t, DialFail(false)) || SinceFirstLook(run, t, BackoffOver(false))
  {
    GetHandsWhatItFound(run, Get(t, Unlock), t);
    GaveUpByFailing(Init(), run, t, Looking);
  }

  // ---------- what becomes of a lost connection ----------

  /** A retired connection was announced as lost, or its thread is about to, or the link is
      going down. */
  predicate LossOk(s: State, c: Conn)
    requires c in s.log.retiredBy
  {
    var t := s.log.retiredBy[c];
    || c in s.log.announced
    || s.sync.lifeEnded
    || (t in s.pcs && Retiring(s.pcs[t]) && ConnOf(s.pcs[t]) == Some(c))
  }

  ghost predicate LossesOk(s: State) {
    forall c | c in s.log.retiredBy :: LossOk(s, c)
  }

  /** Only lost deals with losses. */
  lemma LossElsewhere(s: State, e: Event, c: Conn)
    requires Enabled(s, e) && !e.Lost? && (!e.Env? ==> e.t in s.pcs && !Retiring(s.pcs[e.t]))
    requires c in s.log.retiredBy && LossOk(s, c)
    ensures Apply(s, e).log.retiredBy == s.log.retiredBy && LossOk(Apply(s, e), c)
  {}

  lemma LossByLost(s: State, e: Event, c: Conn)
    requires CurrentOk(s.fields, s.net, s.log) && Enabled(s, e) && e.Lost?
    requires c in s.log.retiredBy ==> LossOk(s, c)
    requires c in Apply(s, e).log.retiredBy
    ensures LossOk(Apply(s, e), c)
  {}

  lemma LossStep(s: State, e: Event)
    requires Inv(s) && LossesOk(s) && Enabled(s, e)
    ensures LossesOk(Apply(s, e))
  {
    forall c | c in Apply(s, e).log.retiredBy ensures LossOk(Apply(s, e), c) {
      if e.Lost? {
        assert c in s.log.retiredBy ==> LossOk(s, c);
        LossByLost(s, e, c);
      } else {
        assert LossOk(s, c);
        LossElsewhere(s, e, c);
      }
    }
  }

  lemma {:induction false} LossesOver(s: State, run: seq<Event>)
    requires Inv(s) && LossesOk(s) && Runs(s, run)
    ensures LossesOk(After(s, run))
    decreases |run|
  {
    if run != [] {
      LossStep(s, run[0]);
      StepInv(s, run[0]);
      LossesOver(Apply(s, run[0]), run[1..]);
    }
  }

  /** Nobody loses a connection in silence: once the thread that retired it is done with it, the
      loss was announced, unless the link was going down. */
  lemma LossIsAnnounced(s: State, c: Conn)
    requires Reachable(s) && c in s.log.retiredBy
    requires s.log.retiredBy[c] in s.pcs ==> !Retiring(s.pcs[s.log.retiredBy[c]])
    ensures c in s.log.announced || s.sync.lifeEnded
  {
    var run :| Runs(Init(), run) && After(Init(), run) == s;
    InitInv();
    LossesOver(Init(), run);
    assert LossOk(s, c);
  }

  /** And with the announcement a new goroutine of the link calls get. */
  lemma AnnouncingRedials(s: State, e: Event)
    requires Reachable(s) && Enabled(s, e) && Apply(s, e).log.announced != s.log.announced
    ensures exists r :: r !in s.pcs && r in Apply(s, e).sync.background && r in Apply(s, e).pcs &&
                        Apply(s, e).pcs[r] == GetFirst
  {
    ReachableInv(s);
    assert Local(s, e.t);
    assert e.Lost? && e.lost.LostSpawn?;
    assert e.lost.redialler in Apply(s, e).sync.background;
  }

  /** A keepalive stops only with its connection at an end: it ended, or the keepalive closes it. */
  lemma KeepaliveOutlivesNothing(s: State, e: Event, t: Tid)
    requires Enabled(s, e) && t in s.pcs && s.pcs[t].Keepalive?
    requires t in Apply(s, e).pcs && !Apply(s, e).pcs[t].Keepalive?
    ensures Ended(Apply(s, e), s.pcs[t].kept)
  {}

  /** Adopting says "reconnected" exactly if a connection had been adopted before. */
  lemma WasUpIffAdopted(s: State)
    requires Reachable(s)
    ensures s.fields.wasUp <==> s.log.adopted != {}
  {
    var run :| Runs(Init(), run) && After(Init(), run) == s;
    WasUpOver(Init(), run);
  }

  lemma {:induction false} WasUpOver(s: State, run: seq<Event>)
    requires Runs(s, run) && (s.fields.wasUp <==> s.log.adopted != {})
    ensures After(s, run).fields.wasUp <==> After(s, run).log.adopted != {}
    decreases |run|
  {
    if run != [] {
      WasUpOver(Apply(s, run[0]), run[1..]);
    }
  }

  /** A forwarder that was handed a connection may use it up: call get again, leave, or report the
      connection as failed, which retires it if it is still current and the link open. */
  lemma ForwarderMayReport(s: State, t: Tid)
    requires Reachable(s) && t in s.pcs && s.pcs[t].Using?
    ensures Enabled(s, Caller(t, CallGet)) && Enabled(s, Caller(t, CallLost))
    ensures Enabled(s, Caller(t, Leave)) && Apply(s, Caller(t, Leave)).pcs[t] == Finished
    ensures var c, s1 := s.pcs[t].using, Apply(s, Caller(t, CallLost));
            && Enabled(s1, Lost(t, LostLocked))
            && var s2 := Apply(s1, Lost(t, LostLocked));
               if s.fields.client == Some(c) && !s.fields.closed
               then s2.fields.client == None && c in s2.log.retiredBy && s2.log.retiredBy[c] == t
               else s2.fields == s.fields && s2.log == s.log
  {}

  /** Any connection that was dialled may end at any time, and so may the parent context. */
  lemma NetworkMayFail(s: State, c: Conn)
    ensures Enabled(s, Env(Drop(c))) <==> c < s.net.dials
    ensures c < s.net.dials ==> Ended(Apply(s, Env(Drop(c))), c)
    ensures Enabled(s, Env(EndLife)) && Apply(s, Env(EndLife)).sync.lifeEnded
  {}
}

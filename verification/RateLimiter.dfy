/** The per-key sliding-window rate limiter (pkg/api/jwt_agents.go).

    The limiter forgets: it filters a key's list when the key calls, and once per window
    it drops the keys whose newest request is too old.  The reference limiter below keeps
    every allowed request for ever; the two decide alike. */
module RateLimiter {

  type Key = string
  type Time = int

  /** The requests later than cutoff. */
  function Recent(times: seq<Time>, cutoff: Time): seq<Time> {
    if times == [] then []
    else (if times[0] > cutoff then [times[0]] else []) + Recent(times[1..], cutoff)
  }

  function Get(m: map<Key, seq<Time>>, key: Key): seq<Time> {
    if key in m then m[key] else []
  }

  // ---------- the limiter ----------

  datatype Store = Store(requests: map<Key, seq<Time>>, lastSweep: Time)

  predicate Stale(times: seq<Time>, cutoff: Time) {
    |times| == 0 || times[|times| - 1] <= cutoff
  }

  function Swept(requests: map<Key, seq<Time>>, cutoff: Time): map<Key, seq<Time>> {
    map k | k in requests && !Stale(requests[k], cutoff) :: requests[k]
  }

  function MaybeSwept(st: Store, window: int, now: Time): Store {
    if now - st.lastSweep >= window then Store(Swept(st.requests, now - window), now) else st
  }

  /** What is left of the key's list when it calls. */
  function Filtered(st: Store, window: int, key: Key, now: Time): seq<Time> {
    Recent(Get(MaybeSwept(st, window, now).requests, key), now - window)
  }

  predicate Allows(st: Store, limit: int, window: int, key: Key, now: Time) {
    |Filtered(st, window, key, now)| < limit
  }

  function AfterAllow(st: Store, limit: int, window: int, key: Key, now: Time): Store {
    var kept := Filtered(st, window, key, now);
    var list := if Allows(st, limit, window, key, now) then kept + [now] else kept;
    var swept := MaybeSwept(st, window, now);
    swept.(requests := swept.requests[key := list])
  }

  class Limiter {
    const limit: int
    const window: int
    var requests: map<Key, seq<Time>>
    var lastSweep: Time

    function State(): Store
      reads this
    {
      Store(requests, lastSweep)
    }

    constructor (limit: int, window: int, zero: Time)
      ensures this.limit == limit && this.window == window
      ensures State() == Store(map[], zero)
    {
      this.limit, this.window := limit, window;
      requests, lastSweep := map[], zero;
    }

    method Sweep(cutoff: Time)
      modifies this`requests
      ensures requests == Swept(old(requests), cutoff)
    {
      var rest := requests.Keys;
      while rest != {}
        invariant rest <= old(requests).Keys
        invariant requests == map k | k in old(requests) && (k in rest || !Stale(old(requests)[k], cutoff))
                                  :: old(requests)[k]
      {
        var key :| key in rest;
        var times := requests[key];
        if |times| == 0 || !(times[|times| - 1] > cutoff) {
          requests := requests - {key};
        }
        rest := rest - {key};
      }
    }

    /** Keeps the requests later than cutoff, in order: the first n entries of the list's own
        array, written over its front while the rest is still to be read. */
    static method Filter(times: array<Time>, cutoff: Time) returns (n: nat)
      modifies times
      ensures n <= times.Length && times[..n] == Recent(old(times[..]), cutoff)
    {
      ghost var was := times[..];
      n := 0;
      for i := 0 to times.Length
        invariant n <= i
        invariant forall k | i <= k < times.Length :: times[k] == was[k]
        invariant times[..n] == Recent(was[..i], cutoff)
      {
        var t := times[i];
        RecentAppend(was[..i], t, cutoff);
        assert was[..i + 1] == was[..i] + [t];
        if t > cutoff {
          times[n] := t;
          n := n + 1;
        }
      }
      assert was[..times.Length] == was;
    }

    method Allow(key: Key, now: Time) returns (ok: bool)
      modifies this
      ensures ok == Allows(old(State()), limit, window, key, now)
      ensures State() == AfterAllow(old(State()), limit, window, key, now)
    {
      var cutoff := now - window;
      if now - lastSweep >= window {
        Sweep(cutoff);
        lastSweep := now;
      }
      assert State() == MaybeSwept(old(State()), window, now);
      var list := if key in requests then requests[key] else [];
      var times := new Time[|list|](i requires 0 <= i < |list| => list[i]);
      assert times[..] == list;
      var n := Filter(times, cutoff);
      var filtered := times[..n];
      if |filtered| >= limit {
        requests := requests[key := filtered];
        return false;
      }
      requests := requests[key := filtered + [now]];
      ok := true;
    }
  }

  // ---------- runs, and the limiter that never forgets ----------

  datatype Call = Call(key: Key, now: Time)

  predicate Ordered(calls: seq<Call>) {
    |calls| <= 1 || (calls[0].now <= calls[1].now && Ordered(calls[1..]))
  }

  function Decisions(st: Store, limit: int, window: int, calls: seq<Call>): (ds: seq<bool>)
    ensures |ds| == |calls|
    decreases |calls|
  {
    if calls == [] then []
    else [Allows(st, limit, window, calls[0].key, calls[0].now)] +
         Decisions(AfterAllow(st, limit, window, calls[0].key, calls[0].now), limit, window, calls[1..])
  }

  function After(st: Store, limit: int, window: int, calls: seq<Call>): Store
    decreases |calls|
  {
    if calls == [] then st
    else After(AfterAllow(st, limit, window, calls[0].key, calls[0].now), limit, window, calls[1..])
  }

  /** The reference: the whole log of allowed requests, and the same question of it. */
  predicate LogAllows(log: map<Key, seq<Time>>, limit: int, window: int, key: Key, now: Time) {
    |Recent(Get(log, key), now - window)| < limit
  }

  function LogAfter(log: map<Key, seq<Time>>, limit: int, window: int, key: Key, now: Time): map<Key, seq<Time>> {
    if LogAllows(log, limit, window, key, now) then log[key := Get(log, key) + [now]] else log
  }

  function LogDecisions(log: map<Key, seq<Time>>, limit: int, window: int, calls: seq<Call>): (ds: seq<bool>)
    ensures |ds| == |calls|
    decreases |calls|
  {
    if calls == [] then []
    else [LogAllows(log, limit, window, calls[0].key, calls[0].now)] +
         LogDecisions(LogAfter(log, limit, window, calls[0].key, calls[0].now), limit, window, calls[1..])
  }

  // ---------- filtering ----------

  predicate Sorted(times: seq<Time>) {
    forall i, j | 0 <= i < j < |times| :: times[i] <= times[j]
  }

  lemma {:induction false} RecentAppend(times: seq<Time>, now: Time, cutoff: Time)
    ensures Recent(times + [now], cutoff) == Recent(times, cutoff) + if now > cutoff then [now] else []
  {
    if times != [] {
      RecentAppend(times[1..], now, cutoff);
      assert (times + [now])[1..] == times[1..] + [now];
    }
  }

  lemma {:induction false} RecentTwice(times: seq<Time>, early: Time, late: Time)
    requires early <= late
    ensures Recent(Recent(times, early), late) == Recent(times, late)
  {
    if times != [] {
      RecentTwice(times[1..], early, late);
      if times[0] > early {
        var kept := [times[0]] + Recent(times[1..], early);
        assert kept[1..] == Recent(times[1..], early);
        assert Recent(times, early) == kept;
      } else {
        assert Recent(times, early) == Recent(times[1..], early);
      }
    }
  }

  lemma {:induction false} RecentOfStale(times: seq<Time>, cutoff: Time)
    requires Sorted(times) && Stale(times, cutoff)
    ensures Recent(times, cutoff) == []
  {
    if times != [] {
      RecentOfStale(times[1..], cutoff);
    }
  }

  lemma {:induction false} RecentOfFresh(times: seq<Time>, cutoff: Time)
    requires forall i | 0 <= i < |times| :: times[i] > cutoff
    ensures Recent(times, cutoff) == times
  {
    if times != [] {
      RecentOfFresh(times[1..], cutoff);
    }
  }

  /** Of a sorted list, filtering drops a prefix. */
  lemma {:induction false} RecentSorted(times: seq<Time>, cutoff: Time) returns (n: nat)
    requires Sorted(times)
    ensures n <= |times| && Recent(times, cutoff) == times[n..]
    ensures forall i | 0 <= i < |times| :: times[i] > cutoff <==> i >= n
  {
    if times == [] {
      n := 0;
    } else if times[0] > cutoff {
      RecentOfFresh(times, cutoff);
      n := 0;
    } else {
      var m := RecentSorted(times[1..], cutoff);
      n := m + 1;
      assert forall i | 1 <= i < |times| :: times[i] == times[1..][i - 1];
    }
  }

  // ---------- the refinement ----------

  /** From time `now` on, the store and the log answer every question alike. */
  ghost predicate Agree(st: Store, log: map<Key, seq<Time>>, window: int, now: Time) {
    forall key, cutoff | cutoff >= now - window ::
      Recent(Get(st.requests, key), cutoff) == Recent(Get(log, key), cutoff)
  }

  ghost predicate AllSorted(m: map<Key, seq<Time>>, now: Time) {
    forall key | key in m :: Sorted(m[key]) && forall i | 0 <= i < |m[key]| :: m[key][i] <= now
  }

  lemma SweepAgrees(st: Store, log: map<Key, seq<Time>>, window: int, now: Time)
    requires Agree(st, log, window, now) && AllSorted(st.requests, now)
    ensures Agree(MaybeSwept(st, window, now), log, window, now)
    ensures AllSorted(MaybeSwept(st, window, now).requests, now)
  {
    var swept := MaybeSwept(st, window, now);
    forall key, cutoff | cutoff >= now - window
      ensures Recent(Get(swept.requests, key), cutoff) == Recent(Get(log, key), cutoff)
    {
      if key in st.requests && key !in swept.requests {
        RecentOfStale(st.requests[key], cutoff);
      }
      assert Recent(Get(st.requests, key), cutoff) == Recent(Get(log, key), cutoff);
    }
  }

  /** The list of the key that calls, against its full log. */
  lemma ListAgrees(list: seq<Time>, full: seq<Time>, start: Time, now: Time, cutoff: Time)
    requires start <= cutoff && Recent(list, cutoff) == Recent(full, cutoff)
    ensures Recent(Recent(list, start), cutoff) == Recent(full, cutoff)
    ensures Recent(Recent(list, start) + [now], cutoff) == Recent(full + [now], cutoff)
  {
    RecentTwice(list, start, cutoff);
    RecentAppend(Recent(list, start), now, cutoff);
    RecentAppend(full, now, cutoff);
  }

  lemma KeptSorted(list: seq<Time>, cutoff: Time, now: Time)
    requires Sorted(list) && forall i | 0 <= i < |list| :: list[i] <= now
    ensures Sorted(Recent(list, cutoff)) && forall i | 0 <= i < |Recent(list, cutoff)| :: Recent(list, cutoff)[i] <= now
    ensures Sorted(Recent(list, cutoff) + [now])
  {
    var n := RecentSorted(list, cutoff);
  }

  lemma CallSorted(st: Store, limit: int, window: int, key: Key, now: Time)
    requires AllSorted(MaybeSwept(st, window, now).requests, now)
    ensures AllSorted(AfterAllow(st, limit, window, key, now).requests, now)
  {
    KeptSorted(Get(MaybeSwept(st, window, now).requests, key), now - window, now);
  }

  /** One call: the two limiters decide alike, and go on agreeing. */
  lemma CallAgrees(st: Store, log: map<Key, seq<Time>>, limit: int, window: int, key: Key, now: Time)
    requires Agree(st, log, window, now) && AllSorted(st.requests, now)
    ensures Allows(st, limit, window, key, now) == LogAllows(log, limit, window, key, now)
    ensures Agree(AfterAllow(st, limit, window, key, now), LogAfter(log, limit, window, key, now), window, now)
    ensures AllSorted(AfterAllow(st, limit, window, key, now).requests, now)
  {
    SweepAgrees(st, log, window, now);
    CallSorted(st, limit, window, key, now);
    var swept := MaybeSwept(st, window, now);
    var st1, log1 := AfterAllow(st, limit, window, key, now), LogAfter(log, limit, window, key, now);
    assert Recent(Get(swept.requests, key), now - window) == Recent(Get(log, key), now - window);
    forall k, cutoff | cutoff >= now - window
      ensures Recent(Get(st1.requests, k), cutoff) == Recent(Get(log1, k), cutoff)
    {
      assert Recent(Get(swept.requests, k), cutoff) == Recent(Get(log, k), cutoff);
      if k == key {
        ListAgrees(Get(swept.requests, key), Get(log, key), now - window, now, cutoff);
      }
    }
  }

  lemma AgreeLater(st: Store, log: map<Key, seq<Time>>, window: int, now: Time, later: Time)
    requires Agree(st, log, window, now) && AllSorted(st.requests, now) && now <= later
    ensures Agree(st, log, window, later) && AllSorted(st.requests, later)
  {
  }

  lemma {:induction false} SameFrom(
    st: Store, log: map<Key, seq<Time>>, limit: int, window: int, calls: seq<Call>, now: Time)
    requires Ordered(calls) && (calls != [] ==> now <= calls[0].now)
    requires Agree(st, log, window, now) && AllSorted(st.requests, now)
    ensures Decisions(st, limit, window, calls) == LogDecisions(log, limit, window, calls)
    decreases |calls|
  {
    if calls != [] {
      var c := calls[0];
      AgreeLater(st, log, window, now, c.now);
      CallAgrees(st, log, limit, window, c.key, c.now);
      SameFrom(AfterAllow(st, limit, window, c.key, c.now), LogAfter(log, limit, window, c.key, c.now),
               limit, window, calls[1..], c.now);
    }
  }

  /** Filtering and sweeping are invisible: on every sequence of calls in time order the
      limiter decides exactly as the one that never forgets. */
  lemma DecidesLikeFullLog(limit: int, window: int, zero: Time, calls: seq<Call>)
    requires Ordered(calls)
    ensures Decisions(Store(map[], zero), limit, window, calls) == LogDecisions(map[], limit, window, calls)
  {
    if calls != [] {
      SameFrom(Store(map[], zero), map[], limit, window, calls, calls[0].now);
    }
  }

  // ---------- what the limit means ----------

  /** The times at which requests of the key were allowed. */
  function AllowedTimes(calls: seq<Call>, ds: seq<bool>, key: Key): seq<Time>
    requires |ds| == |calls|
    decreases |calls|
  {
    if calls == [] then []
    else (if ds[0] && calls[0].key == key then [calls[0].now] else []) + AllowedTimes(calls[1..], ds[1..], key)
  }

  function LogAfterAll(log: map<Key, seq<Time>>, limit: int, window: int, calls: seq<Call>): map<Key, seq<Time>>
    decreases |calls|
  {
    if calls == [] then log
    else LogAfterAll(LogAfter(log, limit, window, calls[0].key, calls[0].now), limit, window, calls[1..])
  }

  /** The log is exactly the allowed requests. */
  lemma {:induction false} LogIsAllowedTimes(
    log: map<Key, seq<Time>>, limit: int, window: int, calls: seq<Call>, key: Key)
    ensures Get(LogAfterAll(log, limit, window, calls), key) ==
            Get(log, key) + AllowedTimes(calls, LogDecisions(log, limit, window, calls), key)
    decreases |calls|
  {
    if calls != [] {
      LogIsAllowedTimes(LogAfter(log, limit, window, calls[0].key, calls[0].now), limit, window, calls[1..], key);
    }
  }

  predicate Spaced(times: seq<Time>, limit: int, window: int)
    requires limit >= 0
  {
    forall i | 0 <= i < |times| - limit :: times[i + limit] - times[i] >= window
  }

  lemma SpacedStep(list: seq<Time>, limit: int, window: int, now: Time)
    requires limit >= 1 && Sorted(list) && Spaced(list, limit, window)
    requires forall i | 0 <= i < |list| :: list[i] <= now
    requires |Recent(list, now - window)| < limit
    ensures Sorted(list + [now]) && Spaced(list + [now], limit, window)
  {
    var n := RecentSorted(list, now - window);
  }

  lemma LogStep(log: map<Key, seq<Time>>, limit: int, window: int, c: Call, key: Key)
    requires limit >= 1 && AllSorted(log, c.now) && Spaced(Get(log, key), limit, window)
    ensures AllSorted(LogAfter(log, limit, window, c.key, c.now), c.now)
    ensures Spaced(Get(LogAfter(log, limit, window, c.key, c.now), key), limit, window)
  {
    if c.key == key && LogAllows(log, limit, window, key, c.now) {
      SpacedStep(Get(log, key), limit, window, c.now);
    }
  }

  lemma {:induction false} LogSpaced(
    log: map<Key, seq<Time>>, limit: int, window: int, calls: seq<Call>, key: Key, now: Time)
    requires limit >= 1 && Ordered(calls) && (calls != [] ==> now <= calls[0].now)
    requires AllSorted(log, now) && Spaced(Get(log, key), limit, window)
    ensures Spaced(Get(LogAfterAll(log, limit, window, calls), key), limit, window)
    decreases |calls|
  {
    if calls != [] {
      assert AllSorted(log, calls[0].now);
      LogStep(log, limit, window, calls[0], key);
      LogSpaced(LogAfter(log, limit, window, calls[0].key, calls[0].now), limit, window, calls[1..], key, calls[0].now);
    }
  }

  /** For each key, the allowed request number i + limit comes at least one window after
      number i: no window holds more than limit of them. */
  lemma AllowedAreSpaced(limit: int, window: int, zero: Time, calls: seq<Call>, key: Key)
    requires limit >= 1 && Ordered(calls)
    ensures Spaced(AllowedTimes(calls, Decisions(Store(map[], zero), limit, window, calls), key), limit, window)
  {
    DecidesLikeFullLog(limit, window, zero, calls);
    LogIsAllowedTimes(map[], limit, window, calls, key);
    LogSpaced(map[], limit, window, calls, key, if calls == [] then 0 else calls[0].now);
    var allowed := AllowedTimes(calls, LogDecisions(map[], limit, window, calls), key);
    assert Get(map[], key) + allowed == allowed;
  }

  // ---------- what the map can hold ----------

  /** 1 to limit requests, all allowed ones, the newest later than `after`. */
  predicate LeanList(list: seq<Time>, full: seq<Time>, limit: int, after: Time) {
    1 <= |list| <= limit && list[|list| - 1] > after && forall i | 0 <= i < |list| :: list[i] in full
  }

  ghost predicate Lean(st: Store, log: map<Key, seq<Time>>, limit: int, window: int) {
    forall key | key in st.requests ::
      LeanList(st.requests[key], Get(log, key), limit, st.lastSweep - window)
  }

  /** The list of the key that calls. */
  lemma LeanKept(list: seq<Time>, full: seq<Time>, limit: int, cutoff: Time, after: Time, now: Time)
    requires limit >= 1 && Sorted(list) && after < now
    requires list == [] || LeanList(list, full, limit, after)
    ensures var kept := Recent(list, cutoff);
            if |kept| < limit then LeanList(kept + [now], full + [now], limit, after)
            else LeanList(kept, full, limit, after)
  {
    var n := RecentSorted(list, cutoff);
    assert forall i | n <= i < |list| :: list[i] == list[n..][i - n];
  }

  lemma CallLean(st: Store, log: map<Key, seq<Time>>, limit: int, window: int, key: Key, now: Time)
    requires limit >= 1 && window > 0 && st.lastSweep <= now
    requires Lean(st, log, limit, window) && AllSorted(st.requests, now)
    requires Allows(st, limit, window, key, now) == LogAllows(log, limit, window, key, now)
    ensures Lean(AfterAllow(st, limit, window, key, now), LogAfter(log, limit, window, key, now), limit, window)
  {
    var swept, after := MaybeSwept(st, window, now), MaybeSwept(st, window, now).lastSweep - window;
    var st1, log1 := AfterAllow(st, limit, window, key, now), LogAfter(log, limit, window, key, now);
    LeanKept(Get(swept.requests, key), Get(log, key), limit, now - window, after, now);
    forall k | k in st1.requests ensures LeanList(st1.requests[k], Get(log1, k), limit, after) {
      if k != key {
        assert st1.requests[k] == st.requests[k] && Get(log1, k) == Get(log, k);
      }
    }
  }

  /** All that holds of the store and the log between two calls. */
  ghost predicate Good(st: Store, log: map<Key, seq<Time>>, limit: int, window: int, now: Time) {
    && Lean(st, log, limit, window)
    && Agree(st, log, window, now)
    && AllSorted(st.requests, now)
    && st.lastSweep <= now
  }

  lemma CallGood(
    st: Store, log: map<Key, seq<Time>>, limit: int, window: int, key: Key, now: Time, later: Time)
    requires limit >= 1 && window > 0 && now <= later && Good(st, log, limit, window, now)
    ensures var st1 := AfterAllow(st, limit, window, key, now);
            Good(st1, LogAfter(log, limit, window, key, now), limit, window, later) && now < st1.lastSweep + window
  {
    CallAgrees(st, log, limit, window, key, now);
    CallLean(st, log, limit, window, key, now);
    AgreeLater(AfterAllow(st, limit, window, key, now), LogAfter(log, limit, window, key, now), window, now, later);
  }

  lemma {:induction false} GoodAfter(
    st: Store, log: map<Key, seq<Time>>, limit: int, window: int, calls: seq<Call>)
    requires limit >= 1 && window > 0 && calls != [] && Ordered(calls)
    requires Good(st, log, limit, window, calls[0].now)
    ensures var st1, last := After(st, limit, window, calls), calls[|calls| - 1].now;
            Good(st1, LogAfterAll(log, limit, window, calls), limit, window, last) && last < st1.lastSweep + window
    decreases |calls|
  {
    var c, rest := calls[0], calls[1..];
    if rest == [] {
      CallGood(st, log, limit, window, c.key, c.now, c.now);
    } else {
      CallGood(st, log, limit, window, c.key, c.now, rest[0].now);
      GoodAfter(AfterAllow(st, limit, window, c.key, c.now), LogAfter(log, limit, window, c.key, c.now),
                limit, window, rest);
    }
  }

  /** After any call at time now, every list in the map is sorted and holds at most limit
      requests, and every key in it had a request allowed within the last two windows. */
  lemma MemoryIsBounded(limit: int, window: int, zero: Time, calls: seq<Call>, key: Key)
    requires limit >= 1 && window > 0 && Ordered(calls) && calls != [] && zero <= calls[0].now
    requires key in After(Store(map[], zero), limit, window, calls).requests
    ensures var list := After(Store(map[], zero), limit, window, calls).requests[key];
            Sorted(list) && 1 <= |list| <= limit
    ensures exists t :: t in AllowedTimes(calls, Decisions(Store(map[], zero), limit, window, calls), key) &&
                        t > calls[|calls| - 1].now - 2 * window
  {
    var st := After(Store(map[], zero), limit, window, calls);
    GoodAfter(Store(map[], zero), map[], limit, window, calls);
    DecidesLikeFullLog(limit, window, zero, calls);
    LogIsAllowedTimes(map[], limit, window, calls, key);
    assert Get(map[], key) == [];
    var list := st.requests[key];
    assert LeanList(list, Get(LogAfterAll(map[], limit, window, calls), key), limit, st.lastSweep - window);
    var newest := list[|list| - 1];
    assert newest in AllowedTimes(calls, Decisions(Store(map[], zero), limit, window, calls), key);
  }
}

/** Verifying login challenges at once (pkg/api/challenge.go): a call reads the clock, checks the
    tag and the expiry, and only then takes the lock, so calls may take it in another order than
    they read the clock in.  What one section does is Challenge's; this module says when that
    order lets a challenge be used twice. */
module ChallengeRace {
  import opened Challenge

  type Tid = nat

  /** A call between its reading of the clock and its section. */
  datatype Reading = Reading(
    username: seq<Byte>,
    value: Value,
    now: int, // what it read
    seen: nat) // history: how many collections there had been

  /** The expired nonces were dropped, by the reading of one call. */
  datatype Collection = Collection(
    after: nat, // how many challenges had been accepted
    now: int)

  datatype State = State(
    redeemed: Redeemed,
    clock: int,
    pending: map<Tid, Reading>,
    // history
    accepted: seq<Payload>,
    collected: seq<Collection>)

  function Init(start: int): State {
    State.State(map[], start, map[], [], [])
  }

  datatype Event =
    | Read(t: Tid, username: seq<Byte>, value: Value, now: int)
    | Lock(t: Tid, now: int)

  predicate Enabled(s: State, e: Event) {
    s.clock <= e.now && if e.Read? then e.t !in s.pending else e.t in s.pending
  }

  function VerdictOf(s: State, t: Tid): Outcome
    requires t in s.pending
  {
    var r := s.pending[t];
    Verdict(s.redeemed, r.username, r.value, r.now)
  }

  /** The section of t finds the store full, and drops what had expired when t read the clock. */
  predicate Collects(s: State, t: Tid)
    requires t in s.pending
  {
    var r := s.pending[t];
    Genuine(r.username, r.value, r.now) && NonceOf(r.value.payload) !in s.redeemed && |s.redeemed| >= MAX_REDEEMED
  }

  function Apply(s: State, e: Event): State
    requires Enabled(s, e)
  {
    match e
    case Read(t, username, value, now) =>
      if !Genuine(username, value, now) then s.(clock := now)
      else s.(clock := now, pending := s.pending[t := Reading(username, value, now, |s.collected|)])
    case Lock(t, now) =>
      var r := s.pending[t];
      State.State(AfterVerify(s.redeemed, r.username, r.value, r.now), now, s.pending - {t},
            if VerdictOf(s, t) == Accepted then s.accepted + [r.value.payload] else s.accepted,
            if Collects(s, t) then s.collected + [Collection(|s.accepted|, r.now)] else s.collected)
  }

  predicate Runs(s: State, run: seq<Event>)
    decreases |run|
  {
    run == [] || (Enabled(s, run[0]) && Runs(Apply(s, run[0]), run[1..]))
  }

  function After(s: State, run: seq<Event>): State
    requires Runs(s, run)
    decreases |run|
  {
    if run == [] then s else After(Apply(s, run[0]), run[1..])
  }

  // ---------- what the store still knows ----------

  predicate DropsAt(s: State, i: nat, k: nat)
    requires i < |s.accepted| && k < |s.collected|
  {
    |s.accepted[i]| == 24 && s.collected[k].after > i && s.collected[k].now >= Expiry(s.accepted[i]) * SECOND
  }

  /** No collection since the i-th acceptance read the clock at or past that challenge's expiry. */
  predicate Kept(s: State, i: nat)
    requires i < |s.accepted|
  {
    forall k | 0 <= k < |s.collected| :: !DropsAt(s, i, k)
  }

  predicate KeptAs(s: State, i: nat, n: Nonce)
    requires i < |s.accepted|
  {
    |s.accepted[i]| == 24 && NonceOf(s.accepted[i]) == n && Kept(s, i)
  }

  predicate ReadingOk(s: State, r: Reading) {
    && Genuine(r.username, r.value, r.now) && r.now <= s.clock && r.seen <= |s.collected|
    && forall k | 0 <= k < r.seen :: s.collected[k].now <= r.now
  }

  predicate CollectionOk(s: State, c: Collection) {
    c.now <= s.clock && c.after <= |s.accepted|
  }

  predicate AcceptedOk(s: State, i: nat)
    requires i < |s.accepted|
  {
    && |s.accepted[i]| == 24
    && (Kept(s, i) ==> NonceOf(s.accepted[i]) in s.redeemed &&
                       s.redeemed[NonceOf(s.accepted[i])] == Expiry(s.accepted[i]))
  }

  predicate RedeemedOk(s: State, n: Nonce)
    requires n in s.redeemed
  {
    exists i | 0 <= i < |s.accepted| :: KeptAs(s, i, n) && Expiry(s.accepted[i]) == s.redeemed[n]
  }

  ghost predicate Inv(s: State) {
    && (forall t | t in s.pending :: ReadingOk(s, s.pending[t]))
    && (forall c | c in s.collected :: CollectionOk(s, c))
    && (forall i | 0 <= i < |s.accepted| :: AcceptedOk(s, i))
    && (forall n | n in s.redeemed :: RedeemedOk(s, n))
  }

  lemma ReadInv(s: State, e: Event)
    requires Inv(s) && Enabled(s, e) && e.Read?
    ensures Inv(Apply(s, e))
  {
    var s1 := Apply(s, e);
    forall i | 0 <= i < |s.accepted| ensures AcceptedOk(s1, i) && (Kept(s1, i) <==> Kept(s, i)) {
      assert AcceptedOk(s, i);
      assert forall k | 0 <= k < |s.collected| :: DropsAt(s1, i, k) == DropsAt(s, i, k);
    }
    forall n | n in s1.redeemed ensures RedeemedOk(s1, n) {
      assert RedeemedOk(s, n);
      var i :| 0 <= i < |s.accepted| && KeptAs(s, i, n) && Expiry(s.accepted[i]) == s.redeemed[n];
      assert KeptAs(s1, i, n);
    }
    forall t | t in s1.pending ensures ReadingOk(s1, s1.pending[t]) {
      assert t in s.pending ==> ReadingOk(s, s.pending[t]);
      assert forall k | 0 <= k < |s.collected| :: CollectionOk(s, s.collected[k]);
    }
  }

  /** What a section keeps of what it finds. */
  lemma KeptAfter(s: State, e: Event, i: nat)
    requires Inv(s) && Enabled(s, e) && e.Lock? && i < |s.accepted|
    ensures |s.accepted[i]| == 24
    ensures Kept(Apply(s, e), i) <==>
            Kept(s, i) && !(Collects(s, e.t) && s.pending[e.t].now >= Expiry(s.accepted[i]) * SECOND)
  {
    assert AcceptedOk(s, i);
    KeptWithLog(s, Apply(s, e), i);
  }

  /** Whether an acceptance is kept depends on it and on the collections alone. */
  lemma KeptWithLog(s: State, s1: State, i: nat)
    requires i < |s.accepted| && s.accepted <= s1.accepted
    requires s.collected <= s1.collected && |s1.collected| <= |s.collected| + 1
    ensures Kept(s1, i) <==>
            Kept(s, i) && (|s1.collected| > |s.collected| ==> !DropsAt(s1, i, |s.collected|))
  {
    assert forall k | 0 <= k < |s.collected| :: DropsAt(s1, i, k) == DropsAt(s, i, k);
  }

  lemma NewIsKept(s: State, e: Event)
    requires Inv(s) && Enabled(s, e) && e.Lock? && VerdictOf(s, e.t) == Accepted
    ensures Kept(Apply(s, e), |s.accepted|)
  {
    var s1 := Apply(s, e);
    forall k | 0 <= k < |s1.collected| ensures !DropsAt(s1, |s.accepted|, k) {
      if k < |s.collected| {
        assert CollectionOk(s, s.collected[k]);
      }
    }
  }

  lemma LockAccepted(s: State, e: Event, i: nat)
    requires Inv(s) && Enabled(s, e) && e.Lock? && i < |Apply(s, e).accepted|
    ensures AcceptedOk(Apply(s, e), i)
  {
    if i < |s.accepted| {
      KeptAfter(s, e, i);
      assert AcceptedOk(s, i);
    } else {
      NewIsKept(s, e);
    }
  }

  lemma LockRedeemed(s: State, e: Event, n: Nonce)
    requires Inv(s) && Enabled(s, e) && e.Lock? && n in Apply(s, e).redeemed
    ensures RedeemedOk(Apply(s, e), n)
  {
    var s1, r := Apply(s, e), s.pending[e.t];
    if VerdictOf(s, e.t) == Accepted && n == NonceOf(r.value.payload) {
      NewIsKept(s, e);
      assert KeptAs(s1, |s.accepted|, n);
    } else {
      assert RedeemedOk(s, n);
      var i :| 0 <= i < |s.accepted| && KeptAs(s, i, n) && Expiry(s.accepted[i]) == s.redeemed[n];
      KeptAfter(s, e, i);
      assert KeptAs(s1, i, n);
    }
  }

  lemma StepInv(s: State, e: Event)
    requires Inv(s) && Enabled(s, e)
    ensures Inv(Apply(s, e))
  {
    if e.Read? {
      ReadInv(s, e);
    } else {
      var s1 := Apply(s, e);
      forall t | t in s1.pending ensures ReadingOk(s1, s1.pending[t]) {
        assert ReadingOk(s, s.pending[t]);
      }
      forall c | c in s1.collected ensures CollectionOk(s1, c) {
        assert ReadingOk(s, s.pending[e.t]);
        assert c in s.collected ==> CollectionOk(s, c);
      }
      forall i | 0 <= i < |s1.accepted| ensures AcceptedOk(s1, i) {
        LockAccepted(s, e, i);
      }
      forall n | n in s1.redeemed ensures RedeemedOk(s1, n) {
        LockRedeemed(s, e, n);
      }
    }
  }

  lemma {:induction false} RunInv(s: State, run: seq<Event>)
    requires Inv(s) && Runs(s, run)
    ensures Inv(After(s, run))
    decreases |run|
  {
    if run != [] {
      StepInv(s, run[0]);
      RunInv(Apply(s, run[0]), run[1..]);
    }
  }

  // ---------- when a challenge is used twice ----------

  predicate UsedBefore(s: State, payload: Payload) {
    payload in s.accepted
  }

  /** No two challenges share a nonce, as far as this one goes. */
  predicate NonceIsOwn(s: State, payload: Payload)
    requires |payload| == 24
  {
    forall p | p in s.accepted && |p| == 24 && NonceOf(p) == NonceOf(payload) :: p == payload
  }

  predicate HasRoom(s: State, t: Tid)
    requires t in s.pending
  {
    |s.redeemed| < MAX_REDEEMED || |Unexpired(s.redeemed, s.pending[t].now)| < MAX_REDEEMED
  }

  /** After this call read the clock, and since the i-th acceptance, another call that had read
      it at or past the expiry collected the expired nonces. */
  predicate CollectedSince(s: State, t: Tid, i: nat)
    requires t in s.pending && i < |s.accepted|
  {
    exists k | 0 <= k < |s.collected| :: k >= s.pending[t].seen && DropsAt(s, i, k)
  }

  /** The exact condition, in every reachable state: a call accepts a challenge that was used
      before if and only if there is room, and for each earlier use a collection past the expiry
      came between this call's reading of the clock and its section. */
  lemma AcceptedAgainIff(start: int, run: seq<Event>, t: Tid)
    requires Runs(Init(start), run) && t in After(Init(start), run).pending
    ensures var s := After(Init(start), run);
            var r := s.pending[t];
            && r.value.Token? && |r.value.payload| == 24
            && (UsedBefore(s, r.value.payload) && NonceIsOwn(s, r.value.payload) ==>
                  (VerdictOf(s, t) == Accepted <==>
                     HasRoom(s, t) &&
                     forall i | 0 <= i < |s.accepted| && s.accepted[i] == r.value.payload :: CollectedSince(s, t, i)))
  {
    RunInv(Init(start), run);
    var s := After(Init(start), run);
    var payload := s.pending[t].value.payload;
    assert ReadingOk(s, s.pending[t]);
    forall i | 0 <= i < |s.accepted| && s.accepted[i] == payload ensures CollectedSince(s, t, i) <==> !Kept(s, i) {
      DroppedInTheGap(s, t, i);
    }
    if UsedBefore(s, payload) && NonceIsOwn(s, payload) {
      StoreKnows(s, payload);
    }
  }

  lemma DroppedInTheGap(s: State, t: Tid, i: nat)
    requires Inv(s) && t in s.pending && i < |s.accepted| && s.accepted[i] == s.pending[t].value.payload
    ensures CollectedSince(s, t, i) <==> !Kept(s, i)
  {
    assert ReadingOk(s, s.pending[t]);
    if !Kept(s, i) {
      var k :| 0 <= k < |s.collected| && DropsAt(s, i, k);
      assert k >= s.pending[t].seen;
    }
  }

  lemma StoreKnows(s: State, payload: Payload)
    requires Inv(s) && |payload| == 24 && NonceIsOwn(s, payload)
    ensures NonceOf(payload) in s.redeemed <==>
            exists i | 0 <= i < |s.accepted| :: s.accepted[i] == payload && Kept(s, i)
  {
    if NonceOf(payload) in s.redeemed {
      assert RedeemedOk(s, NonceOf(payload));
      var i :| 0 <= i < |s.accepted| && KeptAs(s, i, NonceOf(payload));
      assert s.accepted[i] in s.accepted;
    }
    if i :| 0 <= i < |s.accepted| && s.accepted[i] == payload && Kept(s, i) {
      assert AcceptedOk(s, i);
    }
  }

  /** So a call that takes the lock before its challenge expires never accepts it again, nonces
      shared or not. */
  lemma InTimeIsSingleUse(start: int, run: seq<Event>, t: Tid)
    requires Runs(Init(start), run) && t in After(Init(start), run).pending
    ensures var s := After(Init(start), run);
            var r := s.pending[t];
            && r.value.Token? && |r.value.payload| == 24
            && (s.clock < Expiry(r.value.payload) * SECOND && VerdictOf(s, t) == Accepted ==>
                  !UsedBefore(s, r.value.payload))
  {
    RunInv(Init(start), run);
    var s := After(Init(start), run);
    var payload := s.pending[t].value.payload;
    assert ReadingOk(s, s.pending[t]);
    if s.clock < Expiry(payload) * SECOND && UsedBefore(s, payload) {
      var i :| 0 <= i < |s.accepted| && s.accepted[i] == payload;
      forall k | 0 <= k < |s.collected| ensures !DropsAt(s, i, k) {
        assert CollectionOk(s, s.collected[k]);
      }
      assert AcceptedOk(s, i);
    }
  }

  // ---------- and it can be ----------

  ghost predicate Reachable(start: int, s: State) {
    exists run :: Runs(Init(start), run) && After(Init(start), run) == s
  }

  lemma {:induction false} Extend(s: State, run: seq<Event>, e: Event)
    requires Runs(s, run) && Enabled(After(s, run), e)
    ensures Runs(s, run + [e]) && After(s, run + [e]) == Apply(After(s, run), e)
    decreases |run|
  {
    if run == [] {
      assert ([] + [e])[1..] == [];
      assert Runs(Apply(s, e), []);
    } else {
      Extend(Apply(s, run[0]), run[1..], e);
      assert (run + [e])[1..] == run[1..] + [e];
    }
  }

  lemma ReachableStep(start: int, s: State, e: Event)
    requires Reachable(start, s) && Enabled(s, e)
    ensures Reachable(start, Apply(s, e))
  {
    var run :| Runs(Init(start), run) && After(Init(start), run) == s;
    Extend(Init(start), run, e);
  }

  /** Challenge number k, expiring at that second. */
  function Numbered(k: nat, expiry: nat): Payload {
    MakePayload(BigEndian(k, 16), expiry)
  }

  function Tagged(payload: Payload): Value {
    Token(payload, Signed(MacMessage([], payload)))
  }

  lemma NumberedIsGenuine(k: nat, expiry: nat, now: int)
    requires k <= MAX_REDEEMED && expiry < 1000 && now < expiry * SECOND
    ensures |Numbered(k, expiry)| == 24 && Expiry(Numbered(k, expiry)) == expiry
    ensures FromBigEndian(NonceOf(Numbered(k, expiry))) == k
    ensures Genuine([], Tagged(Numbered(k, expiry)), now)
  {
    PayloadRoundTrip(BigEndian(k, 16), expiry);
    PowersGrow(3, 16);
    assert Pow256(3) == 256 * (256 * (256 * Pow256(0)));
    BigEndianRoundTrip(k, 16);
  }

  lemma {:induction false} PowersGrow(a: nat, b: nat)
    requires a <= b
    ensures Pow256(a) <= Pow256(b) && Pow256(a) > 0
    decreases b
  {
    if b > a {
      PowersGrow(a, b - 1);
    } else if a > 0 {
      PowersGrow(a - 1, b - 1);
    }
  }

  /** Challenges 0 to k - 1 were redeemed at once, and all expire at second 60. */
  predicate Filled(s: State, k: nat) {
    && s.clock == 0 && s.pending == map[] && s.collected == []
    && |s.redeemed| == k && (k > 0 ==> Numbered(0, 60) in s.accepted)
    && forall n | n in s.redeemed :: s.redeemed[n] == 60 && FromBigEndian(n) < k
  }

  lemma ReadStep(s: State, t: Tid, payload: Payload, now: int) returns (s1: State)
    requires Reachable(0, s) && s.clock <= now && t !in s.pending && Genuine([], Tagged(payload), now)
    ensures Reachable(0, s1)
    ensures s1 == s.(clock := now, pending := s.pending[t := Reading([], Tagged(payload), now, |s.collected|)])
  {
    ReachableStep(0, s, Read(t, [], Tagged(payload), now));
    s1 := Apply(s, Read(t, [], Tagged(payload), now));
  }

  /** A section that finds its nonce unknown, and room at once or after collecting. */
  lemma LockStep(s: State, t: Tid, now: int) returns (s1: State)
    requires Reachable(0, s) && s.clock <= now && t in s.pending && VerdictOf(s, t) == Accepted
    ensures Reachable(0, s1)
    ensures s1.clock == now && s1.pending == s.pending - {t}
    ensures var r := s.pending[t];
            && s1.accepted == s.accepted + [r.value.payload]
            && s1.redeemed == (if |s.redeemed| < MAX_REDEEMED then s.redeemed else Unexpired(s.redeemed, r.now))
                              [NonceOf(r.value.payload) := Expiry(r.value.payload)]
    ensures |s.redeemed| < MAX_REDEEMED ==> s1.collected == s.collected
  {
    ReachableStep(0, s, Lock(t, now));
    s1 := Apply(s, Lock(t, now));
  }

  lemma FilledGrows(s: State, k: nat, s2: State)
    requires Filled(s, k) && s2.clock == 0 && s2.pending == map[] && s2.collected == []
    requires |Numbered(k, 60)| == 24 && FromBigEndian(NonceOf(Numbered(k, 60))) == k
    requires s2.redeemed == s.redeemed[NonceOf(Numbered(k, 60)) := 60]
    requires s2.accepted == s.accepted + [Numbered(k, 60)]
    ensures Filled(s2, k + 1)
  {
    var n := NonceOf(Numbered(k, 60));
    assert n !in s.redeemed;
    assert s2.redeemed.Keys == s.redeemed.Keys + {n};
    assert s2.accepted[|s.accepted|] == Numbered(k, 60);
  }

  lemma FillOne(s: State, k: nat) returns (s2: State)
    requires Reachable(0, s) && Filled(s, k) && k < MAX_REDEEMED
    ensures Reachable(0, s2) && Filled(s2, k + 1)
  {
    NumberedIsGenuine(k, 60, 0);
    var s1 := ReadStep(s, 0, Numbered(k, 60), 0);
    s2 := LockStep(s1, 0, 0);
    FilledGrows(s, k, s2);
  }

  lemma {:induction false} Fill(k: nat) returns (s: State)
    requires k <= MAX_REDEEMED
    ensures Reachable(0, s) && Filled(s, k)
  {
    if k == 0 {
      s := Init(0);
      assert Runs(s, []) && After(s, []) == s;
    } else {
      s := Fill(k - 1);
      s := FillOne(s, k - 1);
    }
  }

  lemma AllExpired(redeemed: Redeemed)
    requires forall n | n in redeemed :: redeemed[n] == 60
    ensures Unexpired(redeemed, 60 * SECOND) == map[]
  {}

  /** Two calls have read the clock, the one with a used challenge first, and the store is full. */
  lemma TwoReaders(first: Payload, other: Payload) returns (s: State)
    requires first == Numbered(0, 60) && other == Numbered(MAX_REDEEMED, 100)
    ensures |first| == |other| == 24 && NonceOf(first) != NonceOf(other)
    ensures Reachable(0, s) && s.clock == 60 * SECOND && first in s.accepted
    ensures 1 in s.pending && s.pending[1].username == [] && s.pending[1].value == Tagged(first)
    ensures 2 in s.pending && s.pending[2].username == [] && s.pending[2].value == Tagged(other)
    ensures VerdictOf(s, 2) == Accepted && Genuine([], Tagged(first), s.pending[1].now)
    ensures |s.redeemed| == MAX_REDEEMED && Unexpired(s.redeemed, s.pending[2].now) == map[]
  {
    s := Fill(MAX_REDEEMED);
    NumberedIsGenuine(0, 60, 59 * SECOND);
    NumberedIsGenuine(MAX_REDEEMED, 100, 60 * SECOND);
    AllExpired(s.redeemed);
    assert NonceOf(other) !in s.redeemed;
    s := ReadStep(s, 1, first, 59 * SECOND);
    s := ReadStep(s, 2, other, 60 * SECOND);
  }

  /** A run that uses a challenge twice: with the store full, call 1 reads the clock a second
      before challenge 0 expires, call 2 reads it a second later, takes the lock first and
      collects, and call 1 finds challenge 0 forgotten. */
  lemma UsedTwice() returns (s: State)
    ensures Reachable(0, s)
    ensures exists i, j | 0 <= i < j < |s.accepted| :: s.accepted[i] == s.accepted[j]
  {
    var first, other := Numbered(0, 60), Numbered(MAX_REDEEMED, 100);
    var s2 := TwoReaders(first, other);
    var i :| 0 <= i < |s2.accepted| && s2.accepted[i] == first;
    var s3 := LockStep(s2, 2, 60 * SECOND);
    assert s3.redeemed.Keys == {NonceOf(other)};
    s := LockStep(s3, 1, 60 * SECOND);
    assert s.accepted[i] == first && s.accepted[|s3.accepted|] == first;
  }
}

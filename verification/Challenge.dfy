/** Single-use login challenges (pkg/api/challenge.go).

    A challenge is a payload (a 16-byte nonce and an 8-byte expiry) and a MAC over the
    username and the payload.  Issuing stores nothing; the store remembers redeemed nonces,
    and forgets the expired ones when the set is full.  Taking the clock and the mutex is
    modelled as one atomic step. */
module Challenge {

  type Byte = x: int | 0 <= x < 256
  type Nonce = seq<Byte>
  type Payload = seq<Byte>

  const SECOND: int := 1_000_000_000 // times are in nanoseconds
  const TTL: int := 60 * SECOND
  const MAX_REDEEMED: nat := 100_000

  // ---------- the wire format ----------

  /** The eight bytes of n, most significant first. */
  function BigEndian(n: int, width: nat): (b: seq<Byte>)
    ensures |b| == width
    decreases width
  {
    if width == 0 then [] else BigEndian(n / 256, width - 1) + [n % 256]
  }

  function FromBigEndian(b: seq<Byte>): (n: int)
    ensures n >= 0
  {
    if b == [] then 0 else FromBigEndian(b[..|b| - 1]) * 256 + b[|b| - 1]
  }

  function Pow256(width: nat): int {
    if width == 0 then 1 else 256 * Pow256(width - 1)
  }

  lemma {:induction false} BigEndianRoundTrip(n: int, width: nat)
    requires 0 <= n < Pow256(width)
    ensures FromBigEndian(BigEndian(n, width)) == n
  {
    if width > 0 {
      BigEndianRoundTrip(n / 256, width - 1);
      assert BigEndian(n, width)[..width - 1] == BigEndian(n / 256, width - 1);
    }
  }

  /** Go's int64(uint64). */
  function AsInt64(n: int): int {
    if n >= 0x8000_0000_0000_0000 then n - 0x1_0000_0000_0000_0000 else n
  }

  function MakePayload(nonce: Nonce, expiry: int): Payload {
    nonce + BigEndian(expiry, 8)
  }

  /** Expiry in seconds, as verify reads it. */
  function Expiry(payload: Payload): int
    requires |payload| == 24
  {
    AsInt64(FromBigEndian(payload[16..]))
  }

  function NonceOf(payload: Payload): Nonce
    requires |payload| == 24
  {
    payload[..16]
  }

  lemma PayloadRoundTrip(nonce: Nonce, expiry: int)
    requires |nonce| == 16 && 0 <= expiry < 0x8000_0000_0000_0000
    ensures |MakePayload(nonce, expiry)| == 24
    ensures NonceOf(MakePayload(nonce, expiry)) == nonce && Expiry(MakePayload(nonce, expiry)) == expiry
  {
    assert Pow256(8) == 256 * Pow256(7) == 65536 * Pow256(6) == 0x100_0000 * Pow256(5) == 0x1_0000_0000 * Pow256(4);
    assert Pow256(4) == 0x1_0000_0000;
    BigEndianRoundTrip(expiry, 8);
    assert MakePayload(nonce, expiry)[16..] == BigEndian(expiry, 8);
  }

  /** What the MAC is computed over. */
  function MacMessage(username: seq<Byte>, payload: Payload): seq<Byte> {
    username + [0] + payload
  }

  /** The payload has a fixed length, so no two (username, payload) pairs share a message,
      even if a username contains the separator. */
  lemma MacMessageInjective(u1: seq<Byte>, p1: Payload, u2: seq<Byte>, p2: Payload)
    requires |p1| == |p2| && MacMessage(u1, p1) == MacMessage(u2, p2)
    ensures u1 == u2 && p1 == p2
  {
    var m1, m2 := MacMessage(u1, p1), MacMessage(u2, p2);
    assert |u1| == |u2|;
    assert u1 == m1[..|u1|] && u2 == m2[..|u2|];
    assert p1 == m1[|u1| + 1..] && p2 == m2[|u2| + 1..];
  }

  /** A MAC under the store's key: equal exactly for equal messages.  Anything else a caller
      may present is Other. */
  datatype Tag = Signed(message: seq<Byte>) | Other(bytes: seq<Byte>)

  /** What verify is given: something that does not decode, or a payload and a tag. */
  datatype Value = Garbled | Token(payload: Payload, tag: Tag)

  // ---------- the store ----------

  datatype Outcome = Accepted | Invalid | TooMany

  type Redeemed = map<Nonce, int>

  function Unexpired(redeemed: Redeemed, now: int): Redeemed {
    map n | n in redeemed && now < redeemed[n] * SECOND :: redeemed[n]
  }

  /** The value is one this store issued for username, and has not expired. */
  predicate Genuine(username: seq<Byte>, value: Value, now: int) {
    && value.Token?
    && |value.payload| == 24
    && value.tag == Signed(MacMessage(username, value.payload))
    && now < Expiry(value.payload) * SECOND
  }

  function Verdict(redeemed: Redeemed, username: seq<Byte>, value: Value, now: int): Outcome {
    if !Genuine(username, value, now) || NonceOf(value.payload) in redeemed then Invalid
    else if |redeemed| < MAX_REDEEMED || |Unexpired(redeemed, now)| < MAX_REDEEMED then Accepted
    else TooMany
  }

  function AfterVerify(redeemed: Redeemed, username: seq<Byte>, value: Value, now: int): Redeemed {
    if Verdict(redeemed, username, value, now) == Invalid then redeemed
    else
      var kept := if |redeemed| < MAX_REDEEMED then redeemed else Unexpired(redeemed, now);
      if Verdict(redeemed, username, value, now) == Accepted
      then kept[NonceOf(value.payload) := Expiry(value.payload)]
      else kept
  }

  class Store {
    var redeemed: Redeemed

    constructor ()
      ensures redeemed == map[]
    {
      redeemed := map[];
    }

    /** The nonce is the caller's randomness. */
    method Issue(username: seq<Byte>, nonce: Nonce, now: int) returns (value: Value)
      requires |nonce| == 16 && 0 <= now && (now + TTL) / SECOND < 0x8000_0000_0000_0000
      ensures value.Token? && |value.payload| == 24 && NonceOf(value.payload) == nonce
      ensures Expiry(value.payload) == (now + TTL) / SECOND
      ensures value.tag == Signed(MacMessage(username, value.payload))
    {
      var payload := MakePayload(nonce, (now + TTL) / SECOND);
      PayloadRoundTrip(nonce, (now + TTL) / SECOND);
      value := Token(payload, Signed(MacMessage(username, payload)));
    }

    method Gc(now: int)
      modifies this
      ensures redeemed == Unexpired(old(redeemed), now)
    {
      var rest := redeemed.Keys;
      while rest != {}
        invariant rest <= old(redeemed).Keys
        invariant redeemed == map n | n in old(redeemed) && (n in rest || now < old(redeemed)[n] * SECOND)
                              :: old(redeemed)[n]
      {
        var nonce :| nonce in rest;
        if !(now < redeemed[nonce] * SECOND) {
          redeemed := redeemed - {nonce};
        }
        rest := rest - {nonce};
      }
    }

    method Verify(username: seq<Byte>, value: Value, now: int) returns (outcome: Outcome)
      modifies this
      ensures outcome == Verdict(old(redeemed), username, value, now)
      ensures redeemed == AfterVerify(old(redeemed), username, value, now)
    {
      if value.Garbled? || |value.payload| != 24 {
        return Invalid;
      }
      if value.tag != Signed(MacMessage(username, value.payload)) {
        return Invalid;
      }
      if !(now < Expiry(value.payload) * SECOND) {
        return Invalid;
      }
      var nonce := NonceOf(value.payload);
      if nonce in redeemed {
        return Invalid;
      }
      if |redeemed| >= MAX_REDEEMED {
        Gc(now);
        if |redeemed| >= MAX_REDEEMED {
          return TooMany;
        }
      }
      redeemed := redeemed[nonce := Expiry(value.payload)];
      outcome := Accepted;
    }
  }

  // ---------- whole runs ----------

  datatype Grant = Grant(username: seq<Byte>, payload: Payload, at: int)

  datatype State = State(
    redeemed: Redeemed,
    clock: int,
    issued: seq<Grant>,
    accepted: seq<Grant>)

  function Init(start: int): State {
    State(map[], start, [], [])
  }

  datatype Event =
    | Issue(username: seq<Byte>, nonce: Nonce, now: int)
    | Present(username: seq<Byte>, value: Value, now: int)

  predicate IsIssued(issued: seq<Grant>, message: seq<Byte>) {
    exists i | 0 <= i < |issued| :: MacMessage(issued[i].username, issued[i].payload) == message
  }

  /** The clock does not go back, and nobody but the store can make a MAC. */
  predicate Enabled(s: State, e: Event) {
    && s.clock <= e.now
    && match e
       case Issue(_, nonce, now) => |nonce| == 16 && 0 <= now && (now + TTL) / SECOND < 0x8000_0000_0000_0000
       case Present(_, value, _) => value.Token? && value.tag.Signed? ==> IsIssued(s.issued, value.tag.message)
  }

  function Result(s: State, e: Event): Outcome
    requires e.Present?
  {
    Verdict(s.redeemed, e.username, e.value, e.now)
  }

  function NewGrant(username: seq<Byte>, nonce: Nonce, now: int): Grant {
    Grant(username, MakePayload(nonce, (now + TTL) / SECOND), now)
  }

  function Apply(s: State, e: Event): State {
    match e
    case Issue(username, nonce, now) =>
      s.(clock := now, issued := s.issued + [NewGrant(username, nonce, now)])
    case Present(username, value, now) =>
      s.(clock := now, redeemed := AfterVerify(s.redeemed, username, value, now),
         accepted := if Result(s, e) == Accepted then s.accepted + [Grant(username, value.payload, now)]
                     else s.accepted)
  }

  predicate Runs(s: State, run: seq<Event>)
    decreases |run|
  {
    run == [] || (Enabled(s, run[0]) && Runs(Apply(s, run[0]), run[1..]))
  }

  function After(s: State, run: seq<Event>): State
    decreases |run|
  {
    if run == [] then s else After(Apply(s, run[0]), run[1..])
  }

  // ---------- single use ----------

  /** A payload that was accepted is still remembered, or has expired. */
  predicate Remembered(redeemed: Redeemed, clock: int, payload: Payload) {
    && |payload| == 24
    && (clock >= Expiry(payload) * SECOND ||
        (NonceOf(payload) in redeemed && redeemed[NonceOf(payload)] == Expiry(payload)))
  }

  predicate IssuedOk(g: Grant) {
    |g.payload| == 24 && Expiry(g.payload) == (g.at + TTL) / SECOND
  }

  /** g was issued for its username, less than a TTL before. */
  predicate Backs(issue: Grant, g: Grant) {
    issue.username == g.username && issue.payload == g.payload && g.at < issue.at + TTL
  }

  predicate FromIssue(issued: seq<Grant>, g: Grant) {
    exists i | 0 <= i < |issued| :: Backs(issued[i], g)
  }

  predicate OncePerPayload(accepted: seq<Grant>) {
    forall i, j | 0 <= i < j < |accepted| :: accepted[i].payload != accepted[j].payload
  }

  predicate Inv(s: State) {
    && |s.redeemed| <= MAX_REDEEMED
    && (forall i | 0 <= i < |s.issued| :: IssuedOk(s.issued[i]))
    && (forall i | 0 <= i < |s.accepted| :: Remembered(s.redeemed, s.clock, s.accepted[i].payload))
    && (forall i | 0 <= i < |s.accepted| :: FromIssue(s.issued, s.accepted[i]))
    && OncePerPayload(s.accepted)
  }

  lemma UnexpiredShrinks(redeemed: Redeemed, now: int)
    ensures |Unexpired(redeemed, now)| <= |redeemed|
  {
    assert Unexpired(redeemed, now).Keys <= redeemed.Keys;
    SubsetSize(Unexpired(redeemed, now).Keys, redeemed.Keys);
  }

  lemma {:induction false} SubsetSize<T>(a: set<T>, b: set<T>)
    requires a <= b
    ensures |a| <= |b|
  {
    assert |b| == |a| + |b - a| by { assert a + (b - a) == b; }
  }

  lemma VerifyKeepsCap(redeemed: Redeemed, username: seq<Byte>, value: Value, now: int)
    requires |redeemed| <= MAX_REDEEMED
    ensures |AfterVerify(redeemed, username, value, now)| <= MAX_REDEEMED
  {
    UnexpiredShrinks(redeemed, now);
  }

  /** What was redeemed stays remembered; a payload that is accepted was not. */
  lemma VerifyRemembers(
    redeemed: Redeemed, clock: int, username: seq<Byte>, value: Value, now: int, payload: Payload)
    requires clock <= now
    ensures Remembered(redeemed, clock, payload) ==>
              Remembered(AfterVerify(redeemed, username, value, now), now, payload)
    ensures Verdict(redeemed, username, value, now) == Accepted ==>
              Remembered(AfterVerify(redeemed, username, value, now), now, value.payload) &&
              !Remembered(redeemed, now, value.payload)
  {
  }

  lemma GenuineWasIssued(s: State, username: seq<Byte>, value: Value, now: int)
    requires Inv(s) && Enabled(s, Present(username, value, now)) && Genuine(username, value, now)
    ensures FromIssue(s.issued, Grant(username, value.payload, now))
  {
    var i :| 0 <= i < |s.issued| && MacMessage(s.issued[i].username, s.issued[i].payload) == value.tag.message;
    assert IssuedOk(s.issued[i]);
    MacMessageInjective(s.issued[i].username, s.issued[i].payload, username, value.payload);
    assert Backs(s.issued[i], Grant(username, value.payload, now));
  }

  lemma FromIssueStays(issued: seq<Grant>, more: Grant, g: Grant)
    requires FromIssue(issued, g)
    ensures FromIssue(issued + [more], g)
  {
    var k :| 0 <= k < |issued| && Backs(issued[k], g);
    assert Backs((issued + [more])[k], g);
  }

  lemma NewGrantOk(username: seq<Byte>, nonce: Nonce, now: int)
    requires |nonce| == 16 && 0 <= now && (now + TTL) / SECOND < 0x8000_0000_0000_0000
    ensures IssuedOk(NewGrant(username, nonce, now))
  {
    PayloadRoundTrip(nonce, (now + TTL) / SECOND);
  }

  lemma IssueInv(s: State, g: Grant, now: int)
    requires Inv(s) && IssuedOk(g) && s.clock <= now
    ensures Inv(s.(clock := now, issued := s.issued + [g]))
  {
    forall i | 0 <= i < |s.accepted| ensures FromIssue(s.issued + [g], s.accepted[i]) {
      FromIssueStays(s.issued, g, s.accepted[i]);
    }
    assert forall i | 0 <= i < |s.accepted| :: Remembered(s.redeemed, s.clock, s.accepted[i].payload);
  }

  lemma PresentInv(s: State, username: seq<Byte>, value: Value, now: int)
    requires Inv(s) && Enabled(s, Present(username, value, now))
    ensures Inv(Apply(s, Present(username, value, now)))
  {
    var s1 := Apply(s, Present(username, value, now));
    VerifyKeepsCap(s.redeemed, username, value, now);
    if Verdict(s.redeemed, username, value, now) == Accepted {
      GenuineWasIssued(s, username, value, now);
    }
    forall i | 0 <= i < |s1.accepted| ensures Remembered(s1.redeemed, now, s1.accepted[i].payload) {
      VerifyRemembers(s.redeemed, s.clock, username, value, now, s1.accepted[i].payload);
    }
    forall i | 0 <= i < |s.accepted| && |s1.accepted| > |s.accepted|
      ensures s.accepted[i].payload != value.payload
    {
      VerifyRemembers(s.redeemed, s.clock, username, value, now, value.payload);
    }
  }

  lemma {:induction false} RunInv(s: State, run: seq<Event>)
    requires Inv(s) && Runs(s, run)
    ensures Inv(After(s, run))
    decreases |run|
  {
    if run != [] {
      match run[0] {
        case Issue(u, n, t) => NewGrantOk(u, n, t); IssueInv(s, NewGrant(u, n, t), t);
        case Present(u, v, t) => PresentInv(s, u, v, t);
      }
      RunInv(Apply(s, run[0]), run[1..]);
    }
  }

  /** Over any run: a payload is accepted at most once, only for the username it was issued
      to and less than a TTL after that; and the redeemed set never exceeds its cap. */
  lemma SingleUse(start: int, run: seq<Event>)
    requires Runs(Init(start), run)
    ensures var s := After(Init(start), run);
            && OncePerPayload(s.accepted)
            && (forall i | 0 <= i < |s.accepted| :: FromIssue(s.issued, s.accepted[i]))
            && |s.redeemed| <= MAX_REDEEMED
  {
    RunInv(Init(start), run);
  }

  // ---------- forgetting changes nothing ----------

  function UnexpiredAccepted(accepted: seq<Grant>, now: int): set<Payload> {
    set g | g in accepted && |g.payload| == 24 && now < Expiry(g.payload) * SECOND :: g.payload
  }

  predicate WasAccepted(accepted: seq<Grant>, payload: Payload) {
    exists i | 0 <= i < |accepted| :: accepted[i].payload == payload
  }

  /** The verdict of a store that keeps every acceptance for ever. */
  function FullVerdict(accepted: seq<Grant>, username: seq<Byte>, value: Value, now: int): Outcome {
    if !Genuine(username, value, now) || WasAccepted(accepted, value.payload) then Invalid
    else if |UnexpiredAccepted(accepted, now)| < MAX_REDEEMED then Accepted
    else TooMany
  }

  predicate DistinctNonces(issued: seq<Grant>) {
    forall i, j | 0 <= i < j < |issued| && |issued[i].payload| == |issued[j].payload| == 24 ::
      NonceOf(issued[i].payload) != NonceOf(issued[j].payload)
  }

  /** Everything in the redeemed set was accepted. */
  predicate Justified(redeemed: Redeemed, accepted: seq<Grant>, nonce: Nonce)
    requires nonce in redeemed
  {
    exists i | 0 <= i < |accepted| ::
      |accepted[i].payload| == 24 && NonceOf(accepted[i].payload) == nonce &&
      Expiry(accepted[i].payload) == redeemed[nonce]
  }

  ghost predicate AllJustified(s: State) {
    forall nonce | nonce in s.redeemed :: Justified(s.redeemed, s.accepted, nonce)
  }

  lemma JustifiedStep(s: State, e: Event)
    requires AllJustified(s)
    ensures AllJustified(Apply(s, e))
  {
    var s1 := Apply(s, e);
    forall nonce | nonce in s1.redeemed ensures Justified(s1.redeemed, s1.accepted, nonce) {
      if nonce in s.redeemed && s1.redeemed[nonce] == s.redeemed[nonce] {
        var i :| 0 <= i < |s.accepted| && |s.accepted[i].payload| == 24 &&
                 NonceOf(s.accepted[i].payload) == nonce && Expiry(s.accepted[i].payload) == s.redeemed[nonce];
        assert s1.accepted[i] == s.accepted[i];
      } else {
        assert s1.accepted[|s.accepted|].payload == e.value.payload;
      }
    }
  }

  lemma {:induction false} RunJustified(s: State, run: seq<Event>)
    requires AllJustified(s) && Runs(s, run)
    ensures AllJustified(After(s, run))
    decreases |run|
  {
    if run != [] {
      JustifiedStep(s, run[0]);
      RunJustified(Apply(s, run[0]), run[1..]);
    }
  }

  /** Of the accepted payloads, the nonce names the payload. */
  lemma NonceNames(s: State, i: nat, j: nat)
    requires Inv(s) && DistinctNonces(s.issued) && i < |s.accepted| && j < |s.issued|
    requires NonceOf(s.accepted[i].payload) == NonceOf(s.issued[j].payload)
    ensures s.accepted[i].payload == s.issued[j].payload
  {
    assert FromIssue(s.issued, s.accepted[i]);
    var k :| 0 <= k < |s.issued| && Backs(s.issued[k], s.accepted[i]);
    assert IssuedOk(s.issued[k]) && IssuedOk(s.issued[j]);
  }

  lemma NoncesSize(payloads: set<Payload>, nonces: set<Nonce>)
    requires forall p | p in payloads :: |p| == 24
    requires forall p, q | p in payloads && q in payloads && NonceOf(p) == NonceOf(q) :: p == q
    requires nonces == set p | p in payloads :: NonceOf(p)
    ensures |nonces| == |payloads|
    decreases |payloads|
  {
    if payloads != {} {
      var p :| p in payloads;
      NoncesSize(payloads - {p}, nonces - {NonceOf(p)});
    }
  }

  lemma AcceptedIsRemembered(s: State, now: int, p: Payload)
    requires Inv(s) && s.clock <= now && p in UnexpiredAccepted(s.accepted, now)
    ensures NonceOf(p) in Unexpired(s.redeemed, now)
  {
    var i :| 0 <= i < |s.accepted| && s.accepted[i].payload == p;
    assert Remembered(s.redeemed, s.clock, s.accepted[i].payload);
  }

  lemma RememberedWasAccepted(s: State, now: int, n: Nonce) returns (i: nat)
    requires AllJustified(s) && n in s.redeemed
    ensures i < |s.accepted| && |s.accepted[i].payload| == 24
    ensures NonceOf(s.accepted[i].payload) == n && Expiry(s.accepted[i].payload) == s.redeemed[n]
  {
    assert Justified(s.redeemed, s.accepted, n);
    i :| 0 <= i < |s.accepted| && |s.accepted[i].payload| == 24 &&
         NonceOf(s.accepted[i].payload) == n && Expiry(s.accepted[i].payload) == s.redeemed[n];
  }

  lemma AcceptedDistinct(s: State, now: int, p: Payload, q: Payload)
    requires Inv(s) && DistinctNonces(s.issued)
    requires p in UnexpiredAccepted(s.accepted, now) && q in UnexpiredAccepted(s.accepted, now)
    requires NonceOf(p) == NonceOf(q)
    ensures p == q
  {
    var i :| 0 <= i < |s.accepted| && s.accepted[i].payload == p;
    var k :| 0 <= k < |s.accepted| && s.accepted[k].payload == q;
    assert FromIssue(s.issued, s.accepted[k]);
    var j :| 0 <= j < |s.issued| && Backs(s.issued[j], s.accepted[k]);
    NonceNames(s, i, j);
  }

  lemma SameUnexpired(s: State, now: int)
    requires Inv(s) && AllJustified(s) && DistinctNonces(s.issued) && s.clock <= now
    ensures |Unexpired(s.redeemed, now)| == |UnexpiredAccepted(s.accepted, now)|
  {
    var payloads, nonces := UnexpiredAccepted(s.accepted, now), Unexpired(s.redeemed, now).Keys;
    forall p | p in payloads ensures NonceOf(p) in nonces {
      AcceptedIsRemembered(s, now, p);
    }
    forall n | n in nonces ensures exists p | p in payloads :: NonceOf(p) == n {
      var i := RememberedWasAccepted(s, now, n);
      assert s.accepted[i].payload in payloads;
    }
    forall p, q | p in payloads && q in payloads && NonceOf(p) == NonceOf(q) ensures p == q {
      AcceptedDistinct(s, now, p, q);
    }
    NoncesSize(payloads, nonces);
  }

  /** A genuine value was used exactly if its nonce is in the redeemed set. */
  lemma UsedIffRedeemed(s: State, username: seq<Byte>, value: Value, now: int)
    requires Inv(s) && AllJustified(s) && DistinctNonces(s.issued)
    requires Enabled(s, Present(username, value, now)) && Genuine(username, value, now)
    ensures NonceOf(value.payload) in s.redeemed <==> WasAccepted(s.accepted, value.payload)
  {
    if NonceOf(value.payload) in s.redeemed {
      GenuineWasIssued(s, username, value, now);
      var j :| 0 <= j < |s.issued| && Backs(s.issued[j], Grant(username, value.payload, now));
      var i := RememberedWasAccepted(s, now, NonceOf(value.payload));
      NonceNames(s, i, j);
    }
    if WasAccepted(s.accepted, value.payload) {
      var i :| 0 <= i < |s.accepted| && s.accepted[i].payload == value.payload;
      assert Remembered(s.redeemed, s.clock, s.accepted[i].payload);
    }
  }

  lemma FullVerdictHolds(s: State, username: seq<Byte>, value: Value, now: int)
    requires Inv(s) && AllJustified(s) && DistinctNonces(s.issued)
    requires Enabled(s, Present(username, value, now))
    ensures Verdict(s.redeemed, username, value, now) == FullVerdict(s.accepted, username, value, now)
  {
    SameUnexpired(s, now);
    UnexpiredShrinks(s.redeemed, now);
    if Genuine(username, value, now) {
      UsedIffRedeemed(s, username, value, now);
    }
  }

  /** With distinct nonces the collecting store decides, in every reachable state, exactly as
      the one that keeps every acceptance. */
  lemma DecidesLikeFullHistory(start: int, run: seq<Event>, e: Event)
    requires Runs(Init(start), run) && e.Present? && Enabled(After(Init(start), run), e)
    requires DistinctNonces(After(Init(start), run).issued)
    ensures var s := After(Init(start), run);
            Result(s, e) == FullVerdict(s.accepted, e.username, e.value, e.now)
  {
    RunInv(Init(start), run);
    RunJustified(Init(start), run);
    FullVerdictHolds(After(Init(start), run), e.username, e.value, e.now);
  }

  // ---------- what was issued is accepted, once ----------

  /** The text handed out with an issue. */
  function TokenOf(g: Grant): Value {
    Token(g.payload, Signed(MacMessage(g.username, g.payload)))
  }

  /** Issuing is open to anyone, as long as the expiry fits its eight bytes. */
  lemma IssuingIsOpen(s: State, username: seq<Byte>, nonce: Nonce, now: int)
    requires |nonce| == 16 && 0 <= now && s.clock <= now < 0x4000_0000_0000_0000
    ensures Enabled(s, Issue(username, nonce, now))
  {}

  /** And every issue of a run counts. */
  lemma {:induction false} EveryIssueCounts(s: State, run: seq<Event>, k: nat)
    requires Runs(s, run) && k < |run| && run[k].Issue?
    ensures exists g | g in After(s, run).issued ::
              g.username == run[k].username && g.at == run[k].now &&
              g.payload == MakePayload(run[k].nonce, (run[k].now + 60 * SECOND) / SECOND)
    decreases |run|
  {
    if k == 0 {
      var g := NewGrant(run[0].username, run[0].nonce, run[0].now);
      assert Apply(s, run[0]).issued[|s.issued|] == g;
      IssuedStays(Apply(s, run[0]), run[1..], g);
    } else {
      EveryIssueCounts(Apply(s, run[0]), run[1..], k - 1);
    }
  }

  lemma {:induction false} IssuedStays(s: State, run: seq<Event>, g: Grant)
    requires Runs(s, run) && g in s.issued
    ensures g in After(s, run).issued
    decreases |run|
  {
    if run != [] {
      IssuedStays(Apply(s, run[0]), run[1..], g);
    }
  }

  /** A challenge presented by the user it was issued to is accepted in the minute after, unless it
      was accepted before or the store is full of others that have not expired. */
  lemma IssuedIsAcceptedOnce(start: int, run: seq<Event>, g: Grant, now: int)
    requires Runs(Init(start), run) && g in After(Init(start), run).issued && After(Init(start), run).clock <= now
    requires DistinctNonces(After(Init(start), run).issued)
    ensures var s := After(Init(start), run);
            var e := Present(g.username, TokenOf(g), now);
            && Enabled(s, e)
            && Result(s, e) == if now >= (g.at + 60 * SECOND) / SECOND * SECOND || WasAccepted(s.accepted, g.payload)
                               then Invalid
                               else if |UnexpiredAccepted(s.accepted, now)| < 100_000 then Accepted else TooMany
  {
    RunInv(Init(start), run);
    var s := After(Init(start), run);
    var i :| 0 <= i < |s.issued| && s.issued[i] == g;
    assert IssuedOk(s.issued[i]);
    assert IsIssued(s.issued, MacMessage(g.username, g.payload));
    DecidesLikeFullHistory(start, run, Present(g.username, TokenOf(g), now));
  }

  // ---------- issuing touches nothing ----------

  function OutcomesOf(s: State, run: seq<Event>): seq<Outcome>
    decreases |run|
  {
    if run == [] then []
    else (if run[0].Present? then [Result(s, run[0])] else []) + OutcomesOf(Apply(s, run[0]), run[1..])
  }

  function WithoutIssues(run: seq<Event>): seq<Event> {
    if run == [] then []
    else (if run[0].Present? then [run[0]] else []) + WithoutIssues(run[1..])
  }

  /** Nobody can cancel a challenge by asking for others: take any issuing out of a run and
      every later outcome is the same. */
  lemma {:induction false} IssuingChangesNothing(s: State, t: State, run: seq<Event>)
    requires s.redeemed == t.redeemed
    ensures OutcomesOf(s, run) == OutcomesOf(t, WithoutIssues(run))
    decreases |run|
  {
    if run != [] {
      if run[0].Issue? {
        IssuingChangesNothing(Apply(s, run[0]), t, run[1..]);
        assert WithoutIssues(run) == WithoutIssues(run[1..]);
      } else {
        IssuingChangesNothing(Apply(s, run[0]), Apply(t, run[0]), run[1..]);
        assert WithoutIssues(run)[1..] == WithoutIssues(run[1..]);
      }
    }
  }
}

/** Certificate revocation (pkg/ca/ca.go and the certificate table of
    pkg/database/postgres_ca.go): connections are checked against an in-memory set of serials
    that is refreshed now and then and leaves out expired certificates.

    Times are nanoseconds; the store keeps microseconds and a certificate keeps seconds. */
module Revocation {
  import opened Wrappers

  type Serial = nat
  type Time = nat

  const SECOND: nat := 1_000_000_000
  const MINUTE: nat := 60 * SECOND
  const HOUR: nat := 60 * MINUTE

  // ---------- what is issued ----------

  datatype Cert = Cert(serial: Serial, validAfter: int, validBefore: int) // Unix seconds

  datatype Record = Record(expiresAt: Time, revokedAt: Option<Time>)

  function Unix(t: int): int {
    t / SECOND
  }

  /** A timestamp as the store keeps it: rounded to the microsecond. */
  function Stored(t: Time): Time {
    (t + 500) / 1000 * 1000
  }

  function CertFor(serial: Serial, now: Time, ttl: nat): Cert {
    Cert(serial, Unix(now - MINUTE), Unix(now + ttl))
  }

  function RecordFor(now: Time, ttl: nat): Record {
    Record(Stored(now + ttl), None)
  }

  /** The SSH library's own check of the validity period. */
  predicate ValidAt(c: Cert, t: Time) {
    c.validAfter <= Unix(t) < c.validBefore
  }

  /** Dropping an expired serial from the cache is safe: when the store takes the certificate
      for expired, its own validity period is over, rounding included. */
  lemma ExpiredRecordMeansExpiredCert(serial: Serial, now: Time, ttl: nat, t: Time)
    requires RecordFor(now, ttl).expiresAt <= t
    ensures !ValidAt(CertFor(serial, now, ttl), t)
  {
    IssuedOutlasts(serial, now, ttl);
    OutlastedIsInvalid(CertFor(serial, now, ttl), RecordFor(now, ttl), t);
  }

  /** The store keeps the record until the certificate is over. */
  predicate Outlasts(r: Record, c: Cert) {
    c.validBefore * SECOND <= r.expiresAt
  }

  lemma IssuedOutlasts(serial: Serial, now: Time, ttl: nat)
    ensures Outlasts(RecordFor(now, ttl), CertFor(serial, now, ttl))
  {
    var end := now + ttl;
    assert end / SECOND * SECOND <= end;
    StoredKeepsSeconds(end, end / SECOND);
  }

  lemma OutlastedIsInvalid(c: Cert, r: Record, t: Time)
    requires Outlasts(r, c) && r.expiresAt <= t
    ensures !ValidAt(c, t)
  {
    assert c.validBefore * SECOND <= t;
  }

  lemma StoredKeepsSeconds(t: Time, s: nat)
    requires s * SECOND <= t
    ensures s * SECOND <= Stored(t)
  {
    var k := s * 1_000_000;
    assert k * 1000 <= t + 500;
    assert k <= (t + 500) / 1000;
  }

  // ---------- the authority ----------

  datatype Config = Config(userHours: int, maxUserHours: int, hostHours: int)

  function Positive(hours: int, default: nat): nat {
    if hours <= 0 then default * HOUR else hours * HOUR
  }

  /** A requested lifetime is granted up to the maximum; anything else is the default. */
  function Clamped(requested: int, default: nat, max: nat): (ttl: nat)
    ensures requested > 0 ==> ttl <= max && ttl <= requested && (requested <= max ==> ttl == requested)
  {
    if requested <= 0 then default else if requested > max then max else requested
  }

  /** The lifetime of a user certificate is what was asked for, or the longest allowed if that is
      less; without asking it is the default, which no maximum bounds. */
  lemma ClampedIs(requested: int, default: nat, max: nat)
    ensures requested > 0 ==> Clamped(requested, default, max) == if requested <= max then requested else max
    ensures requested <= 0 ==> Clamped(requested, default, max) == default
  {}

  /** A lifetime is configured in hours; without one there is a default. */
  lemma ConfiguredHours(hours: int, default: nat)
    ensures Positive(hours, default) == (if hours > 0 then hours else default) * 3_600_000_000_000
  {}

  /** A certificate is valid from the second a minute before its issue, to just before the second
      in which its lifetime ends. */
  lemma ValidForItsLifetime(serial: Serial, now: Time, ttl: nat, t: Time)
    ensures ValidAt(CertFor(serial, now, ttl), t) <==>
            (now - 60_000_000_000) / 1_000_000_000 <= t / 1_000_000_000 < (now + ttl) / 1_000_000_000
    ensures now - 60_000_000_000 <= t && t + 1_000_000_000 <= now + ttl ==> ValidAt(CertFor(serial, now, ttl), t)
    ensures ValidAt(CertFor(serial, now, ttl), t) ==> now - 61_000_000_000 < t < now + ttl
  {}

  datatype Answer = Done | NotFound

  class Authority {
    const config: Config
    var revoked: set<Serial>
    var records: map<Serial, Record> // the store

    constructor (config: Config, records: map<Serial, Record>)
      ensures this.config == config && this.records == records && revoked == {}
    {
      this.config := config;
      this.records := records;
      revoked := {};
    }

    /** None when the serial is taken. */
    method IssueUserCert(serial: Serial, requested: int, now: Time) returns (c: Option<Cert>)
      modifies `records
      ensures c.None? <==> serial in old(records)
      ensures c.None? ==> records == old(records)
      ensures c.Some? ==>
                var ttl := Clamped(requested, Positive(config.userHours, 12), Positive(config.maxUserHours, 24));
                c.value == CertFor(serial, now, ttl) && records == old(records)[serial := RecordFor(now, ttl)]
    {
      var ttl := Clamped(requested, Positive(config.userHours, 12), Positive(config.maxUserHours, 24));
      c := Issue(serial, ttl, now);
    }

    /** None without a principal, or when the serial is taken. */
    method IssueHostCert(serial: Serial, principals: seq<string>, requested: int, now: Time)
      returns (c: Option<Cert>)
      modifies `records
      ensures c.None? <==> principals == [] || serial in old(records)
      ensures c.None? ==> records == old(records)
      ensures c.Some? ==>
                var ttl := if requested <= 0 then Positive(config.hostHours, 8760) else requested;
                c.value == CertFor(serial, now, ttl) && records == old(records)[serial := RecordFor(now, ttl)]
    {
      if |principals| == 0 {
        return None;
      }
      var ttl := requested;
      if ttl <= 0 {
        ttl := Positive(config.hostHours, 8760);
      }
      c := Issue(serial, ttl, now);
    }

    /** Signing and recording; a certificate that cannot be recorded is not handed out. */
    method Issue(serial: Serial, ttl: nat, now: Time) returns (c: Option<Cert>)
      modifies `records
      ensures c == if serial in old(records) then None else Some(CertFor(serial, now, ttl))
      ensures records == if serial in old(records) then old(records) else old(records)[serial := RecordFor(now, ttl)]
    {
      var cert := Cert(serial, Unix(now - MINUTE), Unix(now + ttl));
      if serial in records {
        return None;
      }
      records := records[serial := Record(Stored(now + ttl), None)];
      c := Some(cert);
    }

    /** The store's half of a revocation. */
    method RevokeSSHCertificate(serial: Serial, now: Time) returns (answer: Answer)
      modifies `records
      ensures answer == if Revocable(old(records), serial) then Done else NotFound
      ensures records == if answer == Done then WithRevoked(old(records), serial, now) else old(records)
    {
      if serial !in records || records[serial].revokedAt.Some? {
        return NotFound;
      }
      records := records[serial := records[serial].(revokedAt := Some(now))];
      answer := Done;
    }

    method RevokeCertificate(serial: Serial, now: Time) returns (answer: Answer)
      modifies this
      ensures answer == if Revocable(old(records), serial) then Done else NotFound
      ensures records == if answer == Done then WithRevoked(old(records), serial, now) else old(records)
      ensures revoked == if answer == Done then old(revoked) + {serial} else old(revoked)
    {
      answer := RevokeSSHCertificate(serial, now);
      if answer != Done {
        return;
      }
      revoked := revoked + {serial};
    }

    method ListRevokedCertSerials(now: Time) returns (serials: seq<Serial>)
      ensures forall k :: k in serials <==> k in Listed(records, now)
    {
      serials := [];
      var rest := records.Keys;
      while rest != {}
        invariant rest <= records.Keys
        invariant forall k :: k in serials <==> k in Listed(records, now) && k !in rest
      {
        var k :| k in rest;
        if records[k].revokedAt.Some? && records[k].expiresAt > now {
          serials := serials + [k];
        }
        rest := rest - {k};
      }
    }

    method RefreshRevocationCache(now: Time)
      modifies `revoked
      ensures revoked == Listed(records, now)
    {
      var serials := ListRevokedCertSerials(now);
      var loaded: set<Serial> := {};
      for i := 0 to |serials|
        invariant loaded == set k | k in serials[..i]
      {
        loaded := loaded + {serials[i]};
      }
      assert serials[..|serials|] == serials;
      revoked := loaded;
    }
  }

  predicate Revocable(records: map<Serial, Record>, serial: Serial) {
    serial in records && records[serial].revokedAt.None?
  }

  function WithRevoked(records: map<Serial, Record>, serial: Serial, now: Time): map<Serial, Record>
    requires serial in records
  {
    records[serial := records[serial].(revokedAt := Some(now))]
  }

  function Listed(records: map<Serial, Record>, now: Time): set<Serial> {
    set k | k in records && records[k].revokedAt.Some? && records[k].expiresAt > now
  }

  // ---------- runs ----------

  /** The authority, the store and the certificates handed out.  Another process may revoke at
      any time; a refresh lists the store and later swaps the set in; a revocation made here
      writes the store and later the set. */
  datatype State = State(
    cache: set<Serial>,
    records: map<Serial, Record>,
    certs: map<Serial, Cert>,
    listing: Option<set<Serial>>, // listed, not yet swapped in
    // history
    unseen: set<Serial>, // revocations the cache has not been told of
    unlisted: set<Serial>) // revocations made since the listing

  datatype Event =
    | Issue(serial: Serial, ttl: nat, now: Time)
    | RevokeInStore(serial: Serial, now: Time) // by this process or another
    | RevokeInCache(serial: Serial, now: Time) // the second half, when this process revoked
    | List(now: Time)
    | Swap(now: Time)

  function Apply(s: State, e: Event): State {
    match e
    case Issue(serial, ttl, now) =>
      if serial in s.records then s
      else s.(records := s.records[serial := RecordFor(now, ttl)],
              certs := s.certs[serial := CertFor(serial, now, ttl)])
    case RevokeInStore(serial, now) =>
      if !Revocable(s.records, serial) then s
      else s.(records := WithRevoked(s.records, serial, now),
              unseen := s.unseen + {serial}, unlisted := s.unlisted + {serial})
    case RevokeInCache(serial, _) => s.(cache := s.cache + {serial}, unseen := s.unseen - {serial})
    case List(now) => s.(listing := Some(Listed(s.records, now)), unlisted := {})
    case Swap(_) =>
      if s.listing.None? then s
      else s.(cache := s.listing.value, listing := None, unseen := s.unlisted)
  }

  /** The second half of a revocation follows its first. */
  predicate Enabled(s: State, clock: Time, e: Event) {
    && clock <= e.now
    && (e.RevokeInCache? ==> e.serial in s.records && s.records[e.serial].revokedAt.Some?)
  }

  predicate Runs(s: State, clock: Time, run: seq<Event>)
    decreases |run|
  {
    run == [] || (Enabled(s, clock, run[0]) && Runs(Apply(s, run[0]), run[0].now, run[1..]))
  }

  function After(s: State, run: seq<Event>): State
    decreases |run|
  {
    if run == [] then s else After(Apply(s, run[0]), run[1..])
  }

  function ClockAfter(clock: Time, run: seq<Event>): Time {
    if run == [] then clock else run[|run| - 1].now
  }

  /** A process that starts over an existing store: the cache has been told of nothing. */
  ghost predicate Starts(s: State, clock: Time) {
    && s.cache == {} && s.listing == None
    && s.certs.Keys == s.records.Keys
    && (forall k | k in s.records :: exists now, ttl :: IssuedAs(s, k, now, ttl))
    && (forall k | k in s.records && s.records[k].revokedAt.Some? :: s.records[k].revokedAt.value <= clock)
    && s.unseen == set k | k in s.records && s.records[k].revokedAt.Some?
  }

  ghost predicate IssuedAs(s: State, k: Serial, now: Time, ttl: nat)
    requires k in s.records && k in s.certs
  {
    s.certs[k] == CertFor(k, now, ttl) && s.records[k].expiresAt == RecordFor(now, ttl).expiresAt
  }

  /** The check made of a connection. */
  predicate Accepts(s: State, k: Serial, t: Time)
    requires k in s.certs
  {
    k !in s.cache && ValidAt(s.certs[k], t)
  }

  /** The same check against the full record. */
  predicate ShouldAccept(s: State, k: Serial, t: Time)
    requires k in s.certs && k in s.records
  {
    s.records[k].revokedAt.None? && ValidAt(s.certs[k], t)
  }

  // ---------- the inductive invariant ----------

  predicate IsRevoked(s: State, k: Serial) {
    k in s.records && s.records[k].revokedAt.Some?
  }

  /** A set that stands for the revoked serials up to what it has not been told: it holds only
      revoked ones, and lacks only untold or expired ones. */
  predicate Mirrors(s: State, clock: Time, told: set<Serial>, untold: set<Serial>) {
    && told !! untold
    && (forall k | k in told + untold :: IsRevoked(s, k))
    && (forall k | k in s.records && IsRevoked(s, k) && s.records[k].expiresAt > clock :: k in told || k in untold)
  }

  /** Every certificate has a record that outlasts it. */
  predicate AllRecorded(s: State) {
    && s.certs.Keys == s.records.Keys
    && (forall k | k in s.records :: Outlasts(s.records[k], s.certs[k]))
  }

  ghost predicate Inv(s: State, clock: Time) {
    && AllRecorded(s)
    && Mirrors(s, clock, s.cache, s.unseen)
    && (s.listing.Some? ==> Mirrors(s, clock, s.listing.value, s.unlisted))
  }

  lemma StartInv(s: State, clock: Time)
    requires Starts(s, clock)
    ensures Inv(s, clock)
  {
    forall k | k in s.records ensures Outlasts(s.records[k], s.certs[k]) {
      var now, ttl :| IssuedAs(s, k, now, ttl);
      IssuedOutlasts(k, now, ttl);
    }
  }

  lemma StepRecorded(s: State, e: Event)
    requires AllRecorded(s)
    ensures AllRecorded(Apply(s, e))
  {
    if e.Issue? {
      IssuedOutlasts(e.serial, e.now, e.ttl);
    }
  }

  lemma ListedMirrors(s: State, now: Time)
    ensures Mirrors(s, now, Listed(s.records, now), {})
  {}

  /** A set stays a mirror while it is left alone. */
  lemma MirrorsStays(s: State, clock: Time, e: Event, told: set<Serial>, untold: set<Serial>)
    requires Mirrors(s, clock, told, untold) && clock <= e.now
    ensures e.RevokeInStore? && Revocable(s.records, e.serial) ==>
              Mirrors(Apply(s, e), e.now, told, untold + {e.serial})
    ensures !(e.RevokeInStore? && Revocable(s.records, e.serial)) ==> Mirrors(Apply(s, e), e.now, told, untold)
  {}

  lemma TellingMirrors(s: State, clock: Time, told: set<Serial>, untold: set<Serial>, k: Serial)
    requires Mirrors(s, clock, told, untold) && IsRevoked(s, k)
    ensures Mirrors(s, clock, told + {k}, untold - {k})
  {}

  lemma StepInv(s: State, clock: Time, e: Event)
    requires Inv(s, clock) && Enabled(s, clock, e)
    ensures Inv(Apply(s, e), e.now)
  {
    StepRecorded(s, e);
    MirrorsStays(s, clock, e, s.cache, s.unseen);
    if s.listing.Some? {
      MirrorsStays(s, clock, e, s.listing.value, s.unlisted);
    }
    if e.List? {
      ListedMirrors(Apply(s, e), e.now);
    }
    if e.RevokeInCache? {
      TellingMirrors(Apply(s, e), e.now, s.cache, s.unseen, e.serial);
    }
  }

  lemma {:induction false} RunInv(s: State, clock: Time, run: seq<Event>)
    requires Inv(s, clock) && Runs(s, clock, run)
    ensures Inv(After(s, run), ClockAfter(clock, run))
    decreases |run|
  {
    if run != [] {
      StepInv(s, clock, run[0]);
      RunInv(Apply(s, run[0]), run[0].now, run[1..]);
    }
  }

  // ---------- what holds over every run ----------

  lemma ExpiredIsInvalid(s: State, k: Serial, t: Time)
    requires AllRecorded(s) && k in s.records
    ensures s.records[k].expiresAt <= t ==> !ValidAt(s.certs[k], t)
  {
    if s.records[k].expiresAt <= t {
      OutlastedIsInvalid(s.certs[k], s.records[k], t);
    }
  }

  /** At every later instant the cache gives the answer of the full record, except for a
      revocation it has not been told of, and then only until the certificate expires.  So a
      good certificate is never refused, and leaving expired serials out changes nothing. */
  lemma DiffersExactlyOnUnseen(s: State, clock: Time, run: seq<Event>, k: Serial, t: Time)
    requires Starts(s, clock) && Runs(s, clock, run)
    requires k in After(s, run).certs && ClockAfter(clock, run) <= t
    ensures k in After(s, run).records
    ensures ShouldAccept(After(s, run), k, t) ==> Accepts(After(s, run), k, t)
    ensures Accepts(After(s, run), k, t) && !ShouldAccept(After(s, run), k, t) <==>
            k in After(s, run).unseen && ValidAt(After(s, run).certs[k], t)
  {
    StartInv(s, clock);
    RunInv(s, clock, run);
    ExpiredIsInvalid(After(s, run), k, t);
  }

  /** The cache was told of the revocation, and no set listed before it is still to come. */
  predicate Told(s: State, k: Serial) {
    IsRevoked(s, k) && k !in s.unseen && (s.listing.Some? ==> k !in s.unlisted)
  }

  /** Then the certificate is refused for good. */
  lemma {:induction false} ToldStaysTold(s: State, clock: Time, run: seq<Event>, k: Serial)
    requires Runs(s, clock, run) && Told(s, k)
    ensures Told(After(s, run), k)
    decreases |run|
  {
    if run != [] {
      ToldStaysTold(Apply(s, run[0]), run[0].now, run[1..], k);
    }
  }

  lemma RefusedForGood(s: State, clock: Time, run: seq<Event>, k: Serial, t: Time)
    requires Inv(s, clock) && Runs(s, clock, run) && Told(s, k) && ClockAfter(clock, run) <= t
    ensures k in After(s, run).certs && !Accepts(After(s, run), k, t)
  {
    RunInv(s, clock, run);
    ToldStaysTold(s, clock, run, k);
    ExpiredIsInvalid(After(s, run), k, t);
  }

  /** From here on, whatever happens, a connection made at t with certificate k is refused. */
  ghost predicate RefusedFrom(s: State, clock: Time, k: Serial, t: Time) {
    forall run | Runs(s, clock, run) && ClockAfter(clock, run) <= t ::
      k in After(s, run).certs && !Accepts(After(s, run), k, t)
  }

  lemma {:induction false} CertStays(s: State, run: seq<Event>, k: Serial)
    requires s.certs.Keys == s.records.Keys && k in s.certs
    ensures k in After(s, run).certs && After(s, run).certs[k] == s.certs[k]
    decreases |run|
  {
    if run != [] {
      CertStays(Apply(s, run[0]), run[1..], k);
    }
  }

  /** Nothing less than being told will do, in any reachable state: a certificate still valid at
      t is refused on every way there if and only if its revocation is told. */
  lemma RefusedForGoodIffTold(s: State, clock: Time, k: Serial, t: Time)
    requires Inv(s, clock) && k in s.certs && clock <= t
    ensures RefusedFrom(s, clock, k, t) <==> Told(s, k) || !ValidAt(s.certs[k], t)
  {
    forall run | Runs(s, clock, run) && ClockAfter(clock, run) <= t
      ensures Told(s, k) || !ValidAt(s.certs[k], t) ==>
                k in After(s, run).certs && !Accepts(After(s, run), k, t)
    {
      CertStays(s, run, k);
      if Told(s, k) {
        RefusedForGood(s, clock, run, k, t);
      }
    }
    if !Told(s, k) && ValidAt(s.certs[k], t) {
      AcceptedAgain(s, clock, k, t);
    }
  }

  /** At once when the cache lacks it, else after the swap that is still to come. */
  lemma AcceptedAgain(s: State, clock: Time, k: Serial, t: Time)
    requires Inv(s, clock) && k in s.certs && clock <= t && !Told(s, k) && ValidAt(s.certs[k], t)
    ensures !RefusedFrom(s, clock, k, t)
  {
    var run: seq<Event> := if k in s.cache then [Swap(clock)] else [];
    assert run != [] ==> run[1..] == [] && After(s, run) == Apply(s, run[0]);
    assert Runs(s, clock, run) && ClockAfter(clock, run) <= t;
    assert Accepts(After(s, run), k, t);
  }

  predicate Refreshes(e: Event) {
    e.List? || e.Swap?
  }

  /** A set listed before the revocation of k is still to come. */
  predicate OldListing(s: State, k: Serial) {
    s.listing.Some? && k in s.unlisted
  }

  lemma {:induction false} OldListingStays(s: State, clock: Time, run: seq<Event>, k: Serial)
    requires Runs(s, clock, run) && IsRevoked(s, k)
    ensures IsRevoked(After(s, run), k)
    ensures OldListing(After(s, run), k) <==> OldListing(s, k) && forall e | e in run :: !Refreshes(e)
    decreases |run|
  {
    if run != [] {
      var e, rest := run[0], run[1..];
      OldListingStays(Apply(s, e), e.now, rest, k);
      assert OldListing(Apply(s, e), k) <==> OldListing(s, k) && !Refreshes(e);
      assert run == [e] + rest;
      assert forall x :: x in run <==> x == e || x in rest;
    }
  }

  /** A revocation made here, its two halves with anything between them: it is told for good
      if and only if no refresh had listed the store before it, or a refresh swapped or listed
      again between the halves. */
  lemma RevokingHereTells(s: State, clock: Time, k: Serial, now: Time, between: seq<Event>, later: Time)
    requires Inv(s, clock) && clock <= now && Revocable(s.records, k)
    requires Runs(Apply(s, RevokeInStore(k, now)), now, between)
    ensures var t := Apply(After(Apply(s, RevokeInStore(k, now)), between), RevokeInCache(k, later));
            Told(t, k) <==> s.listing.None? || exists e | e in between :: Refreshes(e)
  {
    OldListingStays(Apply(s, RevokeInStore(k, now)), now, between, k);
  }

  /** So a certificate revoked here stays refused for as long as it is valid if and only if no
      refresh was between its listing and its swap when the store was written, or a refresh
      listed or swapped before the cache was. */
  lemma RevokedHereIsRefused(s: State, clock: Time, k: Serial, now: Time, between: seq<Event>, later: Time, t: Time)
    requires Inv(s, clock) && clock <= now && Revocable(s.records, k)
    requires Runs(Apply(s, RevokeInStore(k, now)), now, between) && ClockAfter(now, between) <= later <= t
    requires ValidAt(s.certs[k], t)
    ensures var u := Apply(After(Apply(s, RevokeInStore(k, now)), between), RevokeInCache(k, later));
            RefusedFrom(u, later, k, t) <==> s.listing.None? || exists e | e in between :: Refreshes(e)
  {
    var first := RevokeInStore(k, now);
    var a := Apply(s, first);
    StepInv(s, clock, first);
    RunInv(a, now, between);
    OldListingStays(a, now, between, k);
    CertStays(a, between, k);
    var b := After(a, between);
    StepInv(b, ClockAfter(now, between), RevokeInCache(k, later));
    RevokingHereTells(s, clock, k, now, between, later);
    RefusedForGoodIffTold(Apply(b, RevokeInCache(k, later)), later, k, t);
  }

  /** A call to RevokeCertificate, undisturbed: nothing at all when the store has no unrevoked
      certificate of that serial. */
  function Revoked(s: State, k: Serial, now: Time): State {
    if Revocable(s.records, k) then Apply(Apply(s, RevokeInStore(k, now)), RevokeInCache(k, now)) else s
  }

  /** After the call the certificate is refused at t if and only if the call revoked it, or the
      cache held it already, or t is outside its validity. */
  lemma RevokeCallRefuses(s: State, clock: Time, k: Serial, now: Time, t: Time)
    requires Inv(s, clock) && clock <= now && k in s.certs
    ensures k in Revoked(s, k, now).certs
    ensures !Accepts(Revoked(s, k, now), k, t) <==>
            Revocable(s.records, k) || k in s.cache || !ValidAt(s.certs[k], t)
  {}

  /** So when another process was first, the call says "not found" and the certificate is still
      accepted here, until the next refresh. */
  lemma AnotherProcessFirst()
    ensures exists s, run, k, t ::
              && Starts(s, 0) && Runs(s, 0, run) && ClockAfter(0, run) <= t && k in After(s, run).records
              && IsRevoked(After(s, run), k) && !Revocable(After(s, run).records, k)
              && k in Revoked(After(s, run), k, t).certs && Accepts(Revoked(After(s, run), k, t), k, t)
  {
    var s0 := State({}, map[], map[], None, {}, {});
    var a, b := Issue(7, HOUR, 0), RevokeInStore(7, 1);
    var s1 := Apply(s0, a);
    var s2 := Apply(s1, b);
    Extend(s2, 1, [], s1, 0, b);
    Extend(s1, 0, [b], s0, 0, a);
    var run := [a, b];
    assert [b] + [] == [b] && [a] + [b] == run;
    assert Starts(s0, 0) && After(s0, run) == s2;
    assert Accepts(Revoked(s2, 7, 2), 7, 2);
  }

  /** And then the late swap forgets it: a certificate whose revocation had been reported done
      is accepted again, until the next refresh. */
  lemma LateSwapForgets()
    ensures exists s, run, k, t ::
              && Starts(s, 0) && Runs(s, 0, run) && ClockAfter(0, run) <= t
              && RevokeInCache(k, 3) in run && k in After(s, run).certs && Accepts(After(s, run), k, t)
  {
    var s0 := State({}, map[], map[], None, {}, {});
    var a, b, c, d, e := Issue(7, HOUR, 0), List(1), RevokeInStore(7, 2), RevokeInCache(7, 3), Swap(4);
    var s1 := Apply(s0, a);
    var s2 := Apply(s1, b);
    var s3 := Apply(s2, c);
    var s4 := Apply(s3, d);
    var s5 := Apply(s4, e);
    assert s2.listing.value == {};
    Extend(s5, 4, [], s4, 3, e);
    Extend(s4, 3, [e], s3, 2, d);
    Extend(s3, 2, [d, e], s2, 1, c);
    Extend(s2, 1, [c, d, e], s1, 0, b);
    Extend(s1, 0, [b, c, d, e], s0, 0, a);
    var run := [a, b, c, d, e];
    assert [a] + ([b] + ([c] + ([d] + ([e] + [])))) == run;
    assert [e] + [] == [e] && [d] + [e] == [d, e] && [c] + [d, e] == [c, d, e] && [b] + [c, d, e] == [b, c, d, e];
    assert [a] + [b, c, d, e] == run;
    assert Starts(s0, 0);
    assert After(s0, run) == s5;
    assert Accepts(s5, 7, 5);
    assert run[3] == RevokeInCache(7, 3);
  }

  lemma Extend(t: State, now: Time, rest: seq<Event>, s: State, clock: Time, e: Event)
    requires t == Apply(s, e) && now == e.now && Enabled(s, clock, e) && Runs(t, now, rest)
    ensures Runs(s, clock, [e] + rest) && After(s, [e] + rest) == After(t, rest)
  {
    assert ([e] + rest)[1..] == rest;
  }
}

/** What the capability catalog (pkg/api/capabilities.go) guarantees, whatever the grants,
    requests, sessions and machines it is built from. */
module CapabilityCatalog {
  import opened Wrappers
  import opened Capabilities
  import StableSort
  import Text

  // ---------- the candidates are the user's relationships, strongest first ----------

  /** The tiers of addGrants, the two passes of addRequests, addSessions, addTagPeers, addDirectory. */
  function Tier(o: Offer): int {
    if o.source == FromGrant then 0
    else if o.source == FromRequest then if o.status == Pending then 1 else 2
    else SourceRank(o.source) + 1
  }

  predicate Proper(o: Offer) {
    (o.status == Granted <==> o.source == FromGrant) && (o.status == Pending ==> o.source == FromRequest)
  }

  predicate InTier(cs: seq<Candidate>, tier: int) {
    forall i | 0 <= i < |cs| :: Proper(cs[i].offer) && Tier(cs[i].offer) == tier
  }

  predicate UpTo(cs: seq<Candidate>, tier: int) {
    InOrder(cs) && forall i | 0 <= i < |cs| :: Proper(cs[i].offer) && Tier(cs[i].offer) <= tier
  }

  lemma TiersStack(a: seq<Candidate>, low: int, b: seq<Candidate>, high: int)
    requires UpTo(a, low) && InTier(b, high) && low <= high
    ensures UpTo(a + b, high)
  {
    var cs := a + b;
    forall i, j | 0 <= i < j < |cs| ensures NoLater(cs[i].offer, cs[j].offer) {
      if i >= |a| {
        assert cs[i] == b[i - |a|];
      }
      if j >= |a| {
        assert cs[j] == b[j - |a|];
      }
    }
  }

  /** The members of each group of candidates, both ways. */
  lemma {:induction false} ForLoginsMembers(template: Candidate, logins: seq<string>)
    ensures forall c :: c in ForLogins(template, logins) <==>
                        c.remoteUser in logins && c == template.(remoteUser := c.remoteUser)
  {
    if logins != [] {
      var n := |logins| - 1;
      ForLoginsMembers(template, logins[..n]);
      assert logins == logins[..n] + [logins[n]];
    }
  }

  predicate OfGrant(c: Candidate, g: Grant) {
    c.remoteUser in Logins(g.remoteUsers) && c == GrantTemplate(g).(remoteUser := c.remoteUser)
  }

  lemma {:induction false} GrantMembers(grants: seq<Grant>)
    ensures forall c :: c in GrantCandidates(grants) <==> exists g | g in grants :: OfGrant(c, g)
  {
    if grants != [] {
      var n := |grants| - 1;
      GrantMembers(grants[..n]);
      ForLoginsMembers(GrantTemplate(grants[n]), Logins(grants[n].remoteUsers));
      assert grants == grants[..n] + [grants[n]];
      forall c ensures c in GrantCandidates(grants) <==> exists g | g in grants :: OfGrant(c, g) {
        assert c in GrantCandidates(grants) <==> c in GrantCandidates(grants[..n]) || OfGrant(c, grants[n]);
      }
    }
  }

  predicate OfRequest(c: Candidate, r: Request, now: Time) {
    c.remoteUser in Logins(r.remoteUsers) && c == RequestTemplate(r, now).(remoteUser := c.remoteUser)
  }

  lemma {:induction false} RequestMembers(requests: seq<Request>, pending: bool, now: Time)
    ensures forall c :: c in RequestCandidates(requests, pending, now) <==>
                        exists r | r in requests :: IsPending(r) == pending && OfRequest(c, r, now)
  {
    if requests != [] {
      var n := |requests| - 1;
      var last := requests[n];
      RequestMembers(requests[..n], pending, now);
      ForLoginsMembers(RequestTemplate(last, now), Logins(last.remoteUsers));
      assert requests == requests[..n] + [last];
      forall c ensures c in RequestCandidates(requests, pending, now) <==>
                       exists r | r in requests :: IsPending(r) == pending && OfRequest(c, r, now)
      {
        assert c in RequestCandidates(requests, pending, now) <==>
               c in RequestCandidates(requests[..n], pending, now) ||
               (IsPending(last) == pending && OfRequest(c, last, now));
      }
    }
  }

  function SessionCandidate(sessions: seq<Session>, key: SessionKey): Candidate {
    Candidate(key.machineID, key.remoteUser, BOTH,
              Offer(Requestable, FromSession, Connected, "", "", None, Latest(sessions, key)))
  }

  lemma {:induction false} SessionMembers(sessions: seq<Session>, keys: seq<SessionKey>)
    ensures forall c :: c in SessionCandidates(sessions, keys) <==>
                        SessionKey(c.machineID, c.remoteUser) in keys &&
                        c == SessionCandidate(sessions, SessionKey(c.machineID, c.remoteUser))
  {
    if keys != [] {
      var n := |keys| - 1;
      SessionMembers(sessions, keys[..n]);
      assert keys == keys[..n] + [keys[n]];
    }
  }

  lemma {:induction false} TagMembers(ms: seq<Machine>, evidence: set<string>, origins: map<string, string>,
                                      login: string)
    ensures forall c :: c in TagCandidates(ms, evidence, origins, login) <==>
                        exists m | m in ms :: c in TagCandidate(m, evidence, origins, login)
  {
    if ms != [] {
      var n := |ms| - 1;
      TagMembers(ms[..n], evidence, origins, login);
      assert ms == ms[..n] + [ms[n]];
    }
  }

  predicate OfMachine(c: Candidate, m: Machine, login: string) {
    c == Candidate(m.id, login, BOTH, Offer(Requestable, FromDirectory, Listed, "", "", None, None))
  }

  lemma {:induction false} DirectoryMembers(ms: seq<Machine>, login: string)
    ensures forall c :: c in DirectoryCandidates(ms, login) <==> exists m | m in ms :: OfMachine(c, m, login)
  {
    if ms != [] {
      var n := |ms| - 1;
      DirectoryMembers(ms[..n], login);
      assert ms == ms[..n] + [ms[n]];
      forall c ensures c in DirectoryCandidates(ms, login) <==> exists m | m in ms :: OfMachine(c, m, login) {
        assert c in DirectoryCandidates(ms, login) <==>
               c in DirectoryCandidates(ms[..n], login) || OfMachine(c, ms[n], login);
      }
    }
  }

  lemma ByNameMembers(ms: seq<Machine>)
    ensures forall m :: m in ByName(ms) <==> m in ms
  {
    StableSort.SortPermutes(ms, NameLess);
    assert forall m :: m in ByName(ms) <==> m in multiset(ByName(ms));
    assert forall m :: m in ms <==> m in multiset(ms);
  }

  lemma {:induction false} ByIDMembers(ms: seq<Machine>)
    ensures forall m | m in ms :: m.id in ByID(ms)
    ensures forall id | id in ByID(ms) :: ByID(ms)[id] in ms && ByID(ms)[id].id == id
  {
    if ms != [] {
      var n := |ms| - 1;
      ByIDMembers(ms[..n]);
      assert ms == ms[..n] + [ms[n]];
    }
  }

  /** A candidate of the catalog comes from one of the six groups. */
  ghost predicate Origin(input: Inputs, c: Candidate) {
    match Tier(c.offer)
    case 0 => exists g | g in input.grants :: OfGrant(c, g)
    case 1 => exists r | r in input.requests :: IsPending(r) && OfRequest(c, r, input.now)
    case 2 => exists r | r in input.requests :: !IsPending(r) && OfRequest(c, r, input.now)
    case 3 =>
      var key := SessionKey(c.machineID, c.remoteUser);
      c == SessionCandidate(input.sessions, key) && exists s | s in input.sessions :: KeyOf(s) == key
    case 4 =>
      var h := HistoryOf(input);
      exists m | m in input.machines ::
        c in TagCandidate(m, h.evidence, Origins(input.machines, h.evidence), Suggested(h))
    case _ => input.all && exists m | m in input.machines :: OfMachine(c, m, Suggested(HistoryOf(input)))
  }

  lemma {:induction false} SessionKeysMembers(sessions: seq<Session>)
    ensures forall key :: key in SessionKeys(sessions) <==> exists s | s in sessions :: KeyOf(s) == key
  {
    if sessions != [] {
      var n := |sessions| - 1;
      SessionKeysMembers(sessions[..n]);
      assert sessions == sessions[..n] + [sessions[n]];
    }
  }

  lemma CandidatesAreInOrder(input: Inputs)
    ensures UpTo(Related(input), 4) && UpTo(Related(input) + Listing(input), 5)
    ensures InTier(Listing(input), 5)
  {
    var h := HistoryOf(input);
    var a := GrantCandidates(input.grants);
    var b := RequestCandidates(input.requests, true, input.now);
    var c := RequestCandidates(input.requests, false, input.now);
    var d := SessionCandidates(input.sessions, SessionKeys(input.sessions));
    var origins := Origins(input.machines, h.evidence);
    var e := TagCandidates(ByName(input.machines), h.evidence, origins, Suggested(h));
    GroupsAreTiers(input);
    assert UpTo(a, 0);
    TiersStack(a, 0, b, 1);
    TiersStack(a + b, 1, c, 2);
    TiersStack(a + b + c, 2, d, 3);
    TiersStack(a + b + c + d, 3, e, 4);
    TiersStack(a + b + c + d + e, 4, Listing(input), 5);
  }

  lemma GroupsAreTiers(input: Inputs)
    ensures InTier(GrantCandidates(input.grants), 0)
    ensures InTier(RequestCandidates(input.requests, true, input.now), 1)
    ensures InTier(RequestCandidates(input.requests, false, input.now), 2)
    ensures InTier(SessionCandidates(input.sessions, SessionKeys(input.sessions)), 3)
    ensures var h := HistoryOf(input);
            InTier(TagCandidates(ByName(input.machines), h.evidence, Origins(input.machines, h.evidence), Suggested(h)),
                   4)
    ensures InTier(Listing(input), 5)
  {
    GrantTier(input.grants);
    RequestTier(input.requests, true, input.now);
    RequestTier(input.requests, false, input.now);
    SessionTier(input.sessions, SessionKeys(input.sessions));
    var h := HistoryOf(input);
    TagTier(ByName(input.machines), h.evidence, Origins(input.machines, h.evidence), Suggested(h));
    DirectoryTier(ByName(input.machines), Suggested(h));
  }

  lemma GrantTier(grants: seq<Grant>)
    ensures InTier(GrantCandidates(grants), 0)
  {
    GrantMembers(grants);
    forall i | 0 <= i < |GrantCandidates(grants)|
      ensures var c := GrantCandidates(grants)[i]; Proper(c.offer) && Tier(c.offer) == 0
    {
      assert GrantCandidates(grants)[i] in GrantCandidates(grants);
    }
  }

  lemma RequestTier(requests: seq<Request>, pending: bool, now: Time)
    ensures InTier(RequestCandidates(requests, pending, now), if pending then 1 else 2)
  {
    RequestMembers(requests, pending, now);
    var cs := RequestCandidates(requests, pending, now);
    forall i | 0 <= i < |cs| ensures Proper(cs[i].offer) && Tier(cs[i].offer) == if pending then 1 else 2 {
      assert cs[i] in cs;
    }
  }

  lemma SessionTier(sessions: seq<Session>, keys: seq<SessionKey>)
    ensures InTier(SessionCandidates(sessions, keys), 3)
  {
    SessionMembers(sessions, keys);
    var cs := SessionCandidates(sessions, keys);
    forall i | 0 <= i < |cs| ensures Proper(cs[i].offer) && Tier(cs[i].offer) == 3 {
      assert cs[i] in cs;
    }
  }

  lemma TagTier(ms: seq<Machine>, evidence: set<string>, origins: map<string, string>, login: string)
    ensures InTier(TagCandidates(ms, evidence, origins, login), 4)
  {
    TagMembers(ms, evidence, origins, login);
    var cs := TagCandidates(ms, evidence, origins, login);
    forall i | 0 <= i < |cs| ensures Proper(cs[i].offer) && Tier(cs[i].offer) == 4 {
      assert cs[i] in cs;
    }
  }

  lemma DirectoryTier(ms: seq<Machine>, login: string)
    ensures InTier(DirectoryCandidates(ms, login), 5)
  {
    DirectoryMembers(ms, login);
    var cs := DirectoryCandidates(ms, login);
    forall i | 0 <= i < |cs| ensures Proper(cs[i].offer) && Tier(cs[i].offer) == 5 {
      assert cs[i] in cs;
    }
  }

  lemma CandidatesHaveOrigins(input: Inputs, c: Candidate)
    requires c in Related(input) + Listing(input)
    ensures Origin(input, c)
  {
    GroupsAreTiers(input);
    GrantMembers(input.grants);
    RequestMembers(input.requests, true, input.now);
    RequestMembers(input.requests, false, input.now);
    SessionMembers(input.sessions, SessionKeys(input.sessions));
    SessionKeysMembers(input.sessions);
    var h := HistoryOf(input);
    TagMembers(ByName(input.machines), h.evidence, Origins(input.machines, h.evidence), Suggested(h));
    DirectoryMembers(ByName(input.machines), Suggested(h));
    ByNameMembers(input.machines);
    GroupsCover(input, c);
  }

  lemma GroupsCover(input: Inputs, c: Candidate)
    ensures c in Related(input) <==>
            var h := HistoryOf(input);
            || c in GrantCandidates(input.grants)
            || c in RequestCandidates(input.requests, true, input.now)
            || c in RequestCandidates(input.requests, false, input.now)
            || c in SessionCandidates(input.sessions, SessionKeys(input.sessions))
            || c in TagCandidates(ByName(input.machines), h.evidence, Origins(input.machines, h.evidence), Suggested(h))
  {}

  // ---------- one target, one machine and login ----------

  /** b is a, a bar, and nothing or something that does not begin with a space. */
  predicate Continues(a: string, b: string) {
    |a| < |b| && b[..|a|] == a && b[|a|] == '|' && (|b| == |a| + 1 || !Text.IsSpace(b[|a| + 1]))
  }

  /** Some known machine id continues another with a bar. */
  predicate Confusable(ids: set<string>) {
    exists a, b | a in ids && b in ids :: Continues(a, b)
  }

  ghost predicate TargetsDistinct(ids: set<string>) {
    forall a, b, u, v | a in ids && b in ids && Text.Trimmed(u) && Text.Trimmed(v) ::
      Target(a, u) == Target(b, v) ==> a == b && u == v
  }

  /** The builder tells machines and logins apart by target exactly when no known machine id
      continues another in that way; ids without a bar never do. */
  lemma TargetsNameMachines(ids: set<string>)
    ensures TargetsDistinct(ids) <==> !Confusable(ids)
    ensures (forall id | id in ids :: '|' !in id) ==> TargetsDistinct(ids)
  {
    if Confusable(ids) {
      var a, b :| a in ids && b in ids && Continues(a, b);
      var u := b[|a| + 1..] + "|";
      assert Text.Trimmed(u) && Text.Trimmed("");
      assert Target(a, u) == Target(b, "");
      assert !TargetsDistinct(ids);
      assert '|' in b;
    } else {
      forall a, b, u, v | a in ids && b in ids && Text.Trimmed(u) && Text.Trimmed(v) && Target(a, u) == Target(b, v)
        ensures a == b && u == v
      {
        SameTarget(a, u, b, v);
        SameTarget(b, v, a, u);
      }
    }
  }

  lemma SameTarget(a: string, u: string, b: string, v: string)
    requires Target(a, u) == Target(b, v) && Text.Trimmed(u)
    ensures |a| < |b| ==> Continues(a, b)
    ensures |a| == |b| ==> a == b && u == v
  {
    var t := Target(a, u);
    assert t[..|a|] == a && t[|a|] == '|' && t[|a| + 1..] == u;
    assert t[..|b|] == b && t[|b| + 1..] == v;
    assert |a| + 1 < |b| ==> t[|a| + 1] == u[0];
  }

  /** With ids that cannot be confused, an entry on a target is one for its machine and login. */
  lemma EntryOnTarget(input: Inputs, k: Capability, id: string, login: string)
    requires k in Catalog(input) && TargetOf(k) == Target(id, login)
    requires id in ByID(input.machines) && Text.Trimmed(login) && !Confusable(ByID(input.machines).Keys)
    ensures k.machineID == id && k.remoteUser == login
  {
    TargetsNameMachines(ByID(input.machines).Keys);
    EntryIsTrimmed(input, k);
  }

  lemma EntryIsTrimmed(input: Inputs, k: Capability)
    requires k in Catalog(input)
    ensures k.machineID in ByID(input.machines) && Text.Trimmed(k.remoteUser)
  {
    var machines, cs := ByID(input.machines), Related(input) + Listing(input);
    KeptAreGenuine(machines, cs);
    var c :| c in cs && c.machineID in machines && k == Fill(machines[c.machineID], c);
    Text.TrimTrims(c.remoteUser);
  }

  // ---------- complete ----------

  /** The entry is on the target of the machine and login; and it is theirs, unless machine ids
      can be confused. */
  predicate For(input: Inputs, k: Capability, id: string, login: string) {
    && TargetOf(k) == Target(id, login)
    && (!Confusable(ByID(input.machines).Keys) ==> k.machineID == id && k.remoteUser == login)
  }

  lemma CandidateIsServed(input: Inputs, c: Candidate) returns (k: Capability)
    requires (c in Related(input) || c in Listing(input)) && c.machineID in ByID(input.machines)
    ensures k in Catalog(input) && Serves(k, c) && Proper(k.offer)
    ensures For(input, k, c.machineID, Text.Trim(c.remoteUser))
  {
    assert c in Related(input) + Listing(input);
    CandidatesAreInOrder(input);
    EveryCandidateIsServed(ByID(input.machines), Related(input) + Listing(input));
    k :| k in Catalog(input) && Serves(k, c);
    EntryHasOrigin(input, k);
    Text.TrimTrims(c.remoteUser);
    if !Confusable(ByID(input.machines).Keys) {
      EntryOnTarget(input, k, c.machineID, Text.Trim(c.remoteUser));
    }
  }

  lemma SessionIsCandidate(input: Inputs, s: Session)
    requires s in input.sessions
    ensures SessionCandidate(input.sessions, KeyOf(s)) in Related(input)
  {
    var c := SessionCandidate(input.sessions, KeyOf(s));
    SessionKeysMembers(input.sessions);
    SessionMembers(input.sessions, SessionKeys(input.sessions));
    GroupsCover(input, c);
  }

  lemma PeerIsCandidate(input: Inputs, m: Machine) returns (c: Candidate)
    requires m in input.machines && m.id !in HistoryOf(input).evidence
    requires SharedKeys(m, Origins(input.machines, HistoryOf(input).evidence)) != {}
    ensures c in Related(input) && c.machineID == m.id && c.remoteUser == Suggested(HistoryOf(input))
    ensures c.offer.source == FromTag && c.offer.status == Requestable
  {
    var h := HistoryOf(input);
    var origins := Origins(input.machines, h.evidence);
    c := TagCandidate(m, h.evidence, origins, Suggested(h))[0];
    ByNameMembers(input.machines);
    TagMembers(ByName(input.machines), h.evidence, origins, Suggested(h));
    assert c in TagCandidate(m, h.evidence, origins, Suggested(h));
    GroupsCover(input, c);
  }

  /** Every grant on a known machine is covered, login by login, by an entry for a grant. */
  lemma EveryGrantIsCovered(input: Inputs, g: Grant, user: string)
    requires g in input.grants && g.machineID in ByID(input.machines) && user in Logins(g.remoteUsers)
    ensures exists k | k in Catalog(input) ::
              && For(input, k, g.machineID, user) && k.offer.status == Granted && k.offer.source == FromGrant
              && Covers(k.accessType, Normalize(g.accessType))
  {
    GrantIsCandidate(input, g, user);
    LoginsAreTrimmed(g.remoteUsers, user);
    var k := CandidateIsServed(input, GrantTemplate(g).(remoteUser := user));
  }

  lemma GrantIsCandidate(input: Inputs, g: Grant, user: string)
    requires g in input.grants && user in Logins(g.remoteUsers)
    ensures GrantTemplate(g).(remoteUser := user) in Related(input)
  {
    var c := GrantTemplate(g).(remoteUser := user);
    GrantMembers(input.grants);
    assert OfGrant(c, g);
    GroupsCover(input, c);
  }

  /** Every request is covered by an entry at least as strong: a pending one by a grant or a
      pending request, a finished one by those or a finished request. */
  lemma EveryRequestIsCovered(input: Inputs, r: Request, user: string)
    requires r in input.requests && r.machineID in ByID(input.machines) && user in Logins(r.remoteUsers)
    ensures exists k | k in Catalog(input) ::
              && For(input, k, r.machineID, user) && Covers(k.accessType, Normalize(r.accessType))
              && (k.offer.source == FromGrant || k.offer.source == FromRequest)
              && (IsPending(r) ==> k.offer.status == Granted || k.offer.status == Pending)
  {
    RequestIsCandidate(input, r, user);
    LoginsAreTrimmed(r.remoteUsers, user);
    var k := CandidateIsServed(input, RequestTemplate(r, input.now).(remoteUser := user));
    assert SourceRank(k.offer.source) <= 1 || k.offer.status != Requestable;
  }

  lemma RequestIsCandidate(input: Inputs, r: Request, user: string)
    requires r in input.requests && user in Logins(r.remoteUsers)
    ensures RequestTemplate(r, input.now).(remoteUser := user) in Related(input)
  {
    var c := RequestTemplate(r, input.now).(remoteUser := user);
    RequestMembers(input.requests, IsPending(r), input.now);
    assert OfRequest(c, r, input.now);
    GroupsCover(input, c);
  }

  /** Every session is covered by a both-protocols entry of a grant, a request or a session. */
  lemma EverySessionIsCovered(input: Inputs, s: Session)
    requires s in input.sessions && s.machineID in ByID(input.machines)
    ensures exists k | k in Catalog(input) ::
              && For(input, k, s.machineID, Text.Trim(s.remoteUser)) && k.accessType == BOTH
              && !Discovered(k.offer)
  {
    SessionIsCandidate(input, s);
    var c := SessionCandidate(input.sessions, KeyOf(s));
    var k := CandidateIsServed(input, c);
    Text.TrimTrims(s.remoteUser);
    ServingSession(k, c);
  }

  lemma ServingSession(k: Capability, c: Candidate)
    requires Serves(k, c) && Proper(k.offer) && c.accessType == BOTH && c.offer.source == FromSession
    requires c.offer.status == Requestable
    ensures k.accessType == BOTH && !Discovered(k.offer)
  {
    BothIsNormal();
    assert Covers(k.accessType, BOTH);
  }

  lemma BothIsNormal()
    ensures Normalize(BOTH) == BOTH
  {
    Text.TrimTrims(BOTH);
    assert Text.Trim(BOTH) == BOTH && Text.ToLower(BOTH) == BOTH;
  }

  /** In scope "all" every machine of the inventory is there to ask for. */
  lemma EveryMachineIsOffered(input: Inputs, m: Machine)
    requires input.all && m in input.machines
    ensures exists k | k in Catalog(input) :: For(input, k, m.id, Text.Trim(Suggested(HistoryOf(input))))
  {
    var login := Suggested(HistoryOf(input));
    var c := Candidate(m.id, login, BOTH, Offer(Requestable, FromDirectory, Listed, "", "", None, None));
    ByNameMembers(input.machines);
    ByIDMembers(input.machines);
    DirectoryMembers(ByName(input.machines), login);
    assert OfMachine(c, m, login);
    var k := CandidateIsServed(input, c);
  }

  /** A machine the user has no dealings with, sharing a tag with one they have, is offered. */
  lemma EveryPeerIsOffered(input: Inputs, m: Machine)
    requires m in input.machines && m.id !in HistoryOf(input).evidence
    requires SharedKeys(m, Origins(input.machines, HistoryOf(input).evidence)) != {}
    ensures exists k | k in Catalog(input) ::
              For(input, k, m.id, Text.Trim(Suggested(HistoryOf(input)))) && k.offer.source != FromDirectory
  {
    ByIDMembers(input.machines);
    var c := PeerIsCandidate(input, m);
    var k := TagIsServed(input, c);
    assert For(input, k, m.id, Text.Trim(c.remoteUser));
  }

  lemma TagIsServed(input: Inputs, c: Candidate) returns (k: Capability)
    requires c in Related(input) && c.offer.source == FromTag && c.offer.status == Requestable
    requires c.machineID in ByID(input.machines)
    ensures k in Catalog(input) && k.offer.source != FromDirectory
    ensures For(input, k, c.machineID, Text.Trim(c.remoteUser))
  {
    k := CandidateIsServed(input, c);
    assert NoLater(k.offer, c.offer);
  }

  // With ids that can be confused, a machine may be missing.

  lemma OneLogin(template: Candidate, user: string)
    requires user != "" && Text.Trimmed(user)
    ensures ForLogins(template, Logins([user])) == [template.(remoteUser := user)]
  {
    Text.TrimTrims(user);
    assert [user][..0] == [] && NonBlank([user]) == [user];
    assert ForLogins(template, [user][..0]) == [];
  }

  lemma {:induction false} NoTagsNoPeers(ms: seq<Machine>, h: History, origins: map<string, string>)
    requires forall m | m in ms :: m.tags == map[]
    ensures TagCandidates(ms, h.evidence, origins, Suggested(h)) == []
  {
    if ms != [] {
      assert ms[|ms| - 1] in ms && SharedKeys(ms[|ms| - 1], origins) == {};
      NoTagsNoPeers(ms[..|ms| - 1], h, origins);
    }
  }

  lemma GrantAdded(grants: seq<Grant>, g: Grant, user: string)
    requires g.remoteUsers == [user] && user != "" && Text.Trimmed(user)
    ensures GrantCandidates(grants + [g]) == GrantCandidates(grants) + [GrantTemplate(g).(remoteUser := user)]
  {
    assert (grants + [g])[..|grants|] == grants;
    OneLogin(GrantTemplate(g), user);
  }

  lemma TwoGrants(g1: Grant, u1: string, g2: Grant, u2: string)
    requires g1.remoteUsers == [u1] && u1 != "" && Text.Trimmed(u1)
    requires g2.remoteUsers == [u2] && u2 != "" && Text.Trimmed(u2)
    ensures GrantCandidates([g1, g2]) ==
            [GrantTemplate(g1).(remoteUser := u1), GrantTemplate(g2).(remoteUser := u2)]
  {
    GrantAdded([], g1, u1);
    GrantAdded([g1], g2, u2);
    var c1, c2 := GrantTemplate(g1).(remoteUser := u1), GrantTemplate(g2).(remoteUser := u2);
    assert [] + [g1] == [g1] && [g1] + [g2] == [g1, g2];
    assert [] + [c1] == [c1] && [c1] + [c2] == [c1, c2];
  }

  /** Grants alone, with no tags about. */
  lemma OnlyGrants(input: Inputs)
    requires input.requests == [] && input.sessions == [] && !input.all
    requires forall m | m in input.machines :: m.tags == map[]
    ensures Related(input) + Listing(input) == GrantCandidates(input.grants)
  {
    ByNameMembers(input.machines);
    var h := HistoryOf(input);
    NoTagsNoPeers(ByName(input.machines), h, Origins(input.machines, h.evidence));
    var a := GrantCandidates(input.grants);
    assert a + [] == a;
  }

  lemma ConfusingNames()
    ensures Continues("a", "a|x") && Target("a", "x|root") == Target("a|x", "root")
    ensures Text.Trimmed("x|root") && Text.Trimmed("root") && "a" != "a|x"
  {
    assert |"a"| != |"a|x"|;
  }

  lemma OneTakesTheTarget(input: Inputs, m1: Machine, g1: Grant, u1: string, m2: Machine, g2: Grant, u2: string)
    requires input == Inputs(0, false, [m1, m2], [g1, g2], [], [])
    requires m1.tags == map[] && m2.tags == map[] && Continues(m1.id, m2.id)
    requires g1.machineID == m1.id && g1.remoteUsers == [u1] && u1 != "" && Text.Trimmed(u1)
    requires g2.machineID == m2.id && g2.remoteUsers == [u2] && u2 != "" && Text.Trimmed(u2)
    requires g1.accessType == g2.accessType && Target(m1.id, u1) == Target(m2.id, u2)
    ensures forall k | k in Catalog(input) :: k.machineID == m1.id
  {
    TwoGrants(g1, u1, g2, u2);
    OnlyGrants(input);
    KnowsBoth(m1, m2);
    SecondIsBlocked(ByID(input.machines), GrantTemplate(g1).(remoteUser := u1), GrantTemplate(g2).(remoteUser := u2));
  }

  /** Machines "a" and "a|x", a grant on the first as x|root and one on the second as root: the
      second finds its target taken, and its machine is not in the catalog at all. */
  lemma ConfusedMachineIsMissing(machine: Machine, grant: Grant) returns (input: Inputs, g: Grant)
    ensures g in input.grants && g.machineID in ByID(input.machines) && Confusable(ByID(input.machines).Keys)
    ensures forall k | k in Catalog(input) :: k.machineID != g.machineID
  {
    ConfusingNames();
    var m1, m2 := machine.(id := "a", tags := map[]), machine.(id := "a|x", tags := map[]);
    var g1 := grant.(machineID := "a", remoteUsers := ["x|root"]);
    g := grant.(machineID := "a|x", remoteUsers := ["root"]);
    input := Inputs(0, false, [m1, m2], [g1, g], [], []);
    KnowsBoth(m1, m2);
    OneTakesTheTarget(input, m1, g1, "x|root", m2, g, "root");
  }

  lemma KnowsBoth(m1: Machine, m2: Machine)
    requires Continues(m1.id, m2.id)
    ensures m1.id in ByID([m1, m2]) && m2.id in ByID([m1, m2]) && Confusable(ByID([m1, m2]).Keys)
  {
    ByIDMembers([m1, m2]);
    assert m1 in [m1, m2] && m2 in [m1, m2];
  }

  lemma SecondIsBlocked(machines: map<string, Machine>, c1: Candidate, c2: Candidate)
    requires c1.machineID in machines && c2.machineID in machines && c1.accessType == c2.accessType
    requires Text.Trimmed(c1.remoteUser) && Text.Trimmed(c2.remoteUser)
    requires Target(c1.machineID, c1.remoteUser) == Target(c2.machineID, c2.remoteUser)
    ensures KeepAll(machines, [], [c1, c2]) == [Fill(machines[c1.machineID], c1)]
  {
    Text.TrimTrims(c1.remoteUser);
    Text.TrimTrims(c2.remoteUser);
    var e1, e2 := Fill(machines[c1.machineID], c1), Fill(machines[c2.machineID], c2);
    assert [c1, c2][..1] == [c1] && [c1][..0] == [];
    assert KeepAll(machines, [], [c1][..0]) == [];
    assert !Blocked([], e1) && KeepAll(machines, [], [c1]) == [e1];
    assert e1 in [e1] && Blocks(e1, e2);
  }

  lemma {:induction false} LoginsAreTrimmed(users: seq<string>, u: string)
    requires u in Logins(users)
    ensures Text.Trim(u) == u
  {
    if NonBlank(users) == [] {
      assert u == "";
    } else {
      NonBlankTrimmed(users, u);
    }
  }

  lemma {:induction false} NonBlankTrimmed(users: seq<string>, u: string)
    requires u in NonBlank(users)
    ensures Text.Trim(u) == u
  {
    var n := |users| - 1;
    Text.TrimTrims(users[n]);
    if u in NonBlank(users[..n]) {
      NonBlankTrimmed(users[..n], u);
    }
  }

  // ---------- sound ----------

  /** Every entry was offered for a reason that is there: it is a candidate of one of the six
      groups, filled in from its machine. */
  lemma EntryHasOrigin(input: Inputs, k: Capability)
    requires k in Catalog(input)
    ensures Proper(k.offer) && k.machineID in ByID(input.machines)
    ensures exists c :: Origin(input, c) && c.machineID == k.machineID &&
                        k == Fill(ByID(input.machines)[k.machineID], c)
  {
    var cs := Related(input) + Listing(input);
    KeptAreGenuine(ByID(input.machines), cs);
    var c :| c in cs && c.machineID in ByID(input.machines) && k == Fill(ByID(input.machines)[c.machineID], c);
    CandidatesHaveOrigins(input, c);
    CandidatesAreInOrder(input);
    var i :| 0 <= i < |cs| && cs[i] == c;
  }

  /** The entry speaks of that grant. */
  predicate TellsGrant(k: Capability, g: Grant) {
    && k.machineID == g.machineID && k.accessType == Normalize(g.accessType)
    && (k.remoteUser in NonBlank(g.remoteUsers) || (k.remoteUser == "" && NonBlank(g.remoteUsers) == []))
    && k.offer.reason == Held && k.offer.permissionID == g.id && k.offer.expiresAt == g.expiresAt
    && k.offer.requestID == "" && k.offer.lastUsedAt == None
  }

  /** The reason given for what became of a request. */
  predicate Explains(reason: Reason, r: Request, now: Time) {
    && (reason == AwaitingApproval <==> r.status == "pending")
    && (reason == ApprovalLapsed <==> r.status == "approved" && r.expiresAt.Some? && r.expiresAt.value < now)
    && (reason == ApprovedBefore <==> r.status == "approved" && (r.expiresAt.Some? ==> now <= r.expiresAt.value))
    && (reason == WasRejected <==> r.status == "rejected")
    && (reason == HadExpired <==> r.status == "expired")
    && (reason == AskedBefore <==> r.status !in ["pending", "approved", "rejected", "expired"])
  }

  predicate TellsRequest(k: Capability, r: Request, now: Time) {
    && k.machineID == r.machineID && k.accessType == Normalize(r.accessType)
    && (k.remoteUser in NonBlank(r.remoteUsers) || (k.remoteUser == "" && NonBlank(r.remoteUsers) == []))
    && (k.offer.status == Pending <==> r.status == "pending")
    && Explains(k.offer.reason, r, now) && k.offer.requestID == r.id
    && k.offer.permissionID == "" && k.offer.expiresAt == None && k.offer.lastUsedAt == None
  }

  /** The newest of the user's sessions on that machine and login. */
  predicate TellsSession(k: Capability, sessions: seq<Session>) {
    && k.accessType == "both" && k.offer.reason == Connected
    && k.offer.permissionID == k.offer.requestID == "" && k.offer.expiresAt == None
    && k.offer.lastUsedAt.Some?
    && (exists s | s in sessions :: OfTarget(s, k) && s.startTime == k.offer.lastUsedAt.value)
    && (forall s | s in sessions && OfTarget(s, k) :: s.startTime <= k.offer.lastUsedAt.value)
  }

  predicate OfTarget(s: Session, k: Capability) {
    s.machineID == k.machineID && Text.Trim(s.remoteUser) == k.remoteUser
  }

  /** What every entry says, by its source, in terms of the record that it comes from; and of its
      machine it shows what the inventory has. */
  lemma EntryTells(input: Inputs, k: Capability)
    requires k in Catalog(input)
    ensures k.machine in input.machines && k.machine.id == k.machineID
    ensures k.offer.source == FromGrant <==> k.offer.status == Granted
    ensures k.offer.source == FromGrant ==> exists g | g in input.grants :: TellsGrant(k, g)
    ensures k.offer.source == FromRequest ==> exists r | r in input.requests :: TellsRequest(k, r, input.now)
    ensures k.offer.source == FromSession ==> k.offer.status == Requestable && TellsSession(k, input.sessions)
    ensures k.offer.source == FromTag || k.offer.source == FromDirectory ==>
              k.offer.status == Requestable && k.accessType == "both"
    ensures k.offer.source == FromDirectory ==> input.all && k.offer.reason == Listed
  {
    EntryHasOrigin(input, k);
    ByIDMembers(input.machines);
    var c :| Origin(input, c) && c.machineID == k.machineID && k == Fill(ByID(input.machines)[k.machineID], c);
    match k.offer.source
    case FromGrant =>
      var g :| g in input.grants && OfGrant(c, g);
      GrantFilled(k.machine, c, g);
    case FromRequest =>
      var r := RequestOf(input, c);
      RequestFilled(k.machine, c, r, input.now);
    case FromSession => SessionEntryTells(input, k, c);
    case _ => DiscoveryTells(input, k, c);
  }

  lemma DiscoveryTells(input: Inputs, k: Capability, c: Candidate)
    requires Origin(input, c) && Discovered(c.offer)
    requires k.machineID in ByID(input.machines) && k == Fill(ByID(input.machines)[k.machineID], c)
    ensures k.offer.status == Requestable && k.accessType == "both"
    ensures k.offer.source == FromDirectory ==> input.all && k.offer.reason == Listed
  {
    BothIsNormal();
  }

  lemma RequestOf(input: Inputs, c: Candidate) returns (r: Request)
    requires Origin(input, c) && c.offer.source == FromRequest
    ensures r in input.requests && OfRequest(c, r, input.now)
  {
    r :| r in input.requests && OfRequest(c, r, input.now);
  }

  lemma GrantFilled(m: Machine, c: Candidate, g: Grant)
    requires OfGrant(c, g)
    ensures TellsGrant(Fill(m, c), g)
  {
    LoginsAreTrimmed(g.remoteUsers, c.remoteUser);
  }

  lemma RequestFilled(m: Machine, c: Candidate, r: Request, now: Time)
    requires OfRequest(c, r, now)
    ensures TellsRequest(Fill(m, c), r, now)
  {
    LoginsAreTrimmed(r.remoteUsers, c.remoteUser);
  }

  lemma SessionEntryTells(input: Inputs, k: Capability, c: Candidate)
    requires Origin(input, c) && c.offer.source == FromSession && c.machineID == k.machineID
    requires k.machineID in ByID(input.machines) && k == Fill(ByID(input.machines)[k.machineID], c)
    ensures k.offer.status == Requestable && TellsSession(k, input.sessions)
  {
    var key := SessionKey(c.machineID, c.remoteUser);
    LatestIsNewest(input.sessions, key);
    BothIsNormal();
    var s :| s in input.sessions && KeyOf(s) == key;
    Text.TrimTrims(s.remoteUser);
    assert k.remoteUser == c.remoteUser;
    assert forall t | t in input.sessions :: KeyOf(t) == key <==> OfTarget(t, k);
  }

  /** The stamp of a session entry is the newest start of such a session. */
  lemma {:induction false} LatestIsNewest(sessions: seq<Session>, key: SessionKey)
    ensures Latest(sessions, key).Some? <==> exists s | s in sessions :: KeyOf(s) == key
    ensures Latest(sessions, key).Some? ==>
              && (exists s | s in sessions :: KeyOf(s) == key && s.startTime == Latest(sessions, key).value)
              && forall s | s in sessions && KeyOf(s) == key :: s.startTime <= Latest(sessions, key).value
  {
    if sessions != [] {
      var n := |sessions| - 1;
      LatestIsNewest(sessions[..n], key);
      assert sessions == sessions[..n] + [sessions[n]];
    }
  }

  /** A shared tag is named with a machine the user knows that has it, first in the alphabet. */
  lemma {:induction false} OriginsAreKnown(ms: seq<Machine>, evidence: set<string>, tag: string)
    ensures tag in Origins(ms, evidence) <==>
            exists m | m in ms :: m.id in evidence && tag in TagsOf(m, m.tags.Keys)
    ensures tag in Origins(ms, evidence) ==>
              && (exists m | m in ms ::
                    m.id in evidence && tag in TagsOf(m, m.tags.Keys) && m.name == Origins(ms, evidence)[tag])
              && forall m | m in ms && m.id in evidence && tag in TagsOf(m, m.tags.Keys) ::
                   !Text.Less(m.name, Origins(ms, evidence)[tag])
  {
    if ms != [] {
      var n := |ms| - 1;
      OriginsAreKnown(ms[..n], evidence, tag);
      assert ms == ms[..n] + [ms[n]];
      Text.LessTotal(ms[n].name, ms[n].name);
      if tag in Origins(ms[..n], evidence) {
        OriginStep(ms[..n], evidence, tag, ms[n]);
      }
    }
  }

  lemma OriginStep(ms: seq<Machine>, evidence: set<string>, tag: string, last: Machine)
    requires tag in Origins(ms, evidence)
    ensures var o := Origins(ms, evidence)[tag];
            forall m: Machine :: !Text.Less(m.name, o) && Text.Less(last.name, o) ==> !Text.Less(m.name, last.name)
  {
    var o := Origins(ms, evidence)[tag];
    forall m: Machine | !Text.Less(m.name, o) && Text.Less(last.name, o) ensures !Text.Less(m.name, last.name) {
      Text.LessTotal(last.name, o);
      Text.NotAfterTransitive(last.name, o, m.name);
    }
  }

  // ---------- non-redundant ----------

  /** No entry is covered by an earlier one on its target, nothing is discovered where the user
      already has an entry, and no two entries share an id. */
  lemma CatalogIsNonRedundant(input: Inputs)
    ensures NonRedundant(Catalog(input))
    ensures forall i, j | 0 <= i < j < |Catalog(input)| :: Catalog(input)[i].id != Catalog(input)[j].id
  {
    var es := Catalog(input);
    KeptAreNonRedundant(ByID(input.machines), Related(input) + Listing(input));
    forall i, j | 0 <= i < j < |es| ensures es[i].id != es[j].id {
      assert es[i] in es && es[j] in es;
      EntryIsFilled(input, es[i]);
      EntryIsFilled(input, es[j]);
      LastBarSplits(TargetOf(es[i]), es[i].accessType, TargetOf(es[j]), es[j].accessType);
      assert !Blocks(es[i], es[j]);
    }
  }

  /** What was found by a shared tag or in the directory shares its target with no other entry. */
  lemma DiscoveriesStandAlone(input: Inputs, i: nat, j: nat)
    requires i < |Catalog(input)| && j < |Catalog(input)| && i != j
    requires var source := Catalog(input)[j].offer.source; source == FromTag || source == FromDirectory
    ensures TargetOf(Catalog(input)[i]) != TargetOf(Catalog(input)[j])
  {
    var cs := Related(input) + Listing(input);
    KeptAreNonRedundant(ByID(input.machines), cs);
    if i < j {
      assert !Blocks(Catalog(input)[i], Catalog(input)[j]);
    } else {
      CandidatesAreInOrder(input);
      KeptInOrder(ByID(input.machines), cs);
      assert NoLater(Catalog(input)[j].offer, Catalog(input)[i].offer);
      assert !Blocks(Catalog(input)[j], Catalog(input)[i]);
    }
  }

  /** The kept entries are in the order of their candidates. */
  lemma {:induction false} KeptInOrder(machines: map<string, Machine>, cs: seq<Candidate>)
    requires InOrder(cs)
    ensures var es := KeepAll(machines, [], cs);
            && (forall i, j | 0 <= i < j < |es| :: NoLater(es[i].offer, es[j].offer))
            && (forall e | e in es :: exists c | c in cs :: c.offer == e.offer)
  {
    if cs != [] {
      var n := |cs| - 1;
      KeptInOrder(machines, cs[..n]);
      var before, es := KeepAll(machines, [], cs[..n]), KeepAll(machines, [], cs);
      assert cs == cs[..n] + [cs[n]];
      forall i | 0 <= i < |before| ensures NoLater(before[i].offer, cs[n].offer) {
        var c :| c in cs[..n] && c.offer == before[i].offer;
        var k :| 0 <= k < n && cs[k] == c;
      }
      forall e | e in es ensures exists c | c in cs :: c.offer == e.offer {
        if e !in before {
          assert cs[n] in cs && e.offer == cs[n].offer;
        }
      }
    }
  }

  lemma EntryIsFilled(input: Inputs, k: Capability)
    requires k in Catalog(input)
    ensures k.id == TargetOf(k) + "|" + k.accessType && '|' !in k.accessType
  {
    var machines, cs := ByID(input.machines), Related(input) + Listing(input);
    KeptAreGenuine(machines, cs);
    var c :| c in cs && c.machineID in machines && k == Fill(machines[c.machineID], c);
    NormalHasNoBar(c.accessType);
  }

  lemma NormalHasNoBar(accessType: string)
    ensures '|' !in Normalize(accessType)
  {}

  lemma LastBarSplits(a: string, x: string, b: string, y: string)
    requires '|' !in x && '|' !in y
    ensures a + "|" + x == b + "|" + y ==> a == b && x == y
  {
    var s, t := a + "|" + x, b + "|" + y;
    assert s[|a|] == '|' && t[|b|] == '|';
    assert |a| < |b| <= |a| + |x| ==> s[|b|] == x[|b| - |a| - 1];
    assert |b| < |a| <= |b| + |y| ==> t[|a|] == y[|a| - |b| - 1];
    assert a == s[..|a|] && b == t[..|b|];
    assert x == s[|a| + 1..] && y == t[|b| + 1..];
  }

  // ---------- scope, order and cut ----------

  /** Scope "all" only adds entries, all from the directory, after those of scope "related". */
  lemma ScopeAllOnlyAdds(input: Inputs)
    ensures var related, all := Catalog(input.(all := false)), Catalog(input.(all := true));
            && related <= all
            && forall i | |related| <= i < |all| :: all[i].offer.source == FromDirectory
  {
    var machines := ByID(input.machines);
    var wide := input.(all := true);
    var listing := Listing(wide);
    assert Related(input.(all := false)) == Related(wide);
    var related := KeepAll(machines, [], Related(wide));
    assert Related(input.(all := false)) + Listing(input.(all := false)) == Related(wide);
    KeepAllAppends(machines, [], Related(wide), listing);
    CandidatesAreInOrder(wide);
    AddedAreListed(machines, related, listing);
  }

  lemma {:induction false} AddedAreListed(machines: map<string, Machine>, entries: seq<Capability>, cs: seq<Candidate>)
    requires InTier(cs, 5)
    ensures var all := KeepAll(machines, entries, cs);
            entries <= all && forall i | |entries| <= i < |all| :: all[i].offer.source == FromDirectory
  {
    if cs != [] {
      AddedAreListed(machines, entries, cs[..|cs| - 1]);
    }
  }

  lemma LessCapabilityOrders()
    ensures StableSort.Orders(LessCapability)
  {
    forall a, b | LessCapability(a, b) ensures !LessCapability(b, a) {
      LessBothWays(a, b);
    }
    forall a, b, c | !LessCapability(b, a) && !LessCapability(c, b) ensures !LessCapability(c, a) {
      NotLessChains(a, b, c);
    }
  }

  lemma LessBothWays(a: Capability, b: Capability)
    ensures !(LessCapability(a, b) && LessCapability(b, a))
  {
    Text.LessTotal(a.machine.name, b.machine.name);
    Text.LessTotal(a.remoteUser, b.remoteUser);
    Text.LessTotal(a.accessType, b.accessType);
  }

  lemma NotLessChains(a: Capability, b: Capability, c: Capability)
    requires !LessCapability(b, a) && !LessCapability(c, b)
    ensures !LessCapability(c, a)
  {
    Text.LessTotal(a.machine.name, b.machine.name);
    Text.LessTotal(b.machine.name, c.machine.name);
    Text.LessTotal(a.remoteUser, b.remoteUser);
    Text.LessTotal(b.remoteUser, c.remoteUser);
    Text.NotAfterTransitive(a.machine.name, b.machine.name, c.machine.name);
    Text.NotAfterTransitive(a.remoteUser, b.remoteUser, c.remoteUser);
    Text.NotAfterTransitive(a.accessType, b.accessType, c.accessType);
  }

  /** a's status is no weaker than b's: granted before pending before requestable. */
  predicate NoWeaker(a: Status, b: Status) {
    (b == Granted ==> a == Granted) && (b == Pending ==> a != Requestable)
  }

  /** a's source comes no later than b's: grants, requests, sessions, shared tags, the directory. */
  predicate SourceNoLater(a: Source, b: Source) {
    && (b == FromGrant ==> a == FromGrant)
    && (b == FromRequest ==> a == FromGrant || a == FromRequest)
    && (b == FromSession ==> a == FromGrant || a == FromRequest || a == FromSession)
    && (b == FromTag ==> a != FromDirectory)
  }

  /** a may be listed before b: by status, then source, then the names. */
  predicate MayPrecede(a: Capability, b: Capability) {
    && NoWeaker(a.offer.status, b.offer.status)
    && (a.offer.status == b.offer.status ==>
          && SourceNoLater(a.offer.source, b.offer.source)
          && (a.offer.source == b.offer.source ==>
                Text.Less(a.machine.name, b.machine.name) ||
                (a.machine.name == b.machine.name &&
                 (Text.Less(a.remoteUser, b.remoteUser) ||
                  (a.remoteUser == b.remoteUser &&
                   (Text.Less(a.accessType, b.accessType) || a.accessType == b.accessType))))))
  }

  lemma NotLessMayPrecede(a: Capability, b: Capability)
    requires !LessCapability(b, a)
    ensures MayPrecede(a, b)
  {
    Text.LessTotal(a.machine.name, b.machine.name);
    Text.LessTotal(a.remoteUser, b.remoteUser);
    Text.LessTotal(a.accessType, b.accessType);
  }

  /** What is returned, in order: the strongest relationships first; all that was kept, or the
      first 500, and then whatever is left out may not come before anything that is returned. */
  lemma ReturnedInOrder(input: Inputs)
    ensures var out, all := Returned(input), Catalog(input);
            && (forall i, j | 0 <= i < j < |out| :: MayPrecede(out[i], out[j]))
            && |out| == (if |all| > 500 then 500 else |all|)
            && multiset(out) <= multiset(all)
            && (forall a, b | a in out && b in multiset(all) - multiset(out) :: MayPrecede(a, b))
  {
    var all := Catalog(input);
    var sorted, out := StableSort.Sort(all, LessCapability), Returned(input);
    SortedMayPrecede(all);
    SortLength(all);
    CutLeavesTheLast(sorted, |out|);
    assert multiset(all) == multiset(sorted);
  }

  lemma SortedMayPrecede(all: seq<Capability>)
    ensures var sorted := StableSort.Sort(all, LessCapability);
            && multiset(sorted) == multiset(all)
            && forall i, j | 0 <= i < j < |sorted| :: MayPrecede(sorted[i], sorted[j])
  {
    var sorted := StableSort.Sort(all, LessCapability);
    LessCapabilityOrders();
    StableSort.SortSorts(all, LessCapability);
    StableSort.SortPermutes(all, LessCapability);
    forall i, j | 0 <= i < j < |sorted| ensures MayPrecede(sorted[i], sorted[j]) {
      NotLessMayPrecede(sorted[i], sorted[j]);
    }
  }

  lemma CutLeavesTheLast(sorted: seq<Capability>, n: nat)
    requires n <= |sorted| && forall i, j | 0 <= i < j < |sorted| :: MayPrecede(sorted[i], sorted[j])
    ensures multiset(sorted[..n]) <= multiset(sorted)
    ensures forall a, b | a in sorted[..n] && b in multiset(sorted) - multiset(sorted[..n]) :: MayPrecede(a, b)
  {
    assert sorted == sorted[..n] + sorted[n..];
    forall a, b | a in sorted[..n] && b in multiset(sorted) - multiset(sorted[..n]) ensures MayPrecede(a, b) {
      assert b in multiset(sorted[n..]);
      var i :| 0 <= i < n && sorted[i] == a;
      var j :| n <= j < |sorted| && sorted[j] == b;
    }
  }

  // ---------- what the history amounts to ----------

  /** Every login the user's relationships name, pending requests before finished ones. */
  function Named(input: Inputs): seq<string> {
    GrantUsers(input.grants) + RequestUsers(input.requests, true) + RequestUsers(input.requests, false) +
    SessionUsers(input.sessions)
  }

  function GrantUsers(grants: seq<Grant>): seq<string> {
    if grants == [] then [] else GrantUsers(grants[..|grants| - 1]) + grants[|grants| - 1].remoteUsers
  }

  function RequestUsers(requests: seq<Request>, pending: bool): seq<string> {
    if requests == [] then []
    else
      RequestUsers(requests[..|requests| - 1], pending) +
      if IsPending(requests[|requests| - 1]) == pending then requests[|requests| - 1].remoteUsers else []
  }

  function SessionUsers(sessions: seq<Session>): seq<string> {
    if sessions == [] then [] else SessionUsers(sessions[..|sessions| - 1]) + [sessions[|sessions| - 1].remoteUser]
  }

  predicate SameLogins(a: History, b: History) {
    a.users == b.users && a.usage == b.usage
  }

  lemma {:induction false} NoteLoginsAppends(h: History, g: History, a: seq<string>, b: seq<string>)
    requires SameLogins(g, NoteLogins(h, a))
    ensures SameLogins(NoteLogins(g, b), NoteLogins(h, a + b))
  {
    if b == [] {
      assert a + b == a;
    } else {
      var n := |b| - 1;
      NoteLoginsAppends(h, g, a, b[..n]);
      assert (a + b)[..|a + b| - 1] == a + b[..n];
    }
  }

  lemma EvidenceNotesUsers(known: set<string>, h: History, before: seq<string>, machineID: string, users: seq<string>)
    requires SameLogins(h, NoteLogins(NoHistory, before))
    ensures SameLogins(AfterEvidence(known, h, machineID, users), NoteLogins(NoHistory, before + users))
  {
    var g := if machineID in known then h.(evidence := h.evidence + {machineID}) else h;
    NoteLoginsAppends(NoHistory, g, before, users);
  }

  lemma {:induction false} GrantsNoteUsers(known: set<string>, grants: seq<Grant>)
    ensures SameLogins(NoteGrants(known, NoHistory, grants), NoteLogins(NoHistory, GrantUsers(grants)))
  {
    if grants != [] {
      var n := |grants| - 1;
      GrantsNoteUsers(known, grants[..n]);
      EvidenceNotesUsers(known, NoteGrants(known, NoHistory, grants[..n]), GrantUsers(grants[..n]),
                         grants[n].machineID, grants[n].remoteUsers);
    }
  }

  lemma {:induction false} RequestsNoteUsers(known: set<string>, h: History, before: seq<string>,
                                             requests: seq<Request>, pending: bool)
    requires SameLogins(h, NoteLogins(NoHistory, before))
    ensures SameLogins(NoteRequests(known, h, requests, pending),
                       NoteLogins(NoHistory, before + RequestUsers(requests, pending)))
  {
    if requests == [] {
      assert before + [] == before;
    } else {
      var n := |requests| - 1;
      var r := requests[n];
      RequestsNoteUsers(known, h, before, requests[..n], pending);
      var users := RequestUsers(requests[..n], pending);
      if IsPending(r) == pending {
        EvidenceNotesUsers(known, NoteRequests(known, h, requests[..n], pending), before + users,
                           r.machineID, r.remoteUsers);
        assert before + users + r.remoteUsers == before + RequestUsers(requests, pending);
      } else {
        assert RequestUsers(requests, pending) == users;
      }
    }
  }

  lemma {:induction false} SessionsNoteUsers(known: set<string>, h: History, before: seq<string>,
                                             sessions: seq<Session>)
    requires SameLogins(h, NoteLogins(NoHistory, before))
    ensures SameLogins(NoteSessions(known, h, sessions), NoteLogins(NoHistory, before + SessionUsers(sessions)))
  {
    if sessions == [] {
      assert before + [] == before;
    } else {
      var n := |sessions| - 1;
      var s := sessions[n];
      SessionsNoteUsers(known, h, before, sessions[..n]);
      var users := SessionUsers(sessions[..n]);
      EvidenceNotesUsers(known, NoteSessions(known, h, sessions[..n]), before + users, s.machineID, [s.remoteUser]);
      assert before + users + [s.remoteUser] == before + SessionUsers(sessions);
    }
  }

  lemma {:induction false} UsageCounts(users: seq<string>, u: string)
    ensures var h := NoteLogins(NoHistory, users);
            && Count(h, u) == multiset(NonBlank(users))[u]
            && (u in h.usage <==> u in NonBlank(users))
            && (u in h.users <==> u in NonBlank(users))
  {
    if users != [] {
      UsageCounts(users[..|users| - 1], u);
    }
  }

  /** The history counts each login as often as the relationships name it. */
  lemma HistoryCounts(input: Inputs)
    ensures var h, used := HistoryOf(input), NonBlank(Named(input));
            forall u :: Count(h, u) == multiset(used)[u] && (u in h.users <==> u in used)
  {
    var known := ByID(input.machines).Keys;
    var a := GrantUsers(input.grants);
    var b := RequestUsers(input.requests, true);
    var c := RequestUsers(input.requests, false);
    var g := NoteGrants(known, NoHistory, input.grants);
    var p := NoteRequests(known, g, input.requests, true);
    var r := NoteRequests(known, p, input.requests, false);
    GrantsNoteUsers(known, input.grants);
    RequestsNoteUsers(known, g, a, input.requests, true);
    RequestsNoteUsers(known, p, a + b, input.requests, false);
    SessionsNoteUsers(known, r, a + b + c, input.sessions);
    var named := Named(input);
    assert SameLogins(HistoryOf(input), NoteLogins(NoHistory, named));
    forall u ensures Count(HistoryOf(input), u) == multiset(NonBlank(named))[u]
    ensures u in HistoryOf(input).users <==> u in NonBlank(named)
    {
      UsageCounts(named, u);
    }
  }

  /** What is suggested where the user has no history: the login they use most, the first in
      the alphabet among those used as often, and root when they use none. */
  lemma SuggestedIsMostUsed(input: Inputs)
    ensures var s := Suggested(HistoryOf(input));
            var used := multiset(NonBlank(Named(input)));
            && (used == multiset{} ==> s == "root")
            && (used != multiset{} ==>
                  s in used && forall u | u in used :: used[u] < used[s] || (used[u] == used[s] && !Text.Less(u, s)))
  {
    var h, used := HistoryOf(input), NonBlank(Named(input));
    HistoryCounts(input);
    NonBlankNotEmpty(Named(input));
    forall u | u in h.users ensures Count(h, u) > 0 {
      assert u in multiset(used);
    }
    assert "" !in multiset(used);
    BestIsBest(h, h.users);
    MostUsed(h, used);
  }

  lemma MostUsed(h: History, used: seq<string>)
    requires forall u :: Count(h, u) == multiset(used)[u] && (u in h.users <==> u in used)
    requires "" !in used
    requires h.users != [] ==> IsBest(h, h.users, BestOf(h, h.users))
    ensures used == [] ==> Suggested(h) == "root"
    ensures used != [] ==>
              && Suggested(h) in multiset(used)
              && forall u | u in multiset(used) ::
                   multiset(used)[u] < multiset(used)[Suggested(h)] ||
                   (multiset(used)[u] == multiset(used)[Suggested(h)] && !Text.Less(u, Suggested(h)))
  {
    assert h.users == [] || h.users[0] in h.users;
    assert used == [] || used[0] in used;
  }

  predicate IsBest(h: History, users: seq<string>, best: string) {
    best in users && forall u | u in users :: !Better(h, u, best)
  }

  lemma {:induction false} NonBlankNotEmpty(users: seq<string>)
    ensures "" !in NonBlank(users)
  {
    if users != [] {
      NonBlankNotEmpty(users[..|users| - 1]);
    }
  }

  lemma {:induction false} BestIsBest(h: History, users: seq<string>)
    requires forall u | u in users :: Count(h, u) > 0
    requires Count(h, "") == 0
    ensures users != [] ==> IsBest(h, users, BestOf(h, users))
  {
    if users != [] {
      var n := |users| - 1;
      BestIsBest(h, users[..n]);
      assert users == users[..n] + [users[n]];
      var before, last := BestOf(h, users[..n]), users[n];
      Text.LessTotal(last, last);
      if n == 0 {
        assert users[..n] == [];
      } else {
        forall u | u in users[..n] && Better(h, last, before) ensures !Better(h, u, last) {
          Text.LessTotal(last, before);
          Text.NotAfterTransitive(last, before, u);
        }
      }
    }
  }

  /** The machines a user has dealings with: the known ones their grants, requests and
      sessions name. */
  lemma EvidenceIsDealings(input: Inputs)
    ensures forall id :: id in HistoryOf(input).evidence <==>
              id in ByID(input.machines) &&
              ((exists g | g in input.grants :: g.machineID == id) ||
               (exists r | r in input.requests :: r.machineID == id) ||
               (exists s | s in input.sessions :: s.machineID == id))
  {
    var known := ByID(input.machines).Keys;
    var g := NoteGrants(known, NoHistory, input.grants);
    var p := NoteRequests(known, g, input.requests, true);
    var r := NoteRequests(known, p, input.requests, false);
    GrantEvidence(known, input.grants);
    RequestEvidence(known, g, input.requests, true);
    RequestEvidence(known, p, input.requests, false);
    SessionEvidence(known, r, input.sessions);
  }

  lemma {:induction false} LoginsLeaveEvidence(h: History, users: seq<string>)
    ensures NoteLogins(h, users).evidence == h.evidence
  {
    if users != [] {
      LoginsLeaveEvidence(h, users[..|users| - 1]);
    }
  }

  lemma AddsEvidence(known: set<string>, h: History, machineID: string, users: seq<string>)
    ensures AfterEvidence(known, h, machineID, users).evidence == h.evidence + {machineID} * known
  {
    LoginsLeaveEvidence(if machineID in known then h.(evidence := h.evidence + {machineID}) else h, users);
  }

  lemma {:induction false} GrantEvidence(known: set<string>, grants: seq<Grant>)
    ensures forall id :: id in NoteGrants(known, NoHistory, grants).evidence <==>
                         id in known && exists g | g in grants :: g.machineID == id
  {
    if grants != [] {
      var n := |grants| - 1;
      GrantEvidence(known, grants[..n]);
      AddsEvidence(known, NoteGrants(known, NoHistory, grants[..n]), grants[n].machineID, grants[n].remoteUsers);
      assert grants == grants[..n] + [grants[n]];
    }
  }

  lemma {:induction false} RequestEvidence(known: set<string>, h: History, requests: seq<Request>, pending: bool)
    ensures forall id :: id in NoteRequests(known, h, requests, pending).evidence <==>
                         id in h.evidence ||
                         (id in known && exists r | r in requests :: IsPending(r) == pending && r.machineID == id)
  {
    if requests != [] {
      var n := |requests| - 1;
      RequestEvidence(known, h, requests[..n], pending);
      AddsEvidence(known, NoteRequests(known, h, requests[..n], pending),
                   requests[n].machineID, requests[n].remoteUsers);
      assert requests == requests[..n] + [requests[n]];
    }
  }

  lemma {:induction false} SessionEvidence(known: set<string>, h: History, sessions: seq<Session>)
    ensures forall id :: id in NoteSessions(known, h, sessions).evidence <==>
                         id in h.evidence || (id in known && exists s | s in sessions :: s.machineID == id)
  {
    if sessions != [] {
      var n := |sessions| - 1;
      SessionEvidence(known, h, sessions[..n]);
      AddsEvidence(known, NoteSessions(known, h, sessions[..n]), sessions[n].machineID, [sessions[n].remoteUser]);
      assert sessions == sessions[..n] + [sessions[n]];
    }
  }

  /** A machine offered for a tag is one the user has no dealings with, and it shares that tag
      with one they have. */
  lemma TagEntriesSayWhy(input: Inputs, k: Capability)
    requires k in Catalog(input) && k.offer.source == FromTag
    ensures k.machineID !in HistoryOf(input).evidence && k.offer.reason.Shares?
    ensures exists m, peer ::
              && m in input.machines && m.id == k.machineID && k.offer.reason.tag in TagsOf(m, m.tags.Keys)
              && peer in input.machines && peer.id in HistoryOf(input).evidence && peer.name == k.offer.reason.origin
              && k.offer.reason.tag in TagsOf(peer, peer.tags.Keys)
  {
    var h := HistoryOf(input);
    var origins := Origins(input.machines, h.evidence);
    EntryHasOrigin(input, k);
    var c :| Origin(input, c) && c.machineID == k.machineID && k == Fill(ByID(input.machines)[k.machineID], c);
    var m :| m in input.machines && c in TagCandidate(m, h.evidence, origins, Suggested(h));
    TagCandidateSaysWhy(m, h.evidence, origins, Suggested(h), c);
    OriginsAreKnown(input.machines, h.evidence, k.offer.reason.tag);
  }

  lemma TagCandidateSaysWhy(m: Machine, evidence: set<string>, origins: map<string, string>, login: string,
                            c: Candidate)
    requires c in TagCandidate(m, evidence, origins, login)
    ensures m.id == c.machineID && m.id !in evidence && c.offer.reason.Shares?
    ensures c.offer.reason.tag in TagsOf(m, m.tags.Keys)
    ensures c.offer.reason.tag in origins && c.offer.reason.origin == origins[c.offer.reason.tag]
  {
    var key := Least(SharedKeys(m, origins));
    assert Tag(m, key) in TagsOf(m, m.tags.Keys);
  }
}

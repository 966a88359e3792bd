/** What a user could ask for (pkg/api/capabilities.go): candidates are offered strongest
    relationship first, and one is kept unless an earlier one already serves its target. */
module Capabilities {
  import opened Wrappers
  import StableSort
  import Text

  type Time = int

  datatype Machine = Machine(
    id: string, name: string, hostname: string, port: int, isActive: bool, tags: map<string, string>)

  datatype Grant = Grant(
    id: string, machineID: string, accessType: string, remoteUsers: seq<string>, expiresAt: Option<Time>)

  datatype Request = Request(
    id: string, machineID: string, accessType: string, remoteUsers: seq<string>, status: string,
    expiresAt: Option<Time>)

  datatype Session = Session(machineID: string, remoteUser: string, startTime: Time)

  datatype Inputs = Inputs(
    now: Time, all: bool, machines: seq<Machine>, grants: seq<Grant>, requests: seq<Request>, sessions: seq<Session>)

  // ---------- access types ----------

  const SSH := "ssh"
  const SCP := "scp"
  const BOTH := "both" // ssh and scp
  const RDP := "rdp"
  const VNC := "vnc"
  const K8S := "k8s"

  predicate Covers(granted: string, wanted: string) {
    granted == wanted || (granted == BOTH && (wanted == SSH || wanted == SCP))
  }

  function Normalize(accessType: string): string {
    var t := Text.ToLower(Text.Trim(accessType));
    if t == SSH || t == SCP || t == RDP || t == VNC || t == K8S then t else BOTH
  }

  /** What an access type lets its holder do. */
  function Allows(accessType: string): set<string> {
    if accessType == BOTH then {SSH, SCP} else {accessType}
  }

  /** Covering is containment of what is allowed; "both" never widens to a tunnel or k8s. */
  lemma CoversIsContainment(a: string, b: string)
    ensures Covers(Normalize(a), Normalize(b)) <==> Allows(Normalize(b)) <= Allows(Normalize(a))
  {
    var x, y := Normalize(a), Normalize(b);
    if Allows(y) <= Allows(x) {
      assert y == BOTH ==> SSH in Allows(x) && SCP in Allows(x);
      assert y != BOTH ==> y in Allows(x);
    }
  }

  /** A known type stays itself, in any case and with blanks around it; anything else is "both". */
  lemma NormalizeKeepsKnown(accessType: string)
    ensures var t := Text.ToLower(Text.Trim(accessType));
            Normalize(accessType) == if t in {"ssh", "scp", "rdp", "vnc", "k8s"} then t else "both"
    ensures Normalize("ssh") == "ssh" && Normalize("scp") == "scp" && Normalize("both") == "both"
    ensures Normalize("rdp") == "rdp" && Normalize("vnc") == "vnc" && Normalize("k8s") == "k8s"
  {
    forall t | t in {"ssh", "scp", "rdp", "vnc", "k8s", "both"} ensures Text.ToLower(Text.Trim(t)) == t {
      Text.TrimTrims(t);
      assert Text.Trimmed(t);
    }
  }

  // ---------- candidates and entries ----------

  datatype Status = Granted | Pending | Requestable
  datatype Source = FromGrant | FromRequest | FromSession | FromTag | FromDirectory

  datatype Reason =
    | Held | AwaitingApproval | ApprovalLapsed | ApprovedBefore | WasRejected | HadExpired | AskedBefore
    | Connected | Shares(tag: string, origin: string) | Listed

  datatype Offer = Offer(
    status: Status, source: Source, reason: Reason, permissionID: string, requestID: string,
    expiresAt: Option<Time>, lastUsedAt: Option<Time>)

  datatype Candidate = Candidate(machineID: string, remoteUser: string, accessType: string, offer: Offer)

  datatype Capability = Capability(
    id: string, machineID: string, machine: Machine, remoteUser: string, accessType: string, offer: Offer)

  function StatusRank(s: Status): int {
    match s
    case Granted => 0
    case Pending => 1
    case Requestable => 2
  }

  function SourceRank(s: Source): int {
    match s
    case FromGrant => 0
    case FromRequest => 1
    case FromSession => 2
    case FromTag => 3
    case FromDirectory => 4
  }

  predicate Discovered(o: Offer) {
    o.source == FromTag || o.source == FromDirectory
  }

  function Target(machineID: string, remoteUser: string): string {
    machineID + "|" + remoteUser
  }

  function TargetOf(k: Capability): string {
    Target(k.machineID, k.remoteUser)
  }

  function Fill(machine: Machine, c: Candidate): Capability {
    var login := Text.Trim(c.remoteUser);
    var accessType := Normalize(c.accessType);
    Capability(Target(c.machineID, login) + "|" + accessType, c.machineID, machine, login, accessType, c.offer)
  }

  /** The kept entry makes the newcomer on the same target pointless. */
  predicate Blocks(kept: Capability, e: Capability) {
    TargetOf(kept) == TargetOf(e) && (Covers(kept.accessType, e.accessType) || Discovered(e.offer))
  }

  predicate Blocked(entries: seq<Capability>, e: Capability) {
    exists k | k in entries :: Blocks(k, e)
  }

  function Keep(machines: map<string, Machine>, entries: seq<Capability>, c: Candidate): seq<Capability> {
    if c.machineID !in machines then entries
    else
      var e := Fill(machines[c.machineID], c);
      if Blocked(entries, e) then entries else entries + [e]
  }

  function KeepAll(machines: map<string, Machine>, entries: seq<Capability>, cs: seq<Candidate>): seq<Capability> {
    if cs == [] then entries
    else Keep(machines, KeepAll(machines, entries, cs[..|cs| - 1]), cs[|cs| - 1])
  }

  lemma {:induction false} KeepAllAppends(
    machines: map<string, Machine>, entries: seq<Capability>, a: seq<Candidate>, b: seq<Candidate>)
    ensures KeepAll(machines, entries, a + b) == KeepAll(machines, KeepAll(machines, entries, a), b)
  {
    if b == [] {
      assert a + b == a;
    } else {
      var n := |b| - 1;
      assert (a + b)[..|a + b| - 1] == a + b[..n];
      KeepAllAppends(machines, entries, a, b[..n]);
    }
  }

  /** Candidates arrive strongest first: by status, and within a status by source. */
  predicate NoLater(a: Offer, b: Offer) {
    || StatusRank(a.status) < StatusRank(b.status)
    || (a.status == b.status && SourceRank(a.source) <= SourceRank(b.source))
  }

  predicate InOrder(cs: seq<Candidate>) {
    forall i, j | 0 <= i < j < |cs| :: NoLater(cs[i].offer, cs[j].offer)
  }

  // ---------- what keeping guarantees ----------

  /** Every kept entry is one of the candidates, filled in from its machine. */
  predicate Genuine(machines: map<string, Machine>, cs: seq<Candidate>, k: Capability) {
    exists c | c in cs :: c.machineID in machines && k == Fill(machines[c.machineID], c)
  }

  lemma {:induction false} KeptAreGenuine(machines: map<string, Machine>, cs: seq<Candidate>)
    ensures forall k | k in KeepAll(machines, [], cs) :: Genuine(machines, cs, k)
  {
    if cs != [] {
      var n := |cs| - 1;
      KeptAreGenuine(machines, cs[..n]);
      forall k | k in KeepAll(machines, [], cs) ensures Genuine(machines, cs, k) {
        if k in KeepAll(machines, [], cs[..n]) {
          var c :| c in cs[..n] && c.machineID in machines && k == Fill(machines[c.machineID], c);
          assert c in cs;
        } else {
          assert cs[n] in cs && k == Fill(machines[cs[n].machineID], cs[n]);
        }
      }
    }
  }

  /** No kept entry is made pointless by an earlier one. */
  predicate NonRedundant(entries: seq<Capability>) {
    forall i, j | 0 <= i < j < |entries| :: !Blocks(entries[i], entries[j])
  }

  lemma {:induction false} KeptAreNonRedundant(machines: map<string, Machine>, cs: seq<Candidate>)
    ensures NonRedundant(KeepAll(machines, [], cs))
  {
    if cs != [] {
      KeptAreNonRedundant(machines, cs[..|cs| - 1]);
    }
  }

  /** Something kept serves the candidate: on its target, no weaker, and covering its access
      type unless it was only a discovery. */
  predicate Serves(k: Capability, c: Candidate) {
    && TargetOf(k) == Target(c.machineID, Text.Trim(c.remoteUser))
    && NoLater(k.offer, c.offer)
    && (Covers(k.accessType, Normalize(c.accessType)) || Discovered(c.offer))
  }

  predicate Served(entries: seq<Capability>, c: Candidate) {
    exists k | k in entries :: Serves(k, c)
  }

  lemma {:induction false} EveryCandidateIsServed(machines: map<string, Machine>, cs: seq<Candidate>)
    requires InOrder(cs)
    ensures forall c | c in cs && c.machineID in machines :: Served(KeepAll(machines, [], cs), c)
  {
    if cs != [] {
      var n := |cs| - 1;
      var before := KeepAll(machines, [], cs[..n]);
      EveryCandidateIsServed(machines, cs[..n]);
      forall c | c in cs && c.machineID in machines ensures Served(KeepAll(machines, [], cs), c) {
        if c in cs[..n] {
          var k :| k in before && Serves(k, c);
          assert k in KeepAll(machines, [], cs);
        } else {
          LastIsServed(machines, cs);
        }
      }
    }
  }

  lemma LastIsServed(machines: map<string, Machine>, cs: seq<Candidate>)
    requires cs != [] && InOrder(cs) && cs[|cs| - 1].machineID in machines
    ensures Served(KeepAll(machines, [], cs), cs[|cs| - 1])
  {
    var n := |cs| - 1;
    var before := KeepAll(machines, [], cs[..n]);
    var e := Fill(machines[cs[n].machineID], cs[n]);
    if Blocked(before, e) {
      var k :| k in before && Blocks(k, e);
      KeptAreGenuine(machines, cs[..n]);
      var c :| c in cs[..n] && c.machineID in machines && k == Fill(machines[c.machineID], c);
      var i :| 0 <= i < n && cs[i] == c;
      assert Serves(k, cs[n]);
    } else {
      assert e in KeepAll(machines, [], cs) && Serves(e, cs[n]);
    }
  }

  // ---------- the candidates, in the order they are offered ----------

  function ByID(machines: seq<Machine>): map<string, Machine> {
    if machines == [] then map[]
    else ByID(machines[..|machines| - 1])[machines[|machines| - 1].id := machines[|machines| - 1]]
  }

  function NonBlank(users: seq<string>): seq<string> {
    if users == [] then []
    else
      var u := Text.Trim(users[|users| - 1]);
      NonBlank(users[..|users| - 1]) + if u == "" then [] else [u]
  }

  /** No login named reads as one blank login: any. */
  function Logins(users: seq<string>): seq<string> {
    if NonBlank(users) == [] then [""] else NonBlank(users)
  }

  function ForLogins(template: Candidate, logins: seq<string>): seq<Candidate> {
    if logins == [] then []
    else ForLogins(template, logins[..|logins| - 1]) + [template.(remoteUser := logins[|logins| - 1])]
  }

  function GrantTemplate(g: Grant): Candidate {
    Candidate(g.machineID, "", g.accessType, Offer(Granted, FromGrant, Held, g.id, "", g.expiresAt, None))
  }

  function GrantCandidates(grants: seq<Grant>): seq<Candidate> {
    if grants == [] then []
    else
      var g := grants[|grants| - 1];
      GrantCandidates(grants[..|grants| - 1]) + ForLogins(GrantTemplate(g), Logins(g.remoteUsers))
  }

  function ReasonFor(r: Request, now: Time): Reason {
    if r.status == "pending" then AwaitingApproval
    else if r.status == "approved" then
      if r.expiresAt.Some? && r.expiresAt.value < now then ApprovalLapsed else ApprovedBefore
    else if r.status == "rejected" then WasRejected
    else if r.status == "expired" then HadExpired
    else AskedBefore
  }

  predicate IsPending(r: Request) {
    r.status == "pending"
  }

  function RequestTemplate(r: Request, now: Time): Candidate {
    Candidate(r.machineID, "", r.accessType,
              Offer(if IsPending(r) then Pending else Requestable, FromRequest, ReasonFor(r, now), "", r.id,
                    None, None))
  }

  function RequestCandidates(requests: seq<Request>, pending: bool, now: Time): seq<Candidate> {
    if requests == [] then []
    else
      var r := requests[|requests| - 1];
      RequestCandidates(requests[..|requests| - 1], pending, now) +
      if IsPending(r) == pending then ForLogins(RequestTemplate(r, now), Logins(r.remoteUsers)) else []
  }

  datatype SessionKey = SessionKey(machineID: string, remoteUser: string)

  function KeyOf(s: Session): SessionKey {
    SessionKey(s.machineID, Text.Trim(s.remoteUser))
  }

  /** Each machine and login once, in order of first appearance. */
  function SessionKeys(sessions: seq<Session>): seq<SessionKey> {
    if sessions == [] then []
    else
      var before := SessionKeys(sessions[..|sessions| - 1]);
      var key := KeyOf(sessions[|sessions| - 1]);
      if key in before then before else before + [key]
  }

  function Latest(sessions: seq<Session>, key: SessionKey): Option<Time> {
    if sessions == [] then None
    else
      var before := Latest(sessions[..|sessions| - 1], key);
      var s := sessions[|sessions| - 1];
      if KeyOf(s) == key && (before.None? || s.startTime > before.value) then Some(s.startTime) else before
  }

  function SessionCandidates(sessions: seq<Session>, keys: seq<SessionKey>): seq<Candidate> {
    if keys == [] then []
    else
      var key := keys[|keys| - 1];
      SessionCandidates(sessions, keys[..|keys| - 1]) +
      [Candidate(key.machineID, key.remoteUser, BOTH,
                 Offer(Requestable, FromSession, Connected, "", "", None, Latest(sessions, key)))]
  }

  // What the user's history shows: the machines they have first-hand dealings with, and the
  // logins they work as, each once in order of first appearance, with its uses.

  datatype History = History(evidence: set<string>, users: seq<string>, usage: map<string, int>)

  const NoHistory := History({}, [], map[])

  function Count(h: History, u: string): int {
    if u in h.usage then h.usage[u] else 0
  }

  function NoteLogin(h: History, login: string): History {
    var u := Text.Trim(login);
    if u == "" then h
    else h.(users := if u in h.usage then h.users else h.users + [u], usage := h.usage[u := Count(h, u) + 1])
  }

  function NoteLogins(h: History, users: seq<string>): History {
    if users == [] then h else NoteLogin(NoteLogins(h, users[..|users| - 1]), users[|users| - 1])
  }

  function AfterEvidence(known: set<string>, h: History, machineID: string, users: seq<string>): History {
    NoteLogins(if machineID in known then h.(evidence := h.evidence + {machineID}) else h, users)
  }

  function NoteGrants(known: set<string>, h: History, grants: seq<Grant>): History {
    if grants == [] then h
    else
      var g := grants[|grants| - 1];
      AfterEvidence(known, NoteGrants(known, h, grants[..|grants| - 1]), g.machineID, g.remoteUsers)
  }

  function NoteRequests(known: set<string>, h: History, requests: seq<Request>, pending: bool): History {
    if requests == [] then h
    else
      var before := NoteRequests(known, h, requests[..|requests| - 1], pending);
      var r := requests[|requests| - 1];
      if IsPending(r) == pending then AfterEvidence(known, before, r.machineID, r.remoteUsers) else before
  }

  function NoteSessions(known: set<string>, h: History, sessions: seq<Session>): History {
    if sessions == [] then h
    else
      var s := sessions[|sessions| - 1];
      AfterEvidence(known, NoteSessions(known, h, sessions[..|sessions| - 1]), s.machineID, [s.remoteUser])
  }

  function HistoryOf(input: Inputs): History {
    var known := ByID(input.machines).Keys;
    var h := NoteGrants(known, NoHistory, input.grants);
    NoteSessions(known, NoteRequests(known, NoteRequests(known, h, input.requests, true), input.requests, false),
                 input.sessions)
  }

  /** Used more often, or as often and earlier in the alphabet. */
  predicate Better(h: History, a: string, b: string) {
    Count(h, a) > Count(h, b) || (Count(h, a) == Count(h, b) && Text.Less(a, b))
  }

  function BestOf(h: History, users: seq<string>): string {
    if users == [] then ""
    else
      var best := BestOf(h, users[..|users| - 1]);
      if Better(h, users[|users| - 1], best) then users[|users| - 1] else best
  }

  function Suggested(h: History): string {
    var best := BestOf(h, h.users);
    if best == "" then "root" else best
  }

  function Tag(m: Machine, key: string): string
    requires key in m.tags
  {
    key + "=" + m.tags[key]
  }

  function TagsOf(m: Machine, keys: set<string>): set<string>
    requires keys <= m.tags.Keys
  {
    set k | k in keys :: Tag(m, k)
  }

  function Merge(origins: map<string, string>, tags: set<string>, name: string): map<string, string> {
    map t | t in origins.Keys + tags ::
      if t in origins && (t !in tags || !Text.Less(name, origins[t])) then origins[t] else name
  }

  /** Each tag of a known machine, with the first such machine's name in the alphabet. */
  function Origins(machines: seq<Machine>, evidence: set<string>): map<string, string> {
    if machines == [] then map[]
    else
      var m := machines[|machines| - 1];
      var before := Origins(machines[..|machines| - 1], evidence);
      if m.id in evidence then Merge(before, TagsOf(m, m.tags.Keys), m.name) else before
  }

  function SharedKeys(m: Machine, origins: map<string, string>): set<string> {
    set k | k in m.tags && Tag(m, k) in origins
  }

  ghost function Least(keys: set<string>): (r: string)
    requires keys != {}
    ensures r in keys && forall k | k in keys :: !Text.Less(k, r)
    decreases |keys|
  {
    var k :| k in keys;
    Text.LessTotal(k, k);
    if keys == {k} then k
    else
      assert k in keys && keys - {k} != {};
      var r := Least(keys - {k});
      Text.LessTotal(k, r);
      if Text.Less(k, r) then
        assert forall j | j in keys :: !Text.Less(j, k) by {
          forall j | j in keys ensures !Text.Less(j, k) {
            if j != k && Text.Less(j, k) {
              Text.LessTransitive(j, k, r);
            }
          }
        }
        k
      else r
  }

  ghost function TagCandidate(m: Machine, evidence: set<string>, origins: map<string, string>, login: string)
    : seq<Candidate>
  {
    if m.id in evidence || SharedKeys(m, origins) == {} then []
    else
      var tag := Tag(m, Least(SharedKeys(m, origins)));
      [Candidate(m.id, login, BOTH, Offer(Requestable, FromTag, Shares(tag, origins[tag]), "", "", None, None))]
  }

  ghost function TagCandidates(ms: seq<Machine>, evidence: set<string>, origins: map<string, string>, login: string)
    : seq<Candidate>
  {
    if ms == [] then []
    else TagCandidates(ms[..|ms| - 1], evidence, origins, login) + TagCandidate(ms[|ms| - 1], evidence, origins, login)
  }

  function DirectoryCandidates(ms: seq<Machine>, login: string): seq<Candidate> {
    if ms == [] then []
    else
      DirectoryCandidates(ms[..|ms| - 1], login) +
      [Candidate(ms[|ms| - 1].id, login, BOTH, Offer(Requestable, FromDirectory, Listed, "", "", None, None))]
  }

  predicate NameLess(a: Machine, b: Machine) {
    Text.Less(a.name, b.name)
  }

  function ByName(machines: seq<Machine>): seq<Machine> {
    StableSort.Sort(machines, NameLess)
  }

  /** Everything a relationship suggests. */
  ghost function Related(input: Inputs): seq<Candidate> {
    GrantCandidates(input.grants) +
    RequestCandidates(input.requests, true, input.now) +
    RequestCandidates(input.requests, false, input.now) +
    SessionCandidates(input.sessions, SessionKeys(input.sessions)) +
    TagCandidates(ByName(input.machines), HistoryOf(input).evidence, Origins(input.machines, HistoryOf(input).evidence),
                  Suggested(HistoryOf(input)))
  }

  ghost function Listing(input: Inputs): seq<Candidate> {
    if input.all then DirectoryCandidates(ByName(input.machines), Suggested(HistoryOf(input))) else []
  }

  /** The catalog before it is sorted and cut. */
  ghost function Catalog(input: Inputs): seq<Capability> {
    KeepAll(ByID(input.machines), [], Related(input) + Listing(input))
  }

  predicate LessCapability(a: Capability, b: Capability) {
    if StatusRank(a.offer.status) != StatusRank(b.offer.status) then
      StatusRank(a.offer.status) < StatusRank(b.offer.status)
    else if SourceRank(a.offer.source) != SourceRank(b.offer.source) then
      SourceRank(a.offer.source) < SourceRank(b.offer.source)
    else if a.machine.name != b.machine.name then Text.Less(a.machine.name, b.machine.name)
    else if a.remoteUser != b.remoteUser then Text.Less(a.remoteUser, b.remoteUser)
    else Text.Less(a.accessType, b.accessType)
  }

  const MAX_ENTRIES := 500

  /** What is returned. */
  ghost function Returned(input: Inputs): seq<Capability> {
    var sorted := StableSort.Sort(Catalog(input), LessCapability);
    if |sorted| > MAX_ENTRIES then sorted[..MAX_ENTRIES] else sorted
  }

  // ---------- the builder ----------

  /** The kept entries on one target. */
  function OnTarget(entries: seq<Capability>, target: string): seq<Capability> {
    if entries == [] then []
    else
      var e := entries[|entries| - 1];
      OnTarget(entries[..|entries| - 1], target) + if TargetOf(e) == target then [e] else []
  }

  lemma {:induction false} OnTargetMembers(entries: seq<Capability>, target: string)
    ensures forall k :: k in OnTarget(entries, target) <==> k in entries && TargetOf(k) == target
  {
    if entries != [] {
      var n := |entries| - 1;
      OnTargetMembers(entries[..n], target);
      assert entries == entries[..n] + [entries[n]];
    }
  }

  ghost predicate Indexes(byTarget: map<string, seq<Capability>>, entries: seq<Capability>) {
    forall t :: OnTarget(entries, t) == if t in byTarget then byTarget[t] else []
  }

  lemma IndexGrows(byTarget: map<string, seq<Capability>>, entries: seq<Capability>, e: Capability)
    requires Indexes(byTarget, entries)
    ensures Indexes(byTarget[TargetOf(e) := OnTarget(entries, TargetOf(e)) + [e]], entries + [e])
  {
    var after := byTarget[TargetOf(e) := OnTarget(entries, TargetOf(e)) + [e]];
    assert (entries + [e])[..|entries|] == entries;
    forall t ensures OnTarget(entries + [e], t) == if t in after then after[t] else [] {
      assert OnTarget(entries, t) == if t in byTarget then byTarget[t] else [];
    }
  }

  method Outranked(onTarget: seq<Capability>, entry: Capability) returns (outranked: bool)
    requires forall k | k in onTarget :: TargetOf(k) == TargetOf(entry)
    ensures outranked <==> Blocked(onTarget, entry)
  {
    for i := 0 to |onTarget|
      invariant forall k | k in onTarget[..i] :: !Blocks(k, entry)
    {
      assert onTarget[i] in onTarget;
      if Covers(onTarget[i].accessType, entry.accessType) {
        return true;
      }
      if entry.offer.source == FromTag || entry.offer.source == FromDirectory {
        return true;
      }
    }
    outranked := false;
  }

  class Builder {
    const machines: map<string, Machine>
    const now: Time
    var entries: seq<Capability>
    var byTarget: map<string, seq<Capability>>
    var evidence: set<string>
    var remoteUsage: map<string, int>
    var remoteUsers: seq<string>

    ghost predicate Valid()
      reads `entries, `byTarget, `remoteUsage
    {
      Indexes(byTarget, entries) && "" !in remoteUsage
    }

    function Noted(): History
      reads `evidence, `remoteUsers, `remoteUsage
    {
      History(evidence, remoteUsers, remoteUsage)
    }

    constructor (machines: map<string, Machine>, now: Time)
      ensures this.machines == machines && this.now == now
      ensures Valid() && entries == [] && Noted() == NoHistory
    {
      this.machines := machines;
      this.now := now;
      entries := [];
      byTarget := map[];
      evidence := {};
      remoteUsage := map[];
      remoteUsers := [];
    }

    method Add(c: Candidate)
      requires Valid()
      modifies `entries, `byTarget
      ensures Valid() && entries == Keep(machines, old(entries), c)
    {
      if c.machineID !in machines {
        return;
      }
      var entry := Fill(machines[c.machineID], c);
      var target := TargetOf(entry);
      var onTarget := if target in byTarget then byTarget[target] else [];
      assert onTarget == OnTarget(entries, target);
      OnTargetMembers(entries, target);
      var outranked := Outranked(onTarget, entry);
      assert outranked <==> Blocked(entries, entry) by {
        if Blocked(entries, entry) {
          var k :| k in entries && Blocks(k, entry);
          assert k in onTarget;
        }
      }
      if outranked {
        return;
      }
      IndexGrows(byTarget, entries, entry);
      byTarget := byTarget[target := onTarget + [entry]];
      entries := entries + [entry];
    }

    method NoteEvidence(machineID: string, users: seq<string>)
      requires Valid()
      modifies `evidence, `remoteUsage, `remoteUsers
      ensures Valid() && Noted() == AfterEvidence(machines.Keys, old(Noted()), machineID, users)
    {
      if machineID in machines {
        evidence := evidence + {machineID};
      }
      ghost var h := Noted();
      for i := 0 to |users|
        invariant Noted() == NoteLogins(h, users[..i]) && "" !in remoteUsage
      {
        assert users[..i + 1][..i] == users[..i];
        var u := Text.Trim(users[i]);
        if u == "" {
          continue;
        }
        if u !in remoteUsage {
          remoteUsers := remoteUsers + [u];
        }
        remoteUsage := remoteUsage[u := (if u in remoteUsage then remoteUsage[u] else 0) + 1];
      }
      assert users[..|users|] == users;
    }

    /** The loop body of addGrants and addRequests. */
    method AddForLogins(template: Candidate, users: seq<string>)
      requires Valid()
      modifies this
      ensures Valid() && entries == KeepAll(machines, old(entries), ForLogins(template, Logins(users)))
      ensures Noted() == AfterEvidence(machines.Keys, old(Noted()), template.machineID, users)
    {
      NoteEvidence(template.machineID, users);
      ghost var h := Noted();
      var logins := RemoteUsersOrAny(users);
      for i := 0 to |logins|
        invariant Valid() && entries == KeepAll(machines, old(entries), ForLogins(template, logins[..i]))
        invariant Noted() == h
      {
        assert logins[..i + 1][..i] == logins[..i];
        KeepAllOne(machines, old(entries), ForLogins(template, logins[..i]), template.(remoteUser := logins[i]));
        Add(template.(remoteUser := logins[i]));
      }
      assert logins[..|logins|] == logins;
    }

    method AddGrants(grants: seq<Grant>)
      requires Valid()
      modifies this
      ensures Valid() && entries == KeepAll(machines, old(entries), GrantCandidates(grants))
      ensures Noted() == NoteGrants(machines.Keys, old(Noted()), grants)
    {
      for i := 0 to |grants|
        invariant Valid() && entries == KeepAll(machines, old(entries), GrantCandidates(grants[..i]))
        invariant Noted() == NoteGrants(machines.Keys, old(Noted()), grants[..i])
      {
        var g := grants[i];
        GrantsGrow(machines, old(entries), old(Noted()), grants, i);
        AddForLogins(GrantTemplate(g), g.remoteUsers);
      }
      assert grants[..|grants|] == grants;
    }

    /** One of the two passes of addRequests. */
    method AddRequestsThat(requests: seq<Request>, pending: bool)
      requires Valid()
      modifies this
      ensures Valid() && entries == KeepAll(machines, old(entries), RequestCandidates(requests, pending, now))
      ensures Noted() == NoteRequests(machines.Keys, old(Noted()), requests, pending)
    {
      for i := 0 to |requests|
        invariant Valid() && entries == KeepAll(machines, old(entries), RequestCandidates(requests[..i], pending, now))
        invariant Noted() == NoteRequests(machines.Keys, old(Noted()), requests[..i], pending)
      {
        var r := requests[i];
        RequestsGrow(machines, old(entries), old(Noted()), requests, pending, now, i);
        if IsPending(r) != pending {
          continue;
        }
        AddForLogins(RequestTemplate(r, now), r.remoteUsers);
      }
      assert requests[..|requests|] == requests;
    }

    /** Pending asks outrank finished ones. */
    method AddRequests(requests: seq<Request>)
      requires Valid()
      modifies this
      ensures Valid()
      ensures entries == KeepAll(machines, KeepAll(machines, old(entries), RequestCandidates(requests, true, now)),
                                 RequestCandidates(requests, false, now))
      ensures Noted() == NoteRequests(machines.Keys, NoteRequests(machines.Keys, old(Noted()), requests, true),
                                      requests, false)
    {
      AddRequestsThat(requests, true);
      AddRequestsThat(requests, false);
    }

    /** The first loop of addSessions: the newest session of each machine and login. */
    method NoteSessionStarts(sessions: seq<Session>) returns (lastUsed: map<SessionKey, Time>, order: seq<SessionKey>)
      requires Valid()
      modifies `evidence, `remoteUsage, `remoteUsers
      ensures Valid() && Noted() == NoteSessions(machines.Keys, old(Noted()), sessions)
      ensures order == SessionKeys(sessions) && Stamps(lastUsed, sessions)
    {
      lastUsed := map[];
      order := [];
      for i := 0 to |sessions|
        invariant Valid() && Noted() == NoteSessions(machines.Keys, old(Noted()), sessions[..i])
        invariant order == SessionKeys(sessions[..i]) && Stamps(lastUsed, sessions[..i])
      {
        var s := sessions[i];
        var key := KeyOf(s);
        SessionsGrow(machines.Keys, old(Noted()), lastUsed, sessions, i);
        NoteEvidence(s.machineID, [s.remoteUser]);
        if key !in lastUsed {
          order := order + [key];
          lastUsed := lastUsed[key := s.startTime];
        } else if s.startTime > lastUsed[key] {
          lastUsed := lastUsed[key := s.startTime];
        }
      }
      assert sessions[..|sessions|] == sessions;
    }

    method AddSessions(sessions: seq<Session>)
      requires Valid()
      modifies this
      ensures Valid()
      ensures entries == KeepAll(machines, old(entries), SessionCandidates(sessions, SessionKeys(sessions)))
      ensures Noted() == NoteSessions(machines.Keys, old(Noted()), sessions)
    {
      var lastUsed, order := NoteSessionStarts(sessions);
      ghost var h := Noted();
      for i := 0 to |order|
        invariant Valid() && entries == KeepAll(machines, old(entries), SessionCandidates(sessions, order[..i]))
        invariant Noted() == h
      {
        var key := order[i];
        SessionStep(machines, old(entries), sessions, lastUsed, i);
        Add(Candidate(key.machineID, key.remoteUser, BOTH,
                      Offer(Requestable, FromSession, Connected, "", "", None, Some(lastUsed[key]))));
      }
      assert order[..|order|] == order;
    }

    method SuggestedRemoteUser() returns (login: string)
      requires Valid()
      ensures login == Suggested(Noted())
    {
      var best, bestCount := "", 0;
      for i := 0 to |remoteUsers|
        invariant best == BestOf(Noted(), remoteUsers[..i]) && bestCount == Count(Noted(), best)
      {
        assert remoteUsers[..i + 1][..i] == remoteUsers[..i];
        var n := Count(Noted(), remoteUsers[i]);
        if n > bestCount || (n == bestCount && Text.Less(remoteUsers[i], best)) {
          best, bestCount := remoteUsers[i], n;
        }
      }
      assert remoteUsers[..|remoteUsers|] == remoteUsers;
      login := if best == "" then "root" else best;
    }

    method TagOrigins(list: seq<Machine>) returns (origins: map<string, string>)
      ensures origins == Origins(list, evidence)
    {
      origins := map[];
      for i := 0 to |list|
        invariant origins == Origins(list[..i], evidence)
      {
        assert list[..i + 1][..i] == list[..i];
        var m := list[i];
        if m.id !in evidence {
          continue;
        }
        origins := MergeTags(origins, m);
      }
      assert list[..|list|] == list;
    }

    method AddTagPeers(list: seq<Machine>)
      requires Valid()
      modifies `entries, `byTarget
      ensures Valid()
      ensures entries == KeepAll(machines, old(entries), TagCandidates(ByName(list), evidence, Origins(list, evidence),
                                                                       Suggested(Noted())))
    {
      var origins := TagOrigins(list);
      var sorted := ByName(list);
      if |origins| == 0 {
        NothingShared(sorted, evidence, origins, Suggested(Noted()));
        return;
      }
      var remote := SuggestedRemoteUser();
      for i := 0 to |sorted|
        invariant Valid()
        invariant entries == KeepAll(machines, old(entries), TagCandidates(sorted[..i], evidence, origins, remote))
      {
        TagsGrow(machines, old(entries), sorted, evidence, origins, remote, i);
        if sorted[i].id in evidence {
          continue;
        }
        AddTagPeer(sorted[i], origins, remote);
      }
      assert sorted[..|sorted|] == sorted;
    }

    /** The first key, in order, whose tag a known machine has as well. */
    method AddTagPeer(m: Machine, origins: map<string, string>, remote: string)
      requires Valid() && m.id !in evidence
      modifies `entries, `byTarget
      ensures Valid() && entries == KeepAll(machines, old(entries), TagCandidate(m, evidence, origins, remote))
    {
      var keys := SortedTagKeys(m.tags.Keys);
      for i := 0 to |keys|
        invariant Valid() && entries == old(entries)
        invariant forall j | 0 <= j < i :: keys[j] !in SharedKeys(m, origins)
      {
        assert keys[i] in keys;
        var tag := Tag(m, keys[i]);
        if tag !in origins {
          continue;
        }
        LeastIsFirst(SharedKeys(m, origins), keys, i);
        var c := Candidate(m.id, remote, BOTH,
                           Offer(Requestable, FromTag, Shares(tag, origins[tag]), "", "", None, None));
        KeepAllOne(machines, entries, [], c);
        assert [] + [c] == TagCandidate(m, evidence, origins, remote);
        Add(c);
        return;
      }
      forall k | k in m.tags.Keys ensures k !in SharedKeys(m, origins) {
        assert k in keys;
      }
      assert SharedKeys(m, origins) == {};
    }

    method AddDirectory(list: seq<Machine>)
      requires Valid()
      modifies `entries, `byTarget
      ensures Valid()
      ensures entries == KeepAll(machines, old(entries), DirectoryCandidates(ByName(list), Suggested(Noted())))
    {
      var remote := SuggestedRemoteUser();
      var sorted := ByName(list);
      for i := 0 to |sorted|
        invariant Valid()
        invariant entries == KeepAll(machines, old(entries), DirectoryCandidates(sorted[..i], remote))
      {
        assert sorted[..i + 1][..i] == sorted[..i];
        var c := Candidate(sorted[i].id, remote, BOTH, Offer(Requestable, FromDirectory, Listed, "", "", None, None));
        KeepAllOne(machines, old(entries), DirectoryCandidates(sorted[..i], remote), c);
        Add(c);
      }
      assert sorted[..|sorted|] == sorted;
    }
  }

  /** The inner loop of tagOrigins; Go's map order does not matter. */
  method MergeTags(before: map<string, string>, m: Machine) returns (origins: map<string, string>)
    ensures origins == Merge(before, TagsOf(m, m.tags.Keys), m.name)
  {
    origins := before;
    var rest := m.tags.Keys;
    MergeNothing(before, m);
    while rest != {}
      invariant rest <= m.tags.Keys && origins == Merge(before, TagsOf(m, m.tags.Keys - rest), m.name)
    {
      var k :| k in rest;
      var tag := Tag(m, k);
      MergeOne(before, m, m.tags.Keys - rest, k);
      assert m.tags.Keys - (rest - {k}) == m.tags.Keys - rest + {k};
      if tag !in origins || Text.Less(m.name, origins[tag]) {
        origins := origins[tag := m.name];
      }
      rest := rest - {k};
    }
    assert m.tags.Keys - rest == m.tags.Keys;
  }

  method IndexMachines(list: seq<Machine>) returns (machines: map<string, Machine>)
    ensures machines == ByID(list)
  {
    machines := map[];
    for i := 0 to |list|
      invariant machines == ByID(list[..i])
    {
      assert list[..i + 1][..i] == list[..i];
      machines := machines[list[i].id := list[i]];
    }
    assert list[..|list|] == list;
  }

  /** The catalog sorted and cut; truncated says whether anything was cut. */
  method BuildCapabilities(input: Inputs) returns (out: seq<Capability>, truncated: bool)
    ensures truncated <==> |Catalog(input)| > MAX_ENTRIES
    ensures out == Returned(input)
  {
    var machines := IndexMachines(input.machines);
    var b := new Builder(machines, input.now);
    b.AddGrants(input.grants);
    b.AddRequests(input.requests);
    b.AddSessions(input.sessions);
    b.AddTagPeers(input.machines);
    if input.all {
      b.AddDirectory(input.machines);
    }
    CatalogInSteps(input);
    out := StableSort.Sort(b.entries, LessCapability);
    SortLength(b.entries);
    if |out| > MAX_ENTRIES {
      return out[..MAX_ENTRIES], true;
    }
    truncated := false;
  }

  method SortedTagKeys(tags: set<string>) returns (keys: seq<string>)
    ensures forall k :: k in keys <==> k in tags
    ensures forall i, j | 0 <= i < j < |keys| :: !Text.Less(keys[j], keys[i])
  {
    keys := [];
    var rest := tags;
    while rest != {}
      invariant rest <= tags && forall k :: k in keys <==> k in tags - rest
    {
      var k :| k in rest;
      keys, rest := keys + [k], rest - {k};
    }
    Text.LessOrders();
    StableSort.SortSorts(keys, Text.Less);
    StableSort.SortPermutes(keys, Text.Less);
    var sorted := StableSort.Sort(keys, Text.Less);
    assert forall k :: k in sorted <==> k in multiset(sorted);
    assert forall k :: k in keys <==> k in multiset(keys);
    keys := sorted;
  }

  lemma SortLength(entries: seq<Capability>)
    ensures |StableSort.Sort(entries, LessCapability)| == |entries|
  {
    StableSort.SortPermutes(entries, LessCapability);
    assert |multiset(StableSort.Sort(entries, LessCapability))| == |multiset(entries)|;
  }

  lemma CatalogInSteps(input: Inputs)
    ensures
      var machines := ByID(input.machines);
      var h := HistoryOf(input);
      var granted := KeepAll(machines, [], GrantCandidates(input.grants));
      var pending := KeepAll(machines, granted, RequestCandidates(input.requests, true, input.now));
      var asked := KeepAll(machines, pending, RequestCandidates(input.requests, false, input.now));
      var used := KeepAll(machines, asked, SessionCandidates(input.sessions, SessionKeys(input.sessions)));
      var peers := KeepAll(machines, used, TagCandidates(ByName(input.machines), h.evidence,
                                                         Origins(input.machines, h.evidence), Suggested(h)));
      Catalog(input) == KeepAll(machines, peers, Listing(input))
  {
    var machines := ByID(input.machines);
    var h := HistoryOf(input);
    var a := GrantCandidates(input.grants);
    var b := RequestCandidates(input.requests, true, input.now);
    var c := RequestCandidates(input.requests, false, input.now);
    var d := SessionCandidates(input.sessions, SessionKeys(input.sessions));
    var e := TagCandidates(ByName(input.machines), h.evidence, Origins(input.machines, h.evidence), Suggested(h));
    KeepAllAppends(machines, [], a, b);
    KeepAllAppends(machines, [], a + b, c);
    KeepAllAppends(machines, [], a + b + c, d);
    KeepAllAppends(machines, [], a + b + c + d, e);
    KeepAllAppends(machines, [], a + b + c + d + e, Listing(input));
  }

  lemma MergeNothing(origins: map<string, string>, m: Machine)
    ensures TagsOf(m, m.tags.Keys - m.tags.Keys) == {}
    ensures Merge(origins, {}, m.name) == origins
  {}

  lemma MergeOne(origins: map<string, string>, m: Machine, keys: set<string>, k: string)
    requires keys <= m.tags.Keys && k in m.tags
    ensures var before := Merge(origins, TagsOf(m, keys), m.name);
            Merge(origins, TagsOf(m, keys + {k}), m.name) ==
            if Tag(m, k) !in before || Text.Less(m.name, before[Tag(m, k)]) then before[Tag(m, k) := m.name] else before
  {
    Text.LessTotal(m.name, m.name);
    assert TagsOf(m, keys + {k}) == TagsOf(m, keys) + {Tag(m, k)};
  }

  lemma {:induction false} NothingShared(ms: seq<Machine>, evidence: set<string>, origins: map<string, string>,
                                         login: string)
    requires origins == map[]
    ensures TagCandidates(ms, evidence, origins, login) == []
  {
    if ms != [] {
      NothingShared(ms[..|ms| - 1], evidence, origins, login);
    }
  }

  lemma TagsGrow(machines: map<string, Machine>, entries: seq<Capability>, ms: seq<Machine>, evidence: set<string>,
                 origins: map<string, string>, login: string, i: nat)
    requires i < |ms|
    ensures KeepAll(machines, entries, TagCandidates(ms[..i + 1], evidence, origins, login)) ==
            KeepAll(machines, KeepAll(machines, entries, TagCandidates(ms[..i], evidence, origins, login)),
                    TagCandidate(ms[i], evidence, origins, login))
  {
    assert ms[..i + 1][..i] == ms[..i];
    KeepAllAppends(machines, entries, TagCandidates(ms[..i], evidence, origins, login),
                   TagCandidate(ms[i], evidence, origins, login));
  }

  lemma LeastIsFirst(shared: set<string>, keys: seq<string>, i: nat)
    requires i < |keys| && keys[i] in shared
    requires forall k | k in shared :: k in keys
    requires forall j | 0 <= j < i :: keys[j] !in shared
    requires forall a, b | 0 <= a < b < |keys| :: !Text.Less(keys[b], keys[a])
    ensures Least(shared) == keys[i]
  {
    var j :| 0 <= j < |keys| && keys[j] == Least(shared);
    Text.LessTotal(keys[i], keys[j]);
  }

  method RemoteUsersOrAny(users: seq<string>) returns (out: seq<string>)
    ensures out == Logins(users)
  {
    out := [];
    for i := 0 to |users|
      invariant out == NonBlank(users[..i])
    {
      assert users[..i + 1][..i] == users[..i];
      var u := Text.Trim(users[i]);
      if u != "" {
        out := out + [u];
      }
    }
    assert users[..|users|] == users;
    if |out| == 0 {
      out := [""];
    }
  }

  // One more element, for the loops.

  lemma KeepAllOne(machines: map<string, Machine>, entries: seq<Capability>, cs: seq<Candidate>, c: Candidate)
    ensures KeepAll(machines, entries, cs + [c]) == Keep(machines, KeepAll(machines, entries, cs), c)
  {
    assert (cs + [c])[..|cs|] == cs;
  }

  lemma GrantsGrow(machines: map<string, Machine>, entries: seq<Capability>, h: History, grants: seq<Grant>, i: nat)
    requires i < |grants|
    ensures NoteGrants(machines.Keys, h, grants[..i + 1]) ==
            AfterEvidence(machines.Keys, NoteGrants(machines.Keys, h, grants[..i]), grants[i].machineID,
                          grants[i].remoteUsers)
    ensures KeepAll(machines, entries, GrantCandidates(grants[..i + 1])) ==
            KeepAll(machines, KeepAll(machines, entries, GrantCandidates(grants[..i])),
                    ForLogins(GrantTemplate(grants[i]), Logins(grants[i].remoteUsers)))
  {
    var before := GrantCandidates(grants[..i]);
    var more := ForLogins(GrantTemplate(grants[i]), Logins(grants[i].remoteUsers));
    assert grants[..i + 1][..i] == grants[..i];
    assert GrantCandidates(grants[..i + 1]) == before + more;
    KeepAllAppends(machines, entries, before, more);
  }

  lemma RequestsGrow(machines: map<string, Machine>, entries: seq<Capability>, h: History, requests: seq<Request>,
                     pending: bool, now: Time, i: nat)
    requires i < |requests|
    ensures NoteRequests(machines.Keys, h, requests[..i + 1], pending) ==
            if IsPending(requests[i]) == pending
            then AfterEvidence(machines.Keys, NoteRequests(machines.Keys, h, requests[..i], pending),
                               requests[i].machineID, requests[i].remoteUsers)
            else NoteRequests(machines.Keys, h, requests[..i], pending)
    ensures KeepAll(machines, entries, RequestCandidates(requests[..i + 1], pending, now)) ==
            if IsPending(requests[i]) == pending
            then KeepAll(machines, KeepAll(machines, entries, RequestCandidates(requests[..i], pending, now)),
                         ForLogins(RequestTemplate(requests[i], now), Logins(requests[i].remoteUsers)))
            else KeepAll(machines, entries, RequestCandidates(requests[..i], pending, now))
  {
    var before := RequestCandidates(requests[..i], pending, now);
    var more := ForLogins(RequestTemplate(requests[i], now), Logins(requests[i].remoteUsers));
    assert requests[..i + 1][..i] == requests[..i];
    assert RequestCandidates(requests[..i + 1], pending, now) ==
           before + if IsPending(requests[i]) == pending then more else [];
    assert before + [] == before;
    KeepAllAppends(machines, entries, before, more);
  }

  /** lastUsed holds the newest start for each key met. */
  ghost predicate Stamps(lastUsed: map<SessionKey, Time>, sessions: seq<Session>) {
    forall key :: Latest(sessions, key) == if key in lastUsed then Some(lastUsed[key]) else None
  }

  lemma SessionsGrow(known: set<string>, h: History, lastUsed: map<SessionKey, Time>, sessions: seq<Session>, i: nat)
    requires i < |sessions| && Stamps(lastUsed, sessions[..i])
    ensures NoteSessions(known, h, sessions[..i + 1]) ==
            AfterEvidence(known, NoteSessions(known, h, sessions[..i]), sessions[i].machineID, [sessions[i].remoteUser])
    ensures var key := KeyOf(sessions[i]);
            SessionKeys(sessions[..i + 1]) == SessionKeys(sessions[..i]) + if key in lastUsed then [] else [key]
    ensures var key := KeyOf(sessions[i]);
            var now := if key in lastUsed && lastUsed[key] >= sessions[i].startTime then lastUsed
                       else lastUsed[key := sessions[i].startTime];
            Stamps(now, sessions[..i + 1])
  {
    assert sessions[..i + 1][..i] == sessions[..i];
    StampedKeys(sessions[..i]);
  }

  lemma SessionStep(machines: map<string, Machine>, entries: seq<Capability>, sessions: seq<Session>,
                    lastUsed: map<SessionKey, Time>, i: nat)
    requires i < |SessionKeys(sessions)| && Stamps(lastUsed, sessions)
    ensures var order := SessionKeys(sessions);
            && order[i] in lastUsed
            && KeepAll(machines, entries, SessionCandidates(sessions, order[..i + 1])) ==
               Keep(machines, KeepAll(machines, entries, SessionCandidates(sessions, order[..i])),
                    Candidate(order[i].machineID, order[i].remoteUser, BOTH,
                              Offer(Requestable, FromSession, Connected, "", "", None, Some(lastUsed[order[i]]))))
  {
    var order := SessionKeys(sessions);
    var key := order[i];
    StampedKeys(sessions);
    assert key in order && Latest(sessions, key) == Some(lastUsed[key]);
    assert order[..i + 1][..i] == order[..i];
    KeepAllOne(machines, entries, SessionCandidates(sessions, order[..i]),
               Candidate(key.machineID, key.remoteUser, BOTH,
                         Offer(Requestable, FromSession, Connected, "", "", None, Some(lastUsed[key]))));
  }

  lemma {:induction false} StampedKeys(sessions: seq<Session>)
    ensures forall key :: key in SessionKeys(sessions) <==> Latest(sessions, key).Some?
  {
    if sessions != [] {
      StampedKeys(sessions[..|sessions| - 1]);
    }
  }
}

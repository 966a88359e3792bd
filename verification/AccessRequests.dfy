/** The life of a just-in-time access request (createAccessRequest, approveAccessRequest,
    rejectAccessRequest in pkg/api/api.go; applyRiskPolicy and putRiskPolicy in
    pkg/api/risk.go; ApproveAccessRequestWithTTL and RejectAccessRequest in pkg/auth/auth.go;
    the store's expiry and user-deletion statements).

    Each handler's read of a request and its write are one atomic step; creating a request
    and applying the policy to it are two. */
module AccessRequests {
  import opened Wrappers
  import opened RiskPolicy
  import Grants

  type Id = string
  type Time = int // nanoseconds

  const SECOND: int := 1_000_000_000

  datatype Status = Pending | Approved | Rejected | Expired

  datatype Request = Request(
    userID: string,
    machineID: string,
    remoteUsers: seq<string>,
    accessType: string,
    duration: int, // seconds, 0 = unlimited
    status: Status,
    requestedAt: Time,
    reviewedAt: Option<Time>,
    reviewedBy: Option<string>,
    expiresAt: Option<Time>,
    signals: Option<Signals>,
    decision: Option<Outcome>)

  // ---------- approving and rejecting ----------

  const TWO63: int := 0x8000_0000_0000_0000

  /** time.Duration(seconds) * time.Second in 64-bit arithmetic. */
  function Nanoseconds(seconds: int): int {
    (seconds * SECOND + TWO63) % (2 * TWO63) - TWO63
  }

  function Lifetime(duration: int): Option<int> {
    if duration > 0 then Some(Nanoseconds(duration)) else None
  }

  /** A lifetime is the seconds asked for exactly up to 9223372036 seconds; anything longer
      wraps round, and may even end before it starts.  A request's duration is an INTEGER column
      and stays below that; one given with a direct grant is not bounded. */
  lemma LifetimeIsExact(duration: int)
    requires 0 < duration <= TWO63 // an int of the handler
    ensures Lifetime(duration) == Some(duration * SECOND) <==> duration <= 9_223_372_036
    ensures Lifetime(9_223_372_037).value < 0
  {}

  /** The request as an approval leaves it; an empty reviewer is the risk policy. */
  function ApprovedAs(r: Request, reviewer: string, duration: int, now: Time): Request {
    r.(duration := duration,
       status := Approved,
       reviewedAt := Some(now),
       reviewedBy := if reviewer == "" then None else Some(reviewer),
       expiresAt := if duration > 0 then Some(now + Nanoseconds(duration)) else None)
  }

  function RejectedAs(r: Request, reviewer: string, now: Time): Request {
    r.(status := Rejected, reviewedAt := Some(now), reviewedBy := Some(reviewer))
  }

  function GrantType(r: Request): string {
    if r.accessType == "" then "both" else r.accessType
  }

  /** The grant an approval writes; it is stamped by a later reading of the clock. */
  predicate GrantsFor(st: Grants.Store, r: Request, reviewer: string, duration: int, stamp: Time, w: Grants.Write) {
    Grants.Upserts(st, r.userID, r.machineID, GrantType(r), r.remoteUsers, reviewer, Lifetime(duration), stamp, w)
  }

  datatype Answer = Done | NotFound | NotPending | Forbidden | BadRequest | Unauthenticated

  const DEFAULT_DURATION: int := 30 * 60

  /** A request as createAccessRequest stores it. */
  predicate New(r: Request) {
    && r.status == Pending && r.duration >= 0 && r.signals.Some? && r.decision.Some?
    && r.reviewedAt == None && r.reviewedBy == None && r.expiresAt == None
  }

  /** The handlers and the service under them, over the request table, the risk policy and
      the grant service. */
  class Service {
    var requests: map<Id, Request>
    var policy: Option<Policy>
    const auth: Grants.AuthService

    constructor (auth: Grants.AuthService)
      ensures requests == map[] && policy == None && this.auth == auth
    {
      requests := map[];
      policy := None;
      this.auth := auth;
    }

    /** createAccessRequest, up to the point where the policy's decision is acted on. */
    method CreateAccessRequest(id: Id, userID: string, machineID: string, accessType: string,
                               remoteUsers: seq<string>, duration: Option<int>, scopesOk: bool, signals: Signals,
                               now: Time)
      returns (answer: Answer)
      modifies `requests
      ensures answer == if Grants.TargetsOk(accessType, remoteUsers, scopesOk) &&
                           (duration.Some? ==> duration.value >= 0) then Done else BadRequest
      ensures answer == BadRequest ==> requests == old(requests)
      ensures answer == Done ==>
                && id in requests && requests == old(requests)[id := requests[id]]
                && var r := requests[id];
                && New(r)
                && Routed(policy, Some(signals), remoteUsers, r.duration, r.decision.value)
                && r.userID == userID && r.machineID == machineID && r.remoteUsers == remoteUsers
                && r.accessType == (if accessType == "" then "both" else accessType)
                && r.duration == (if duration.Some? then duration.value else 1800)
                && r.signals == Some(signals) && r.requestedAt == now
    {
      if !Grants.TargetsOk(accessType, remoteUsers, scopesOk) {
        return BadRequest;
      }
      var seconds := DEFAULT_DURATION;
      if duration.Some? {
        if duration.value < 0 {
          return BadRequest;
        }
        seconds := duration.value;
      }
      var r := Request(userID, machineID, remoteUsers, "both", seconds, Pending, now, None, None, None, None, None);
      if accessType != "" {
        r := r.(accessType := accessType);
      }
      var decision := EvaluateRisk(policy, Some(signals), remoteUsers, seconds);
      requests := requests[id := r.(signals := Some(signals), decision := Some(decision.outcome))];
      answer := Done;
    }

    /** putRiskPolicy: only an admin, and only a policy that validates. */
    method PutRiskPolicy(p: Policy, isAdmin: bool) returns (answer: Answer)
      modifies `policy
      ensures answer == if !isAdmin then Forbidden else if Valid(p) then Done else BadRequest
      ensures policy == if answer == Done then Some(p) else old(policy)
    {
      if !isAdmin {
        return Forbidden;
      }
      var problems := Validate(p);
      if |problems| > 0 {
        return BadRequest;
      }
      policy := Some(p);
      answer := Done;
    }

    method ApproveAccessRequestWithTTL(id: Id, reviewer: string, override: Option<int>, freshID: Grants.Id,
                                       now: Time, stamp: Time, at: Time)
      returns (answer: Answer, w: Option<Grants.Write>)
      requires freshID !in auth.store.permissions
      requires forall g | g in auth.store.permissions :: auth.store.permissions[g].p.id == g
      modifies `requests, auth
      ensures answer == if id !in old(requests) then NotFound
                        else if old(requests)[id].status != Pending then NotPending else Done
      ensures answer != Done ==> requests == old(requests) && auth.store == old(auth.store) && w == None
      ensures answer == Done ==>
                var r := old(requests)[id];
                var duration := if override.Some? then override.value else r.duration;
                && requests == old(requests)[id := ApprovedAs(r, reviewer, duration, now)]
                && w.Some? && GrantsFor(old(auth.store), r, reviewer, duration, stamp, w.value)
                && auth.store == Grants.Apply(old(auth.store), w.value)
    {
      if id !in requests {
        return NotFound, None;
      }
      var request := requests[id];
      if request.status != Pending {
        return NotPending, None;
      }
      var duration := if override.Some? then override.value else request.duration;
      var expiresAt: Option<Time> := None;
      var lifetime: Option<int> := None;
      if duration > 0 {
        var d := Nanoseconds(duration);
        expiresAt := Some(now + d);
        lifetime := Some(d);
      }
      var approved := request.(duration := duration, status := Approved, reviewedAt := Some(now), reviewedBy := None);
      if reviewer != "" {
        approved := approved.(reviewedBy := Some(reviewer));
      }
      approved := approved.(expiresAt := expiresAt);
      requests := requests[id := approved];
      var accessType := request.accessType;
      if accessType == "" {
        accessType := "both";
      }
      var write := auth.GrantPermission(request.userID, request.machineID, accessType, request.remoteUsers, reviewer,
                                        lifetime, freshID, stamp, at);
      answer, w := Done, Some(write);
    }

    method RejectAccessRequest(id: Id, reviewer: string, now: Time) returns (answer: Answer)
      modifies `requests
      ensures answer == if id !in old(requests) then NotFound
                        else if old(requests)[id].status != Pending then NotPending else Done
      ensures requests == if answer == Done then old(requests)[id := RejectedAs(old(requests)[id], reviewer, now)]
                          else old(requests)
    {
      if id !in requests {
        return NotFound;
      }
      var request := requests[id];
      if request.status != Pending {
        return NotPending;
      }
      requests := requests[id := request.(status := Rejected, reviewedAt := Some(now), reviewedBy := Some(reviewer))];
      answer := Done;
    }

    /** approveAccessRequest.  The reviewer is the caller, whatever the body says, and an
        escalated request needs an admin. */
    method Approve(id: Id, caller: string, reviewerID: string, isAdmin: bool, override: Option<int>, freshID: Grants.Id,
                   now: Time, stamp: Time, at: Time)
      returns (answer: Answer, w: Option<Grants.Write>)
      requires freshID !in auth.store.permissions
      requires forall g | g in auth.store.permissions :: auth.store.permissions[g].p.id == g
      modifies `requests, auth
      ensures answer == if caller == "" then Unauthenticated
                        else if reviewerID != "" && reviewerID != caller then Forbidden
                        else if override.Some? && override.value < 0 then BadRequest
                        else if id !in old(requests) then NotFound
                        else if old(requests)[id].decision == Some(ToAdmin) && !isAdmin then Forbidden
                        else if old(requests)[id].status != Pending then NotPending else Done
      ensures answer != Done ==> requests == old(requests) && auth.store == old(auth.store) && w == None
      ensures answer == Done ==>
                var r := old(requests)[id];
                var duration := if override.Some? then override.value else r.duration;
                && requests == old(requests)[id := ApprovedAs(r, caller, duration, now)]
                && w.Some? && GrantsFor(old(auth.store), r, caller, duration, stamp, w.value)
                && auth.store == Grants.Apply(old(auth.store), w.value)
    {
      if caller == "" {
        return Unauthenticated, None;
      }
      if reviewerID != "" && reviewerID != caller {
        return Forbidden, None;
      }
      if override.Some? && override.value < 0 {
        return BadRequest, None;
      }
      if id in requests && requests[id].decision == Some(ToAdmin) && !isAdmin {
        return Forbidden, None;
      }
      answer, w := ApproveAccessRequestWithTTL(id, caller, override, freshID, now, stamp, at);
    }
  }

  // ---------- runs of the whole system ----------

  /** An approval as it happened; `reviewer` is "" when the risk policy approved. */
  datatype Approval = Approval(id: Id, r: Request, reviewer: string, isAdmin: bool, w: Grants.Write)

  datatype State = State(
    requests: map<Id, Request>,
    grants: Grants.Store,
    policy: Option<Policy>,
    toApply: set<Id>, // created, applyRiskPolicy still to run
    // history
    routedBy: map<Id, Option<Policy>>, // the policy each request was routed by
    approvals: seq<Approval>,
    deleted: set<string>) // users deleted so far

  function Init(): State {
    State(map[], Grants.EmptyStore, None, {}, map[], [], {})
  }

  datatype Event =
    | Create(id: Id, r: Request)
    | ApplyPolicy(id: Id, w: Grants.Write, now: Time, stamp: Time)
    | ApproveBy(id: Id, caller: string, isAdmin: bool, override: Option<int>, w: Grants.Write, now: Time, stamp: Time)
    | RejectBy(id: Id, caller: string, now: Time)
    | PutPolicy(p: Policy, isAdmin: bool)
    | ExpireStale(cutoff: Time)
    | DeleteUser(user: string)
    | DeleteMachine(machine: string)
    | OtherGrantWrite(w: Grants.Write)

  predicate IsPending(s: State, id: Id) {
    id in s.requests && s.requests[id].status == Pending
  }

  /** The handler refuses an escalated request to anyone but an admin. */
  predicate Refused(s: State, e: Event)
    requires e.ApproveBy?
  {
    e.id in s.requests && s.requests[e.id].decision == Some(ToAdmin) && !e.isAdmin
  }

  function EffectiveDuration(s: State, e: Event): int
    requires e.ApproveBy? && e.id in s.requests
  {
    if e.override.Some? then e.override.value else s.requests[e.id].duration
  }

  ghost predicate Enabled(s: State, e: Event) {
    match e
    case Create(id, r) =>
      id !in s.routedBy && New(r) && Routed(s.policy, r.signals, r.remoteUsers, r.duration, r.decision.value)
    case ApplyPolicy(id, w, now, stamp) =>
      && id in s.toApply && now <= stamp
      && (IsPending(s, id) ==> GrantsFor(s.grants, s.requests[id], "", s.requests[id].duration, stamp, w))
    case ApproveBy(id, caller, _, override, w, now, stamp) =>
      && caller != "" && caller !in s.deleted && (override.Some? ==> override.value >= 0) && now <= stamp
      && (IsPending(s, id) ==> GrantsFor(s.grants, s.requests[id], caller, EffectiveDuration(s, e), stamp, w))
    case RejectBy(_, caller, _) => caller != "" && caller !in s.deleted
    case DeleteUser(user) => user != ""
    case _ => true
  }

  function WithApproval(s: State, id: Id, reviewer: string, isAdmin: bool, duration: int, w: Grants.Write, now: Time)
    : State
    requires id in s.requests
  {
    var r := ApprovedAs(s.requests[id], reviewer, duration, now);
    s.(requests := s.requests[id := r],
       grants := Grants.Apply(s.grants, w),
       approvals := s.approvals + [Approval(id, r, reviewer, isAdmin, w)])
  }

  function Forget(r: Request, user: string): Request {
    if r.reviewedBy == Some(user) then r.(reviewedBy := None) else r
  }

  function Apply(s: State, e: Event): State {
    match e
    case Create(id, r) =>
      s.(requests := s.requests[id := r], routedBy := s.routedBy[id := s.policy],
         toApply := if r.decision == Some(Approve) then s.toApply + {id} else s.toApply)
    case ApplyPolicy(id, w, now, _) =>
      var s1 := s.(toApply := s.toApply - {id});
      if IsPending(s, id) then WithApproval(s1, id, "", false, s.requests[id].duration, w, now) else s1
    case ApproveBy(id, caller, isAdmin, _, w, now, _) =>
      if Refused(s, e) || !IsPending(s, id) then s
      else WithApproval(s, id, caller, isAdmin, EffectiveDuration(s, e), w, now)
    case RejectBy(id, caller, now) =>
      if IsPending(s, id) then s.(requests := s.requests[id := RejectedAs(s.requests[id], caller, now)]) else s
    case PutPolicy(p, isAdmin) => if isAdmin && Valid(p) then s.(policy := Some(p)) else s
    case ExpireStale(cutoff) =>
      s.(requests := map id | id in s.requests ::
           if s.requests[id].status == Pending && s.requests[id].requestedAt < cutoff
           then s.requests[id].(status := Expired) else s.requests[id])
    case DeleteUser(user) =>
      s.(requests := map id | id in s.requests && s.requests[id].userID != user :: Forget(s.requests[id], user),
         deleted := s.deleted + {user})
    case DeleteMachine(machine) =>
      s.(requests := map id | id in s.requests && s.requests[id].machineID != machine :: s.requests[id])
    case OtherGrantWrite(w) => s.(grants := Grants.Apply(s.grants, w))
  }

  ghost predicate Runs(s: State, run: seq<Event>)
    decreases |run|
  {
    run == [] || (Enabled(s, run[0]) && Runs(Apply(s, run[0]), run[1..]))
  }

  function After(s: State, run: seq<Event>): State
    decreases |run|
  {
    if run == [] then s else After(Apply(s, run[0]), run[1..])
  }

  // ---------- the inductive invariant ----------

  /** The policy in force at creation escalates what was observed at creation. */
  ghost predicate WasEscalated(p: Option<Policy>, signals: Option<Signals>) {
    p.Some? && signals.Some? && Escalated(p.value, signals.value)
  }

  /** How the request was routed is on record, and the policy was a valid one. */
  ghost predicate RoutedOk(p: Option<Policy>, r: Request) {
    && (p.Some? ==> Valid(p.value))
    && r.decision.Some?
    && (r.decision == Some(ToAdmin) <==> WasEscalated(p, r.signals))
    && (r.status == Pending ==> Routed(p, r.signals, r.remoteUsers, r.duration, r.decision.value))
  }

  predicate HasApproval(approvals: seq<Approval>, id: Id) {
    exists i :: 0 <= i < |approvals| && approvals[i].id == id
  }

  /** What is on record of an approved request, up to a reviewer deleted since. */
  predicate Recorded(a: Approval, r: Request, deleted: set<string>) {
    r == if a.reviewer in deleted then a.r.(reviewedBy := None) else a.r
  }

  /** A request counts as approved exactly when an approval of it is on record. */
  predicate ApprovalsOf(approvals: seq<Approval>, deleted: set<string>, id: Id, r: Request) {
    && (r.status == Approved <==> HasApproval(approvals, id))
    && (forall i | 0 <= i < |approvals| && approvals[i].id == id :: Recorded(approvals[i], r, deleted))
  }

  ghost predicate RequestOk(s: State, id: Id)
    requires id in s.requests
  {
    var r := s.requests[id];
    && id in s.routedBy && RoutedOk(s.routedBy[id], r)
    && (id in s.toApply ==> r.decision == Some(Approve))
    && ApprovalsOf(s.approvals, s.deleted, id, r)
  }

  /** The request and the grant end the same time after the stamps they carry. */
  ghost predicate ApprovalOk(routedBy: map<Id, Option<Policy>>, a: Approval) {
    && a.id in routedBy
    && a.r.status == Approved && a.r.reviewedAt.Some?
    && a.r.reviewedBy == (if a.reviewer == "" then None else Some(a.reviewer))
    && a.r.expiresAt == (if a.r.duration > 0 then Some(a.r.reviewedAt.value + Nanoseconds(a.r.duration)) else None)
    && Grants.Stores(a.w) && a.r.reviewedAt.value <= a.w.p.grantedAt
    && a.w.p.expiresAt == (if a.r.duration > 0 then Some(a.w.p.grantedAt + Nanoseconds(a.r.duration)) else None)
    && (WasEscalated(routedBy[a.id], a.r.signals) ==> a.isAdmin)
    && (a.reviewer == "" ==>
          && routedBy[a.id].Some? && Valid(routedBy[a.id].value)
          && Routed(routedBy[a.id], a.r.signals, a.r.remoteUsers, a.r.duration, Approve))
  }

  predicate OncePerRequest(approvals: seq<Approval>) {
    forall i, j | 0 <= i < j < |approvals| :: approvals[i].id != approvals[j].id
  }

  ghost predicate Basics(s: State) {
    (s.policy.Some? ==> Valid(s.policy.value)) && "" !in s.deleted && s.toApply <= s.routedBy.Keys
  }

  ghost predicate Inv(s: State) {
    && Basics(s)
    && (forall id | id in s.requests :: RequestOk(s, id))
    && (forall i | 0 <= i < |s.approvals| :: ApprovalOk(s.routedBy, s.approvals[i]))
    && OncePerRequest(s.approvals)
  }

  /** Approving a pending request, by a person or by the policy. */
  lemma ApprovingKeepsInv(s: State, id: Id, reviewer: string, isAdmin: bool, duration: int, w: Grants.Write,
                          now: Time, stamp: Time)
    requires Inv(s) && IsPending(s, id) && reviewer !in s.deleted && now <= stamp
    requires GrantsFor(s.grants, s.requests[id], reviewer, duration, stamp, w)
    requires s.requests[id].decision == Some(ToAdmin) ==> isAdmin
    requires reviewer == "" ==> s.requests[id].decision == Some(Approve) && duration == s.requests[id].duration
    ensures Inv(WithApproval(s, id, reviewer, isAdmin, duration, w, now))
  {
    var t := WithApproval(s, id, reviewer, isAdmin, duration, w, now);
    var n := |s.approvals|;
    var a := t.approvals[n];
    assert RequestOk(s, id);
    forall i | 0 <= i < n ensures s.approvals[i].id != id {
      assert s.requests[id].status != Approved;
    }
    assert ApprovalOk(t.routedBy, a) by {
      ApprovalIsOk(s, id, reviewer, isAdmin, duration, w, now, stamp);
    }
    forall other | other in t.requests ensures RequestOk(t, other) {
      assert RequestOk(s, other);
      if other == id {
        assert t.approvals[n].id == id;
      } else {
        assert forall i | 0 <= i < n :: t.approvals[i] == s.approvals[i];
        assert ApprovalsOf(t.approvals, t.deleted, other, t.requests[other]);
      }
    }
  }

  lemma ApprovalIsOk(s: State, id: Id, reviewer: string, isAdmin: bool, duration: int, w: Grants.Write,
                     now: Time, stamp: Time)
    requires id in s.requests && RequestOk(s, id) && s.requests[id].status == Pending && now <= stamp
    requires GrantsFor(s.grants, s.requests[id], reviewer, duration, stamp, w)
    requires s.requests[id].decision == Some(ToAdmin) ==> isAdmin
    requires reviewer == "" ==> s.requests[id].decision == Some(Approve) && duration == s.requests[id].duration
    ensures ApprovalOk(s.routedBy,
                       Approval(id, ApprovedAs(s.requests[id], reviewer, duration, now), reviewer, isAdmin, w))
  {
    assert w.p.expiresAt == Grants.Apply(s.grants, w).permissions[w.p.id].p.expiresAt;
    assert w.p.grantedAt == stamp;
  }

  /** Steps that only move requests: each request left is the old one, settled or with its
      deleted reviewer forgotten. */
  ghost predicate Moves(s: State, t: State, id: Id)
    requires id in s.requests && id in t.requests
  {
    var r := s.requests[id];
    || (t.requests[id] == r && t.deleted == s.deleted)
    || (r.status == Pending && t.requests[id].status in {Rejected, Expired} && t.deleted == s.deleted
        && t.requests[id].signals == r.signals && t.requests[id].decision == r.decision)
    || exists user :: user != "" && t.deleted == s.deleted + {user} && t.requests[id] == Forget(r, user)
  }

  lemma MovingKeepsRequest(s: State, t: State, id: Id)
    requires Inv(s) && id in s.requests && id in t.requests && Moves(s, t, id)
    requires t.approvals == s.approvals && t.routedBy == s.routedBy && t.toApply <= s.toApply
    ensures RequestOk(t, id)
  {
    var r := s.requests[id];
    assert RequestOk(s, id);
    forall i | 0 <= i < |s.approvals| && s.approvals[i].id == id
      ensures Recorded(t.approvals[i], t.requests[id], t.deleted)
    {
      assert ApprovalOk(s.routedBy, s.approvals[i]) && Recorded(s.approvals[i], r, s.deleted);
      assert r.status == Approved;
    }
  }

  lemma CreatingKeepsInv(s: State, e: Event)
    requires Inv(s) && Enabled(s, e) && e.Create?
    ensures Inv(Apply(s, e))
  {
    var t := Apply(s, e);
    forall i | 0 <= i < |s.approvals| ensures t.approvals[i].id != e.id && ApprovalOk(t.routedBy, t.approvals[i]) {
      assert ApprovalOk(s.routedBy, s.approvals[i]);
    }
    forall id | id in t.requests ensures RequestOk(t, id) {
      if id != e.id {
        assert RequestOk(s, id);
      }
    }
  }

  lemma MovingKeepsInv(s: State, e: Event)
    requires Inv(s) && Enabled(s, e)
    requires e.RejectBy? || e.ExpireStale? || e.DeleteUser? || e.DeleteMachine? || e.PutPolicy? || e.OtherGrantWrite?
    ensures Inv(Apply(s, e))
  {
    var t := Apply(s, e);
    forall id | id in t.requests ensures RequestOk(t, id) {
      if e.DeleteUser? {
        assert e.user != "" && t.deleted == s.deleted + {e.user} && t.requests[id] == Forget(s.requests[id], e.user);
      }
      assert Moves(s, t, id);
      MovingKeepsRequest(s, t, id);
    }
  }

  lemma StepInv(s: State, e: Event)
    requires Inv(s) && Enabled(s, e)
    ensures Inv(Apply(s, e))
  {
    match e
    case Create(_, _) => CreatingKeepsInv(s, e);
    case ApplyPolicy(id, w, now, stamp) =>
      var s1 := s.(toApply := s.toApply - {id});
      assert Inv(s1) by {
        forall other | other in s1.requests ensures RequestOk(s1, other) {
          assert RequestOk(s, other);
        }
      }
      if IsPending(s, id) {
        assert RequestOk(s, id);
        ApprovingKeepsInv(s1, id, "", false, s.requests[id].duration, w, now, stamp);
      }
    case ApproveBy(id, caller, isAdmin, _, w, now, stamp) =>
      if !Refused(s, e) && IsPending(s, id) {
        ApprovingKeepsInv(s, id, caller, isAdmin, EffectiveDuration(s, e), w, now, stamp);
      }
    case _ => MovingKeepsInv(s, e);
  }

  lemma {:induction false} RunInv(s: State, run: seq<Event>)
    requires Inv(s) && Runs(s, run)
    ensures Inv(After(s, run))
    decreases |run|
  {
    if run != [] {
      StepInv(s, run[0]);
      RunInv(Apply(s, run[0]), run[1..]);
    }
  }

  // ---------- what holds over every run ----------

  /** The request is decided in s, and is the same in t up to a forgotten reviewer, with no
      further approval. */
  predicate StaysDecided(s: State, t: State, id: Id) {
    && !IsPending(t, id)
    && (id in t.requests ==>
          id in s.requests && t.requests[id] in {s.requests[id], s.requests[id].(reviewedBy := None)})
    && s.approvals <= t.approvals
    && forall i | |s.approvals| <= i < |t.approvals| :: t.approvals[i].id != id
  }

  lemma DecidedStep(s: State, e: Event, id: Id)
    requires Inv(s) && Enabled(s, e) && id in s.routedBy && !IsPending(s, id)
    ensures StaysDecided(s, Apply(s, e), id)
  {}

  /** Once a request has left pending it stays decided: nothing about it changes but the
      name of a reviewer deleted since, and it causes no further grant write. */
  lemma {:induction false} DecidedStaysDecided(s: State, run: seq<Event>, id: Id)
    requires Inv(s) && Runs(s, run) && id in s.routedBy && !IsPending(s, id)
    ensures StaysDecided(s, After(s, run), id)
    decreases |run|
  {
    if run != [] {
      var t := Apply(s, run[0]);
      StepInv(s, run[0]);
      DecidedStep(s, run[0], id);
      assert id in t.routedBy;
      DecidedStaysDecided(t, run[1..], id);
      StaysDecidedIsTransitive(s, t, After(s, run), id);
    }
  }

  lemma StaysDecidedIsTransitive(s: State, t: State, u: State, id: Id)
    requires StaysDecided(s, t, id) && StaysDecided(t, u, id)
    ensures StaysDecided(s, u, id)
  {
    forall i | |s.approvals| <= i < |u.approvals| ensures u.approvals[i].id != id {
      if i < |t.approvals| {
        assert u.approvals[i] == t.approvals[i];
      }
    }
  }

  /** At most one grant write for each request, and one for every request shown as approved. */
  lemma OneGrantWritePerRequest(run: seq<Event>)
    requires Runs(Init(), run)
    ensures forall i, j | 0 <= i < j < |After(Init(), run).approvals| ::
              After(Init(), run).approvals[i].id != After(Init(), run).approvals[j].id
    ensures forall id | id in After(Init(), run).requests ::
              After(Init(), run).requests[id].status == Approved <==> HasApproval(After(Init(), run).approvals, id)
  {
    RunInv(Init(), run);
    forall id | id in After(Init(), run).requests
      ensures After(Init(), run).requests[id].status == Approved <==> HasApproval(After(Init(), run).approvals, id)
    {
      assert RequestOk(After(Init(), run), id);
    }
  }

  /** What the policy in force at creation escalates is approved by admins only, however the
      policy changed since. */
  lemma EscalatedNeedsAdmin(run: seq<Event>, i: nat)
    requires Runs(Init(), run) && i < |After(Init(), run).approvals|
    ensures var s := After(Init(), run);
            var a := s.approvals[i];
            a.id in s.routedBy && (WasEscalated(s.routedBy[a.id], a.r.signals) ==> a.isAdmin && a.reviewer != "")
  {
    RunInv(Init(), run);
    var s := After(Init(), run);
    assert ApprovalOk(s.routedBy, s.approvals[i]);
  }

  /** An approval nobody reviewed was made under a valid policy, inside its limits; the grant
      it wrote ends at most a day after its stamp. */
  lemma UnattendedApprovalsAreBounded(run: seq<Event>, i: nat)
    requires Runs(Init(), run) && i < |After(Init(), run).approvals|
    requires After(Init(), run).approvals[i].reviewer == ""
    ensures var s := After(Init(), run);
            var a := s.approvals[i];
            && a.id in s.routedBy && s.routedBy[a.id].Some? && Valid(s.routedBy[a.id].value) && a.r.signals.Some?
            && (a.r.signals.value.sensitivity == "low" || a.r.signals.value.sensitivity == "medium")
            && 1 <= a.r.duration <= s.routedBy[a.id].value.auto.maxDuration <= MAX_AUTO_APPROVE
            && !Escalated(s.routedBy[a.id].value, a.r.signals.value)
            && a.r.reviewedAt.Some? && a.r.expiresAt == Some(a.r.reviewedAt.value + a.r.duration * SECOND)
            && Grants.Stores(a.w) && a.w.p.expiresAt == Some(a.w.p.grantedAt + a.r.duration * SECOND)
  {
    RunInv(Init(), run);
    var s := After(Init(), run);
    var a := s.approvals[i];
    assert ApprovalOk(s.routedBy, a);
    UnattendedLimits(s.routedBy[a.id].value, a.r.signals.value, a.r.remoteUsers, a.r.duration);
    LifetimeIsExact(a.r.duration);
  }

  /** What the approver column of the report can be read from: no reviewer on record means
      the policy approved, or the reviewer's account was deleted since. */
  lemma NoReviewerMeansPolicyOrDeleted(run: seq<Event>, i: nat)
    requires Runs(Init(), run) && i < |After(Init(), run).approvals|
    requires After(Init(), run).approvals[i].id in After(Init(), run).requests
    ensures var s := After(Init(), run);
            var a := s.approvals[i];
            s.requests[a.id].reviewedBy == None <==> a.reviewer == "" || a.reviewer in s.deleted
  {
    RunInv(Init(), run);
    var s := After(Init(), run);
    var a := s.approvals[i];
    assert RequestOk(s, a.id) && ApprovalOk(s.routedBy, a) && Recorded(a, s.requests[a.id], s.deleted);
  }

  /** So the report's "risk policy" label is wrong for a request whose reviewer is gone. */
  lemma DeletedReviewerReadsAsPolicy(signals: Signals)
    returns (run: seq<Event>)
    ensures Runs(Init(), run)
    ensures var s := After(Init(), run);
            |s.approvals| == 1 && s.approvals[0].reviewer == "ann" && s.approvals[0].id in s.requests &&
            s.requests[s.approvals[0].id].status == Approved && s.requests[s.approvals[0].id].reviewedBy == None
  {
    var r := Request("bob", "m", ["root"], "ssh", 60, Pending, 0, None, None, None, Some(signals), Some(Manual));
    var w := Grants.Create(Grants.Permission("g", "bob", "m", "ssh", ["root"], "ann", 1, Some(1 + Nanoseconds(60))), 1);
    run := [Create("r", r), ApproveBy("r", "ann", false, None, w, 1, 1), DeleteUser("ann")];
    var s1 := Apply(Init(), run[0]);
    var s2 := Apply(s1, run[1]);
    assert GrantsFor(s1.grants, r, "ann", 60, 1, w);
    ThreeSteps(Init(), run[0], run[1], run[2]);
  }

  // ---------- what a decision does ----------

  /** What ends the waiting of a pending request, and how: status is what it has after the step. */
  ghost predicate Ends(s: State, e: Event, id: Id, status: Status)
    requires IsPending(s, id)
  {
    match e
    case ApplyPolicy(other, _, _, _) => id == other && status == Approved
    case ApproveBy(other, _, isAdmin, _, _, _, _) =>
      id == other && status == Approved && (isAdmin || s.requests[id].decision != Some(ToAdmin))
    case RejectBy(other, _, _) => id == other && status == Rejected
    case ExpireStale(cutoff) => status == Expired && s.requests[id].requestedAt < cutoff
    case _ => false
  }

  predicate Removes(s: State, e: Event, id: Id)
    requires IsPending(s, id)
  {
    (e.DeleteUser? && e.user == s.requests[id].userID) || (e.DeleteMachine? && e.machine == s.requests[id].machineID)
  }

  /** What a step does to a pending request: decided, with a grant written exactly for an approval;
      gone; or as it was. */
  ghost predicate DecidedBy(s: State, e: Event, id: Id, t: State)
    requires IsPending(s, id)
  {
    && (id !in t.requests <==> Removes(s, e, id))
    && (id in t.requests ==>
          && (forall status | status != Pending :: t.requests[id].status == status <==> Ends(s, e, id, status))
          && (t.requests[id].status == Pending ==> t.requests[id] == s.requests[id]))
    && (id in t.requests && t.requests[id].status == Approved <==>
          |t.approvals| == |s.approvals| + 1 && t.approvals[|s.approvals|].id == id)
    && (id in t.requests && t.requests[id].status == Approved ==>
          && GivesAccess(t.grants, t.approvals[|s.approvals|].w, s.requests[id])
          && t.requests[id].duration ==
               if e.ApproveBy? && e.override.Some? then e.override.value else s.requests[id].duration)
    && (id in t.requests && (e.ApproveBy? || e.RejectBy?) && t.requests[id].status != Pending ==>
          t.requests[id].reviewedBy == Some(e.caller) && t.requests[id].reviewedAt == Some(e.now))
    && (id in t.requests && e.ApplyPolicy? && t.requests[id].status != Pending ==>
          t.requests[id].reviewedBy == None && t.requests[id].reviewedAt == Some(e.now))
  }

  lemma DecidedByApproval(s: State, e: Event, id: Id)
    requires IsPending(s, id) && s.requests[id].reviewedBy == None && Enabled(s, e)
    requires e.ApplyPolicy? || e.ApproveBy?
    ensures DecidedBy(s, e, id, Apply(s, e))
  {}

  lemma DecidedOtherwise(s: State, e: Event, id: Id)
    requires IsPending(s, id) && s.requests[id].reviewedBy == None && Enabled(s, e) && id in s.routedBy
    requires !e.ApplyPolicy? && !e.ApproveBy?
    ensures DecidedBy(s, e, id, Apply(s, e))
  {}

  lemma {:induction false} PendingHasNoReviewer(s: State, run: seq<Event>, id: Id)
    requires Runs(s, run) && (forall other | IsPending(s, other) :: s.requests[other].reviewedBy == None)
    requires IsPending(After(s, run), id)
    ensures After(s, run).requests[id].reviewedBy == None
    decreases |run|
  {
    if run != [] {
      NoReviewerStep(s, run[0]);
      PendingHasNoReviewer(Apply(s, run[0]), run[1..], id);
    }
  }

  lemma NoReviewerStep(s: State, e: Event)
    requires Enabled(s, e) && (forall other | IsPending(s, other) :: s.requests[other].reviewedBy == None)
    ensures forall other | IsPending(Apply(s, e), other) :: Apply(s, e).requests[other].reviewedBy == None
  {
    forall other | IsPending(Apply(s, e), other) ensures Apply(s, e).requests[other].reviewedBy == None {
      assert e.Create? || IsPending(s, other);
    }
  }

  /** A pending request is decided by exactly those steps. */
  lemma PendingIsDecidedBy(run: seq<Event>, e: Event, id: Id)
    requires Runs(Init(), run) && Enabled(After(Init(), run), e) && IsPending(After(Init(), run), id)
    ensures DecidedBy(After(Init(), run), e, id, Apply(After(Init(), run), e))
  {
    RunInv(Init(), run);
    var s := After(Init(), run);
    assert RequestOk(s, id);
    PendingHasNoReviewer(Init(), run, id);
    if e.ApplyPolicy? || e.ApproveBy? {
      DecidedByApproval(s, e, id);
    } else {
      DecidedOtherwise(s, e, id);
    }
  }

  /** The written grant is in the table, for that user and machine, with those logins. */
  predicate GivesAccess(st: Grants.Store, w: Grants.Write, r: Request) {
    && Grants.Stores(w) && w.p.id in st.permissions
    && var p := st.permissions[w.p.id].p;
       p.userID == r.userID && p.machineID == r.machineID && p.remoteUsers == r.remoteUsers
  }

  /** Who may take a step: any known caller decides, or is turned away by the handler; the store's
      own statements and the admin's come at any time. */
  lemma StepsAreOpen(s: State, id: Id, caller: string, now: Time, cutoff: Time, p: Policy, isAdmin: bool)
    ensures Enabled(s, RejectBy(id, caller, now)) <==> caller != "" && caller !in s.deleted
    ensures Enabled(s, DeleteUser(caller)) <==> caller != ""
    ensures Enabled(s, ExpireStale(cutoff)) && Enabled(s, DeleteMachine(caller)) && Enabled(s, PutPolicy(p, isAdmin))
  {}

  // ---------- the policy in force, and what it approves ----------

  /** The policy that was stored last: put by an admin, and valid. */
  ghost function LastPut(run: seq<Event>, before: Option<Policy>): Option<Policy>
    decreases |run|
  {
    if run == [] then before
    else LastPut(run[1..], if run[0].PutPolicy? && run[0].isAdmin && Valid(run[0].p) then Some(run[0].p) else before)
  }

  lemma {:induction false} PolicyIsTheLastPut(s: State, run: seq<Event>)
    requires Runs(s, run)
    ensures After(s, run).policy == LastPut(run, s.policy)
    decreases |run|
  {
    if run != [] {
      PolicyIsTheLastPut(Apply(s, run[0]), run[1..]);
    }
  }

  predicate Applied(run: seq<Event>, id: Id) {
    exists i | 0 <= i < |run| :: run[i].ApplyPolicy? && run[i].id == id
  }

  predicate ApprovedAtCreation(run: seq<Event>, id: Id) {
    exists i | 0 <= i < |run| :: run[i].Create? && run[i].id == id && run[i].r.decision == Some(Approve)
  }

  lemma FrontOrRest(run: seq<Event>, id: Id)
    requires run != []
    ensures Applied(run, id) <==> (run[0].ApplyPolicy? && run[0].id == id) || Applied(run[1..], id)
    ensures ApprovedAtCreation(run, id) <==>
            (run[0].Create? && run[0].id == id && run[0].r.decision == Some(Approve)) ||
            ApprovedAtCreation(run[1..], id)
  {
    var rest := run[1..];
    assert forall i | 0 <= i < |rest| :: rest[i] == run[i + 1];
    assert forall i | 1 <= i < |run| :: run[i] == rest[i - 1];
  }

  /** A request waits for the policy's approval exactly from its creation, if it was routed so, to
      the one step that applies it; and that step is open all the while. */
  lemma {:induction false} ToApplyOver(s: State, run: seq<Event>, id: Id)
    requires Inv(s) && Runs(s, run)
    ensures id in After(s, run).toApply <==> (id in s.toApply || ApprovedAtCreation(run, id)) && !Applied(run, id)
    decreases |run|
  {
    if run != [] {
      StepInv(s, run[0]);
      ToApplyOver(Apply(s, run[0]), run[1..], id);
      FrontOrRest(run, id);
      if ApprovedAtCreation(run[1..], id) && id in s.routedBy {
        CreatedOnce(s, run, id);
      }
    }
  }

  lemma {:induction false} CreatedOnce(s: State, run: seq<Event>, id: Id)
    requires Runs(s, run) && id in s.routedBy
    ensures forall i | 0 <= i < |run| :: run[i].Create? ==> run[i].id != id
    decreases |run|
  {
    if run != [] {
      CreatedOnce(Apply(s, run[0]), run[1..], id);
      assert forall i | 1 <= i < |run| :: run[i] == run[1..][i - 1];
    }
  }

  lemma PolicyApprovalIsDue(run: seq<Event>, id: Id)
    requires Runs(Init(), run)
    ensures id in After(Init(), run).toApply <==> ApprovedAtCreation(run, id) && !Applied(run, id)
  {
    ToApplyOver(Init(), run, id);
  }

  /** The request keeps what it was created with. */
  predicate SameRequest(r: Request, created: Request) {
    && r.userID == created.userID && r.machineID == created.machineID && r.remoteUsers == created.remoteUsers
    && r.accessType == created.accessType && r.signals == created.signals && r.requestedAt == created.requestedAt
  }

  predicate CreatedIn(run: seq<Event>, id: Id, r: Request) {
    exists i | 0 <= i < |run| :: run[i].Create? && run[i].id == id && SameRequest(r, run[i].r)
  }

  /** The grant gives the requester what was asked for, in the approver's name. */
  predicate GrantsWhatWasAsked(a: Approval) {
    && Grants.Stores(a.w)
    && a.w.p.remoteUsers == a.r.remoteUsers
    && a.w.p.accessType == (if a.r.accessType == "" then "both" else a.r.accessType)
    && a.w.p.grantedBy == a.reviewer
  }

  /** Every request on record, and every approved one, is one that was created, with the user,
      machine, type and logins it was created with; and every approval grants just those. */
  lemma {:induction false} ApprovalsGrantWhatWasAsked(run: seq<Event>)
    requires Runs(Init(), run)
    ensures var s := After(Init(), run);
            && (forall id | id in s.requests :: CreatedIn(run, id, s.requests[id]))
            && (forall i | 0 <= i < |s.approvals| ::
                  CreatedIn(run, s.approvals[i].id, s.approvals[i].r) && GrantsWhatWasAsked(s.approvals[i]))
  {
    AskedOver(Init(), [], run);
    assert [] + run == run;
  }

  ghost predicate AsAsked(s: State, past: seq<Event>) {
    && (forall id | id in s.requests :: CreatedIn(past, id, s.requests[id]))
    && (forall i | 0 <= i < |s.approvals| ::
          CreatedIn(past, s.approvals[i].id, s.approvals[i].r) && GrantsWhatWasAsked(s.approvals[i]))
  }

  lemma {:induction false} AskedOver(s: State, past: seq<Event>, run: seq<Event>)
    requires AsAsked(s, past) && Runs(s, run)
    ensures AsAsked(After(s, run), past + run)
    decreases |run|
  {
    if run == [] {
      assert past + run == past;
    } else {
      AskedStep(s, past, run[0]);
      AskedOver(Apply(s, run[0]), past + [run[0]], run[1..]);
      assert past + [run[0]] + run[1..] == past + run;
    }
  }

  lemma AskedStep(s: State, past: seq<Event>, e: Event)
    requires AsAsked(s, past) && Enabled(s, e)
    ensures AsAsked(Apply(s, e), past + [e])
  {
    var t := Apply(s, e);
    forall id | id in t.requests ensures CreatedIn(past + [e], id, t.requests[id]) {
      if e.Create? && e.id == id {
        assert (past + [e])[|past|] == e;
      } else {
        RequestStays(s, e, id);
        StillCreated(past, e, id, s.requests[id], t.requests[id]);
      }
    }
    forall i | 0 <= i < |t.approvals|
      ensures CreatedIn(past + [e], t.approvals[i].id, t.approvals[i].r) && GrantsWhatWasAsked(t.approvals[i])
    {
      NewApproval(s, e, i);
      if i < |s.approvals| {
        StillCreated(past, e, s.approvals[i].id, s.approvals[i].r, s.approvals[i].r);
      } else {
        StillCreated(past, e, e.id, s.requests[e.id], t.approvals[i].r);
      }
    }
  }

  lemma RequestStays(s: State, e: Event, id: Id)
    requires Enabled(s, e) && id in Apply(s, e).requests && !(e.Create? && e.id == id)
    ensures id in s.requests && SameRequest(Apply(s, e).requests[id], s.requests[id])
  {}

  lemma NewApproval(s: State, e: Event, i: nat)
    requires Enabled(s, e) && i < |Apply(s, e).approvals|
    ensures i < |s.approvals| ==> Apply(s, e).approvals[i] == s.approvals[i]
    ensures i >= |s.approvals| ==>
              && (e.ApplyPolicy? || e.ApproveBy?) && e.id in s.requests
              && var a := Apply(s, e).approvals[i];
                 a.id == e.id && SameRequest(a.r, s.requests[e.id]) && GrantsWhatWasAsked(a)
  {}

  lemma StillCreated(past: seq<Event>, e: Event, id: Id, was: Request, now: Request)
    requires CreatedIn(past, id, was) && SameRequest(now, was)
    ensures CreatedIn(past + [e], id, now)
  {
    var i :| 0 <= i < |past| && past[i].Create? && past[i].id == id && SameRequest(was, past[i].r);
    assert (past + [e])[i] == past[i];
  }

  lemma ThreeSteps(s: State, a: Event, b: Event, c: Event)
    requires Enabled(s, a) && Enabled(Apply(s, a), b) && Enabled(Apply(Apply(s, a), b), c)
    ensures Runs(s, [a, b, c]) && After(s, [a, b, c]) == Apply(Apply(Apply(s, a), b), c)
  {
    var t := Apply(s, a);
    var u := Apply(t, b);
    assert [a, b, c][1..] == [b, c] && [b, c][1..] == [c];
    OneStep(u, c);
    assert Runs(t, [b, c]) && After(t, [b, c]) == After(u, [c]);
  }

  lemma OneStep(s: State, e: Event)
    requires Enabled(s, e)
    ensures Runs(s, [e]) && After(s, [e]) == Apply(s, e)
  {
    var rest := [e][1..];
    assert rest == [] && After(Apply(s, e), rest) == Apply(s, e);
  }
}

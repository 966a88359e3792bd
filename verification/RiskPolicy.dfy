/** The risk policy (pkg/common/risk_policy.go): validating it, and routing a request. */
module RiskPolicy {
  import opened Wrappers

  const MAX_AUTO_APPROVE: int := 24 * 60 * 60 // seconds

  // ---------- hours ----------

  datatype HourRange = HourRange(start: int, end: int)

  /** Contains, branch by branch. */
  predicate Contains(r: HourRange, hour: int) {
    if r.start <= r.end then r.start <= hour < r.end else hour >= r.start || hour < r.end
  }

  predicate HoursOk(r: HourRange) {
    !(r.start < 0 || r.start > 23 || r.end < 0 || r.end > 24 || r.start == r.end)
  }

  /** How many hours the range lasts, walking forward from its start. */
  function Length(r: HourRange): int {
    if r.start <= r.end then r.end - r.start else r.end - r.start + 24
  }

  /** A valid range is the hours met on a walk of its length from its start, round the clock. */
  lemma ContainsIsAWalk(r: HourRange, hour: int)
    requires HoursOk(r) && 0 <= hour < 24
    ensures 1 <= Length(r) <= 24
    ensures Contains(r, hour) <==> exists k :: 0 <= k < Length(r) && Round(r.start, k) == hour
  {
    var k := if hour >= r.start then hour - r.start else hour - r.start + 24;
    assert Round(r.start, k) == hour;
  }

  function Round(start: int, k: int): int {
    (start + k) % 24
  }

  // ---------- networks ----------

  /** A source address, as far as CIDR matching sees it; None when it does not parse. */
  type Ip = Option<int>

  /** A CIDR block is an interval of addresses, or text that does not parse as one. */
  datatype Cidr = Block(first: int, last: int) | Malformed

  predicate InBlock(addr: int, c: Cidr) {
    c.Block? && c.first <= addr <= c.last
  }

  predicate InAny(ip: Ip, cidrs: seq<Cidr>) {
    ip.Some? && exists i | 0 <= i < |cidrs| :: InBlock(ip.value, cidrs[i])
  }

  method IpIn(ip: Ip, cidrs: seq<Cidr>) returns (found: bool)
    ensures found <==> InAny(ip, cidrs)
  {
    if ip.None? {
      return false;
    }
    for i := 0 to |cidrs|
      invariant forall j | 0 <= j < i :: !InBlock(ip.value, cidrs[j])
    {
      if InBlock(ip.value, cidrs[i]) {
        return true;
      }
    }
    found := false;
  }

  // ---------- the policy ----------

  datatype AutoApprove = AutoApprove(
    enabled: bool,
    maxSensitivity: string,
    maxDuration: int,
    hours: Option<HourRange>,
    cidrs: seq<Cidr>,
    requireMFA: bool,
    remoteUsers: seq<string>)

  datatype Escalate = Escalate(
    enabled: bool,
    sensitivities: seq<string>,
    outsideHours: Option<HourRange>,
    withoutMFA: bool,
    outsideCidrs: seq<Cidr>)

  datatype Policy = Policy(auto: AutoApprove, escalate: Escalate)

  datatype Signals = Signals(sourceIP: Ip, mfaEnrolled: bool, hourUTC: int, sensitivity: string)

  predicate AllBlocks(cidrs: seq<Cidr>) {
    forall i | 0 <= i < |cidrs| :: cidrs[i].Block?
  }

  predicate KnownLevel(level: string) {
    level == "low" || level == "medium" || level == "high" || level == "unset"
  }

  predicate AutoValid(a: AutoApprove) {
    a.enabled ==>
      && (a.maxSensitivity == "low" || a.maxSensitivity == "medium")
      && 1 <= a.maxDuration <= MAX_AUTO_APPROVE
      && (a.hours.Some? ==> HoursOk(a.hours.value))
      && AllBlocks(a.cidrs)
  }

  predicate EscalateValid(e: Escalate) {
    e.enabled ==>
      && (forall i | 0 <= i < |e.sensitivities| :: KnownLevel(e.sensitivities[i]))
      && (e.outsideHours.Some? ==> HoursOk(e.outsideHours.value))
      && AllBlocks(e.outsideCidrs)
  }

  predicate Valid(p: Policy) {
    AutoValid(p.auto) && EscalateValid(p.escalate)
  }

  datatype Problem = BadMaxSensitivity | BadMaxDuration | BadHours | BadCidr | BadLevel

  method CheckCidrs(cidrs: seq<Cidr>) returns (errs: seq<Problem>)
    ensures errs == [] <==> AllBlocks(cidrs)
  {
    errs := [];
    for i := 0 to |cidrs|
      invariant errs == [] <==> AllBlocks(cidrs[..i])
    {
      assert cidrs[..i + 1] == cidrs[..i] + [cidrs[i]];
      if cidrs[i].Malformed? {
        errs := errs + [BadCidr];
      }
    }
    assert cidrs[..|cidrs|] == cidrs;
  }

  method Validate(p: Policy) returns (errs: seq<Problem>)
    ensures errs == [] <==> Valid(p)
  {
    errs := [];
    var a := p.auto;
    if a.enabled {
      if a.maxSensitivity != "low" && a.maxSensitivity != "medium" {
        errs := errs + [BadMaxSensitivity];
      }
      if a.maxDuration <= 0 || a.maxDuration > MAX_AUTO_APPROVE {
        errs := errs + [BadMaxDuration];
      }
      if a.hours.Some? && !HoursOk(a.hours.value) {
        errs := errs + [BadHours];
      }
      var bad := CheckCidrs(a.cidrs);
      errs := errs + bad;
    }
    assert errs == [] <==> AutoValid(a);
    var e := p.escalate;
    if e.enabled {
      var before := errs;
      for i := 0 to |e.sensitivities|
        invariant errs == [] <==> before == [] && forall j | 0 <= j < i :: KnownLevel(e.sensitivities[j])
      {
        if !KnownLevel(e.sensitivities[i]) {
          errs := errs + [BadLevel];
        }
      }
      if e.outsideHours.Some? && !HoursOk(e.outsideHours.value) {
        errs := errs + [BadHours];
      }
      var bad := CheckCidrs(e.outsideCidrs);
      errs := errs + bad;
    }
  }

  // ---------- routing ----------

  datatype Outcome = Manual | Approve | ToAdmin

  /** Why a request was routed as it was. */
  datatype Reason =
    | NoPolicy
    | AutoOff
    | SensitiveTarget | OutsideHours | NoMFA | OutsideNetworks // escalation
    | TooSensitive | BadDuration | NotInHours | NotInNetworks | NeedsMFA | Account(user: string) // no auto-approval
    | LowRisk

  datatype Decision = Decision(outcome: Outcome, reasons: seq<Reason>)

  /** sensitivityRank: a missing key reads as 0. */
  function Rank(level: string): int {
    if level == "low" then 1 else if level == "medium" then 2 else if level == "high" then 3 else 0
  }

  /** The escalation condition behind a reason holds. */
  predicate Triggers(e: Escalate, s: Signals, r: Reason) {
    match r
    case SensitiveTarget => s.sensitivity in e.sensitivities
    case OutsideHours => e.outsideHours.Some? && !Contains(e.outsideHours.value, s.hourUTC)
    case NoMFA => e.withoutMFA && !s.mfaEnrolled
    case OutsideNetworks => e.outsideCidrs != [] && !InAny(s.sourceIP, e.outsideCidrs)
    case _ => false
  }

  /** The auto-approval condition behind a reason fails. */
  predicate Fails(a: AutoApprove, s: Signals, remoteUsers: seq<string>, duration: int, r: Reason) {
    match r
    case TooSensitive => Rank(s.sensitivity) == 0 || Rank(s.sensitivity) > Rank(a.maxSensitivity)
    case BadDuration => duration <= 0 || duration > a.maxDuration
    case NotInHours => a.hours.Some? && !Contains(a.hours.value, s.hourUTC)
    case NotInNetworks => a.cidrs != [] && !InAny(s.sourceIP, a.cidrs)
    case NeedsMFA => a.requireMFA && !s.mfaEnrolled
    case Account(u) => a.remoteUsers != [] && u in remoteUsers && u !in a.remoteUsers
    case _ => false
  }

  ghost predicate Escalated(p: Policy, s: Signals) {
    p.escalate.enabled && exists r :: Triggers(p.escalate, s, r)
  }

  ghost predicate AutoApprovable(p: Policy, s: Signals, remoteUsers: seq<string>, duration: int) {
    p.auto.enabled && forall r :: !Fails(p.auto, s, remoteUsers, duration, r)
  }

  /** What the documentation promises of a decision: escalation wins, auto-approval needs
      every condition, everything else is manual. */
  ghost predicate Routed(
    p: Option<Policy>, s: Option<Signals>, remoteUsers: seq<string>, duration: int, outcome: Outcome)
  {
    if p.None? || s.None? then outcome == Manual
    else if Escalated(p.value, s.value) then outcome == ToAdmin
    else if AutoApprovable(p.value, s.value, remoteUsers, duration) then outcome == Approve
    else outcome == Manual
  }

  method EscalationReasons(e: Escalate, s: Signals) returns (why: seq<Reason>)
    ensures forall r :: r in why <==> Triggers(e, s, r)
  {
    why := [];
    if s.sensitivity in e.sensitivities {
      why := why + [SensitiveTarget];
    }
    if e.outsideHours.Some? && !Contains(e.outsideHours.value, s.hourUTC) {
      why := why + [OutsideHours];
    }
    if e.withoutMFA && !s.mfaEnrolled {
      why := why + [NoMFA];
    }
    var trusted := IpIn(s.sourceIP, e.outsideCidrs);
    if |e.outsideCidrs| > 0 && !trusted {
      why := why + [OutsideNetworks];
    }
  }

  method AutoFailures(a: AutoApprove, s: Signals, remoteUsers: seq<string>, duration: int)
    returns (failed: seq<Reason>)
    ensures forall r :: r in failed <==> Fails(a, s, remoteUsers, duration, r)
  {
    failed := [];
    if Rank(s.sensitivity) == 0 || Rank(s.sensitivity) > Rank(a.maxSensitivity) {
      failed := failed + [TooSensitive];
    }
    if duration <= 0 || duration > a.maxDuration {
      failed := failed + [BadDuration];
    }
    if a.hours.Some? && !Contains(a.hours.value, s.hourUTC) {
      failed := failed + [NotInHours];
    }
    var allowed := IpIn(s.sourceIP, a.cidrs);
    if |a.cidrs| > 0 && !allowed {
      failed := failed + [NotInNetworks];
    }
    if a.requireMFA && !s.mfaEnrolled {
      failed := failed + [NeedsMFA];
    }
    if |a.remoteUsers| > 0 {
      for i := 0 to |remoteUsers|
        invariant forall r :: r in failed <==>
                                if r.Account? then r.user in remoteUsers[..i] && r.user !in a.remoteUsers
                                else Fails(a, s, remoteUsers, duration, r)
      {
        assert remoteUsers[..i + 1] == remoteUsers[..i] + [remoteUsers[i]];
        if remoteUsers[i] !in a.remoteUsers {
          failed := failed + [Account(remoteUsers[i])];
        }
      }
      assert remoteUsers[..|remoteUsers|] == remoteUsers;
    }
  }

  /** The reasons name exactly the conditions that held or failed. */
  method EvaluateRisk(p: Option<Policy>, s: Option<Signals>, remoteUsers: seq<string>, duration: int)
    returns (d: Decision)
    ensures Routed(p, s, remoteUsers, duration, d.outcome)
    ensures d.reasons != []
    ensures d.outcome == ToAdmin ==> forall r :: r in d.reasons <==> Triggers(p.value.escalate, s.value, r)
    ensures d.outcome == Manual && p.Some? && s.Some? && p.value.auto.enabled ==>
              forall r :: r in d.reasons <==> Fails(p.value.auto, s.value, remoteUsers, duration, r)
  {
    if p.None? || s.None? {
      return Decision(Manual, [NoPolicy]);
    }
    var e := p.value.escalate;
    if e.enabled {
      var why := EscalationReasons(e, s.value);
      if |why| > 0 {
        assert why[0] in why;
        return Decision(ToAdmin, why);
      }
    }
    assert !Escalated(p.value, s.value);
    var a := p.value.auto;
    if !a.enabled {
      return Decision(Manual, [AutoOff]);
    }
    var failed := AutoFailures(a, s.value, remoteUsers, duration);
    if |failed| > 0 {
      assert failed[0] in failed;
      return Decision(Manual, failed);
    }
    d := Decision(Approve, [LowRisk]);
  }

  /** Whatever a validated policy says, what it approves unattended is a low or medium target
      for 1 to 86400 seconds, and nothing that triggers escalation. */
  lemma UnattendedLimits(p: Policy, s: Signals, remoteUsers: seq<string>, duration: int)
    requires Valid(p) && Routed(Some(p), Some(s), remoteUsers, duration, Approve)
    ensures s.sensitivity == "low" || s.sensitivity == "medium"
    ensures 1 <= duration <= p.auto.maxDuration <= MAX_AUTO_APPROVE
    ensures p.auto.hours.Some? ==> Contains(p.auto.hours.value, s.hourUTC)
    ensures p.auto.cidrs != [] ==> InAny(s.sourceIP, p.auto.cidrs)
    ensures p.auto.requireMFA ==> s.mfaEnrolled
    ensures p.auto.remoteUsers != [] ==> forall u | u in remoteUsers :: u in p.auto.remoteUsers
    ensures !Escalated(p, s)
  {
    var a := p.auto;
    assert !Fails(a, s, remoteUsers, duration, TooSensitive) && !Fails(a, s, remoteUsers, duration, BadDuration);
    assert !Fails(a, s, remoteUsers, duration, NotInHours) && !Fails(a, s, remoteUsers, duration, NotInNetworks);
    assert !Fails(a, s, remoteUsers, duration, NeedsMFA);
    forall u | u in remoteUsers && a.remoteUsers != [] ensures u in a.remoteUsers {
      assert !Fails(a, s, remoteUsers, duration, Account(u));
    }
  }

  // ---------- the same in the policy's own words ----------

  /** A range is valid if and only if its ends are hours of the clock, 24 for an end at midnight,
      and it holds some hour. */
  lemma ValidHoursHoldAnHour(r: HourRange)
    ensures HoursOk(r) <==> HoldsAnHour(r)
  {
    if HoursOk(r) {
      ContainsIsAWalk(r, r.start);
      assert Contains(r, r.start);
    }
  }

  /** An address is in a list of networks if one of them spans it; one that does not parse is in
      none, and text that is not a network spans nothing. */
  lemma InSomeNetwork(ip: Ip, cidrs: seq<Cidr>)
    ensures InAny(ip, cidrs) <==>
            ip.Some? && exists c | c in cidrs :: c.Block? && c.first <= ip.value && ip.value <= c.last
  {
    if ip.Some? && exists c | c in cidrs :: c.Block? && c.first <= ip.value && ip.value <= c.last {
      var c :| c in cidrs && c.Block? && c.first <= ip.value && ip.value <= c.last;
      var i :| 0 <= i < |cidrs| && cidrs[i] == c;
      assert InBlock(ip.value, cidrs[i]);
    }
  }

  predicate HoldsAnHour(r: HourRange) {
    && 0 <= r.start < 24 && 0 <= r.end <= 24
    && exists hour :: 0 <= hour < 24 && Contains(r, hour)
  }

  /** What a policy must be for it to be stored: each rule, when it is on, with a cap, a duration of
      up to a day, hours that hold one, networks that parse, and levels that exist. */
  lemma ValidIff(p: Policy)
    ensures Valid(p) <==>
            && (p.auto.enabled ==>
                  && p.auto.maxSensitivity in ["low", "medium"]
                  && 0 < p.auto.maxDuration <= 86400
                  && (p.auto.hours.None? || HoldsAnHour(p.auto.hours.value))
                  && Malformed !in p.auto.cidrs)
            && (p.escalate.enabled ==>
                  && (forall level | level in p.escalate.sensitivities :: level in ["low", "medium", "high", "unset"])
                  && (p.escalate.outsideHours.None? || HoldsAnHour(p.escalate.outsideHours.value))
                  && Malformed !in p.escalate.outsideCidrs)
  {
    if p.auto.hours.Some? {
      ValidHoursHoldAnHour(p.auto.hours.value);
    }
    if p.escalate.outsideHours.Some? {
      ValidHoursHoldAnHour(p.escalate.outsideHours.value);
    }
    AllParse(p.auto.cidrs);
    AllParse(p.escalate.outsideCidrs);
    var levels := p.escalate.sensitivities;
    assert (forall i | 0 <= i < |levels| :: KnownLevel(levels[i])) <==> forall l | l in levels :: KnownLevel(l);
  }

  lemma AllParse(cidrs: seq<Cidr>)
    ensures AllBlocks(cidrs) <==> Malformed !in cidrs
  {
    assert forall i | 0 <= i < |cidrs| :: cidrs[i] in cidrs;
  }

  /** Within the policy's cap, by level name. */
  predicate WithinCap(cap: string, level: string) {
    level == "low" || (level == "medium" && cap == "medium")
  }

  /** A valid policy approves unattended exactly what lies within every limit it names and meets
      none of the conditions it escalates on. */
  lemma ApprovedIff(p: Policy, s: Signals, remoteUsers: seq<string>, duration: int)
    requires Valid(p)
    ensures Routed(Some(p), Some(s), remoteUsers, duration, Approve) <==>
            && p.auto.enabled
            && WithinCap(p.auto.maxSensitivity, s.sensitivity)
            && 1 <= duration <= p.auto.maxDuration
            && (p.auto.hours.Some? ==> Contains(p.auto.hours.value, s.hourUTC))
            && (p.auto.cidrs != [] ==> InAny(s.sourceIP, p.auto.cidrs))
            && (p.auto.requireMFA ==> s.mfaEnrolled)
            && (p.auto.remoteUsers != [] ==> forall u | u in remoteUsers :: u in p.auto.remoteUsers)
            && !(p.escalate.enabled && MustEscalate(p.escalate, s))
  {
    EscalatedIff(p, s);
    if p.auto.enabled {
      Levels(p.auto.maxSensitivity, s.sensitivity);
    }
    if Routed(Some(p), Some(s), remoteUsers, duration, Approve) {
      UnattendedLimits(p, s, remoteUsers, duration);
      assert !Fails(p.auto, s, remoteUsers, duration, TooSensitive);
    }
  }

  /** The four conditions on which a policy may escalate. */
  predicate MustEscalate(e: Escalate, s: Signals) {
    || s.sensitivity in e.sensitivities
    || (e.outsideHours.Some? && !Contains(e.outsideHours.value, s.hourUTC))
    || (e.withoutMFA && !s.mfaEnrolled)
    || (e.outsideCidrs != [] && !InAny(s.sourceIP, e.outsideCidrs))
  }

  lemma EscalatedIff(p: Policy, s: Signals)
    ensures Escalated(p, s) <==> p.escalate.enabled && MustEscalate(p.escalate, s)
  {
    if MustEscalate(p.escalate, s) {
      assert Triggers(p.escalate, s, SensitiveTarget) || Triggers(p.escalate, s, OutsideHours) ||
             Triggers(p.escalate, s, NoMFA) || Triggers(p.escalate, s, OutsideNetworks);
    }
  }

  lemma Levels(cap: string, level: string)
    requires cap == "low" || cap == "medium"
    ensures WithinCap(cap, level) <==> !(Rank(level) == 0 || Rank(level) > Rank(cap))
  {
    assert "low" != "medium" by { assert |"low"| != |"medium"|; }
    assert "low" != "high" by { assert |"low"| != |"high"|; }
    assert "medium" != "high" by { assert |"medium"| != |"high"|; }
  }

  /** With no policy or no signals a person decides; otherwise what must be escalated goes to an
      administrator, and what is neither that nor approved, to any reviewer. */
  lemma RoutedOtherwise(p: Option<Policy>, s: Option<Signals>, remoteUsers: seq<string>, duration: int)
    ensures p.None? || s.None? ==>
              forall outcome :: Routed(p, s, remoteUsers, duration, outcome) <==> outcome == Manual
    ensures p.Some? && s.Some? ==>
              (Routed(p, s, remoteUsers, duration, ToAdmin) <==>
                 p.value.escalate.enabled && MustEscalate(p.value.escalate, s.value)) &&
              (Routed(p, s, remoteUsers, duration, Manual) <==>
                 !Routed(p, s, remoteUsers, duration, ToAdmin) && !Routed(p, s, remoteUsers, duration, Approve))
  {
    if p.Some? && s.Some? {
      EscalatedIff(p.value, s.value);
    }
  }
}

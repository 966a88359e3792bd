/** Browser-bootstrap codes (pkg/api/browser_bootstrap.go) and password-login tickets
    (pkg/api/password.go): in-memory maps of single-use, short-lived entries that are
    collected lazily.  Reading the clock and the mutex-protected section are one step. */
module OneTimeStores {
  import opened Wrappers

  type Code = string

  const BOOTSTRAP_TTL: int := 300_000_000_000 // nanoseconds
  const TICKET_TTL: int := 120_000_000_000

  datatype Entry = Entry(userID: string, username: string, expiresAt: int)

  type Table = map<Code, Entry>

  /** What collecting at `now` leaves: an entry lives up to and including its expiry. */
  function Collected(m: Table, now: int): Table {
    map k | k in m && now <= m[k].expiresAt :: m[k]
  }

  method Collect(m: Table, now: int) returns (left: Table)
    ensures left == Collected(m, now)
  {
    left := m;
    var rest := m.Keys;
    while rest != {}
      invariant rest <= m.Keys
      invariant left == map k | k in m && (k in rest || now <= m[k].expiresAt) :: m[k]
    {
      var k :| k in rest;
      if now > left[k].expiresAt {
        left := left - {k};
      }
      rest := rest - {k};
    }
  }

  // ---------- the two stores ----------

  /** Redeem: the code is gone whatever the outcome. */
  function Redeemed(m: Table, code: Code, now: int): (Option<string>, Table) {
    if code !in m then (None, m)
    else if now > m[code].expiresAt then (None, m - {code})
    else (Some(m[code].userID), m - {code})
  }

  /** consume: a wrong username leaves the ticket in place. */
  function Consumed(m: Table, code: Code, username: string, now: int): (Option<string>, Table) {
    if code !in m || m[code].username != username || now > m[code].expiresAt then (None, m)
    else (Some(m[code].userID), m - {code})
  }

  class BootstrapStore {
    var codes: Table

    constructor ()
      ensures codes == map[]
    {
      codes := map[];
    }

    /** `code` is the caller's randomness; it may collide with an older one. */
    method Issue(userID: string, code: Code, now: int) returns (expiresAt: int)
      modifies this
      ensures expiresAt == now + BOOTSTRAP_TTL
      ensures codes == Collected(old(codes), now)[code := Entry(userID, "", expiresAt)]
    {
      expiresAt := now + BOOTSTRAP_TTL;
      codes := Collect(codes, now);
      codes := codes[code := Entry(userID, "", expiresAt)];
    }

    method Redeem(code: Code, now: int) returns (userID: Option<string>)
      modifies this
      ensures (userID, codes) == Redeemed(old(codes), code, now)
      ensures codes == old(codes) - {code}
    {
      if code !in codes {
        return None;
      }
      var entry := codes[code];
      codes := codes - {code};
      if now > entry.expiresAt {
        return None;
      }
      userID := Some(entry.userID);
    }
  }

  class TicketStore {
    var tickets: Table

    constructor ()
      ensures tickets == map[]
    {
      tickets := map[];
    }

    method Issue(userID: string, username: string, id: Code, now: int)
      modifies this
      ensures tickets == Collected(old(tickets), now)[id := Entry(userID, username, now + TICKET_TTL)]
    {
      tickets := Collect(tickets, now);
      tickets := tickets[id := Entry(userID, username, now + TICKET_TTL)];
    }

    method Consume(id: Code, username: string, now: int) returns (userID: Option<string>)
      modifies this
      ensures (userID, tickets) == Consumed(Collected(old(tickets), now), id, username, now)
    {
      tickets := Collect(tickets, now);
      if id !in tickets || tickets[id].username != username || now > tickets[id].expiresAt {
        return None;
      }
      userID := Some(tickets[id].userID);
      tickets := tickets - {id};
    }
  }

  // ---------- runs, with and without collecting ----------

  datatype Kind = Bootstrap | Ticket

  function Ttl(kind: Kind): int {
    if kind.Bootstrap? then BOOTSTRAP_TTL else TICKET_TTL
  }

  datatype Event =
    | Issue(code: Code, userID: string, username: string, now: int)
    | Take(code: Code, username: string, now: int)

  function MaybeCollected(collects: bool, m: Table, now: int): Table {
    if collects then Collected(m, now) else m
  }

  function NewEntry(kind: Kind, e: Event): Entry
    requires e.Issue?
  {
    Entry(e.userID, if kind.Bootstrap? then "" else e.username, e.now + Ttl(kind))
  }

  /** One call: what a Take answers, and the table after it. */
  function Step(kind: Kind, collects: bool, m: Table, e: Event): (Option<string>, Table) {
    match e
    case Issue(code, _, _, now) => (None, MaybeCollected(collects, m, now)[code := NewEntry(kind, e)])
    case Take(code, username, now) =>
      if kind.Bootstrap? then Redeemed(m, code, now)
      else Consumed(MaybeCollected(collects, m, now), code, username, now)
  }

  predicate Ordered(run: seq<Event>, clock: int) {
    run == [] || (clock <= run[0].now && Ordered(run[1..], run[0].now))
  }

  function Answers(kind: Kind, collects: bool, m: Table, run: seq<Event>): seq<Option<string>>
    decreases |run|
  {
    if run == [] then []
    else
      var (answer, m1) := Step(kind, collects, m, run[0]);
      [answer] + Answers(kind, collects, m1, run[1..])
  }

  lemma StepAgrees(kind: Kind, a: Table, b: Table, e: Event)
    requires Collected(a, e.now) == Collected(b, e.now)
    ensures var (answerA, a1) := Step(kind, true, a, e);
            var (answerB, b1) := Step(kind, false, b, e);
            answerA == answerB && Collected(a1, e.now) == Collected(b1, e.now)
  {
    forall k ensures k in a && e.now <= a[k].expiresAt <==> k in b && e.now <= b[k].expiresAt {
      assert k in Collected(a, e.now) <==> k in Collected(b, e.now);
    }
    forall k | k in Collected(a, e.now) ensures a[k] == b[k] {
      assert Collected(a, e.now)[k] == Collected(b, e.now)[k];
    }
  }

  lemma AgreeLater(a: Table, b: Table, now: int, later: int)
    requires Collected(a, now) == Collected(b, now) && now <= later
    ensures Collected(a, later) == Collected(b, later)
  {
    assert Collected(a, later) == Collected(Collected(a, now), later);
    assert Collected(b, later) == Collected(Collected(b, now), later);
  }

  /** Collecting is invisible: every sequence of issues and redemptions in time order gets
      the answers of a store that never collects, colliding codes included. */
  lemma {:induction false} CollectingIsInvisible(kind: Kind, a: Table, b: Table, run: seq<Event>, clock: int)
    requires Collected(a, clock) == Collected(b, clock) && Ordered(run, clock)
    ensures Answers(kind, true, a, run) == Answers(kind, false, b, run)
    decreases |run|
  {
    if run != [] {
      AgreeLater(a, b, clock, run[0].now);
      StepAgrees(kind, a, b, run[0]);
      CollectingIsInvisible(kind, Step(kind, true, a, run[0]).1, Step(kind, false, b, run[0]).1, run[1..], run[0].now);
    }
  }

  // ---------- each issue is redeemed at most once ----------

  /** The table, which issue each entry came from, and which issues have been redeemed. */
  datatype State = State(m: Table, issues: seq<Event>, source: map<Code, nat>, redeemed: seq<nat>)

  function Init(): State {
    State(map[], [], map[], [])
  }

  function Apply(kind: Kind, s: State, e: Event): State {
    var (answer, m1) := Step(kind, true, s.m, e);
    match e
    case Issue(code, _, _, _) =>
      s.(m := m1, issues := s.issues + [e], source := s.source[code := |s.issues|])
    case Take(code, _, _) =>
      s.(m := m1,
         redeemed := if answer.Some? && code in s.source then s.redeemed + [s.source[code]] else s.redeemed)
  }

  function After(kind: Kind, s: State, run: seq<Event>): State
    decreases |run|
  {
    if run == [] then s else After(kind, Apply(kind, s, run[0]), run[1..])
  }

  /** The entry under the code came from an issue of that code that is still unredeemed. */
  predicate Sourced(kind: Kind, s: State, code: Code)
    requires code in s.m
  {
    && code in s.source
    && s.source[code] < |s.issues|
    && s.source[code] !in s.redeemed
    && var issue := s.issues[s.source[code]];
       issue.Issue? && issue.code == code && s.m[code] == NewEntry(kind, issue)
  }

  predicate NoRepeats(log: seq<nat>) {
    forall i, j | 0 <= i < j < |log| :: log[i] != log[j]
  }

  predicate Inv(kind: Kind, s: State) {
    && (forall code | code in s.m :: Sourced(kind, s, code))
    && (forall n | n in s.redeemed :: n < |s.issues|)
    && NoRepeats(s.redeemed)
  }

  lemma StepInv(kind: Kind, s: State, e: Event)
    requires Inv(kind, s)
    ensures Inv(kind, Apply(kind, s, e))
  {
    var s1 := Apply(kind, s, e);
    forall code | code in s1.m ensures Sourced(kind, s1, code) {
      assert code in s.m ==> Sourced(kind, s, code);
      if e.Take? && e.code in s.m {
        assert Sourced(kind, s, e.code);
      }
    }
    if e.Take? && e.code in s.m {
      assert Sourced(kind, s, e.code);
    }
  }

  lemma {:induction false} RunInv(kind: Kind, s: State, run: seq<Event>)
    requires Inv(kind, s)
    ensures Inv(kind, After(kind, s, run))
    decreases |run|
  {
    if run != [] {
      StepInv(kind, s, run[0]);
      RunInv(kind, Apply(kind, s, run[0]), run[1..]);
    }
  }

  /** No issue is ever redeemed twice. */
  lemma RedeemedAtMostOnce(kind: Kind, run: seq<Event>)
    ensures NoRepeats(After(kind, Init(), run).redeemed)
  {
    RunInv(kind, Init(), run);
  }

  /** A Take that succeeds redeems one issue, of that code, not redeemed before and not
      expired; it yields the user of that issue, and for a ticket the username matches. */
  lemma TakeYieldsIssuedUser(kind: Kind, run: seq<Event>, e: Event)
    requires e.Take?
    requires Step(kind, true, After(kind, Init(), run).m, e).0.Some?
    ensures var s := After(kind, Init(), run);
            var redeemed := Apply(kind, s, e).redeemed;
            && |redeemed| == |s.redeemed| + 1
            && redeemed[|s.redeemed|] < |s.issues|
            && redeemed[|s.redeemed|] !in s.redeemed
            && var issue := s.issues[redeemed[|s.redeemed|]];
               && issue.Issue? && issue.code == e.code && e.now <= issue.now + Ttl(kind)
               && Step(kind, true, s.m, e).0 == Some(issue.userID)
               && (kind.Ticket? ==> issue.username == e.username)
  {
    RunInv(kind, Init(), run);
    assert Sourced(kind, After(kind, Init(), run), e.code);
  }

  // ---------- which takes succeed ----------

  const MINUTE: int := 60_000_000_000

  /** The take comes in time for the issue, and for a ticket with its username. */
  predicate Fits(kind: Kind, issue: Event, take: Event) {
    && take.now <= issue.now + (if kind.Bootstrap? then 5 else 2) * MINUTE
    && (kind.Ticket? ==> issue.username == take.username)
  }

  /** The issue of a code that a take can still redeem, told from the calls alone: the latest one,
      until a take that fits it, or for a bootstrap code until any take at all. */
  function Stands(kind: Kind, e: Event, code: Code, issue: Option<Event>): Option<Event> {
    if e.code != code then issue
    else if e.Issue? then Some(e)
    else if kind.Bootstrap? || (issue.Some? && Fits(kind, issue.value, e)) then None
    else issue
  }

  function StandsOver(kind: Kind, run: seq<Event>, code: Code, issue: Option<Event>): Option<Event>
    decreases |run|
  {
    if run == [] then issue else StandsOver(kind, run[1..], code, Stands(kind, run[0], code, issue))
  }

  /** While it has not expired, what the table holds under the code is what stands. */
  predicate Holds(kind: Kind, m: Table, code: Code, issue: Option<Event>, clock: int) {
    && (issue.Some? ==> issue.value.Issue?)
    && (code in m && clock <= m[code].expiresAt <==> issue.Some? && clock <= issue.value.now + Ttl(kind))
    && (issue.Some? && clock <= issue.value.now + Ttl(kind) ==> m[code] == NewEntry(kind, issue.value))
  }

  lemma HoldsStep(kind: Kind, s: State, code: Code, issue: Option<Event>, clock: int, e: Event)
    requires Holds(kind, s.m, code, issue, clock) && clock <= e.now
    ensures Holds(kind, Apply(kind, s, e).m, code, Stands(kind, e, code, issue), e.now)
  {}

  lemma {:induction false} HoldsOver(
    kind: Kind, s: State, code: Code, issue: Option<Event>, clock: int, run: seq<Event>, now: int)
    requires Holds(kind, s.m, code, issue, clock) && Ordered(run, clock) && clock <= now
    requires run != [] ==> run[|run| - 1].now <= now
    ensures Holds(kind, After(kind, s, run).m, code, StandsOver(kind, run, code, issue), now)
    decreases |run|
  {
    if run != [] {
      HoldsStep(kind, s, code, issue, clock, run[0]);
      if |run| > 1 {
        LastIsLatest(run[1..], run[0].now);
      }
      HoldsOver(kind, Apply(kind, s, run[0]), code, Stands(kind, run[0], code, issue), run[0].now, run[1..], now);
    }
  }

  lemma {:induction false} LastIsLatest(run: seq<Event>, clock: int)
    requires Ordered(run, clock) && run != []
    ensures clock <= run[|run| - 1].now
    decreases |run|
  {
    if |run| > 1 {
      LastIsLatest(run[1..], run[0].now);
    }
  }

  /** The exact answer of every take after every sequence in time order: the user of the issue
      that stands under the code, if there is one and the take fits it. */
  lemma TakeSucceedsIff(kind: Kind, start: int, run: seq<Event>, e: Event)
    requires e.Take? && Ordered(run, start) && start <= e.now && (run != [] ==> run[|run| - 1].now <= e.now)
    ensures var issue := StandsOver(kind, run, e.code, None);
            && (issue.Some? ==> issue.value.Issue?)
            && Step(kind, true, After(kind, Init(), run).m, e).0 ==
                 if issue.Some? && Fits(kind, issue.value, e) then Some(issue.value.userID) else None
  {
    HoldsOver(kind, Init(), e.code, None, start, run, e.now);
  }
}

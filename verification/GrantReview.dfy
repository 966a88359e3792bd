/** The point-in-time review of grants (buildGrantReviewRows in pkg/api/reports_compliance.go):
    from the versions of every grant, the rows in force at an instant. */
module GrantReview {
  import opened Wrappers
  import opened Grants
  import StableSort
  import Text

  // ---------- picking one version per grant ----------

  /** endsLater, branch by branch. */
  predicate EndsLater(a: Version, b: Version) {
    if a.supersededAt.None? then true
    else b.supersededAt.Some? && a.supersededAt.value > b.supersededAt.value
  }

  datatype Picked = Picked(active: map<Id, Version>, order: seq<Id>)

  function Pick(versions: seq<Version>, asOf: Time): Picked {
    if versions == [] then Picked(map[], [])
    else
      var before := Pick(versions[..|versions| - 1], asOf);
      var v := versions[|versions| - 1];
      if !ActiveAt(v, asOf) then before
      else
        var seen := v.p.id in before.active;
        Picked(if !seen || EndsLater(v, before.active[v.p.id]) then before.active[v.p.id := v] else before.active,
               if seen then before.order else before.order + [v.p.id])
  }

  predicate NoRepeats(ids: seq<Id>) {
    forall i, j | 0 <= i < j < |ids| :: ids[i] != ids[j]
  }

  /** w does not outlast v. */
  predicate Outlasts(v: Version, w: Version) {
    v.supersededAt.None? || (w.supersededAt.Some? && w.supersededAt.value <= v.supersededAt.value)
  }

  /** For each grant with an active version, one active version that ends last. */
  lemma {:induction false} PickOk(versions: seq<Version>, asOf: Time)
    ensures var x := Pick(versions, asOf);
            && NoRepeats(x.order)
            && (forall id :: id in x.order <==> id in x.active)
            && (forall id | id in x.active ::
                  x.active[id] in versions && x.active[id].p.id == id && ActiveAt(x.active[id], asOf))
            && (forall v | v in versions && ActiveAt(v, asOf) ::
                  v.p.id in x.active && Outlasts(x.active[v.p.id], v))
  {
    if versions != [] {
      PickOk(versions[..|versions| - 1], asOf);
      assert versions == versions[..|versions| - 1] + [versions[|versions| - 1]];
    }
  }

  // ---------- the report ----------

  datatype Kind = Standing | TimeBoxed

  /** A report row.  Instants are the seconds that RFC 3339 shows; absent ones show as "". */
  datatype Row = Row(
    permissionID: Id,
    userID: string,
    user: string,
    machineID: string,
    machine: string,
    accessType: string,
    remoteUsers: seq<string>,
    kind: Kind,
    grantedByID: string,
    grantedBy: string,
    grantedAt: int,
    expiresAt: Option<int>,
    endedAt: Option<int>,
    endReason: EndReason)

  /** Names of users and machines that still exist; the others show as their ids. */
  datatype Names = Names(users: map<string, string>, machines: map<string, string>)

  function NameOf(names: map<string, string>, id: string): string {
    if id in names then names[id] else id
  }

  const SECOND: int := 1_000_000_000

  function Shown(t: Option<Time>): Option<int> {
    if t.Some? then Some(t.value / SECOND) else None
  }

  function RowOf(v: Version, names: Names): Row {
    Row(v.p.id, v.p.userID, NameOf(names.users, v.p.userID), v.p.machineID, NameOf(names.machines, v.p.machineID),
        v.p.accessType, v.p.remoteUsers, if v.p.expiresAt.None? then Standing else TimeBoxed,
        v.p.grantedBy, NameOf(names.users, v.p.grantedBy), v.p.grantedAt / SECOND, Shown(v.p.expiresAt),
        Shown(v.supersededAt), v.endReason)
  }

  /** Formatted instants of equal width compare like the instants; "" comes first. */
  predicate ShownLess(a: Option<int>, b: Option<int>) {
    b.Some? && (a.None? || a.value < b.value)
  }

  predicate RowLess(a: Row, b: Row) {
    if a.kind != b.kind then a.kind.Standing?
    else if a.expiresAt != b.expiresAt then ShownLess(a.expiresAt, b.expiresAt)
    else if a.user != b.user then Text.Less(a.user, b.user)
    else Text.Less(a.machine, b.machine)
  }

  lemma RowLessOrders()
    ensures StableSort.Orders(RowLess)
  {
    forall a, b | RowLess(a, b) ensures !RowLess(b, a) {
      Text.LessTotal(a.user, b.user);
      Text.LessTotal(a.machine, b.machine);
    }
    forall a, b, c | !RowLess(b, a) && !RowLess(c, b) ensures !RowLess(c, a) {
      Text.NotAfterTransitive(a.user, b.user, c.user);
      Text.NotAfterTransitive(a.machine, b.machine, c.machine);
    }
  }

  /** The rows before sorting, in the order in which the grants were first seen. */
  function Unsorted(x: Picked, names: Names): seq<Row>
    requires forall id | id in x.order :: id in x.active
  {
    seq(|x.order|, i requires 0 <= i < |x.order| => RowOf(x.active[x.order[i]], names))
  }

  function FirstSeen(versions: seq<Version>, asOf: Time, names: Names): seq<Row> {
    PickOk(versions, asOf);
    Unsorted(Pick(versions, asOf), names)
  }

  function ReviewRows(versions: seq<Version>, asOf: Time, names: Names): seq<Row> {
    StableSort.Sort(FirstSeen(versions, asOf, names), RowLess)
  }

  method BuildGrantReviewRows(versions: seq<Version>, asOf: Time, names: Names) returns (rows: seq<Row>)
    ensures rows == ReviewRows(versions, asOf, names)
  {
    var active: map<Id, Version> := map[];
    var order: seq<Id> := [];
    for i := 0 to |versions|
      invariant Picked(active, order) == Pick(versions[..i], asOf)
    {
      var v := versions[i];
      assert versions[..i + 1][..i] == versions[..i];
      if ActiveAt(v, asOf) {
        var seen := v.p.id in active;
        if !seen {
          order := order + [v.p.id];
        }
        if !seen || EndsLater(v, active[v.p.id]) {
          active := active[v.p.id := v];
        }
      }
    }
    assert versions[..|versions|] == versions;
    PickOk(versions, asOf);
    rows := [];
    for i := 0 to |order|
      invariant rows == Unsorted(Pick(versions, asOf), names)[..i]
    {
      rows := rows + [RowOf(active[order[i]], names)];
    }
    assert rows == Unsorted(Pick(versions, asOf), names);
    rows := StableSort.Sort(rows, RowLess);
  }

  lemma UnsortedAreActive(x: Picked, names: Names, row: Row)
    requires forall id :: id in x.order <==> id in x.active
    requires forall id | id in x.active :: x.active[id].p.id == id
    ensures row in Unsorted(x, names) <==>
            row.permissionID in x.active && row == RowOf(x.active[row.permissionID], names)
  {
    if row in Unsorted(x, names) {
      var i :| 0 <= i < |x.order| && Unsorted(x, names)[i] == row;
      assert x.order[i] in x.active;
    }
    if row.permissionID in x.active && row == RowOf(x.active[row.permissionID], names) {
      var i :| 0 <= i < |x.order| && x.order[i] == row.permissionID;
      assert Unsorted(x, names)[i] == row;
    }
  }

  /** The rows are those of the picked versions, one per grant, in order; rows that tie stay in
      the order in which their grants were first seen. */
  lemma RowsArePicks(versions: seq<Version>, asOf: Time, names: Names)
    ensures var x, rows := Pick(versions, asOf), ReviewRows(versions, asOf, names);
            && |rows| == |x.active|
            && (forall row :: row in rows <==>
                  row.permissionID in x.active && row == RowOf(x.active[row.permissionID], names))
            && StableSort.Sorted(rows, RowLess)
    ensures forall p :: StableSort.Ties(ReviewRows(versions, asOf, names), p, RowLess) ==
                        StableSort.Ties(FirstSeen(versions, asOf, names), p, RowLess)
  {
    PickOk(versions, asOf);
    var x := Pick(versions, asOf);
    var unsorted, rows := Unsorted(x, names), ReviewRows(versions, asOf, names);
    StableSort.SortPermutes(unsorted, RowLess);
    RowLessOrders();
    StableSort.SortSorts(unsorted, RowLess);
    forall p ensures StableSort.Ties(rows, p, RowLess) == StableSort.Ties(unsorted, p, RowLess) {
      StableSort.SortStable(unsorted, p, RowLess);
    }
    forall row
      ensures row in rows <==> row.permissionID in x.active && row == RowOf(x.active[row.permissionID], names)
    {
      assert row in multiset(rows) <==> row in multiset(unsorted);
      UnsortedAreActive(x, names, row);
    }
    assert |rows| == |multiset(rows)| == |unsorted|;
    OrderSize(x.order, x.active.Keys);
  }

  /** a may be listed before b: standing grants first, then those that end sooner, then by user
      and machine. */
  predicate MayPrecede(a: Row, b: Row) {
    && (b.kind == Standing ==> a.kind == Standing)
    && (a.kind == b.kind ==>
          && (b.expiresAt.None? ==> a.expiresAt.None?)
          && (a.expiresAt.Some? && b.expiresAt.Some? ==> a.expiresAt.value <= b.expiresAt.value)
          && (a.expiresAt == b.expiresAt ==>
                Text.Less(a.user, b.user) ||
                (a.user == b.user && (Text.Less(a.machine, b.machine) || a.machine == b.machine))))
  }

  lemma ReviewInOrder(versions: seq<Version>, asOf: Time, names: Names)
    ensures var rows := ReviewRows(versions, asOf, names);
            forall i, j | 0 <= i < j < |rows| :: MayPrecede(rows[i], rows[j])
  {
    RowsArePicks(versions, asOf, names);
    var rows := ReviewRows(versions, asOf, names);
    forall i, j | 0 <= i < j < |rows| ensures MayPrecede(rows[i], rows[j]) {
      Text.LessTotal(rows[i].user, rows[j].user);
      Text.LessTotal(rows[i].machine, rows[j].machine);
    }
  }

  lemma {:induction false} OrderSize(order: seq<Id>, ids: set<Id>)
    requires NoRepeats(order) && forall id :: id in order <==> id in ids
    ensures |order| == |ids|
    decreases |order|
  {
    if order != [] {
      OrderSize(order[1..], ids - {order[0]});
    } else {
      assert ids == {};
    }
  }

  // ---------- the report against the table ----------

  /** The list the store returns: every version, in any order. */
  ghost predicate Lists(versions: seq<Version>, st: Store) {
    forall v :: v in versions <==> IsVersion(st, v)
  }

  /** Stamped by asOf, but not in the table until later. */
  predicate Premature(v: Version, asOf: Time) {
    v.p.grantedAt <= asOf < v.writtenAt && Unexpired(v.p, asOf)
  }

  ghost predicate Clean(st: Store, asOf: Time) {
    forall v | IsVersion(st, v) :: !Premature(v, asOf)
  }

  /** The report shows, for each grant, the version that was in the table at asOf, and only
      if that had not expired. */
  ghost predicate Exact(run: seq<Write>, versions: seq<Version>, asOf: Time) {
    var x, table := Pick(versions, asOf), TableAt(run, asOf);
    && (forall id :: id in x.active <==> id in table && Unexpired(table[id].p, asOf))
    && (forall id | id in x.active :: SameVersion(x.active[id], table[id]))
  }

  lemma CleanIsExact(run: seq<Write>, versions: seq<Version>, asOf: Time)
    requires Runs(run) && Lists(versions, After(run)) && Clean(After(run), asOf)
    ensures Exact(run, versions, asOf)
  {
    PickOk(versions, asOf);
    var x, table := Pick(versions, asOf), TableAt(run, asOf);
    forall id | id in x.active
      ensures id in table && Unexpired(table[id].p, asOf) && SameVersion(x.active[id], table[id])
    {
      VersionToRow(run, asOf, x.active[id]);
    }
    forall id | id in table && Unexpired(table[id].p, asOf) ensures id in x.active {
      var v := RowToVersion(run, asOf, id);
      VersionSound(run, v);
    }
  }

  lemma VersionSound(run: seq<Write>, v: Version)
    requires Runs(run) && IsVersion(After(run), v)
    ensures v.p.grantedAt <= v.writtenAt && (v.supersededAt.Some? ==> v.writtenAt <= v.supersededAt.value)
  {
    if run != [] {
      RunSound(run);
      if v in After(run).history {
        assert ArchivedOk(v, Clock(run));
      } else {
        assert RowOk(After(run), v.p.id, Clock(run));
      }
    }
  }

  /** The grantor the review can show of a row: the one of then, unless it was cleared since. */
  function GrantorLeft(run: seq<Write>, asOf: Time, id: Id): string
    requires id in TableAt(run, asOf)
  {
    var grantor := TableAt(run, asOf)[id].p.grantedBy;
    if Cleared(run, asOf, id, grantor) then "" else grantor
  }

  /** The row a review of asOf has of a grant: what the table had then, how that ended, and
      what is left of the grantor. */
  function Reviewed(run: seq<Write>, asOf: Time, id: Id, names: Names): Row
    requires id in TableAt(run, asOf)
  {
    var end := EndAfter(run, asOf, id);
    RowOf(TableAt(run, asOf)[id], names).(
      endedAt := Shown(EndTime(end)), endReason := EndKind(end),
      grantedByID := GrantorLeft(run, asOf, id), grantedBy := NameOf(names.users, GrantorLeft(run, asOf, id)))
  }

  /** t to the second. */
  predicate InSeconds(seconds: int, t: Time) {
    seconds * 1_000_000_000 <= t < (seconds + 1) * 1_000_000_000
  }

  predicate SameInstant(shown: Option<int>, t: Option<Time>) {
    (shown.None? <==> t.None?) && (shown.Some? ==> InSeconds(shown.value, t.value))
  }

  predicate Called(shown: string, id: string, names: map<string, string>) {
    shown == if id in names then names[id] else id
  }

  /** The row, column by column, against the table at asOf and what was written after. */
  predicate Shows(run: seq<Write>, asOf: Time, names: Names, row: Row)
    requires row.permissionID in TableAt(run, asOf)
  {
    var id := row.permissionID;
    var p, end, grantor := TableAt(run, asOf)[id].p, EndAfter(run, asOf, id), GrantorLeft(run, asOf, id);
    && row.userID == p.userID && Called(row.user, p.userID, names.users)
    && row.machineID == p.machineID && Called(row.machine, p.machineID, names.machines)
    && row.accessType == p.accessType && row.remoteUsers == p.remoteUsers
    && (row.kind == Standing <==> p.expiresAt.None?)
    && row.grantedByID == grantor && Called(row.grantedBy, grantor, names.users)
    && InSeconds(row.grantedAt, p.grantedAt)
    && SameInstant(row.expiresAt, p.expiresAt)
    && SameInstant(row.endedAt, if end.None? then None else Some(end.value.at))
    && (row.endReason == StillCurrent <==> end.None?)
    && (row.endReason == Revoked <==> end.Some? && end.value.Delete?)
  }

  lemma ReviewedShows(run: seq<Write>, asOf: Time, id: Id, names: Names)
    requires Runs(run) && id in TableAt(run, asOf)
    ensures Reviewed(run, asOf, id, names).permissionID == id
    ensures Shows(run, asOf, names, Reviewed(run, asOf, id, names))
  {
    var v := RowToVersion(run, asOf, id);
  }

  lemma PickedIsReviewed(run: seq<Write>, versions: seq<Version>, asOf: Time, names: Names, id: Id)
    requires Runs(run) && Lists(versions, After(run)) && Clean(After(run), asOf)
    requires id in Pick(versions, asOf).active
    ensures id in TableAt(run, asOf)
    ensures RowOf(Pick(versions, asOf).active[id], names) == Reviewed(run, asOf, id, names)
  {
    PickOk(versions, asOf);
    GrantorOfVersion(run, asOf, Pick(versions, asOf).active[id]);
    EndOfVersion(run, asOf, Pick(versions, asOf).active[id]);
    VersionToRow(run, asOf, Pick(versions, asOf).active[id]);
  }

  /** Point-in-time reconstruction: at an instant with no premature version the report has
      exactly one row per grant in the table and unexpired, with the values it had then and the
      first change or removal after it; only the grantor is missing where it was cleared since. */
  lemma ReviewReconstructsTable(run: seq<Write>, versions: seq<Version>, asOf: Time, names: Names)
    requires Runs(run) && Lists(versions, After(run)) && Clean(After(run), asOf)
    ensures var rows, table := ReviewRows(versions, asOf, names), TableAt(run, asOf);
            && |rows| == |set id | id in table && Unexpired(table[id].p, asOf)|
            && (forall row | row in rows ::
                  row.permissionID in table && Unexpired(table[row.permissionID].p, asOf) &&
                  Shows(run, asOf, names, row))
            && (forall id | id in table && Unexpired(table[id].p, asOf) ::
                  exists row | row in rows :: row.permissionID == id)
  {
    CleanIsExact(run, versions, asOf);
    RowsArePicks(versions, asOf, names);
    PickOk(versions, asOf);
    var x, table := Pick(versions, asOf), TableAt(run, asOf);
    assert x.active.Keys == set id | id in table && Unexpired(table[id].p, asOf);
    forall row | row in ReviewRows(versions, asOf, names)
      ensures row.permissionID in table && Shows(run, asOf, names, row)
    {
      PickedIsReviewed(run, versions, asOf, names, row.permissionID);
      ReviewedShows(run, asOf, row.permissionID, names);
    }
    forall id | id in table && Unexpired(table[id].p, asOf)
      ensures exists row | row in ReviewRows(versions, asOf, names) :: row.permissionID == id
    {
      assert RowOf(x.active[id], names).permissionID == x.active[id].p.id;
    }
  }

  /** So the grantor column is right if and only if nobody deleted that grantor after asOf and
      before the grant was next changed or removed. */
  lemma GrantorExactIffNotCleared(run: seq<Write>, versions: seq<Version>, asOf: Time, names: Names, row: Row)
    requires Runs(run) && Lists(versions, After(run)) && Clean(After(run), asOf)
    requires row in ReviewRows(versions, asOf, names)
    ensures row.permissionID in TableAt(run, asOf)
    ensures var grantor := TableAt(run, asOf)[row.permissionID].p.grantedBy;
            row.grantedByID == grantor <==> !Cleared(run, asOf, row.permissionID, grantor)
  {
    ReviewReconstructsTable(run, versions, asOf, names);
    TimesOrdered(run);
  }

  /** A run in which it is wrong, though every write stamps its row when it is stored: bob
      grants at 10 and is deleted at 20; the review as of 15 shows no grantor. */
  lemma DeletedGrantorIsLost() returns (run: seq<Write>, versions: seq<Version>)
    ensures Runs(run) && Stamped(run) && Lists(versions, After(run))
    ensures "g" in TableAt(run, 15) && TableAt(run, 15)["g"].p.grantedBy == "bob"
    ensures "g" in Pick(versions, 15).active && Pick(versions, 15).active["g"].p.grantedBy == ""
  {
    var p := Permission("g", "alice", "db", "ssh", ["root"], "bob", 10, None);
    var v, u := Version(p, 10, None, StillCurrent), Version(p.(grantedBy := ""), 10, None, StillCurrent);
    run, versions := [Create(p, 10), ClearGrantor("bob", 20)], [u];
    FirstWrite(Create(p, 10));
    assert run[..1] == [Create(p, 10)];
    assert After(run) == Store(map["g" := u], []);
    assert [u][..0] == [] && Pick([u], 15) == Picked(map["g" := u], ["g"]);
  }

  // ---------- the list cut short ----------

  const FETCH_LIMIT: nat := 5000

  /** As the store orders its list. */
  predicate NewestFirst(versions: seq<Version>) {
    forall i, j | 0 <= i < j < |versions| :: versions[i].p.grantedAt >= versions[j].p.grantedAt
  }

  /** What the handler reads of the full list; it marks the report as cut when that is as long
      as the limit. */
  function Fetched(versions: seq<Version>): seq<Version> {
    if |versions| <= FETCH_LIMIT then versions else versions[..FETCH_LIMIT]
  }

  /** At a clean instant a grant has at most one active version. */
  lemma OneActive(run: seq<Write>, asOf: Time, v: Version, u: Version)
    requires Runs(run) && Clean(After(run), asOf) && v.p.id == u.p.id
    requires IsVersion(After(run), v) && IsVersion(After(run), u) && ActiveAt(v, asOf) && ActiveAt(u, asOf)
    ensures v == u
  {
    assert !Premature(v, asOf) && !Premature(u, asOf);
    RunChained(run);
    assert OneAfterOther(v, u);
  }

  lemma PickOfFetched(run: seq<Write>, versions: seq<Version>, asOf: Time, id: Id)
    requires Runs(run) && Lists(versions, After(run)) && Clean(After(run), asOf)
    ensures var all, some := Pick(versions, asOf).active, Pick(Fetched(versions), asOf).active;
            && (id in some <==> id in all && all[id] in Fetched(versions))
            && (id in some ==> some[id] == all[id])
  {
    PickOk(versions, asOf);
    PickOk(Fetched(versions), asOf);
    var all, some := Pick(versions, asOf).active, Pick(Fetched(versions), asOf).active;
    assert forall v | v in Fetched(versions) :: v in versions;
    if id in some {
      OneActive(run, asOf, some[id], all[id]);
    }
  }

  /** What a cut review still says: at a clean instant its rows are rows of the full review, just
      those whose version was fetched; any version left out was stamped no later than every
      one fetched; and a report not marked as cut leaves nothing out. */
  lemma CutReview(run: seq<Write>, versions: seq<Version>, asOf: Time, names: Names)
    requires Runs(run) && Lists(versions, After(run)) && Clean(After(run), asOf) && NewestFirst(versions)
    ensures var all, full, cut := Pick(versions, asOf).active, ReviewRows(versions, asOf, names),
                                  ReviewRows(Fetched(versions), asOf, names);
            && (forall row :: row in cut <==>
                  row in full && row.permissionID in all && all[row.permissionID] in Fetched(versions))
            && (forall v, u | v in versions && v !in Fetched(versions) && u in Fetched(versions) ::
                  v.p.grantedAt <= u.p.grantedAt)
            && (|versions| < 5000 ==> cut == full) && |Fetched(versions)| <= 5000
  {
    var all := Pick(versions, asOf).active;
    RowsArePicks(versions, asOf, names);
    RowsArePicks(Fetched(versions), asOf, names);
    forall row
      ensures row in ReviewRows(Fetched(versions), asOf, names) <==>
              row in ReviewRows(versions, asOf, names) && row.permissionID in all &&
              all[row.permissionID] in Fetched(versions)
    {
      PickOfFetched(run, versions, asOf, row.permissionID);
    }
  }

  // ---------- when an instant is clean ----------

  /** Every insert and update stamps the row with the instant at which it is stored. */
  predicate Stamped(run: seq<Write>) {
    forall w | w in run :: Stores(w) ==> w.p.grantedAt == w.at
  }

  ghost predicate AllStamped(st: Store) {
    forall v | IsVersion(st, v) :: v.p.grantedAt == v.writtenAt
  }

  lemma StampedStep(st: Store, w: Write, clock: Time)
    requires Sound(st, clock) && Proper(st, w, clock) && AllStamped(st) && (Stores(w) ==> w.p.grantedAt == w.at)
    ensures AllStamped(Apply(st, w))
  {
    forall u | IsVersion(Apply(st, w), u) ensures u.p.grantedAt == u.writtenAt {
      var v := VersionSource(st, w, clock, u);
      assert IsVersion(st, v) ==> v.p.grantedAt == v.writtenAt;
    }
  }

  lemma {:induction false} StampedRun(run: seq<Write>)
    requires Runs(run) && Stamped(run)
    ensures AllStamped(After(run))
  {
    if run != [] {
      var before := run[..|run| - 1];
      StampedRun(before);
      if before == [] {
        StampedStep(EmptyStore, run[0], run[0].at);
      } else {
        RunSound(before);
        StampedStep(After(before), run[|run| - 1], Clock(before));
      }
    }
  }

  /** If every write stamps its row with the instant at which it is stored, the review
      reconstructs the table at every instant. */
  lemma StampedIsAlwaysExact(run: seq<Write>, versions: seq<Version>, asOf: Time)
    requires Runs(run) && Stamped(run) && Lists(versions, After(run))
    ensures Exact(run, versions, asOf)
  {
    StampedRun(run);
    CleanIsExact(run, versions, asOf);
  }

  /** No version was replaced at the very instant it was written. */
  ghost predicate Lasting(st: Store) {
    forall v | IsVersion(st, v) :: v.supersededAt.Some? ==> v.writtenAt < v.supersededAt.value
  }

  lemma PrematureHidesTheTable(run: seq<Write>, versions: seq<Version>, asOf: Time, v: Version)
    requires Runs(run) && Lists(versions, After(run)) && Lasting(After(run))
    requires IsVersion(After(run), v) && Premature(v, asOf)
    ensures !Exact(run, versions, asOf)
  {
    PickOk(versions, asOf);
    RunChained(run);
    assert v in versions && ActiveAt(v, asOf);
    var id := v.p.id;
    var picked := Pick(versions, asOf).active[id];
    assert OneAfterOther(picked, v);
    assert picked.writtenAt > asOf;
    if id in TableAt(run, asOf) {
      RowToVersionWritten(run, asOf, id);
    }
  }

  lemma RowToVersionWritten(run: seq<Write>, t: Time, id: Id)
    requires Runs(run) && id in TableAt(run, t)
    ensures TableAt(run, t)[id].writtenAt <= t
  {
    var v := RowToVersion(run, t, id);
  }

  /** The exact condition: where no version was replaced at the instant it was written, the
      review shows what was in force at asOf if and only if no write was stamped by asOf but
      stored after it, unless it had expired by asOf. */
  lemma ExactIffClean(run: seq<Write>, versions: seq<Version>, asOf: Time)
    requires Runs(run) && Lists(versions, After(run)) && Lasting(After(run))
    ensures Exact(run, versions, asOf) <==> Clean(After(run), asOf)
  {
    if Clean(After(run), asOf) {
      CleanIsExact(run, versions, asOf);
    } else {
      var v :| IsVersion(After(run), v) && Premature(v, asOf);
      PrematureHidesTheTable(run, versions, asOf, v);
    }
  }

  /** A write stamped before it is stored is such a write: a grant stamped at 10 reaches the
      table at 11, and the review as of 10 shows it, though nobody could use it then. */
  lemma EarlyStampMisreports() returns (run: seq<Write>, versions: seq<Version>)
    ensures Runs(run) && Lists(versions, After(run)) && Lasting(After(run))
    ensures "g" !in TableAt(run, 10) && "g" in Pick(versions, 10).active
  {
    var p := Permission("g", "alice", "db", "ssh", ["root"], "bob", 10, None);
    var v := Version(p, 11, None, StillCurrent);
    run, versions := [Create(p, 11)], [v];
    FirstWrite(Create(p, 11));
    assert run[..0] == [] && versions[..0] == [];
    assert Pick(versions, 10) == Picked(map["g" := v], ["g"]);
  }
}

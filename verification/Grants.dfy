/** Grants and their history (pkg/auth/auth.go, pkg/common/types.go and the store contract
    of pkg/database/postgres.go): every update and removal archives the row it replaces.

    A write has two instants: the one stamped on the row (`GrantedAt`), taken before the
    store is called, and the one at which the store changes.  Both come from one clock. */
module Grants {
  import opened Wrappers

  type Id = string
  type Time = int

  datatype Permission = Permission(
    id: Id,
    userID: string,
    machineID: string,
    accessType: string,
    remoteUsers: seq<string>,
    grantedBy: string,
    grantedAt: Time,
    expiresAt: Option<Time>)

  datatype EndReason = StillCurrent | Updated | Revoked

  /** One version of a grant.  `writtenAt` is when the store took it; no code reads it, it
      is there to say what was in force when. */
  datatype Version = Version(
    p: Permission,
    writtenAt: Time,
    supersededAt: Option<Time>,
    endReason: EndReason)

  predicate Unexpired(p: Permission, t: Time) {
    p.expiresAt.None? || p.expiresAt.value > t
  }

  /** PermissionVersion.ActiveAt, branch by branch. */
  predicate ActiveAt(v: Version, t: Time) {
    if v.p.grantedAt > t then false
    else if v.p.expiresAt.Some? && !(v.p.expiresAt.value > t) then false
    else v.supersededAt.None? || v.supersededAt.value > t
  }

  // ---------- the store ----------

  datatype Store = Store(permissions: map<Id, Version>, history: seq<Version>)

  const EmptyStore: Store := Store(map[], [])

  function Archived(v: Version, at: Time, reason: EndReason): Version {
    v.(supersededAt := Some(at), endReason := reason)
  }

  datatype Write =
    | Create(p: Permission, at: Time)
    | Update(p: Permission, at: Time)
    | Delete(id: Id, at: Time)
    | ClearGrantor(user: string, at: Time) // deleting a user, where it forgets who granted

  /** The write puts a row in place. */
  predicate Stores(w: Write) {
    w.Create? || w.Update?
  }

  function IdOf(w: Write): Id
    requires !w.ClearGrantor?
  {
    if w.Delete? then w.id else w.p.id
  }

  /** A version without its grantor, if that was the user. */
  function Ungranted(v: Version, user: string): Version {
    if v.p.grantedBy == user then v.(p := v.p.(grantedBy := "")) else v
  }

  /** An UPDATE leaves user and machine alone, and does nothing to a row that is not there.
      Clearing a grantor changes current rows in place and archives nothing. */
  function Apply(st: Store, w: Write): Store {
    match w
    case Create(p, at) => st.(permissions := st.permissions[p.id := Version(p, at, None, StillCurrent)])
    case Update(p, at) =>
      if p.id !in st.permissions then st
      else
        var prior := st.permissions[p.id];
        var row := p.(userID := prior.p.userID, machineID := prior.p.machineID);
        Store(st.permissions[p.id := Version(row, at, None, StillCurrent)],
              st.history + [Archived(prior, at, Updated)])
    case Delete(id, at) =>
      if id !in st.permissions then st
      else Store(st.permissions - {id}, st.history + [Archived(st.permissions[id], at, Revoked)])
    case ClearGrantor(user, _) =>
      st.(permissions := map id | id in st.permissions :: Ungranted(st.permissions[id], user))
  }

  function After(run: seq<Write>): Store {
    if run == [] then EmptyStore else Apply(After(run[..|run| - 1]), run[|run| - 1])
  }

  /** A write in a run: in time order, stamped no later than it is stored, and an insert
      names a new row. */
  predicate Proper(st: Store, w: Write, clock: Time) {
    && clock <= w.at
    && (Stores(w) ==> w.p.grantedAt <= w.at)
    && (w.Create? ==> w.p.id !in st.permissions)
    && (w.ClearGrantor? ==> w.user != "")
  }

  function Clock(run: seq<Write>): Time
    requires run != []
  {
    run[|run| - 1].at
  }

  predicate Runs(run: seq<Write>) {
    run == [] ||
    var before := run[..|run| - 1];
    Runs(before) && Proper(After(before), run[|run| - 1], if before == [] then run[0].at else Clock(before))
  }

  lemma FirstWrite(w: Write)
    requires Proper(EmptyStore, w, w.at)
    ensures Runs([w]) && After([w]) == Apply(EmptyStore, w)
  {
    var before := [w][..0];
    assert before == [] && Runs(before) && After(before) == EmptyStore;
  }

  /** The table as it stood at time t: after every write stored by then. */
  function TableAt(run: seq<Write>, t: Time): map<Id, Version> {
    if run == [] then map[]
    else if run[|run| - 1].at <= t then After(run).permissions
    else TableAt(run[..|run| - 1], t)
  }

  /** Every version: the current rows and the archive. */
  predicate IsVersion(st: Store, v: Version) {
    (v.p.id in st.permissions && st.permissions[v.p.id] == v) || v in st.history
  }

  /** The version was in the table at time t. */
  predicate Covers(v: Version, t: Time) {
    v.writtenAt <= t && (v.supersededAt.None? || v.supersededAt.value > t)
  }

  // ---------- the history is complete ----------

  predicate RowOk(st: Store, id: Id, clock: Time)
    requires id in st.permissions
  {
    var v := st.permissions[id];
    && v.p.id == id && v.supersededAt == None && v.endReason == StillCurrent
    && v.p.grantedAt <= v.writtenAt <= clock
  }

  predicate ArchivedOk(v: Version, clock: Time) {
    v.supersededAt.Some? && v.p.grantedAt <= v.writtenAt <= v.supersededAt.value <= clock
  }

  predicate Sound(st: Store, clock: Time) {
    && (forall id | id in st.permissions :: RowOk(st, id, clock))
    && (forall v | v in st.history :: ArchivedOk(v, clock))
  }

  lemma ApplySound(st: Store, w: Write, clock: Time)
    requires Sound(st, clock) && Proper(st, w, clock)
    ensures Sound(Apply(st, w), w.at)
  {
  }

  lemma {:induction false} RunSound(run: seq<Write>)
    requires Runs(run) && run != []
    ensures Sound(After(run), Clock(run))
  {
    var before := run[..|run| - 1];
    if before == [] {
      ApplySound(EmptyStore, run[0], run[0].at);
    } else {
      RunSound(before);
      ApplySound(After(before), run[|run| - 1], Clock(before));
    }
  }

  /** One version of a grant, as it may differ before and after it was archived and its
      grantor cleared. */
  predicate SameVersion(v: Version, u: Version) {
    v.p.(grantedBy := u.p.grantedBy) == u.p && v.writtenAt == u.writtenAt
  }

  predicate IsCurrent(st: Store, v: Version) {
    v.p.id in st.permissions && st.permissions[v.p.id] == v
  }

  /** The write archives the current row of the grant, if there is one. */
  predicate Archives(w: Write, id: Id) {
    (w.Update? || w.Delete?) && IdOf(w) == id
  }

  /** The version a write leaves in place of v. */
  function Successor(st: Store, w: Write, v: Version): Version {
    if !IsCurrent(st, v) then v
    else if w.ClearGrantor? then Ungranted(v, w.user)
    else if Archives(w, v.p.id) then Archived(v, w.at, if w.Delete? then Revoked else Updated)
    else v
  }

  /** Every version after a write is a version from before, archived or without its grantor
      perhaps, or the new row. */
  lemma VersionSource(st: Store, w: Write, clock: Time, u: Version) returns (v: Version)
    requires Sound(st, clock) && Proper(st, w, clock) && IsVersion(Apply(st, w), u)
    ensures (Stores(w) && u.writtenAt == w.at && u.supersededAt == None && u.p.id == IdOf(w)) ||
            (IsVersion(st, v) && u == Successor(st, w, v))
  {
    v := u;
    if u.p.id in st.permissions && !IsVersion(st, u) {
      v := st.permissions[u.p.id];
    }
    if u.p.id in st.permissions {
      assert RowOk(st, u.p.id, clock);
    }
    if u in st.history {
      assert ArchivedOk(u, clock);
    }
  }

  /** A write does not change which versions cover an earlier time. */
  lemma CoverStays(st: Store, w: Write, clock: Time, t: Time, v: Version) returns (u: Version)
    requires Sound(st, clock) && Proper(st, w, clock) && t < w.at
    requires IsVersion(st, v) && Covers(v, t)
    ensures IsVersion(Apply(st, w), u) && Covers(u, t) && SameVersion(u, v)
  {
    u := v;
    if v in st.history {
      assert v in Apply(st, w).history;
    } else {
      u := Successor(st, w, v);
      assert u == v || w.ClearGrantor? || Apply(st, w).history[|st.history|] == u;
    }
  }

  lemma CoverWas(st: Store, w: Write, clock: Time, t: Time, u: Version) returns (v: Version)
    requires Sound(st, clock) && Proper(st, w, clock) && t < w.at
    requires IsVersion(Apply(st, w), u) && Covers(u, t)
    ensures IsVersion(st, v) && Covers(v, t) && SameVersion(u, v) && u == Successor(st, w, v)
  {
    v := VersionSource(st, w, clock, u);
  }

  /** At or after the last write only the current rows cover. */
  lemma CoverNow(st: Store, clock: Time, t: Time, v: Version)
    requires Sound(st, clock) && clock <= t && IsVersion(st, v)
    ensures Covers(v, t) <==> v.p.id in st.permissions && st.permissions[v.p.id] == v
  {
    if v in st.history {
      assert ArchivedOk(v, clock);
    }
    if v.p.id in st.permissions {
      assert RowOk(st, v.p.id, clock);
    }
  }

  lemma {:induction false} VersionToRow(run: seq<Write>, t: Time, v: Version)
    requires Runs(run) && IsVersion(After(run), v) && Covers(v, t)
    ensures v.p.id in TableAt(run, t) && SameVersion(TableAt(run, t)[v.p.id], v)
  {
    if run != [] {
      RunSound(run);
      var before, w := run[..|run| - 1], run[|run| - 1];
      if w.at <= t {
        CoverNow(After(run), w.at, t, v);
      } else {
        var clock := if before == [] then run[0].at else Clock(before);
        if before != [] {
          RunSound(before);
        }
        var u := CoverWas(After(before), w, clock, t, v);
        VersionToRow(before, t, u);
      }
    }
  }

  lemma {:induction false} RowToVersion(run: seq<Write>, t: Time, id: Id) returns (v: Version)
    requires Runs(run) && id in TableAt(run, t)
    ensures v.p.id == id && IsVersion(After(run), v) && Covers(v, t) && SameVersion(TableAt(run, t)[id], v)
  {
    RunSound(run);
    var before, w := run[..|run| - 1], run[|run| - 1];
    if w.at <= t {
      v := After(run).permissions[id];
      assert RowOk(After(run), id, w.at);
    } else {
      var u := RowToVersion(before, t, id);
      RunSound(before);
      v := CoverStays(After(before), w, Clock(before), t, u);
    }
  }

  // ---------- the grantor, which is cleared in place ----------

  /** Nothing archived the grant after t, among the first n writes. */
  predicate Untouched(run: seq<Write>, t: Time, id: Id, n: nat)
    requires n <= |run|
  {
    forall j | 0 <= j < n && run[j].at > t :: !Archives(run[j], id)
  }

  predicate ClearsAt(run: seq<Write>, t: Time, id: Id, grantor: string, i: nat)
    requires i < |run|
  {
    run[i].at > t && run[i].ClearGrantor? && run[i].user == grantor && Untouched(run, t, id, i)
  }

  /** After t, and while the row of t was still there, its grantor was deleted. */
  predicate Cleared(run: seq<Write>, t: Time, id: Id, grantor: string) {
    exists i | 0 <= i < |run| :: ClearsAt(run, t, id, grantor, i)
  }

  lemma {:induction false} TimesOrdered(run: seq<Write>)
    requires Runs(run)
    ensures forall i | 0 <= i < |run| :: run[i].at <= run[|run| - 1].at
    ensures forall i | 0 <= i < |run| && run[i].ClearGrantor? :: run[i].user != ""
  {
    if run != [] {
      TimesOrdered(run[..|run| - 1]);
    }
  }

  /** One more write after t. */
  lemma ClearedGrows(run: seq<Write>, t: Time, id: Id, grantor: string)
    requires run != [] && run[|run| - 1].at > t
    ensures var before, w := run[..|run| - 1], run[|run| - 1];
            && (Untouched(run, t, id, |run|) <==> Untouched(before, t, id, |before|) && !Archives(w, id))
            && (Cleared(run, t, id, grantor) <==>
                  Cleared(before, t, id, grantor) ||
                  (w.ClearGrantor? && w.user == grantor && Untouched(before, t, id, |before|)))
  {
    var n := |run| - 1;
    var before, w := run[..n], run[n];
    assert forall i | 0 <= i < n :: ClearsAt(run, t, id, grantor, i) <==> ClearsAt(before, t, id, grantor, i);
    assert ClearsAt(run, t, id, grantor, n) <==>
           w.ClearGrantor? && w.user == grantor && Untouched(before, t, id, n);
  }

  /** The version that covers t is current as long as nothing archived it, and has the grantor
      of t unless that was cleared. */
  lemma {:induction false} GrantorOfVersion(run: seq<Write>, t: Time, v: Version)
    requires Runs(run) && IsVersion(After(run), v) && Covers(v, t)
    ensures v.p.id in TableAt(run, t)
    ensures v.supersededAt.None? <==> Untouched(run, t, v.p.id, |run|)
    ensures var grantor := TableAt(run, t)[v.p.id].p.grantedBy;
            v.p.grantedBy == if Cleared(run, t, v.p.id, grantor) then "" else grantor
  {
    VersionToRow(run, t, v);
    if run != [] {
      RunSound(run);
      TimesOrdered(run);
      var before, w := run[..|run| - 1], run[|run| - 1];
      if w.at <= t {
        CoverNow(After(run), w.at, t, v);
        assert RowOk(After(run), v.p.id, w.at);
      } else {
        assert before != [];
        RunSound(before);
        var u := CoverWas(After(before), w, Clock(before), t, v);
        GrantorOfVersion(before, t, u);
        ClearedGrows(run, t, v.p.id, TableAt(run, t)[v.p.id].p.grantedBy);
        CurrentIsOpen(After(before), Clock(before), u);
      }
    }
  }

  lemma CurrentIsOpen(st: Store, clock: Time, v: Version)
    requires Sound(st, clock) && IsVersion(st, v)
    ensures v.supersededAt.None? <==> IsCurrent(st, v)
  {
    if v in st.history {
      assert ArchivedOk(v, clock);
    }
    if IsCurrent(st, v) {
      assert RowOk(st, v.p.id, clock);
    }
  }

  // ---------- how a version ended ----------

  /** The first write after t that changes or removes the grant. */
  function EndAfter(run: seq<Write>, t: Time, id: Id): Option<Write> {
    if run == [] then None
    else
      var before, w := EndAfter(run[..|run| - 1], t, id), run[|run| - 1];
      if before.None? && w.at > t && Archives(w, id) then Some(w) else before
  }

  function EndTime(end: Option<Write>): Option<Time> {
    if end.None? then None else Some(end.value.at)
  }

  function EndKind(end: Option<Write>): EndReason {
    if end.None? then StillCurrent else if end.value.Delete? then Revoked else Updated
  }

  lemma {:induction false} NoEndYet(run: seq<Write>, t: Time, id: Id)
    requires forall i | 0 <= i < |run| :: run[i].at <= t
    ensures EndAfter(run, t, id) == None
  {
    if run != [] {
      NoEndYet(run[..|run| - 1], t, id);
    }
  }

  /** The version that covers t ended, if at all, by the first write after t to its grant. */
  lemma {:induction false} EndOfVersion(run: seq<Write>, t: Time, v: Version)
    requires Runs(run) && IsVersion(After(run), v) && Covers(v, t)
    ensures v.supersededAt == EndTime(EndAfter(run, t, v.p.id))
    ensures v.endReason == EndKind(EndAfter(run, t, v.p.id))
  {
    if run != [] {
      RunSound(run);
      var before, w := run[..|run| - 1], run[|run| - 1];
      if w.at <= t {
        TimesOrdered(run);
        NoEndYet(run, t, v.p.id);
        CoverNow(After(run), w.at, t, v);
        assert RowOk(After(run), v.p.id, w.at);
      } else {
        assert before != [];
        RunSound(before);
        var u := CoverWas(After(before), w, Clock(before), t, v);
        EndOfVersion(before, t, u);
        CurrentIsOpen(After(before), Clock(before), u);
      }
    }
  }

  // ---------- versions of one grant follow one another ----------

  predicate Precedes(a: Version, b: Version) {
    a.supersededAt.Some? && a.supersededAt.value <= b.writtenAt
  }

  predicate OneAfterOther(v: Version, u: Version) {
    v == u || v.p.id != u.p.id || Precedes(v, u) || Precedes(u, v)
  }

  ghost predicate Chained(st: Store) {
    forall v, u | IsVersion(st, v) && IsVersion(st, u) :: OneAfterOther(v, u)
  }

  /** A current row comes after every archived version of its grant. */
  lemma CurrentIsLast(st: Store, clock: Time, a: Version, b: Version)
    requires Sound(st, clock) && IsVersion(st, a) && IsVersion(st, b)
    requires (a.supersededAt == None && a.writtenAt == clock) || (b.supersededAt == None && b.writtenAt == clock)
    ensures OneAfterOther(a, b)
  {
    if a in st.history {
      assert ArchivedOk(a, clock);
    }
    if b in st.history {
      assert ArchivedOk(b, clock);
    }
  }

  lemma ChainedPair(st: Store, w: Write, clock: Time, a: Version, b: Version)
    requires Sound(st, clock) && Chained(st) && Proper(st, w, clock)
    requires IsVersion(Apply(st, w), a) && IsVersion(Apply(st, w), b)
    ensures OneAfterOther(a, b)
  {
    ApplySound(st, w, clock);
    var a0 := VersionSource(st, w, clock, a);
    var b0 := VersionSource(st, w, clock, b);
    if (a.supersededAt == None && a.writtenAt == w.at) || (b.supersededAt == None && b.writtenAt == w.at) {
      CurrentIsLast(Apply(st, w), w.at, a, b);
    } else {
      assert OneAfterOther(a0, b0);
    }
  }

  lemma ChainedStep(st: Store, w: Write, clock: Time)
    requires Sound(st, clock) && Chained(st) && Proper(st, w, clock)
    ensures Chained(Apply(st, w))
  {
    forall a, b | IsVersion(Apply(st, w), a) && IsVersion(Apply(st, w), b) ensures OneAfterOther(a, b) {
      ChainedPair(st, w, clock, a, b);
    }
  }

  lemma {:induction false} RunChained(run: seq<Write>)
    requires Runs(run)
    ensures Chained(After(run))
  {
    if run != [] {
      var before := run[..|run| - 1];
      RunChained(before);
      if before == [] {
        ChainedStep(EmptyStore, run[0], run[0].at);
      } else {
        RunSound(before);
        ChainedStep(After(before), run[|run| - 1], Clock(before));
      }
    }
  }

  // ---------- the operations that write ----------

  predicate Matches(v: Version, userID: string, machineID: string, accessType: string, now: Time) {
    v.p.userID == userID && v.p.machineID == machineID && v.p.accessType == accessType && Unexpired(v.p, now)
  }

  /** The write puts exactly the asked-for row in place: over an active grant of the trio if
      there is one, else under a new id. */
  predicate Upserts(st: Store, userID: string, machineID: string, accessType: string, remoteUsers: seq<string>,
                    grantedBy: string, duration: Option<int>, now: Time, w: Write)
  {
    && Stores(w)
    && IdOf(w) in Apply(st, w).permissions
    && Apply(st, w).permissions[IdOf(w)].p ==
         Permission(IdOf(w), userID, machineID, accessType, remoteUsers, grantedBy, now,
                    if duration.Some? then Some(now + duration.value) else None)
    && (w.Create? ==>
          && w.p.id !in st.permissions
          && forall id | id in st.permissions :: !Matches(st.permissions[id], userID, machineID, accessType, now))
    && (w.Update? ==>
          w.p.id in st.permissions && Matches(st.permissions[w.p.id], userID, machineID, accessType, now))
  }

  predicate TargetsOk(accessType: string, remoteUsers: seq<string>, scopesOk: bool) {
    if accessType == "k8s" then scopesOk
    else accessType == "rdp" || accessType == "vnc" || remoteUsers != []
  }

  /** The row as an edit asks for it; what the edit leaves out stays. */
  function Edited(p: Permission, accessType: Option<string>, remoteUsers: Option<seq<string>>,
                  expiry: Option<Option<Time>>, adminID: string, now: Time): Permission {
    p.(accessType := if accessType.Some? && accessType.value != "" then accessType.value else p.accessType,
       remoteUsers := if remoteUsers.Some? then remoteUsers.value else p.remoteUsers,
       expiresAt := if expiry.Some? then expiry.value else p.expiresAt,
       grantedBy := if adminID != "" then adminID else p.grantedBy,
       grantedAt := if adminID != "" then now else p.grantedAt)
  }

  /** A grant replaces only an unexpired one of the same user, machine and type, and a new row is
      made only where there is none; no other row changes. */
  lemma UpsertStaysInItsTrio(
    st: Store, userID: string, machineID: string, accessType: string, remoteUsers: seq<string>,
    grantedBy: string, duration: Option<int>, now: Time, w: Write)
    requires Upserts(st, userID, machineID, accessType, remoteUsers, grantedBy, duration, now, w)
    ensures w.Update? ==>
              && w.p.id in st.permissions
              && var was := st.permissions[w.p.id].p;
                 && was.userID == userID && was.machineID == machineID && was.accessType == accessType
                 && (was.expiresAt.Some? ==> now < was.expiresAt.value)
    ensures w.Create? ==>
              && w.p.id !in st.permissions
              && forall id | id in st.permissions ::
                   var p := st.permissions[id].p;
                   p.userID != userID || p.machineID != machineID || p.accessType != accessType ||
                   (p.expiresAt.Some? && p.expiresAt.value <= now)
    ensures forall id | id != w.p.id ::
              (id in Apply(st, w).permissions <==> id in st.permissions) &&
              (id in st.permissions ==> Apply(st, w).permissions[id] == st.permissions[id])
  {
    forall id | id in st.permissions && w.Create?
      ensures var p := st.permissions[id].p;
              p.userID != userID || p.machineID != machineID || p.accessType != accessType ||
              (p.expiresAt.Some? && p.expiresAt.value <= now)
    {
      assert !Matches(st.permissions[id], userID, machineID, accessType, now);
    }
  }

  /** A grant needs accounts, but for desktops, which log in on their own, and clusters, which need
      well-formed scopes. */
  lemma TargetsNeeded(accessType: string, remoteUsers: seq<string>, scopesOk: bool)
    ensures accessType == "k8s" ==> (TargetsOk(accessType, remoteUsers, scopesOk) <==> scopesOk)
    ensures accessType == "rdp" || accessType == "vnc" ==> TargetsOk(accessType, remoteUsers, scopesOk)
    ensures accessType !in {"k8s", "rdp", "vnc"} ==>
              (TargetsOk(accessType, remoteUsers, scopesOk) <==> |remoteUsers| > 0)
  {
    assert |"k8s"| == |"rdp"| == |"vnc"| == 3 && "k8s"[0] != "rdp"[0] && "k8s"[0] != "vnc"[0];
  }

  /** An edit changes what it names, and with a caller who made it and when; never whose grant it
      is, or where. */
  lemma EditChangesWhatItNames(p: Permission, accessType: Option<string>, remoteUsers: Option<seq<string>>,
                               expiry: Option<Option<Time>>, adminID: string, now: Time)
    ensures var q := Edited(p, accessType, remoteUsers, expiry, adminID, now);
            && q.id == p.id && q.userID == p.userID && q.machineID == p.machineID
            && q.accessType in {p.accessType, if accessType.Some? then accessType.value else p.accessType}
            && (q.accessType == "" ==> p.accessType == "")
            && (accessType.Some? && accessType.value != "" ==> q.accessType == accessType.value)
            && (remoteUsers.None? ==> q.remoteUsers == p.remoteUsers)
            && (remoteUsers.Some? ==> Some(q.remoteUsers) == remoteUsers)
            && (expiry.None? ==> q.expiresAt == p.expiresAt) && (expiry.Some? ==> Some(q.expiresAt) == expiry)
            && (adminID == "" ==> q.grantedBy == p.grantedBy && q.grantedAt == p.grantedAt)
            && (adminID != "" ==> q.grantedBy == adminID && q.grantedAt == now)
  {}

  /** The service and the admin handler over one store.  `now` is the instant stamped on a
      row, `at` the instant at which the store takes it. */
  class AuthService {
    var store: Store

    constructor ()
      ensures store == EmptyStore
    {
      store := EmptyStore;
    }

    /** The newest unexpired grant of the trio. */
    method FindActivePermission(userID: string, machineID: string, accessType: string, now: Time)
      returns (found: Option<Version>)
      ensures found.None? ==>
                forall id | id in store.permissions ::
                  !Matches(store.permissions[id], userID, machineID, accessType, now)
      ensures found.Some? ==>
                && found.value in store.permissions.Values
                && Matches(found.value, userID, machineID, accessType, now)
                && forall id | id in store.permissions ::
                     Matches(store.permissions[id], userID, machineID, accessType, now) ==>
                     store.permissions[id].p.grantedAt <= found.value.p.grantedAt
    {
      found := None;
      var rest := store.permissions.Keys;
      while rest != {}
        invariant rest <= store.permissions.Keys
        invariant found.None? ==>
                    forall id | id in store.permissions.Keys - rest ::
                      !Matches(store.permissions[id], userID, machineID, accessType, now)
        invariant found.Some? ==>
                    && found.value in store.permissions.Values
                    && Matches(found.value, userID, machineID, accessType, now)
                    && forall id | id in store.permissions.Keys - rest ::
                         Matches(store.permissions[id], userID, machineID, accessType, now) ==>
                         store.permissions[id].p.grantedAt <= found.value.p.grantedAt
      {
        var id :| id in rest;
        var v := store.permissions[id];
        if Matches(v, userID, machineID, accessType, now) &&
           (found.None? || found.value.p.grantedAt < v.p.grantedAt) {
          found := Some(v);
        }
        rest := rest - {id};
      }
    }

    /** Upsert: replace an active grant of the trio, or insert a new one under `freshID`. */
    method GrantPermission(userID: string, machineID: string, accessType: string, remoteUsers: seq<string>,
                           grantedBy: string, duration: Option<int>, freshID: Id, now: Time, at: Time)
      returns (w: Write)
      requires freshID !in store.permissions
      requires forall id | id in store.permissions :: store.permissions[id].p.id == id
      modifies this
      ensures store == Apply(old(store), w) && w.at == at
      ensures Upserts(old(store), userID, machineID, accessType, remoteUsers, grantedBy, duration, now, w)
      ensures w.Create? ==> w.p.id == freshID
    {
      var expiresAt := if duration.Some? then Some(now + duration.value) else None;
      var existing := FindActivePermission(userID, machineID, accessType, now);
      if existing.Some? {
        var p := existing.value.p.(remoteUsers := remoteUsers, expiresAt := expiresAt, grantedBy := grantedBy,
                                   grantedAt := now);
        w := Update(p, at);
      } else {
        w := Create(Permission(freshID, userID, machineID, accessType, remoteUsers, grantedBy, now, expiresAt), at);
      }
      store := Apply(store, w);
    }

    /** False when there is no such grant; nothing changes then. */
    method RevokePermission(id: Id, at: Time) returns (ok: bool)
      modifies this
      ensures ok == (id in old(store).permissions)
      ensures store == if ok then Apply(old(store), Delete(id, at)) else old(store)
    {
      if id !in store.permissions {
        return false;
      }
      store := Apply(store, Delete(id, at));
      ok := true;
    }

    /** The admin handler.  `expiry` is the outer option: absent means unchanged, Some(None)
        means permanent.  Without a caller id the row keeps its grantor and its stamp. */
    method UpdatePermission(id: Id, accessType: Option<string>, remoteUsers: Option<seq<string>>,
                            expiry: Option<Option<Time>>, adminID: string, scopesOk: bool, now: Time, at: Time)
      returns (ok: bool)
      requires id in store.permissions ==> store.permissions[id].p.id == id
      modifies this
      ensures ok <==>
                id in old(store).permissions &&
                var p := Edited(old(store).permissions[id].p, accessType, remoteUsers, expiry, adminID, now);
                TargetsOk(p.accessType, p.remoteUsers, scopesOk)
      ensures store ==
              if ok
              then var p := Edited(old(store).permissions[id].p, accessType, remoteUsers, expiry, adminID, now);
                   Apply(old(store), Update(p, at))
              else old(store)
    {
      if id !in store.permissions {
        return false;
      }
      var p := store.permissions[id].p;
      if accessType.Some? && accessType.value != "" {
        p := p.(accessType := accessType.value);
      }
      if remoteUsers.Some? {
        p := p.(remoteUsers := remoteUsers.value);
      }
      if expiry.Some? {
        p := p.(expiresAt := expiry.value);
      }
      if !TargetsOk(p.accessType, p.remoteUsers, scopesOk) {
        return false;
      }
      if adminID != "" {
        p := p.(grantedBy := adminID, grantedAt := now);
      }
      store := Apply(store, Update(p, at));
      ok := true;
    }
  }
}

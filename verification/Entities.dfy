/** Rows of the broker's database, and the queries the services run on them. */
module Entities {
  datatype Option<+T> = None | Some(value: T)

  /** A row's UUID. Identifiers are handed out in increasing order and never reused. */
  type Id = nat

  datatype PoolType = Persistent | NonPersistent

  datatype PoolStatus =
    | PoolActive | PoolDisabled | PoolProvisioning | PoolError | PoolDraining | PoolDeleting

  datatype DesktopStatus =
    | Provisioning | Available | Assigned | Connected | Disconnected | Error | Deleting | Maintenance

  /** `assignment_type`: a floating assignment lasts for one session, a dedicated one outlives it. */
  datatype Assignment = Floating | Dedicated

  datatype TaskKind = ProvisionTask | DestroyTask | RebuildTask | StartTask | ShutdownTask | StopTask

  datatype Power = Running | Stopped

  datatype SessionStatus = SessionConnecting | SessionActive | SessionDisconnected | SessionEnded

  datatype Principal = UserPrincipal(name: string) | GroupPrincipal(name: string)

  datatype Entitlement = Entitlement(pool: Id, principal: Principal)

  datatype Pool = Pool(
    name: string, kind: PoolType, status: PoolStatus, minSpare: int, maxSize: int,
    lo: int, hi: int, deleteOnLogoff: bool, refreshOnLogoff: bool)

  datatype Desktop = Desktop(
    pool: Id, vmid: int, status: DesktopStatus, user: Option<string>, assignment: Option<Assignment>,
    power: Power, upid: Option<string>, task: Option<TaskKind>)

  datatype Session = Session(desktop: Option<Id>, user: string, status: SessionStatus, ticket: Option<string>)

  datatype Db = Db(
    pools: map<Id, Pool>, desktops: map<Id, Desktop>, sessions: map<Id, Session>,
    entitlements: set<Entitlement>, nextId: Id)

  const EMPTY_DB := Db(map[], map[], map[], {}, 0)

  predicate Live(s: Session) {
    s.status != SessionEnded
  }

  /** The statuses the admin guards count as an active session. */
  predicate Guarded(s: Session) {
    s.status == SessionConnecting || s.status == SessionActive
  }

  function LiveOn(db: Db, d: Id): set<Id> {
    set s | s in db.sessions && db.sessions[s].desktop == Some(d) && Live(db.sessions[s])
  }

  function GuardedOn(db: Db, d: Id): set<Id> {
    set s | s in db.sessions && db.sessions[s].desktop == Some(d) && Guarded(db.sessions[s])
  }

  function RowsOf(db: Db, p: Id): set<Id> {
    set d | d in db.desktops && db.desktops[d].pool == p
  }

  function LiveOf(db: Db, p: Id): set<Id> {
    set s | s in db.sessions && Live(db.sessions[s]) && db.sessions[s].desktop.Some?
            && db.sessions[s].desktop.value in RowsOf(db, p)
  }

  function GuardedOf(db: Db, p: Id): set<Id> {
    set s | s in db.sessions && Guarded(db.sessions[s]) && db.sessions[s].desktop.Some?
            && db.sessions[s].desktop.value in RowsOf(db, p)
  }

  function RowsWithStatus(db: Db, p: Id, status: DesktopStatus): set<Id> {
    set d | d in db.desktops && db.desktops[d].pool == p && db.desktops[d].status == status
  }

  /** The columns in which `row` differs from what was read, written over the row as it is now. */
  function Merged(now: Desktop, read: Desktop, row: Desktop): Desktop {
    Desktop(if row.pool != read.pool then row.pool else now.pool,
            if row.vmid != read.vmid then row.vmid else now.vmid,
            if row.status != read.status then row.status else now.status,
            if row.user != read.user then row.user else now.user,
            if row.assignment != read.assignment then row.assignment else now.assignment,
            if row.power != read.power then row.power else now.power,
            if row.upid != read.upid then row.upid else now.upid,
            if row.task != read.task then row.task else now.task)
  }

  /** A row read earlier is written; if it is gone by now, nothing is. */
  function Late(db: Db, d: Id, read: Desktop, row: Desktop): Db {
    if d in db.desktops then db.(desktops := db.desktops[d := Merged(db.desktops[d], read, row)]) else db
  }

  function MovePool(db: Db, p: Id, status: PoolStatus): Db {
    if p in db.pools then db.(pools := db.pools[p := db.pools[p].(status := status)]) else db
  }

  /** Rows a persistent pool keeps for `user`; `connect` passes over rows being deleted. */
  function DedicatedRows(db: Db, p: Id, user: string): set<Id> {
    set d | d in db.desktops && db.desktops[d].pool == p && db.desktops[d].user == Some(user)
            && db.desktops[d].status != Deleting
  }

  /** The other rows of the pool of `d` that are the user's. */
  function OtherRows(db: Db, d: Id, user: string): set<Id>
    requires d in db.desktops
  {
    set e | e in db.desktops && e != d && db.desktops[e].pool == db.desktops[d].pool
            && db.desktops[e].user == Some(user)
  }

  predicate Entitled(db: Db, p: Id, user: string, groups: seq<string>) {
    || Entitlement(p, UserPrincipal(user)) in db.entitlements
    || exists g | g in groups :: Entitlement(p, GroupPrincipal(g)) in db.entitlements
  }

  /** VMIDs of the pool's rows that lie in the pool's range. */
  function UsedVmids(db: Db, p: Id): set<int>
    requires p in db.pools
  {
    set d | d in RowsOf(db, p) && db.pools[p].lo <= db.desktops[d].vmid <= db.pools[p].hi :: db.desktops[d].vmid
  }

  /** Least VMID of `lo..hi` outside `used`. */
  function LowestFree(used: set<int>, lo: int, hi: int): (r: Option<int>)
    ensures r.Some? ==> lo <= r.value <= hi && r.value !in used && forall v | lo <= v < r.value :: v in used
    ensures r.None? ==> forall v | lo <= v <= hi :: v in used
    decreases hi - lo
  {
    if lo > hi then None
    else if lo !in used then Some(lo)
    else LowestFree(used, lo + 1, hi)
  }

  /** Order of `ORDER BY pve_vmid`; VMIDs are unique, so the second key never decides. */
  predicate Before(db: Db, d: Id, e: Id)
    requires d in db.desktops && e in db.desktops
  {
    db.desktops[d].vmid < db.desktops[e].vmid || (db.desktops[d].vmid == db.desktops[e].vmid && d <= e)
  }

  lemma {:induction false} FirstExists(db: Db, rows: set<Id>) returns (d: Id)
    requires rows != {} && rows <= db.desktops.Keys
    ensures d in rows && forall e | e in rows :: Before(db, d, e)
    decreases |rows|
  {
    var x :| x in rows;
    var rest := rows - {x};
    if rest == {} {
      d := x;
      assert rows == {x};
    } else {
      var y := FirstExists(db, rest);
      d := if Before(db, x, y) then x else y;
      forall e | e in rows
        ensures Before(db, d, e)
      {
        assert e == x || e in rest;
      }
    }
  }

  /** The first row of a result set by VMID. */
  function First(db: Db, rows: set<Id>): (d: Id)
    requires rows != {} && rows <= db.desktops.Keys
    ensures d in rows && forall e | e in rows :: Before(db, d, e)
  {
    assert exists d :: d in rows && forall e | e in rows :: Before(db, d, e) by {
      var d := FirstExists(db, rows);
    }
    var d :| d in rows && forall e | e in rows :: Before(db, d, e);
    d
  }

  lemma {:induction false} GreatestExists(ids: set<Id>) returns (i: Id)
    requires ids != {}
    ensures i in ids && forall j | j in ids :: j <= i
    decreases |ids|
  {
    var x :| x in ids;
    var rest := ids - {x};
    if rest == {} {
      i := x;
      assert ids == {x};
    } else {
      var y := GreatestExists(rest);
      i := if x > y then x else y;
      forall j | j in ids
        ensures j <= i
      {
        assert j == x || j in rest;
      }
    }
  }

  /** The session `_latest_active_session` selects: identifiers grow with creation time. */
  function Latest(ids: set<Id>): (i: Id)
    requires ids != {}
    ensures i in ids && forall j | j in ids :: j <= i
  {
    assert exists i :: i in ids && forall j | j in ids :: j <= i by {
      var i := GreatestExists(ids);
    }
    var i :| i in ids && forall j | j in ids :: j <= i;
    i
  }
}

/** The inductive invariant of the lifecycle machine. */
module Invariant {
  import opened Entities
  import opened Lifecycle

  /** Two pools share no VMID and no name. */
  predicate Apart(p: Pool, q: Pool) {
    (p.hi < q.lo || q.hi < p.lo) && p.name != q.name
  }

  predicate PoolOk(p: Pool) {
    p.lo < p.hi && p.maxSize <= p.hi - p.lo + 1 && p.status in {PoolActive, PoolDraining, PoolDeleting}
  }

  ghost predicate PoolsOk(db: Db) {
    && (forall p | p in db.pools :: p < db.nextId && PoolOk(db.pools[p]))
    && (forall p, q {:trigger Apart(db.pools[p], db.pools[q])} | p in db.pools && q in db.pools && p != q ::
          Apart(db.pools[p], db.pools[q]))
  }

  /** A task that will remove the row, or build a new VM under it, is in flight. */
  predicate Doomed(row: Desktop) {
    row.task == Some(DestroyTask) || row.task == Some(RebuildTask)
  }

  /** What a row guarantees by itself. */
  predicate RowOk(db: Db, row: Desktop) {
    && row.pool in db.pools
    && db.pools[row.pool].lo <= row.vmid <= db.pools[row.pool].hi
    && (row.user.None? <==> row.assignment.None?)
    && (row.assignment.Some? ==> (row.assignment.value == Dedicated <==> db.pools[row.pool].kind == Persistent))
    && (row.status == Available ==> row.user.None?)
    && (row.task.Some? ==> row.upid.Some?)
    && row.task != Some(ProvisionTask)
    && (Doomed(row) ==> row.status == Deleting || db.pools[row.pool].status == PoolDeleting)
  }

  /** What a row guarantees to a live session of `user`. */
  predicate Hosts(db: Db, row: Desktop, user: string)
    requires row.pool in db.pools
  {
    && row.user == Some(user) && row.status != Available && row.status != Deleting && !Doomed(row)
    && db.pools[row.pool].status != PoolDeleting
  }

  predicate Distinct(row: Desktop, other: Desktop) {
    row.vmid != other.vmid
  }

  ghost predicate RowsOk(db: Db) {
    && (forall d | d in db.desktops :: d < db.nextId && RowOk(db, db.desktops[d]))
    && (forall d, e {:trigger Distinct(db.desktops[d], db.desktops[e])} |
          d in db.desktops && e in db.desktops && d != e :: Distinct(db.desktops[d], db.desktops[e]))
  }

  predicate SessionOk(db: Db, s: Session) {
    && s.status in {SessionActive, SessionEnded}
    && (s.ticket.Some? <==> s.status in {SessionActive, SessionDisconnected})
    && (s.desktop.Some? ==> s.desktop.value in db.desktops)
    && (Live(s) ==>
          && s.desktop.Some?
          && db.desktops[s.desktop.value].pool in db.pools
          && Hosts(db, db.desktops[s.desktop.value], s.user))
  }

  ghost predicate SessionsOk(db: Db) {
    forall s | s in db.sessions :: s < db.nextId && SessionOk(db, db.sessions[s])
  }

  /** Two live sessions share a desktop of a non-persistent pool. */
  predicate Clash(db: Db, s: Id, t: Id)
    requires s in db.sessions && t in db.sessions
  {
    && Live(db.sessions[s]) && Live(db.sessions[t])
    && db.sessions[s].desktop.Some? && db.sessions[s].desktop == db.sessions[t].desktop
    && var d := db.sessions[s].desktop.value;
       d in db.desktops && db.desktops[d].pool in db.pools && db.pools[db.desktops[d].pool].kind == NonPersistent
  }

  ghost predicate Exclusive(db: Db) {
    forall s, t {:trigger Clash(db, s, t)} | s in db.sessions && t in db.sessions && s != t :: !Clash(db, s, t)
  }

  ghost predicate Inv(db: Db) {
    PoolsOk(db) && RowsOk(db) && SessionsOk(db) && Exclusive(db)
  }

  // ── Writes that keep it ───────────────────────────────────────────

  /** Overwriting rows in place, none moving to another pool or VMID. */
  lemma WriteRows(db: Db, rows: map<Id, Desktop>)
    requires Inv(db)
    requires rows.Keys == db.desktops.Keys
    requires forall d | d in rows ::
               && rows[d].pool == db.desktops[d].pool && rows[d].vmid == db.desktops[d].vmid && RowOk(db, rows[d])
    requires forall s | s in db.sessions && Live(db.sessions[s]) ::
               Hosts(db, rows[db.sessions[s].desktop.value], db.sessions[s].user)
    ensures Inv(db.(desktops := rows))
  {
    var db' := db.(desktops := rows);
    forall d, e | d in rows && e in rows && d != e
      ensures Distinct(rows[d], rows[e])
    {
      assert Distinct(db.desktops[d], db.desktops[e]);
    }
    forall s, t | s in db'.sessions && t in db'.sessions && s != t
      ensures !Clash(db', s, t)
    {
      assert !Clash(db, s, t);
    }
  }

  lemma WriteRow(db: Db, d: Id, row: Desktop)
    requires Inv(db) && d in db.desktops
    requires row.pool == db.desktops[d].pool && row.vmid == db.desktops[d].vmid && RowOk(db, row)
    requires forall s | s in LiveOn(db, d) :: Hosts(db, row, db.sessions[s].user)
    ensures Inv(db.(desktops := db.desktops[d := row]))
  {
    var rows := db.desktops[d := row];
    forall s | s in db.sessions && Live(db.sessions[s])
      ensures Hosts(db, rows[db.sessions[s].desktop.value], db.sessions[s].user)
    {
      if db.sessions[s].desktop == Some(d) {
        assert s in LiveOn(db, d);
      }
    }
    WriteRows(db, rows);
  }

  lemma InsertRow(db: Db, row: Desktop)
    requires Inv(db) && RowOk(db, row)
    requires forall d | d in db.desktops :: db.desktops[d].vmid != row.vmid
    ensures Inv(db.(desktops := db.desktops[db.nextId := row], nextId := db.nextId + 1))
  {
    var db' := db.(desktops := db.desktops[db.nextId := row], nextId := db.nextId + 1);
    assert RowsOk(db') by {
      forall d | d in db'.desktops
        ensures d < db'.nextId && RowOk(db', db'.desktops[d])
      {
        assert RowOk(db, db'.desktops[d]);
      }
    }
    forall s | s in db'.sessions
      ensures s < db'.nextId && SessionOk(db', db'.sessions[s])
    {
      assert SessionOk(db, db.sessions[s]);
    }
    forall s, t | s in db'.sessions && t in db'.sessions && s != t
      ensures !Clash(db', s, t)
    {
      assert !Clash(db, s, t);
    }
  }

  lemma DropRows(db: Db, ds: set<Id>)
    requires Inv(db)
    requires forall s | s in db.sessions && Live(db.sessions[s]) :: db.sessions[s].desktop.value !in ds
    ensures Inv(RemoveRows(db, ds))
  {
    var db' := RemoveRows(db, ds);
    assert RowsOk(db') by {
      assert forall d | d in db'.desktops :: RowOk(db, db'.desktops[d]);
    }
    assert SessionsOk(db') by {
      forall s | s in db'.sessions
        ensures s < db'.nextId && SessionOk(db', db'.sessions[s])
      {
        assert SessionOk(db, db.sessions[s]);
      }
    }
    assert Exclusive(db') by {
      forall s, t | s in db'.sessions && t in db'.sessions && s != t
        ensures !Clash(db', s, t)
      {
        assert !Clash(db, s, t);
      }
    }
  }

  lemma MarkEnded(db: Db, s: Id)
    requires Inv(db) && s in db.sessions && ToEnded(db.sessions[s]).Some?
    ensures Inv(db.(sessions := db.sessions[s := ToEnded(db.sessions[s]).value]))
  {
    var db' := db.(sessions := db.sessions[s := ToEnded(db.sessions[s]).value]);
    forall t, u | t in db'.sessions && u in db'.sessions && t != u
      ensures !Clash(db', t, u)
    {
      assert !Clash(db, t, u);
    }
  }

  // ── Every step keeps it ───────────────────────────────────────────

  lemma EndSessionKeeps(db: Db, s: Id)
    requires Inv(db)
    ensures Inv(EndSession(db, s).0)
  {
    if EndSession(db, s).1 == Done {
      var d := db.sessions[s].desktop.value;
      var db1 := db.(sessions := db.sessions[s := ToEnded(db.sessions[s]).value]);
      MarkEnded(db, s);
      forall t | t in LiveOn(db1, d)
        ensures Hosts(db1, Vacated(db.desktops[d]), db1.sessions[t].user)
      {
        assert !Clash(db, s, t);
      }
      WriteRow(db1, d, Vacated(db.desktops[d]));
    }
  }

  /** In a run's states a live session can always be ended: its desktop row is there. */
  lemma EndSessionTotal(db: Db, s: Id)
    requires Inv(db) && s in db.sessions && Live(db.sessions[s])
    ensures EndSession(db, s).1 == Done
  {
  }

  /** No row of another pool has a VMID of this pool's range, so a VMID free in the pool is free everywhere. */
  lemma FreeIsFresh(db: Db, p: Id, v: int)
    requires Inv(db) && p in db.pools
    requires db.pools[p].lo <= v <= db.pools[p].hi && v !in UsedVmids(db, p)
    ensures forall d | d in db.desktops :: db.desktops[d].vmid != v
  {
    forall d | d in db.desktops
      ensures db.desktops[d].vmid != v
    {
      if db.desktops[d].pool != p {
        assert Apart(db.pools[db.desktops[d].pool], db.pools[p]);
      } else {
        assert d in RowsOf(db, p);
      }
    }
  }

  /** A new row in the lowest free VMID of its pool. */
  lemma NewRowKeeps(db: Db, p: Id, row: Desktop)
    requires Inv(db) && p in db.pools && row.pool == p && RowOk(db, row)
    requires LowestFree(UsedVmids(db, p), db.pools[p].lo, db.pools[p].hi) == Some(row.vmid)
    ensures Inv(db.(desktops := db.desktops[db.nextId := row], nextId := db.nextId + 1))
  {
    FreeIsFresh(db, p, row.vmid);
    InsertRow(db, row);
  }

  lemma ProvisionKeeps(db: Db, p: Id, user: Option<string>, build: Build)
    requires Inv(db) && p in db.pools
    requires user.Some? ==> db.pools[p].kind == Persistent
    ensures Inv(Provision(db, p, user, build).0)
  {
    var pool := db.pools[p];
    var free := LowestFree(UsedVmids(db, p), pool.lo, pool.hi);
    if pool.status == PoolActive && free.Some? {
      var row := BuiltRow(pool, p, free.value, user, build);
      NewRowKeeps(db, p, row);
      assert Provision(db, p, user, build).0
          == db.(desktops := db.desktops[db.nextId := row], nextId := db.nextId + 1);
    }
  }

  lemma AddSession(db: Db, d: Id, user: string, ticket: string)
    requires Inv(db) && d in db.desktops && Hosts(db, db.desktops[d], user)
    requires db.pools[db.desktops[d].pool].kind == NonPersistent ==> LiveOn(db, d) == {}
    ensures Inv(db.(sessions := db.sessions[db.nextId := Session(Some(d), user, SessionActive, Some(ticket))],
                    nextId := db.nextId + 1))
  {
    var db' := db.(sessions := db.sessions[db.nextId := Session(Some(d), user, SessionActive, Some(ticket))],
                   nextId := db.nextId + 1);
    forall s, t | s in db'.sessions && t in db'.sessions && s != t
      ensures !Clash(db', s, t)
    {
      if s == db.nextId {
        assert t in LiveOn(db, d) || !Clash(db', s, t);
      } else if t == db.nextId {
        assert s in LiveOn(db, d) || !Clash(db', s, t);
      } else {
        assert !Clash(db, s, t);
      }
    }
  }

  /** The two writes of a connect's commit: the desktop row, then its new session. */
  lemma Attach(db: Db, d: Id, row: Desktop, user: string, ticket: string)
    requires Inv(db) && d in db.desktops
    requires row.pool == db.desktops[d].pool && row.vmid == db.desktops[d].vmid && RowOk(db, row)
    requires Hosts(db, row, user)
    requires forall s | s in LiveOn(db, d) :: db.sessions[s].user == user
    requires db.pools[row.pool].kind == NonPersistent ==> LiveOn(db, d) == {}
    ensures Inv(db.(desktops := db.desktops[d := row],
                    sessions := db.sessions[db.nextId := Session(Some(d), user, SessionActive, Some(ticket))],
                    nextId := db.nextId + 1))
  {
    var db1 := db.(desktops := db.desktops[d := row]);
    assert Inv(db1) by {
      WriteRow(db, d, row);
    }
    assert LiveOn(db1, d) == LiveOn(db, d);
    AddSession(db1, d, user, ticket);
    assert db1.(sessions := db1.sessions[db1.nextId := Session(Some(d), user, SessionActive, Some(ticket))],
                nextId := db1.nextId + 1)
        == db.(desktops := db.desktops[d := row],
               sessions := db.sessions[db.nextId := Session(Some(d), user, SessionActive, Some(ticket))],
               nextId := db.nextId + 1);
  }

  /** A dedicated row `connect` would use is not about to disappear, as long as its pool is active. */
  lemma ConnectToKeeps(db: Db, d: Id, user: string, env: ConnectEnv)
    requires Inv(db) && d in db.desktops
    requires db.desktops[d].user == Some(user) && db.desktops[d].status != Deleting
    requires db.pools[db.desktops[d].pool].status == PoolActive
    requires db.pools[db.desktops[d].pool].kind == Persistent
    ensures Inv(ConnectTo(db, d, user, env).0)
  {
    if env.ticket.Some? {
      assert RowOk(db, db.desktops[d]);
      forall s | s in LiveOn(db, d)
        ensures db.sessions[s].user == user
      {
        assert SessionOk(db, db.sessions[s]);
      }
      var row := db.desktops[d].(status := Connected, power := Running);
      Attach(db, d, row, user, env.ticket.value);
      assert ConnectTo(db, d, user, env).0
          == db.(desktops := db.desktops[d := row],
                 sessions := db.sessions[db.nextId := Session(Some(d), user, SessionActive, env.ticket)],
                 nextId := db.nextId + 1);
    }
  }

  lemma ConnectPersistentKeeps(db: Db, user: string, groups: seq<string>, p: Id, env: ConnectEnv)
    requires Inv(db) && p in db.pools && db.pools[p].kind == Persistent
    ensures Inv(Connect(db, user, groups, p, env).0)
  {
    var rows := DedicatedRows(db, p, user);
    if db.pools[p].status == PoolActive && Entitled(db, p, user, groups) && env.hasProvider && |rows| <= 1 {
      if rows != {} {
        ConnectToKeeps(db, First(db, rows), user, env);
      } else {
        ProvisionKeeps(db, p, Some(user), env.build);
        var (db1, reply) := Provision(db, p, Some(user), env.build);
        if reply == Done {
          ConnectToKeeps(db1, db.nextId, user, env);
        }
      }
    }
  }

  lemma SpareIsIdle(db: Db, d: Id)
    requires Inv(db) && d in db.desktops && db.desktops[d].status == Available
    ensures LiveOn(db, d) == {} && db.desktops[d].user == None
  {
    assert RowOk(db, db.desktops[d]);
    forall s | s in db.sessions
      ensures s !in LiveOn(db, d)
    {
      assert SessionOk(db, db.sessions[s]);
    }
  }

  lemma ClaimKeeps(db: Db, d: Id, user: string, ticket: string)
    requires Inv(db) && d in db.desktops && db.desktops[d].status == Available
    requires db.pools[db.desktops[d].pool].kind == NonPersistent
    requires db.pools[db.desktops[d].pool].status != PoolDeleting
    ensures var claimed := db.desktops[d].(user := Some(user), assignment := Some(Floating));
            Inv(OpenSession(db.(desktops := db.desktops[d := claimed]), d, user, ticket).0)
  {
    var claimed := db.desktops[d].(user := Some(user), assignment := Some(Floating));
    var connected := claimed.(status := Connected, power := Running);
    SpareIsIdle(db, d);
    assert RowOk(db, connected) && !Doomed(connected) by {
      assert RowOk(db, db.desktops[d]);
    }
    Attach(db, d, connected, user, ticket);
    assert db.desktops[d := claimed][d := connected] == db.desktops[d := connected];
    assert OpenSession(db.(desktops := db.desktops[d := claimed]), d, user, ticket).0
        == db.(desktops := db.desktops[d := connected],
               sessions := db.sessions[db.nextId := Session(Some(d), user, SessionActive, Some(ticket))],
               nextId := db.nextId + 1);
  }

  lemma ConnectFloatingKeeps(db: Db, user: string, groups: seq<string>, p: Id, env: ConnectEnv)
    requires Inv(db) && p in db.pools && db.pools[p].kind == NonPersistent
    ensures Inv(Connect(db, user, groups, p, env).0)
  {
    var spares := RowsWithStatus(db, p, Available);
    if db.pools[p].status == PoolActive && Entitled(db, p, user, groups) && env.hasProvider
       && spares != {} && env.ticket.Some?
    {
      ClaimKeeps(db, First(db, spares), user, env.ticket.value);
    }
  }

  lemma ConnectKeeps(db: Db, user: string, groups: seq<string>, p: Id, env: ConnectEnv)
    requires Inv(db)
    ensures Inv(Connect(db, user, groups, p, env).0)
  {
    if p in db.pools {
      if db.pools[p].kind == Persistent {
        ConnectPersistentKeeps(db, user, groups, p, env);
      } else {
        ConnectFloatingKeeps(db, user, groups, p, env);
      }
    }
  }

  lemma AssignKeeps(db: Db, d: Id, user: string)
    requires Inv(db)
    ensures Inv(Assign(db, d, user).0)
  {
    var (db', reply) := Assign(db, d, user);
    if reply == Done {
      WriteRow(db, d, db'.desktops[d]);
    }
  }

  /** The guard counts every live session there can be: none of a run's sessions is disconnected. */
  lemma GuardIsExact(db: Db, d: Id)
    requires Inv(db)
    ensures GuardedOn(db, d) == LiveOn(db, d)
  {
    forall s | s in db.sessions
      ensures Guarded(db.sessions[s]) <==> Live(db.sessions[s])
    {
      assert SessionOk(db, db.sessions[s]);
    }
  }

  lemma UnassignKeeps(db: Db, d: Id)
    requires Inv(db)
    ensures Inv(Unassign(db, d).0)
  {
    var (db', reply) := Unassign(db, d);
    if reply == Done {
      GuardIsExact(db, d);
      WriteRow(db, d, db'.desktops[d]);
    }
  }

  lemma PowerKeeps(db: Db, d: Id, action: PowerAction, hasProvider: bool, upid: Option<string>)
    requires Inv(db)
    ensures Inv(PowerTask(db, d, action, hasProvider, upid).0)
  {
    var (db', reply) := PowerTask(db, d, action, hasProvider, upid);
    if reply == Done {
      WriteRow(db, d, db'.desktops[d]);
    }
  }

  lemma DoomKeeps(db: Db, d: Id, kind: TaskKind, hasProvider: bool, upid: Option<string>)
    requires Inv(db) && kind in {DestroyTask, RebuildTask}
    ensures Inv(Doom(db, d, kind, hasProvider, upid).0)
  {
    var (db', reply) := Doom(db, d, kind, hasProvider, upid);
    if reply == Done {
      GuardIsExact(db, d);
      WriteRow(db, d, db'.desktops[d]);
    }
  }

  /** The rebuilt row is a row of the same VMID; no live session was on the one it replaces. */
  lemma TaskSuccessKeeps(db: Db, d: Id, kind: TaskKind, build: Build)
    requires Inv(db) && d in db.desktops && db.desktops[d].task == Some(kind)
    ensures Inv(TaskSuccess(db, d, kind, build))
  {
    var row := db.desktops[d];
    assert RowOk(db, row);
    assert Doomed(row) ==> LiveOn(db, d) == {} by {
      forall s | s in db.sessions && Doomed(row)
        ensures s !in LiveOn(db, d)
      {
        assert SessionOk(db, db.sessions[s]);
      }
    }
    if kind == DestroyTask {
      forall s | s in db.sessions && Live(db.sessions[s])
        ensures db.sessions[s].desktop.value !in {d}
      {
        assert s !in LiveOn(db, d);
      }
      DropRows(db, {d});
    } else {
      var row' := TaskSuccess(db, d, kind, build).desktops[d];
      WriteRow(db, d, row');
      assert TaskSuccess(db, d, kind, build) == db.(desktops := db.desktops[d := row']);
    }
  }

  lemma TaskErrorKeeps(db: Db, d: Id)
    requires Inv(db) && d in db.desktops
    ensures Inv(db.(desktops := db.desktops[d := TaskError(db.desktops[d])]))
  {
    assert RowOk(db, db.desktops[d]);
    WriteRow(db, d, TaskError(db.desktops[d]));
  }

  lemma PollKeeps(db: Db, d: Id, poll: Poll, build: Build)
    requires Inv(db)
    ensures Inv(PollTask(db, d, poll, build))
  {
    if d in db.desktops {
      assert RowOk(db, db.desktops[d]);
      TaskErrorKeeps(db, d);
      if db.desktops[d].task.Some? {
        TaskSuccessKeeps(db, d, db.desktops[d].task.value, build);
      }
    }
  }

  lemma VmDownKeeps(db: Db, d: Id)
    requires Inv(db)
    ensures Inv(VmDown(db, d))
  {
    if LiveOn(db, d) != {} {
      EndSessionKeeps(db, Latest(LiveOn(db, d)));
    }
  }

  lemma RefreshKeeps(db: Db, d: Id, outcome: CycleOutcome)
    requires Inv(db) && LiveOn(db, d) == {}
    ensures Inv(Refresh(db, d, outcome).0)
  {
    if Refresh(db, d, outcome).1 !in {NotFound, InvalidState} {
      assert RowOk(db, db.desktops[d]);
      WriteRow(db, d, Refresh(db, d, outcome).0.desktops[d]);
    }
  }

  lemma DeleteOnLogoffKeeps(db: Db, d: Id, outcome: CycleOutcome)
    requires Inv(db) && LiveOn(db, d) == {}
    ensures Inv(DeleteOnLogoff(db, d, outcome).0)
  {
    var reply := DeleteOnLogoff(db, d, outcome).1;
    if reply == Done {
      forall s | s in db.sessions && Live(db.sessions[s])
        ensures db.sessions[s].desktop.value !in {d}
      {
        assert s !in LiveOn(db, d);
      }
      DropRows(db, {d});
    } else if reply == ProviderFailed {
      WriteRow(db, d, TaskError(db.desktops[d]));
    }
  }

  /** On a non-persistent desktop the session that ends was the only live one. */
  lemma EndEmpties(db: Db, d: Id, s: Id)
    requires Inv(db) && d in db.desktops && s in LiveOn(db, d)
    requires db.pools[db.desktops[d].pool].kind == NonPersistent
    ensures LiveOn(EndSession(db, s).0, d) == {}
  {
    var db' := EndSession(db, s).0;
    forall t | t in db'.sessions
      ensures t !in LiveOn(db', d)
    {
      assert t == s || !Clash(db, s, t);
    }
  }

  lemma RecycleKeeps(db: Db, d: Id, outcome: CycleOutcome)
    requires Inv(db) && d in db.desktops
    requires db.pools[db.desktops[d].pool].kind == NonPersistent ==> LiveOn(db, d) == {}
    ensures Inv(Recycle(db, d, outcome))
  {
    if db.pools[db.desktops[d].pool].kind == NonPersistent {
      RefreshKeeps(db, d, outcome);
      DeleteOnLogoffKeeps(db, d, outcome);
    }
  }

  lemma LogoffKeeps(db: Db, d: Id, outcome: CycleOutcome)
    requires Inv(db)
    ensures Inv(Logoff(db, d, outcome))
  {
    if Logoff(db, d, outcome) != db {
      var s := Latest(LiveOn(db, d));
      EndSessionKeeps(db, s);
      if db.pools[db.desktops[d].pool].kind == NonPersistent {
        EndEmpties(db, d, s);
      }
      RecycleKeeps(EndSession(db, s).0, d, outcome);
    }
  }

  lemma StuckSweepKeeps(db: Db, stale: set<Id>)
    requires Inv(db)
    ensures Inv(StuckSweep(db, stale))
  {
    var rows := StuckSweep(db, stale).desktops;
    forall d | d in rows
      ensures RowOk(db, rows[d])
    {
      assert RowOk(db, db.desktops[d]);
    }
    forall s | s in db.sessions && Live(db.sessions[s])
      ensures Hosts(db, rows[db.sessions[s].desktop.value], db.sessions[s].user)
    {
      assert SessionOk(db, db.sessions[s]);
    }
    WriteRows(db, rows);
  }

  /** Rows about to lose their VM are in `deleting` themselves, as outside a pool's deletion. */
  predicate DoomedRowsDelete(db: Db, p: Id) {
    forall d | d in RowsOf(db, p) && Doomed(db.desktops[d]) :: db.desktops[d].status == Deleting
  }

  predicate SameButLimits(pool: Pool, was: Pool) {
    pool.lo == was.lo && pool.hi == was.hi && pool.kind == was.kind && pool.name == was.name
  }

  lemma PoolWriteRows(db: Db, p: Id, pool: Pool)
    requires Inv(db) && p in db.pools && SameButLimits(pool, db.pools[p])
    requires db.pools[p].status == PoolDeleting && pool.status != PoolDeleting ==> DoomedRowsDelete(db, p)
    ensures RowsOk(db.(pools := db.pools[p := pool]))
  {
    var db' := db.(pools := db.pools[p := pool]);
    forall d | d in db'.desktops
      ensures d < db'.nextId && RowOk(db', db'.desktops[d])
    {
      assert RowOk(db, db.desktops[d]) && (db.desktops[d].pool == p ==> d in RowsOf(db, p));
    }
  }

  lemma PoolWriteSessions(db: Db, p: Id, pool: Pool)
    requires Inv(db) && p in db.pools && SameButLimits(pool, db.pools[p])
    requires pool.status == PoolDeleting && db.pools[p].status != PoolDeleting ==> LiveOf(db, p) == {}
    ensures SessionsOk(db.(pools := db.pools[p := pool]))
  {
    var db' := db.(pools := db.pools[p := pool]);
    forall s | s in db'.sessions
      ensures s < db'.nextId && SessionOk(db', db'.sessions[s])
    {
      assert SessionOk(db, db.sessions[s]);
      assert Live(db.sessions[s]) && db.desktops[db.sessions[s].desktop.value].pool == p ==> s in LiveOf(db, p);
    }
  }

  /** Rewriting a pool row that keeps its identity, and no live session when it becomes `deleting`. */
  lemma WritePool(db: Db, p: Id, pool: Pool)
    requires Inv(db) && p in db.pools && PoolOk(pool) && SameButLimits(pool, db.pools[p])
    requires db.pools[p].status == PoolDeleting && pool.status != PoolDeleting ==> DoomedRowsDelete(db, p)
    requires pool.status == PoolDeleting && db.pools[p].status != PoolDeleting ==> LiveOf(db, p) == {}
    ensures Inv(db.(pools := db.pools[p := pool]))
  {
    var db' := db.(pools := db.pools[p := pool]);
    forall q, r | q in db'.pools && r in db'.pools && q != r
      ensures Apart(db'.pools[q], db'.pools[r])
    {
      assert Apart(db.pools[q], db.pools[r]);
    }
    PoolWriteRows(db, p, pool);
    PoolWriteSessions(db, p, pool);
    forall s, t | s in db'.sessions && t in db'.sessions && s != t
      ensures !Clash(db', s, t)
    {
      assert !Clash(db, s, t);
    }
  }

  lemma UpdatePoolKeeps(db: Db, p: Id, patch: PoolPatch)
    requires Inv(db)
    ensures Inv(UpdatePool(db, p, patch).0)
  {
    if UpdatePool(db, p, patch).1 == Done {
      WritePool(db, p, Patched(db.pools[p], patch));
    }
  }

  lemma DrainKeeps(db: Db, p: Id)
    requires Inv(db)
    ensures Inv(Drain(db, p).0)
  {
    if p in db.pools && db.pools[p].status == PoolActive {
      WritePool(db, p, db.pools[p].(status := PoolDraining));
    }
  }

  lemma DeletePoolKeeps(db: Db, p: Id)
    requires Inv(db)
    ensures Inv(DeletePool(db, p).0)
  {
    if p in db.pools && db.pools[p].status != PoolDeleting && GuardedOf(db, p) == {} {
      forall s | s in db.sessions
        ensures s !in LiveOf(db, p)
      {
        assert SessionOk(db, db.sessions[s]) && s !in GuardedOf(db, p);
      }
      WritePool(db, p, db.pools[p].(status := PoolDeleting));
    }
  }

  lemma CreatePoolKeeps(db: Db, pool: Pool, live: set<int>)
    requires Inv(db)
    ensures Inv(CreatePool(db, pool, live).0)
  {
    if CreatePool(db, pool, live).1 == Done {
      var db' := CreatePool(db, pool, live).0;
      forall q, r | q in db'.pools && r in db'.pools && q != r
        ensures Apart(db'.pools[q], db'.pools[r])
      {
        if q == db.nextId {
          assert !Meets(db.pools[r], pool.lo, pool.hi);
        } else if r == db.nextId {
          assert !Meets(db.pools[q], pool.lo, pool.hi);
        }
      }
      forall d | d in db'.desktops
        ensures d < db'.nextId && RowOk(db', db'.desktops[d])
      {
        assert RowOk(db, db.desktops[d]);
      }
      forall s | s in db'.sessions
        ensures s < db'.nextId && SessionOk(db', db'.sessions[s])
      {
        assert SessionOk(db, db.sessions[s]);
      }
      forall s, t | s in db'.sessions && t in db'.sessions && s != t
        ensures !Clash(db', s, t)
      {
        assert !Clash(db, s, t);
      }
    }
  }

  lemma DropPool(db: Db, p: Id)
    requires Inv(db) && RowsOf(db, p) == {}
    ensures Inv(DropPoolRow(db, p))
  {
    var db' := DropPoolRow(db, p);
    forall d | d in db'.desktops
      ensures d < db'.nextId && RowOk(db', db'.desktops[d])
    {
      assert RowOk(db, db.desktops[d]) && d !in RowsOf(db, p);
    }
    forall s | s in db'.sessions
      ensures s < db'.nextId && SessionOk(db', db'.sessions[s])
    {
      assert SessionOk(db, db.sessions[s]);
      assert db.sessions[s].desktop.Some? ==> db.sessions[s].desktop.value !in RowsOf(db, p);
    }
    forall s, t | s in db'.sessions && t in db'.sessions && s != t
      ensures !Clash(db', s, t)
    {
      assert !Clash(db, s, t);
    }
  }

  lemma MarkRefusedKeeps(db: Db, p: Id, fates: map<Id, Fate>)
    requires Inv(db) && p in db.pools && db.pools[p].status == PoolDeleting
    ensures Inv(MarkRefused(db, RowsOf(db, p), fates))
  {
    var rows := MarkRefused(db, RowsOf(db, p), fates).desktops;
    forall d | d in rows
      ensures RowOk(db, rows[d])
    {
      assert RowOk(db, db.desktops[d]);
    }
    forall s | s in db.sessions && Live(db.sessions[s])
      ensures Hosts(db, rows[db.sessions[s].desktop.value], db.sessions[s].user)
    {
      assert SessionOk(db, db.sessions[s]);
    }
    WriteRows(db, rows);
  }

  /** A pool being deleted has no live session, so its rows may go. */
  lemma CascadeKeeps(db: Db, p: Id, hasProvider: bool, fates: map<Id, Fate>)
    requires Inv(db)
    ensures Inv(Cascade(db, p, hasProvider, fates))
  {
    if p in db.pools && db.pools[p].status == PoolDeleting && hasProvider {
      MarkRefusedKeeps(db, p, fates);
      var marked := MarkRefused(db, RowsOf(db, p), fates);
      var gone := RazedIn(RowsOf(db, p), fates);
      forall s | s in marked.sessions && Live(marked.sessions[s])
        ensures marked.sessions[s].desktop.value !in gone
      {
        assert SessionOk(db, db.sessions[s]);
      }
      DropRows(marked, gone);
      if gone == RowsOf(db, p) {
        assert RowsOf(RemoveRows(marked, gone), p) == {};
        DropPool(RemoveRows(marked, gone), p);
      }
    }
  }

  lemma EntitleKeeps(db: Db, entitlements: set<Entitlement>)
    requires Inv(db)
    ensures Inv(db.(entitlements := entitlements))
  {
    forall s, t | s in db.sessions && t in db.sessions && s != t
      ensures !Clash(db.(entitlements := entitlements), s, t)
    {
      assert !Clash(db, s, t);
    }
  }

  lemma SpareKeeps(db: Db, p: Id, build: Build)
    requires Inv(db)
    ensures Inv(ProvisionSpare(db, p, build).0)
  {
    if p in db.pools {
      ProvisionKeeps(db, p, None, build);
    }
  }

  lemma AdminStepKeeps(db: Db, a: Action)
    requires Inv(db)
    requires a.DoAssign? || a.DoUnassign? || a.DoPower? || a.DoRebuild? || a.DoDestroy? || a.DoCreatePool?
             || a.DoUpdatePool? || a.DoDrain? || a.DoDeletePool?
    ensures Inv(Step(db, a))
  {
    match a
    case DoAssign(d, user) => AssignKeeps(db, d, user);
    case DoUnassign(d) => UnassignKeeps(db, d);
    case DoPower(d, action, hasProvider, upid) => PowerKeeps(db, d, action, hasProvider, upid);
    case DoRebuild(d, hasProvider, upid) => DoomKeeps(db, d, RebuildTask, hasProvider, upid);
    case DoDestroy(d, hasProvider, upid) => DoomKeeps(db, d, DestroyTask, hasProvider, upid);
    case DoCreatePool(pool, live) => CreatePoolKeeps(db, pool, live);
    case DoUpdatePool(p, patch) => UpdatePoolKeeps(db, p, patch);
    case DoDrain(p) => DrainKeeps(db, p);
    case DoDeletePool(p) => DeletePoolKeeps(db, p);
  }

  lemma StepKeeps(db: Db, a: Action)
    requires Inv(db)
    ensures Inv(Step(db, a))
  {
    match a
    case DoConnect(user, groups, p, env) => ConnectKeeps(db, user, groups, p, env);
    case DoEndSession(s) => EndSessionKeeps(db, s);
    case DoPoll(d, poll, build) => PollKeeps(db, d, poll, build);
    case DoVmDown(d) => VmDownKeeps(db, d);
    case DoLogoff(d, outcome) => LogoffKeeps(db, d, outcome);
    case DoProvision(p, build) => SpareKeeps(db, p, build);
    case DoStuckSweep(stale) => StuckSweepKeeps(db, stale);
    case DoCascade(p, hasProvider, fates) => CascadeKeeps(db, p, hasProvider, fates);
    case DoEntitle(entitlements) => EntitleKeeps(db, entitlements);
    case _ => AdminStepKeeps(db, a);
  }

  /** The invariant holds after every run of calls from the empty database. */
  lemma {:induction false} RunKeeps(db: Db, run: seq<Action>)
    requires Inv(db)
    ensures Inv(Execute(db, run))
    decreases |run|
  {
    if run != [] {
      StepKeeps(db, run[0]);
      RunKeeps(Step(db, run[0]), run[1..]);
    }
  }
}

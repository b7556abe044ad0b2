/** What calls do to one another: what a second call undoes, what a pair of calls leaves in place. */
module RoundTrips {
  import opened Entities
  import opened Lifecycle
  import opened Invariant

  /** Unassigning a spare that was just assigned restores the database. */
  lemma AssignThenUnassign(db: Db, d: Id, user: string)
    requires Inv(db) && Assign(db, d, user).1 == Done && db.desktops[d].status == Available
    ensures Unassign(Assign(db, d, user).0, d) == (db, Done)
  {
    SpareIsIdle(db, d);
    var db1 := Assign(db, d, user).0;
    assert RowOk(db, db.desktops[d]);
    assert GuardedOn(db1, d) == {} by {
      forall s | s in db1.sessions
        ensures s !in GuardedOn(db1, d)
      {
        assert s !in LiveOn(db, d);
      }
    }
    assert Unassign(db1, d).0.desktops == db.desktops;
  }

  /**
   * A connect to a non-persistent pool takes the spare with the lowest VMID; the end of its session gives that
   * spare back as it was, but running, and no other row is touched.
   */
  lemma ConnectThenEnd(db: Db, user: string, groups: seq<string>, p: Id, env: ConnectEnv)
    requires Inv(db) && p in db.pools && db.pools[p].kind == NonPersistent
    requires Connect(db, user, groups, p, env).1.Opened?
    ensures var (db1, reply) := Connect(db, user, groups, p, env);
            && reply.session !in db.sessions && reply.session in db1.sessions
            && db1.sessions[reply.session].desktop.Some?
            && var d := db1.sessions[reply.session].desktop.value;
               var (db2, ended) := EndSession(db1, reply.session);
               && d in RowsWithStatus(db, p, Available)
               && (forall e | e in RowsWithStatus(db, p, Available) :: db.desktops[d].vmid <= db.desktops[e].vmid)
               && ended == Done && db2.desktops == db.desktops[d := db.desktops[d].(power := Running)]
               && db2.sessions - {reply.session} == db.sessions
  {
    var (db1, reply) := Connect(db, user, groups, p, env);
    var d := First(db, RowsWithStatus(db, p, Available));
    assert RowOk(db, db.desktops[d]);
    assert reply.session !in db.sessions;
    var db2 := EndSession(db1, reply.session).0;
    assert db2.desktops[d] == db.desktops[d].(power := Running);
    assert db2.desktops == db.desktops[d := db.desktops[d].(power := Running)];
    assert db2.sessions - {reply.session} == db.sessions;
  }

  lemma OpenedOn(db: Db, d: Id, user: string, env: ConnectEnv)
    requires d in db.desktops && ConnectTo(db, d, user, env).1.Opened?
    ensures var (db1, reply) := ConnectTo(db, d, user, env);
            && reply.session == db.nextId && db1.sessions[reply.session].desktop == Some(d)
            && db1.sessions[reply.session].status == SessionActive
            && db1.desktops == db.desktops[d := db.desktops[d].(status := Connected, power := Running)]
            && db1.pools == db.pools && db1.entitlements == db.entitlements
  {
  }

  /** A session on a dedicated desktop, opened and ended, leaves the desktop disconnected and its user's. */
  lemma OpenedAndEnded(db: Db, d: Id, user: string, env: ConnectEnv)
    requires Inv(db) && d in db.desktops && db.desktops[d].assignment == Some(Dedicated)
    requires ConnectTo(db, d, user, env).1.Opened?
    ensures var (db2, ended) := EndSession(ConnectTo(db, d, user, env).0, db.nextId);
            && ended == Done && db2.pools == db.pools && db2.entitlements == db.entitlements
            && db2.desktops == db.desktops[d := db.desktops[d].(status := Disconnected, power := Running)]
  {
    OpenedOn(db, d, user, env);
    var db2 := EndSession(ConnectTo(db, d, user, env).0, db.nextId).0;
    assert db2.desktops == db.desktops[d := db2.desktops[d]];
  }

  lemma StillTheOnlyRow(db: Db, db2: Db, d: Id, p: Id, user: string)
    requires DedicatedRows(db, p, user) == {d}
    requires db2.desktops == db.desktops[d := db.desktops[d].(status := Disconnected, power := Running)]
    ensures DedicatedRows(db2, p, user) == {d}
  {
    forall e
      ensures e in DedicatedRows(db2, p, user) <==> e == d
    {
      assert e in DedicatedRows(db, p, user) <==> e == d;
    }
  }

  /**
   * A persistent desktop sticks: after a connect and the end of its session, the user's next connect opens on
   * the same desktop and adds no row.
   */
  lemma PersistentDesktopSticks(db: Db, d: Id, user: string, groups: seq<string>, p: Id, env: ConnectEnv,
                                again: ConnectEnv)
    requires Inv(db) && p in db.pools && db.pools[p].kind == Persistent && db.pools[p].status == PoolActive
    requires DedicatedRows(db, p, user) == {d} && Connect(db, user, groups, p, env).1.Opened?
    requires again.hasProvider && again.ticket.Some?
    ensures var (db1, first) := Connect(db, user, groups, p, env);
            && first.session in db1.sessions && db1.sessions[first.session].desktop == Some(d)
            && var (db2, ended) := EndSession(db1, first.session);
               var (db3, second) := Connect(db2, user, groups, p, again);
               && ended == Done && second.Opened? && second.session in db3.sessions
               && db3.sessions[second.session].desktop == Some(d) && db3.desktops.Keys == db.desktops.Keys
  {
    var (db1, first) := Connect(db, user, groups, p, env);
    assert d in DedicatedRows(db, p, user) && (db1, first) == ConnectTo(db, d, user, env);
    assert RowOk(db, db.desktops[d]);
    OpenedOn(db, d, user, env);
    OpenedAndEnded(db, d, user, env);
    var db2 := EndSession(db1, first.session).0;
    StillTheOnlyRow(db, db2, d, p, user);
    assert Connect(db2, user, groups, p, again) == ConnectTo(db2, d, user, again);
    OpenedOn(db2, d, user, again);
  }

  /** The first connect of a user makes the row the next one will find, in the pool's lowest free VMID. */
  lemma FirstConnectProvisions(db: Db, user: string, groups: seq<string>, p: Id, env: ConnectEnv)
    requires Inv(db) && p in db.pools && db.pools[p].kind == Persistent
    requires DedicatedRows(db, p, user) == {} && Connect(db, user, groups, p, env).1.Opened?
    ensures var db1 := Connect(db, user, groups, p, env).0;
            && DedicatedRows(db1, p, user) == {db.nextId}
            && Some(db1.desktops[db.nextId].vmid) == LowestFree(UsedVmids(db, p), db.pools[p].lo, db.pools[p].hi)
  {
    var db1 := Connect(db, user, groups, p, env).0;
    forall e | e in DedicatedRows(db1, p, user)
      ensures e == db.nextId
    {
      assert e in db.desktops ==> e in DedicatedRows(db, p, user);
    }
  }

  /**
   * Rebuild, both legs: the row keeps its VMID and, if dedicated, its user; every other row and every session
   * stay as they were.
   */
  lemma RebuildKeepsPlaceAndUser(db: Db, d: Id, upid: string)
    requires Inv(db) && Doom(db, d, RebuildTask, true, Some(upid)).1 == Done
    requires db.pools[db.desktops[d].pool].status == PoolActive
    ensures var db' := PollTask(Doom(db, d, RebuildTask, true, Some(upid)).0, d, Succeeded, Built);
            && db'.sessions == db.sessions && db'.desktops.Keys == db.desktops.Keys
            && (forall e | e in db.desktops && e != d :: db'.desktops[e] == db.desktops[e])
            && var row, row' := db.desktops[d], db'.desktops[d];
               && row'.pool == row.pool && row'.vmid == row.vmid && row'.power == Running
               && row'.upid == None && row'.task == None
               && (if row.assignment == Some(Dedicated)
                   then row'.user == row.user && row'.assignment == row.assignment && row'.status == Assigned
                   else row'.user == None && row'.assignment == None && row'.status == Available)
  {
    assert RowOk(db, db.desktops[d]);
  }

  /** Destroy, both legs: exactly that row goes, and only ended sessions named it. */
  lemma DestroyRemovesOneRow(db: Db, d: Id, upid: string, build: Build)
    requires Inv(db) && Doom(db, d, DestroyTask, true, Some(upid)).1 == Done
    ensures var db' := PollTask(Doom(db, d, DestroyTask, true, Some(upid)).0, d, Succeeded, build);
            && db'.desktops == db.desktops - {d} && db'.sessions.Keys == db.sessions.Keys
            && (forall s | s in db.sessions && db.sessions[s].desktop != Some(d) :: db'.sessions[s] == db.sessions[s])
            && (forall s | s in db.sessions && db.sessions[s].desktop == Some(d) ::
                  db'.sessions[s].status == SessionEnded)
  {
    GuardIsExact(db, d);
    assert RowOk(db, db.desktops[d]);
    forall s | s in db.sessions && db.sessions[s].desktop == Some(d)
      ensures db.sessions[s].status == SessionEnded
    {
      assert s !in LiveOn(db, d);
    }
    var db' := PollTask(Doom(db, d, DestroyTask, true, Some(upid)).0, d, Succeeded, build);
    assert db'.desktops == db.desktops - {d};
  }

  /** A power task, both legs: the power state is all that changes, and a reboot ends running. */
  lemma PowerTaskChangesPowerOnly(db: Db, d: Id, action: PowerAction, upid: string, build: Build)
    requires Inv(db) && PowerTask(db, d, action, true, Some(upid)).1 == Done
    ensures PollTask(PowerTask(db, d, action, true, Some(upid)).0, d, Succeeded, build)
         == db.(desktops := db.desktops[d := db.desktops[d].(
                  power := if action in {PowerStart, PowerReboot} then Running else Stopped)])
  {
    assert RowOk(db, db.desktops[d]);
    var db' := PollTask(PowerTask(db, d, action, true, Some(upid)).0, d, Succeeded, build);
    assert db'.desktops == db.desktops[d := db'.desktops[d]];
  }
}

/** Where the lifecycle's promises stop: the exact conditions, with runs that show the promise broken beyond them. */
module Limits {
  import opened Entities
  import opened Lifecycle
  import opened Invariant
  import opened History
  import opened Guarantees
  import opened CheckThenWrite

  // ── Logoff is two commits ─────────────────────────────────────────

  ghost predicate AllHeldByOne(db: Db) {
    forall d | d in db.desktops && db.desktops[d].pool in db.pools
               && db.pools[db.desktops[d].pool].kind == NonPersistent :: HeldByOne(db, d)
  }

  /**
   * The refresh that follows a logoff keeps exclusivity exactly when no session got in between the
   * session's end and the refresh's claim of the desktop.
   */
  lemma RefreshSafeIff(db: Db, d: Id, outcome: CycleOutcome)
    requires Inv(db) && Refresh(db, d, outcome).1 in {Done, ProviderFailed}
    ensures AllHeldByOne(Refresh(db, d, outcome).0) <==> LiveOn(db, d) == {}
  {
    var db' := Refresh(db, d, outcome).0;
    if LiveOn(db, d) == {} {
      RefreshKeeps(db, d, outcome);
      forall e | e in db'.desktops && db'.pools[db'.desktops[e].pool].kind == NonPersistent
        ensures HeldByOne(db', e)
      {
        HeldByOneFromInv(db', e);
      }
    } else {
      HeldByOneFromInv(db, d);
      assert LiveOn(db', d) == LiveOn(db, d);
      assert !HeldByOne(db', d);
    }
  }

  /** Deleting the desktop instead: a session that got in between survives it without a desktop, and cannot end. */
  lemma DeleteSafeIff(db: Db, d: Id)
    requires Inv(db) && DeleteOnLogoff(db, d, CycleDone).1 == Done
    ensures SessionsOk(DeleteOnLogoff(db, d, CycleDone).0) <==> LiveOn(db, d) == {}
    ensures forall s | s in LiveOn(db, d) :: EndSession(DeleteOnLogoff(db, d, CycleDone).0, s).1 == NotFound
  {
    var db' := DeleteOnLogoff(db, d, CycleDone).0;
    if LiveOn(db, d) == {} {
      DeleteOnLogoffKeeps(db, d, CycleDone);
    } else {
      var s :| s in LiveOn(db, d);
      assert !SessionOk(db', db'.sessions[s]);
    }
  }

  const OFFICE := Pool("office", NonPersistent, PoolActive, 1, 2, 100, 101, false, true)
  const ANNS_DESKTOP :=
    Desktop(0, 100, Connected, Some("ann"), Some(Floating), Running, None, None)
  const ANN_CONNECTED := Db(
    map[0 := OFFICE], map[1 := ANNS_DESKTOP], map[2 := Session(Some(1), "ann", SessionActive, Some("t"))],
    {Entitlement(0, UserPrincipal("ann")), Entitlement(0, UserPrincipal("bob"))}, 3)

  /** Ann logs off; Bob connects between the two commits; the refresh frees the desktop under him. */
  lemma LogoffGap()
    ensures Inv(ANN_CONNECTED)
    ensures var db1 := EndSession(ANN_CONNECTED, 2).0;
            var (db2, reply) := Connect(db1, "bob", [], 0, ConnectEnv(true, Built, Some("u")));
            reply == Opened(3) && !AllHeldByOne(Refresh(db2, 1, CycleDone).0)
  {
    assert Inv(ANN_CONNECTED);
    var db1 := EndSession(ANN_CONNECTED, 2).0;
    EndSessionKeeps(ANN_CONNECTED, 2);
    var env := ConnectEnv(true, Built, Some("u"));
    assert RowsWithStatus(db1, 0, Available) == {1};
    assert Entitled(db1, 0, "bob", []);
    var (db2, reply) := Connect(db1, "bob", [], 0, env);
    ConnectKeeps(db1, "bob", [], 0, env);
    assert 3 in LiveOn(db2, 1);
    RefreshSafeIff(db2, 1, CycleDone);
  }

  // ── The guards do not count disconnected sessions ─────────────────

  /**
   * Rebuild and destroy are refused while a session is connecting or active. They leave no live
   * session behind exactly when none of the desktop's sessions is disconnected; no caller of the
   * session tracker puts one in that state.
   */
  lemma DoomSafeIff(db: Db, d: Id, kind: TaskKind, upid: Option<string>)
    requires Doom(db, d, kind, true, upid).1 == Done
    ensures LiveOn(db, d) == {} <==> !DisconnectedOn(db, {d})
  {
    GuardMissesDisconnected(db, d);
  }

  /** Some session on one of the rows is disconnected. */
  predicate DisconnectedOn(db: Db, rows: set<Id>) {
    exists s :: s in db.sessions && db.sessions[s].status == SessionDisconnected
                && db.sessions[s].desktop.Some? && db.sessions[s].desktop.value in rows
  }

  lemma GuardMissesDisconnected(db: Db, d: Id)
    requires GuardedOn(db, d) == {}
    ensures LiveOn(db, d) == {} <==> !DisconnectedOn(db, {d})
  {
    forall s | s in db.sessions && db.sessions[s].desktop == Some(d)
      ensures s in LiveOn(db, d) <==> db.sessions[s].status == SessionDisconnected
    {
      assert s !in GuardedOn(db, d);
    }
  }

  /** The same guard lets an unassignment take the user off a row exactly as safely. */
  lemma UnassignSafeIff(db: Db, d: Id)
    requires Unassign(db, d).1 == Done
    ensures LiveOn(db, d) == {} <==> !DisconnectedOn(db, {d})
  {
    GuardMissesDisconnected(db, d);
  }

  /** And so does the guard over all rows of a pool whose deletion starts. */
  lemma DeletePoolSafeIff(db: Db, p: Id)
    requires DeletePool(db, p).1 == Done && db.pools[p].status != PoolDeleting
    ensures LiveOf(db, p) == {} <==> !DisconnectedOn(db, RowsOf(db, p))
  {
    forall s | s in db.sessions && db.sessions[s].desktop.Some? && db.sessions[s].desktop.value in RowsOf(db, p)
      ensures s in LiveOf(db, p) <==> db.sessions[s].status == SessionDisconnected
    {
      assert s !in GuardedOf(db, p);
    }
  }

  /** The session tracker's own transition would break it: disconnect, destroy, and the session cannot end. */
  lemma DisconnectedSessionIsOrphaned(db: Db, s: Id, upid: string, build: Build)
    requires Inv(db) && s in db.sessions && Live(db.sessions[s])
    requires LiveOn(db, db.sessions[s].desktop.value) == {s} && db.desktops[db.sessions[s].desktop.value].upid.None?
    ensures var d := db.sessions[s].desktop.value;
            var db1 := db.(sessions := db.sessions[s := ToDisconnected(db.sessions[s]).value]);
            var (db2, reply) := Doom(db1, d, DestroyTask, true, Some(upid));
            var db3 := PollTask(db2, d, Succeeded, build);
            reply == Done && Live(db3.sessions[s]) && EndSession(db3, s).1 == NotFound
  {
    var d := db.sessions[s].desktop.value;
    assert SessionOk(db, db.sessions[s]);
    var db1 := db.(sessions := db.sessions[s := ToDisconnected(db.sessions[s]).value]);
    forall t | t in db1.sessions
      ensures t !in GuardedOn(db1, d)
    {
      assert t in GuardedOn(db, d) ==> t in LiveOn(db, d);
    }
    assert GuardedOn(db1, d) == {};
  }

  // ── One dedicated desktop per user ────────────────────────────────

  /** In an active persistent pool a user has at most one desktop `connect` can find. */
  ghost predicate OneEach(db: Db) {
    forall p, user {:trigger DedicatedRows(db, p, user)} |
      p in db.pools && db.pools[p].kind == Persistent && db.pools[p].status == PoolActive ::
      |DedicatedRows(db, p, user)| <= 1
  }

  /** The poll of a task on a row being deleted brings the row back. */
  predicate BringsBack(row: Desktop, poll: Poll) {
    row.status == Deleting && row.upid.Some?
    && (row.task.None? || poll == TaskFailed || poll == Unknown || (poll == Succeeded && row.task == Some(RebuildTask)))
  }

  /** ... while its user, finding it gone, has already been given another. */
  predicate RevivesSecond(db: Db, a: Action) {
    a.DoPoll? && a.d in db.desktops
    && var row := db.desktops[a.d];
       row.pool in db.pools && db.pools[row.pool].kind == Persistent && db.pools[row.pool].status == PoolActive
       && row.user.Some? && BringsBack(row, a.poll) && DedicatedRows(db, row.pool, row.user.value) != {}
  }

  /** The row is one `connect` to an active persistent pool could find for its user. */
  predicate Findable(db: Db, d: Id) {
    && d in db.desktops && db.desktops[d].user.Some? && db.desktops[d].status != Deleting
    && db.desktops[d].pool in db.pools
    && db.pools[db.desktops[d].pool].kind == Persistent && db.pools[db.desktops[d].pool].status == PoolActive
  }

  /** A step keeps the rule when only row `c` becomes findable, for a user who has no other row to find. */
  lemma OneEachCarries(db: Db, db': Db, c: Id)
    requires OneEach(db)
    requires forall d | Findable(db', d) ::
               || (Findable(db, d) && db.desktops[d].pool == db'.desktops[d].pool
                   && db.desktops[d].user == db'.desktops[d].user)
               || (d == c && DedicatedRows(db, db'.desktops[d].pool, db'.desktops[d].user.value) <= {c})
    ensures OneEach(db')
  {
    forall p, user | p in db'.pools && db'.pools[p].kind == Persistent && db'.pools[p].status == PoolActive
      ensures |DedicatedRows(db', p, user)| <= 1
    {
      var before, after := DedicatedRows(db, p, user), DedicatedRows(db', p, user);
      forall d | d in after
        ensures Findable(db', d) && (d in before || (d == c && before <= {c}))
      {}
      if before <= {c} {
        SubsetSize(after, {c});
      } else {
        assert after <= before;
        SubsetSize(after, before);
        assert forall d | d in after :: Findable(db, d);
      }
    }
  }

  lemma OpenKeepsOneEach(db: Db, d: Id, row: Desktop, user: string, ticket: string)
    requires Inv(db) && OneEach(db) && d in db.desktops && row.pool == db.desktops[d].pool && row.pool in db.pools
    requires db.pools[row.pool].kind == Persistent ==> row == db.desktops[d] && Findable(db, d)
    ensures OneEach(OpenSession(db.(desktops := db.desktops[d := row]), d, user, ticket).0)
  {
    OneEachCarries(db, OpenSession(db.(desktops := db.desktops[d := row]), d, user, ticket).0, d);
  }

  lemma ConnectToKeepsOneEach(db: Db, d: Id, user: string, env: ConnectEnv)
    requires Inv(db) && OneEach(db) && Findable(db, d)
    ensures OneEach(ConnectTo(db, d, user, env).0)
  {
    if env.ticket.Some? {
      OpenKeepsOneEach(db, d, db.desktops[d], user, env.ticket.value);
      assert db.desktops[d := db.desktops[d]] == db.desktops;
    }
  }

  lemma ConnectKeepsOneEach(db: Db, user: string, groups: seq<string>, p: Id, env: ConnectEnv)
    requires Inv(db) && OneEach(db)
    ensures OneEach(Connect(db, user, groups, p, env).0)
  {
    var db' := Connect(db, user, groups, p, env).0;
    if db' != db && db.pools[p].kind == Persistent {
      var rows := DedicatedRows(db, p, user);
      if rows != {} {
        ConnectToKeepsOneEach(db, First(db, rows), user, env);
      } else {
        var db1 := Provision(db, p, Some(user), env.build).0;
        ProvisionKeeps(db, p, Some(user), env.build);
        OneEachCarries(db, db1, db.nextId);
        if db' != db1 {
          ConnectToKeepsOneEach(db1, db.nextId, user, env);
        }
      }
    } else if db' != db {
      var d := First(db, RowsWithStatus(db, p, Available));
      OpenKeepsOneEach(db, d, db.desktops[d].(user := Some(user), assignment := Some(Floating)), user,
                       env.ticket.value);
    }
  }

  lemma PollKeepsOneEach(db: Db, d: Id, poll: Poll, build: Build)
    requires Inv(db) && OneEach(db) && !RevivesSecond(db, DoPoll(d, poll, build))
    ensures OneEach(PollTask(db, d, poll, build))
  {
    var db' := PollTask(db, d, poll, build);
    PollWrites(db, d, poll, build);
    if db' == RemoveRows(db, {d}) {
      OneEachCarries(db, db', d);
    } else if db' != db {
      PolledRow(db, d, poll, build);
      OneEachCarries(db, db.(desktops := db.desktops[d := db'.desktops[d]]), d);
    }
  }

  /** A row rewritten by a poll is found by its user only if it was, or nothing else is. */
  lemma PolledRow(db: Db, d: Id, poll: Poll, build: Build)
    requires Inv(db) && !RevivesSecond(db, DoPoll(d, poll, build))
    requires d in db.desktops && d in PollTask(db, d, poll, build).desktops
    ensures var db' := PollTask(db, d, poll, build);
            Findable(db', d) ==>
              || (Findable(db, d) && db.desktops[d].pool == db'.desktops[d].pool
                  && db.desktops[d].user == db'.desktops[d].user)
              || DedicatedRows(db, db'.desktops[d].pool, db'.desktops[d].user.value) <= {d}
  {
    assert RowOk(db, db.desktops[d]);
  }

  lemma RevivalBreaks(db: Db, d: Id, poll: Poll, build: Build)
    requires Inv(db) && RevivesSecond(db, DoPoll(d, poll, build))
    ensures var row := db.desktops[d];
            |DedicatedRows(PollTask(db, d, poll, build), row.pool, row.user.value)| > 1
  {
    var row := db.desktops[d];
    var db' := PollTask(db, d, poll, build);
    assert RowOk(db, row);
    var e :| e in DedicatedRows(db, row.pool, row.user.value);
    assert {d, e} <= DedicatedRows(db', row.pool, row.user.value);
    SubsetSize({d, e}, DedicatedRows(db', row.pool, row.user.value));
  }

  /** One step keeps one desktop per user and persistent pool, unless it revives a second one. */
  lemma OneEachUnlessRevived(db: Db, a: Action)
    requires Inv(db) && OneEach(db)
    ensures OneEach(Step(db, a)) <==> !RevivesSecond(db, a)
  {
    match a
    case DoConnect(user, groups, p, env) => ConnectKeepsOneEach(db, user, groups, p, env);
    case DoPoll(d, poll, build) =>
      if RevivesSecond(db, a) {
        RevivalBreaks(db, d, poll, build);
        var row := db.desktops[d];
        assert |DedicatedRows(Step(db, a), row.pool, row.user.value)| > 1;
      } else {
        PollKeepsOneEach(db, d, poll, build);
      }
    case DoLogoff(d, outcome) => LogoffKeepsOneEach(db, d, outcome);
    case DoVmDown(d) => VmDownKeepsOneEach(db, d);
    case DoEndSession(s) => EndSessionKeepsOneEach(db, s);
    case _ => OthersKeepOneEach(db, a);
  }

  lemma OthersKeepOneEach(db: Db, a: Action)
    requires Inv(db) && OneEach(db)
    requires !a.DoConnect? && !a.DoPoll? && !a.DoLogoff? && !a.DoVmDown? && !a.DoEndSession?
    ensures OneEach(Step(db, a))
  {
    match a
    case DoCascade(p, hasProvider, fates) => CascadeKeepsOneEach(db, p, hasProvider, fates);
    case DoCreatePool(pool, live) => CreatePoolKeepsOneEach(db, pool, live);
    case DoProvision(p, build) => SpareKeepsOneEach(db, p, build);
    case DoStuckSweep(stale) => StuckSweepKeepsOneEach(db, stale);
    case _ =>
      if a.DoUpdatePool? || a.DoDrain? || a.DoDeletePool? || a.DoEntitle? {
        PoolAdminKeepsOneEach(db, a);
      } else {
        AdminKeepsOneEach(db, a);
      }
  }

  lemma SpareKeepsOneEach(db: Db, p: Id, build: Build)
    requires OneEach(db)
    ensures OneEach(ProvisionSpare(db, p, build).0)
  {
    OneEachCarries(db, ProvisionSpare(db, p, build).0, 0);
  }

  lemma StuckSweepKeepsOneEach(db: Db, stale: set<Id>)
    requires OneEach(db)
    ensures OneEach(StuckSweep(db, stale))
  {
    OneEachCarries(db, StuckSweep(db, stale), 0);
  }

  lemma WriteKeepsOneEach(db: Db, d: Id, row: Desktop)
    requires OneEach(db) && d in db.desktops && row.pool == db.desktops[d].pool
    requires row.user.Some? && row.status != Deleting ==>
               || (row.user == db.desktops[d].user && db.desktops[d].status != Deleting)
               || DedicatedRows(db, row.pool, row.user.value) <= {d}
    ensures OneEach(db.(desktops := db.desktops[d := row]))
  {
    OneEachCarries(db, db.(desktops := db.desktops[d := row]), d);
  }

  lemma PoolRowKeepsOneEach(db: Db, p: Id, pool: Pool)
    requires OneEach(db) && p in db.pools && pool.kind == db.pools[p].kind
    requires pool.status == PoolActive ==> db.pools[p].status == PoolActive
    ensures OneEach(db.(pools := db.pools[p := pool]))
  {
    OneEachCarries(db, db.(pools := db.pools[p := pool]), 0);
  }

  lemma AdminKeepsOneEach(db: Db, a: Action)
    requires Inv(db) && OneEach(db)
    requires a.DoAssign? || a.DoUnassign? || a.DoPower? || a.DoRebuild? || a.DoDestroy?
    ensures OneEach(Step(db, a))
  {
    var db' := Step(db, a);
    if db' != db {
      WriteKeepsOneEach(db, a.d, db'.desktops[a.d]);
      assert db' == db.(desktops := db.desktops[a.d := db'.desktops[a.d]]);
    }
  }

  lemma PoolAdminKeepsOneEach(db: Db, a: Action)
    requires Inv(db) && OneEach(db)
    requires a.DoUpdatePool? || a.DoDrain? || a.DoDeletePool? || a.DoEntitle?
    ensures OneEach(Step(db, a))
  {
    var db' := Step(db, a);
    if a.DoEntitle? {
      OneEachCarries(db, db', 0);
    } else if db' != db {
      PoolRowKeepsOneEach(db, a.p, db'.pools[a.p]);
      assert db' == db.(pools := db.pools[a.p := db'.pools[a.p]]);
    }
  }

  lemma CascadeKeepsOneEach(db: Db, p: Id, hasProvider: bool, fates: map<Id, Fate>)
    requires Inv(db) && OneEach(db)
    ensures OneEach(Cascade(db, p, hasProvider, fates))
  {
    OneEachCarries(db, Cascade(db, p, hasProvider, fates), 0);
  }

  lemma CreatePoolKeepsOneEach(db: Db, pool: Pool, live: set<int>)
    requires Inv(db) && OneEach(db)
    ensures OneEach(CreatePool(db, pool, live).0)
  {
    forall d | d in db.desktops
      ensures db.desktops[d].pool in db.pools
    {
      assert RowOk(db, db.desktops[d]);
    }
    OneEachCarries(db, CreatePool(db, pool, live).0, 0);
  }

  lemma EndSessionKeepsOneEach(db: Db, s: Id)
    requires Inv(db) && OneEach(db)
    ensures OneEach(EndSession(db, s).0)
  {
    if s in db.sessions {
      assert SessionOk(db, db.sessions[s]);
    }
    OneEachCarries(db, EndSession(db, s).0, 0);
  }

  lemma VmDownKeepsOneEach(db: Db, d: Id)
    requires Inv(db) && OneEach(db)
    ensures OneEach(VmDown(db, d))
  {
    if VmDown(db, d) != db {
      EndSessionKeepsOneEach(db, Latest(LiveOn(db, d)));
    }
  }

  lemma LogoffKeepsOneEach(db: Db, d: Id, outcome: CycleOutcome)
    requires Inv(db) && OneEach(db)
    ensures OneEach(Logoff(db, d, outcome))
  {
    if Logoff(db, d, outcome) != db {
      var db1 := EndSession(db, Latest(LiveOn(db, d))).0;
      EndSessionKeepsOneEach(db, Latest(LiveOn(db, d)));
      OneEachCarries(db1, Recycle(db1, d, outcome), 0);
    }
  }

  /**
   * How it comes about: while the user's desktop is being destroyed, a connect provisions a second
   * one; the destruction fails, and from then on the user's connects find two rows and are refused.
   */
  lemma FailedDestroyLocksOut(db: Db, d: Id, groups: seq<string>, env: ConnectEnv)
    requires Inv(db) && d in db.desktops && db.desktops[d].user.Some?
    requires db.desktops[d].status == Deleting && db.desktops[d].upid.Some?
    requires var row := db.desktops[d];
             var p, user := row.pool, row.user.value;
             && db.pools[p].kind == Persistent && db.pools[p].status == PoolActive
             && DedicatedRows(db, p, user) == {} && Entitled(db, p, user, groups)
             && LowestFree(UsedVmids(db, p), db.pools[p].lo, db.pools[p].hi).Some?
    requires env == ConnectEnv(true, Built, env.ticket) && env.ticket.Some?
    ensures var row := db.desktops[d];
            var (db1, reply) := Connect(db, row.user.value, groups, row.pool, env);
            && reply.Opened?
            && Connect(PollTask(db1, d, TaskFailed, Built), row.user.value, groups, row.pool, env).1 == MultipleRows
  {
    var row := db.desktops[d];
    var p, user := row.pool, row.user.value;
    var db1 := Connect(db, user, groups, p, env).0;
    ConnectKeeps(db, user, groups, p, env);
    assert db.nextId in DedicatedRows(db1, p, user);
    assert db1.desktops[d] == row;
    assert RevivesSecond(db1, DoPoll(d, TaskFailed, Built));
    RevivalBreaks(db1, d, TaskFailed, Built);
  }

  // ── Non-persistent pools know no such rule ────────────────────────

  /** A user who holds a floating desktop and connects again is given another one. */
  lemma FloatingIsNotPerUser(db: Db, s: Id, groups: seq<string>, env: ConnectEnv)
    requires Inv(db) && s in db.sessions && Live(db.sessions[s])
    requires var user, p := db.sessions[s].user, db.desktops[db.sessions[s].desktop.value].pool;
             && db.pools[p].kind == NonPersistent && Connect(db, user, groups, p, env).1.Opened?
    ensures var user, d := db.sessions[s].user, db.sessions[s].desktop.value;
            var (db', reply) := Connect(db, user, groups, db.desktops[d].pool, env);
            && db'.sessions[reply.session].desktop.Some? && db'.sessions[reply.session].desktop.value != d
            && db'.desktops[db'.sessions[reply.session].desktop.value].user == Some(user) == db'.desktops[d].user
  {
    assert SessionOk(db, db.sessions[s]);
  }

  // ── The window in which a UPID has no kind ────────────────────────

  /** A task-tracker tick in the window marks the row failed, whatever the task does; the provisioner overrules it. */
  lemma TickInCloneWindow(db: Db, d: Id, vmid: int, user: Option<string>, upid: string, poll: Poll, build: Build)
    requires d in db.desktops && db.desktops[d].pool in db.pools
    requires db.desktops[d] == CloneWindow(db.pools[db.desktops[d].pool], db.desktops[d].pool, vmid, user, upid)
    ensures var pool := db.pools[db.desktops[d].pool];
            var given := pool.kind == Persistent && user.Some?;
            var ticked := PollTask(db, d, poll, build);
            && ticked.desktops[d].status == Error
            && WriteBuild(ticked, d, given, Built) == WriteBuild(db, d, given, Built)
            && WriteBuild(ticked, d, given, Built).desktops[d]
               == BuiltRow(pool, db.desktops[d].pool, vmid, user, Built)
  {
    var given := db.pools[db.desktops[d].pool].kind == Persistent && user.Some?;
    var ticked := PollTask(db, d, poll, build);
    assert WriteBuild(ticked, d, given, Built).desktops[d] == WriteBuild(db, d, given, Built).desktops[d];
    assert WriteBuild(ticked, d, given, Built).desktops == WriteBuild(db, d, given, Built).desktops;
  }
}

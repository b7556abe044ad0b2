/** How the database may change along a run: sessions, pools and row identities only move forward. */
module History {
  import opened Entities
  import opened Lifecycle
  import opened Invariant

  function Rank(status: SessionStatus): nat {
    match status
    case SessionConnecting => 0
    case SessionActive => 1
    case SessionDisconnected => 2
    case SessionEnded => 3
  }

  function PoolRank(status: PoolStatus): nat {
    match status
    case PoolDraining => 1
    case PoolDeleting => 2
    case _ => 0
  }

  /** A session keeps its user, loses its desktop at most, and changes status only upwards. */
  predicate SessionMoves(s: Session, s': Session) {
    && s'.user == s.user
    && (s'.desktop == s.desktop || s'.desktop == None)
    && (s'.status != s.status ==> Rank(s.status) < Rank(s'.status))
  }

  predicate PoolMoves(p: Pool, p': Pool) {
    && p'.name == p.name && p'.kind == p.kind && p'.lo == p.lo && p'.hi == p.hi
    && PoolRank(p.status) <= PoolRank(p'.status)
  }

  ghost predicate PoolsEvolve(db: Db, db': Db) {
    && (forall p | p in db.pools && p in db'.pools :: PoolMoves(db.pools[p], db'.pools[p]))
    && (forall p | p in db'.pools && p !in db.pools :: p >= db.nextId)
  }

  /** Where something may be added: a pool that is active, or one the earlier state does not know. */
  predicate OpenFor(db: Db, p: Id) {
    p in db.pools ==> db.pools[p].status == PoolActive
  }

  ghost predicate RowsEvolve(db: Db, db': Db) {
    && (forall d | d in db.desktops && d in db'.desktops ::
          db'.desktops[d].pool == db.desktops[d].pool && db'.desktops[d].vmid == db.desktops[d].vmid)
    && (forall d | d in db'.desktops && d !in db.desktops :: d >= db.nextId && OpenFor(db, db'.desktops[d].pool))
  }

  predicate BornOpen(db: Db, db': Db, s: Session) {
    s.desktop.Some? && s.desktop.value in db'.desktops ==> OpenFor(db, db'.desktops[s.desktop.value].pool)
  }

  ghost predicate SessionsEvolve(db: Db, db': Db) {
    && (forall s | s in db.sessions :: s in db'.sessions && SessionMoves(db.sessions[s], db'.sessions[s]))
    && (forall s | s in db'.sessions && s !in db.sessions :: s >= db.nextId && BornOpen(db, db', db'.sessions[s]))
  }

  ghost predicate Evolves(db: Db, db': Db) {
    db.nextId <= db'.nextId && PoolsEvolve(db, db') && RowsEvolve(db, db') && SessionsEvolve(db, db')
  }

  // ── One step ──────────────────────────────────────────────────────

  lemma EndSessionEvolves(db: Db, s: Id)
    ensures Evolves(db, EndSession(db, s).0)
  {
  }

  lemma ProvisionEvolves(db: Db, p: Id, user: Option<string>, build: Build)
    requires Inv(db) && p in db.pools
    ensures Evolves(db, Provision(db, p, user, build).0)
  {
  }

  lemma OpenSessionEvolves(db: Db, d: Id, row: Desktop, user: string, ticket: string)
    requires Inv(db) && d in db.desktops
    requires row.pool == db.desktops[d].pool && row.vmid == db.desktops[d].vmid
    requires db.pools[row.pool].status == PoolActive
    ensures Evolves(db, OpenSession(db.(desktops := db.desktops[d := row]), d, user, ticket).0)
  {
  }

  lemma ConnectToEvolves(db: Db, d: Id, user: string, env: ConnectEnv)
    requires Inv(db) && d in db.desktops && db.pools[db.desktops[d].pool].status == PoolActive
    ensures Evolves(db, ConnectTo(db, d, user, env).0)
  {
    if env.ticket.Some? {
      OpenSessionEvolves(db, d, db.desktops[d], user, env.ticket.value);
      assert db.desktops[d := db.desktops[d]] == db.desktops;
    }
  }

  lemma ConnectEvolves(db: Db, user: string, groups: seq<string>, p: Id, env: ConnectEnv)
    requires Inv(db)
    ensures Evolves(db, Connect(db, user, groups, p, env).0)
  {
    var (db', reply) := Connect(db, user, groups, p, env);
    if db' != db && db.pools[p].kind == Persistent {
      var rows := DedicatedRows(db, p, user);
      if rows != {} {
        ConnectToEvolves(db, First(db, rows), user, env);
      } else {
        var (db1, _) := Provision(db, p, Some(user), env.build);
        ProvisionKeeps(db, p, Some(user), env.build);
        ProvisionEvolves(db, p, Some(user), env.build);
        if db' != db1 {
          ConnectToKeeps(db1, db.nextId, user, env);
          ConnectToEvolves(db1, db.nextId, user, env);
          EvolvesTransitive(db, db1, db');
        }
      }
    } else if db' != db {
      var d := First(db, RowsWithStatus(db, p, Available));
      OpenSessionEvolves(db, d, db.desktops[d].(user := Some(user), assignment := Some(Floating)), user,
                         env.ticket.value);
    }
  }

  lemma RowWriteEvolves(db: Db, d: Id, row: Desktop)
    requires d in db.desktops
    requires row.pool == db.desktops[d].pool && row.vmid == db.desktops[d].vmid
    ensures Evolves(db, db.(desktops := db.desktops[d := row]))
  {
  }

  lemma DropRowsEvolves(db: Db, ds: set<Id>)
    ensures Evolves(db, RemoveRows(db, ds))
  {
  }

  /** A poll leaves the database alone, removes its row, or rewrites it in place. */
  lemma PollWrites(db: Db, d: Id, poll: Poll, build: Build)
    requires Inv(db)
    ensures var db' := PollTask(db, d, poll, build);
            || db' == db
            || (d in db.desktops && db' == RemoveRows(db, {d}))
            || (d in db.desktops && d in db'.desktops && db' == db.(desktops := db.desktops[d := db'.desktops[d]])
                && db'.desktops[d].pool == db.desktops[d].pool && db'.desktops[d].vmid == db.desktops[d].vmid)
  {
  }

  lemma PollEvolves(db: Db, d: Id, poll: Poll, build: Build)
    requires Inv(db)
    ensures Evolves(db, PollTask(db, d, poll, build))
  {
    var db' := PollTask(db, d, poll, build);
    PollWrites(db, d, poll, build);
    DropRowsEvolves(db, {d});
    if db' != db && db' != RemoveRows(db, {d}) {
      RowWriteEvolves(db, d, db'.desktops[d]);
    }
  }

  lemma RecycleEvolves(db: Db, d: Id, outcome: CycleOutcome)
    requires Inv(db)
    ensures Evolves(db, Recycle(db, d, outcome))
  {
    var db' := Recycle(db, d, outcome);
    if db' != db {
      DropRowsEvolves(db, {d});
      if db' != RemoveRows(db, {d}) {
        RowWriteEvolves(db, d, db'.desktops[d]);
        assert db' == db.(desktops := db.desktops[d := db'.desktops[d]]);
      }
    }
  }

  lemma LogoffEvolves(db: Db, d: Id, outcome: CycleOutcome)
    requires Inv(db)
    ensures Evolves(db, Logoff(db, d, outcome))
  {
    var db' := Logoff(db, d, outcome);
    if db' != db {
      var s := Latest(LiveOn(db, d));
      var db1 := EndSession(db, s).0;
      EndSessionKeeps(db, s);
      EndSessionEvolves(db, s);
      RecycleEvolves(db1, d, outcome);
      LogoffKeeps(db, d, outcome);
      EvolvesTransitive(db, db1, db');
    }
  }

  lemma VmDownEvolves(db: Db, d: Id)
    requires Inv(db)
    ensures Evolves(db, VmDown(db, d))
  {
    if VmDown(db, d) != db {
      EndSessionEvolves(db, Latest(LiveOn(db, d)));
    }
  }

  lemma StuckSweepEvolves(db: Db, stale: set<Id>)
    requires Inv(db)
    ensures Evolves(db, StuckSweep(db, stale))
  {
  }

  lemma RazedEvolves(db: Db, p: Id, fates: map<Id, Fate>)
    ensures Evolves(db, RemoveRows(MarkRefused(db, RowsOf(db, p), fates), RazedIn(RowsOf(db, p), fates)))
  {
  }

  lemma CascadeEvolves(db: Db, p: Id, hasProvider: bool, fates: map<Id, Fate>)
    requires Inv(db)
    ensures Evolves(db, Cascade(db, p, hasProvider, fates))
  {
    RazedEvolves(db, p, fates);
  }

  lemma PoolRowEvolves(db: Db, p: Id, pool: Pool)
    requires Inv(db) && p in db.pools && PoolMoves(db.pools[p], pool)
    ensures Evolves(db, db.(pools := db.pools[p := pool]))
  {
  }

  lemma CreatePoolEvolves(db: Db, pool: Pool, live: set<int>)
    requires Inv(db)
    ensures Evolves(db, CreatePool(db, pool, live).0)
  {
    InsertPoolEvolves(db, pool);
  }

  lemma InsertPoolEvolves(db: Db, pool: Pool)
    requires Inv(db)
    ensures Evolves(db, InsertPool(db, pool))
  {
    assert db.nextId !in db.pools;
  }

  lemma StepEvolves(db: Db, a: Action)
    requires Inv(db)
    ensures Evolves(db, Step(db, a))
  {
    match a
    case DoConnect(user, groups, p, env) => ConnectEvolves(db, user, groups, p, env);
    case DoEndSession(s) => EndSessionEvolves(db, s);
    case DoPoll(d, poll, build) => PollEvolves(db, d, poll, build);
    case DoVmDown(d) => VmDownEvolves(db, d);
    case DoLogoff(d, outcome) => LogoffEvolves(db, d, outcome);
    case DoProvision(p, build) =>
      if p in db.pools {
        ProvisionEvolves(db, p, None, build);
      }
    case DoStuckSweep(stale) => StuckSweepEvolves(db, stale);
    case DoCreatePool(pool, live) => CreatePoolEvolves(db, pool, live);
    case DoCascade(p, hasProvider, fates) => CascadeEvolves(db, p, hasProvider, fates);
    case _ => AdminEvolves(db, a);
  }

  lemma PoolWritesEvolve(db: Db, a: Action)
    requires Inv(db) && (a.DoUpdatePool? || a.DoDrain? || a.DoDeletePool?)
    ensures Evolves(db, Step(db, a))
  {
    var db' := Step(db, a);
    if db' != db {
      PoolRowEvolves(db, a.p, db'.pools[a.p]);
      assert db' == db.(pools := db.pools[a.p := db'.pools[a.p]]);
    }
  }

  lemma RowWritesEvolve(db: Db, a: Action)
    requires Inv(db) && (a.DoAssign? || a.DoUnassign? || a.DoPower? || a.DoRebuild? || a.DoDestroy?)
    ensures Evolves(db, Step(db, a))
  {
    var db' := Step(db, a);
    if db' != db {
      RowWriteEvolves(db, a.d, db'.desktops[a.d]);
      assert db' == db.(desktops := db.desktops[a.d := db'.desktops[a.d]]);
    }
  }

  /** The steps that write one row, or none. */
  lemma AdminEvolves(db: Db, a: Action)
    requires Inv(db)
    requires a.DoAssign? || a.DoUnassign? || a.DoPower? || a.DoRebuild? || a.DoDestroy? || a.DoUpdatePool? || a.DoDrain?
             || a.DoDeletePool? || a.DoEntitle?
    ensures Evolves(db, Step(db, a))
  {
    if a.DoUpdatePool? || a.DoDrain? || a.DoDeletePool? {
      PoolWritesEvolve(db, a);
    } else if !a.DoEntitle? {
      RowWritesEvolve(db, a);
    }
  }

  // ── Whole runs ────────────────────────────────────────────────────

  /** Forward along a run: what holds from one state to the next holds from the first to the last. */
  lemma EvolvesTransitive(db: Db, db1: Db, db2: Db)
    requires Inv(db) && Inv(db1) && Inv(db2) && Evolves(db, db1) && Evolves(db1, db2)
    ensures Evolves(db, db2)
  {
    PoolsTransitive(db, db1, db2);
    RowsTransitive(db, db1, db2);
    SessionsTransitive(db, db1, db2);
  }

  lemma PoolsTransitive(db: Db, db1: Db, db2: Db)
    requires Inv(db) && Evolves(db, db1) && Evolves(db1, db2)
    ensures PoolsEvolve(db, db2)
  {
    forall p | p in db.pools && p in db2.pools
      ensures PoolMoves(db.pools[p], db2.pools[p])
    {
      assert p < db.nextId && p in db1.pools;
    }
  }

  lemma RowsTransitive(db: Db, db1: Db, db2: Db)
    requires Inv(db) && Inv(db1) && Inv(db2) && Evolves(db, db1) && Evolves(db1, db2)
    ensures RowsEvolve(db, db2)
  {
    forall d | d in db2.desktops && d !in db.desktops
      ensures d >= db.nextId && OpenFor(db, db2.desktops[d].pool)
    {
      OpenCarries(db, db1, db2, d);
    }
  }

  lemma MovesCompose(s: Session, s1: Session, s2: Session)
    requires SessionMoves(s, s1) && SessionMoves(s1, s2)
    ensures SessionMoves(s, s2)
  {
  }

  lemma BornOpenCarries(db: Db, db1: Db, db2: Db, s: Id)
    requires Inv(db) && Inv(db1) && Inv(db2) && Evolves(db, db1) && Evolves(db1, db2)
    requires s in db2.sessions && s !in db.sessions
    ensures s >= db.nextId && BornOpen(db, db2, db2.sessions[s])
  {
    if s in db1.sessions {
      assert SessionOk(db1, db1.sessions[s]) && SessionMoves(db1.sessions[s], db2.sessions[s]);
    }
    if db2.sessions[s].desktop.Some? && db2.sessions[s].desktop.value in db2.desktops {
      OpenCarries(db, db1, db2, db2.sessions[s].desktop.value);
    }
  }

  lemma SessionsTransitive(db: Db, db1: Db, db2: Db)
    requires Inv(db) && Inv(db1) && Inv(db2) && Evolves(db, db1) && Evolves(db1, db2)
    ensures SessionsEvolve(db, db2)
  {
    forall s | s in db2.sessions && s !in db.sessions
      ensures s >= db.nextId && BornOpen(db, db2, db2.sessions[s])
    {
      BornOpenCarries(db, db1, db2, s);
    }
    forall s | s in db.sessions
      ensures s in db2.sessions && SessionMoves(db.sessions[s], db2.sessions[s])
    {
      MovesCompose(db.sessions[s], db1.sessions[s], db2.sessions[s]);
    }
  }

  lemma OpenCarries(db: Db, db1: Db, db2: Db, d: Id)
    requires Inv(db) && Inv(db1) && Inv(db2) && Evolves(db, db1) && Evolves(db1, db2)
    requires d in db2.desktops && (d in db1.desktops ==> OpenFor(db, db1.desktops[d].pool))
    requires d !in db1.desktops ==> OpenFor(db1, db2.desktops[d].pool)
    ensures OpenFor(db, db2.desktops[d].pool)
  {
  }

  lemma {:induction false} RunEvolves(db: Db, run: seq<Action>)
    requires Inv(db)
    ensures Evolves(db, Execute(db, run))
    decreases |run|
  {
    if run != [] {
      StepKeeps(db, run[0]);
      StepEvolves(db, run[0]);
      RunEvolves(Step(db, run[0]), run[1..]);
      RunKeeps(Step(db, run[0]), run[1..]);
      EvolvesTransitive(db, Step(db, run[0]), Execute(db, run));
    }
  }

  /** Outside `active`, a pool's rows and live sessions are among those it had. */
  lemma InactivePoolsShrink(db: Db, db': Db, p: Id)
    requires Inv(db) && Inv(db') && Evolves(db, db') && p in db.pools && db.pools[p].status != PoolActive
    ensures RowsOf(db', p) <= RowsOf(db, p) && LiveOf(db', p) <= LiveOf(db, p)
  {
    forall s | s in LiveOf(db', p)
      ensures s in LiveOf(db, p)
    {
      assert SessionOk(db', db'.sessions[s]);
      if s in db.sessions {
        assert SessionOk(db, db.sessions[s]);
      }
    }
  }
}

/** What the invariant means to an operator: statements over every run from the empty database. */
module Guarantees {
  import opened Entities
  import opened Lifecycle
  import opened Invariant
  import opened History

  function After(run: seq<Action>): Db {
    Execute(EMPTY_DB, run)
  }

  lemma AfterInv(run: seq<Action>)
    ensures Inv(After(run))
  {
    RunKeeps(EMPTY_DB, run);
  }

  lemma {:induction false} ExecuteAppend(db: Db, run: seq<Action>, more: seq<Action>)
    ensures Execute(db, run + more) == Execute(Execute(db, run), more)
    decreases |run|
  {
    if run == [] {
      assert run + more == more;
    } else {
      assert (run + more)[1..] == run[1..] + more;
      ExecuteAppend(Step(db, run[0]), run[1..], more);
    }
  }

  lemma {:induction false} AtMostOne(ids: set<Id>)
    requires forall i, j | i in ids && j in ids :: i == j
    ensures |ids| <= 1
  {
    if i :| i in ids {
      assert ids == {i};
    }
  }

  // ── Desktops and sessions ─────────────────────────────────────────

  /** Who holds a non-persistent desktop: nobody while it is a spare, else one session of its one user. */
  ghost predicate HeldByOne(db: Db, d: Id)
    requires d in db.desktops
  {
    && |LiveOn(db, d)| <= 1
    && (forall s | s in LiveOn(db, d) ::
          db.desktops[d].user == Some(db.sessions[s].user) && db.desktops[d].assignment == Some(Floating))
    && (db.desktops[d].status == Available ==> LiveOn(db, d) == {} && db.desktops[d].user == None)
  }

  lemma HeldByOneFromInv(db: Db, d: Id)
    requires Inv(db) && d in db.desktops && db.pools[db.desktops[d].pool].kind == NonPersistent
    ensures HeldByOne(db, d)
  {
    assert RowOk(db, db.desktops[d]);
    forall s, t | s in LiveOn(db, d) && t in LiveOn(db, d)
      ensures s == t
    {
      assert s == t || !Clash(db, s, t);
    }
    AtMostOne(LiveOn(db, d));
    forall s | s in LiveOn(db, d)
      ensures db.desktops[d].user == Some(db.sessions[s].user) && db.desktops[d].assignment == Some(Floating)
    {
      assert SessionOk(db, db.sessions[s]);
    }
    if db.desktops[d].status == Available {
      SpareIsIdle(db, d);
    }
  }

  lemma NonPersistentExclusivity(run: seq<Action>, d: Id)
    requires d in After(run).desktops
    ensures After(run).desktops[d].pool in After(run).pools
    ensures After(run).pools[After(run).desktops[d].pool].kind == NonPersistent ==> HeldByOne(After(run), d)
  {
    AfterInv(run);
    if After(run).pools[After(run).desktops[d].pool].kind == NonPersistent {
      HeldByOneFromInv(After(run), d);
    }
  }

  /** A live session refers to a desktop row, so its end never fails, and ends it for good. */
  lemma LiveSessionsKeepTheirDesktop(run: seq<Action>, s: Id)
    requires s in After(run).sessions && Live(After(run).sessions[s])
    ensures After(run).sessions[s].desktop.Some? && After(run).sessions[s].desktop.value in After(run).desktops
    ensures var (db', reply) := EndSession(After(run), s);
            reply == Done && db'.sessions[s].status == SessionEnded && db'.sessions[s].ticket == None
  {
    AfterInv(run);
    assert SessionOk(After(run), After(run).sessions[s]);
    EndSessionTotal(After(run), s);
  }

  /** Status ranks only rise, `ended` is for good, and a ticket is stored exactly while a session may use it. */
  lemma SessionLifecycle(run: seq<Action>, more: seq<Action>, s: Id)
    requires s in After(run).sessions
    ensures s in After(run + more).sessions
    ensures var now, later := After(run).sessions[s], After(run + more).sessions[s];
            && later.user == now.user
            && (later.status == now.status || Rank(now.status) < Rank(later.status))
            && (now.status == SessionEnded ==> later.status == SessionEnded && later.ticket == None)
            && (now.ticket.Some? <==> now.status == SessionActive || now.status == SessionDisconnected)
            && now.status != SessionConnecting
  {
    AfterInv(run);
    AfterInv(run + more);
    ExecuteAppend(EMPTY_DB, run, more);
    RunEvolves(After(run), more);
    assert SessionOk(After(run), After(run).sessions[s]);
    assert SessionOk(After(run + more), After(run + more).sessions[s]);
  }

  // ── VMIDs ─────────────────────────────────────────────────────────

  predicate Owns(pool: Pool, v: int) {
    pool.lo <= v <= pool.hi
  }

  /** No VMID lies in two pools' ranges, every row's VMID lies in its own pool's, and no two rows share one. */
  lemma VmidSafety(run: seq<Action>)
    ensures forall p, q, v | p in After(run).pools && q in After(run).pools
                             && Owns(After(run).pools[p], v) && Owns(After(run).pools[q], v) :: p == q
    ensures forall d | d in After(run).desktops ::
              var row := After(run).desktops[d];
              row.pool in After(run).pools && Owns(After(run).pools[row.pool], row.vmid)
    ensures forall d, e | d in After(run).desktops && e in After(run).desktops
                          && After(run).desktops[d].vmid == After(run).desktops[e].vmid :: d == e
  {
    AfterInv(run);
    var db := After(run);
    forall p, q, v | p in db.pools && q in db.pools && Owns(db.pools[p], v) && Owns(db.pools[q], v)
      ensures p == q
    {
      assert p == q || Apart(db.pools[p], db.pools[q]);
    }
    forall d | d in db.desktops
      ensures RowOk(db, db.desktops[d])
    {}
    forall d, e | d in db.desktops && e in db.desktops && db.desktops[d].vmid == db.desktops[e].vmid
      ensures d == e
    {
      assert d == e || Distinct(db.desktops[d], db.desktops[e]);
    }
  }

  // ── Pools ─────────────────────────────────────────────────────────

  lemma {:induction false} SubsetSize(a: set<Id>, b: set<Id>)
    requires a <= b
    ensures |a| <= |b|
    decreases |a|
  {
    if x :| x in a {
      SubsetSize(a - {x}, b - {x});
    }
  }

  /**
   * A pool's status moves active, draining, deleting, gone; once it is not active it gains neither
   * rows nor live sessions, and from `deleting` on it has no live session.
   */
  lemma PoolLifecycle(run: seq<Action>, more: seq<Action>, p: Id)
    requires p in After(run).pools && After(run).pools[p].status != PoolActive
    ensures p in After(run + more).pools ==>
              PoolRank(After(run).pools[p].status) <= PoolRank(After(run + more).pools[p].status)
    ensures RowsOf(After(run + more), p) <= RowsOf(After(run), p)
    ensures LiveOf(After(run + more), p) <= LiveOf(After(run), p)
    ensures |RowsOf(After(run + more), p)| <= |RowsOf(After(run), p)|
    ensures |LiveOf(After(run + more), p)| <= |LiveOf(After(run), p)|
    ensures After(run).pools[p].status == PoolDeleting ==> LiveOf(After(run), p) == {}
  {
    AfterInv(run);
    AfterInv(run + more);
    ExecuteAppend(EMPTY_DB, run, more);
    RunEvolves(After(run), more);
    InactivePoolsShrink(After(run), After(run + more), p);
    SubsetSize(RowsOf(After(run + more), p), RowsOf(After(run), p));
    SubsetSize(LiveOf(After(run + more), p), LiveOf(After(run), p));
    DeletingIsIdle(After(run), p);
  }

  lemma DeletingIsIdle(db: Db, p: Id)
    requires Inv(db) && p in db.pools
    ensures db.pools[p].status == PoolDeleting ==> LiveOf(db, p) == {}
  {
    forall s | s in db.sessions && db.pools[p].status == PoolDeleting
      ensures s !in LiveOf(db, p)
    {
      assert SessionOk(db, db.sessions[s]);
    }
  }

  /** A removed pool's identifier never comes back, nor do rows under it. */
  lemma RemovedPoolsStayRemoved(run: seq<Action>, more: seq<Action>, p: Id)
    requires p < After(run).nextId && p !in After(run).pools
    ensures p !in After(run + more).pools && RowsOf(After(run + more), p) == {}
  {
    AfterInv(run);
    AfterInv(run + more);
    ExecuteAppend(EMPTY_DB, run, more);
    RunEvolves(After(run), more);
    forall d | d in After(run + more).desktops
      ensures d !in RowsOf(After(run + more), p)
    {
      assert RowOk(After(run + more), After(run + more).desktops[d]);
    }
  }

  /** The only step that removes a pool is a cascade that razed its last row. */
  lemma PoolsGoEmpty(db: Db, a: Action, p: Id)
    requires Inv(db) && p in db.pools && p !in Step(db, a).pools
    ensures a.DoCascade? && a.p == p && db.pools[p].status == PoolDeleting && RowsOf(Step(db, a), p) == {}
  {
    if !a.DoCascade? {
      NotCascadeKeepsPools(db, a);
    }
  }

  lemma NotCascadeKeepsPools(db: Db, a: Action)
    requires !a.DoCascade?
    ensures db.pools.Keys <= Step(db, a).pools.Keys
  {
    match a
    case DoConnect(user, groups, p, env) => ConnectPools(db, user, groups, p, env);
    case _ =>
  }

  lemma ConnectPools(db: Db, user: string, groups: seq<string>, p: Id, env: ConnectEnv)
    ensures Connect(db, user, groups, p, env).0.pools == db.pools
  {
  }

  lemma CascadeRows(db: Db, p: Id, fates: map<Id, Fate>)
    requires p in db.pools && db.pools[p].status == PoolDeleting
    ensures RowsOf(Cascade(db, p, true, fates), p) == RowsOf(db, p) - RazedIn(RowsOf(db, p), fates)
  {
    assert Cascade(db, p, true, fates).desktops
        == MarkRefused(db, RowsOf(db, p), fates).desktops - RazedIn(RowsOf(db, p), fates);
  }

  lemma NothingLeft(rows: set<Id>, razed: set<Id>)
    requires razed <= rows
    ensures |rows - razed| == |rows| - |razed|
    ensures razed == rows <==> rows - razed == {}
  {
    if rows - razed == {} {
      forall d | d in rows
        ensures d in razed
      {
        assert d !in rows - razed;
      }
    }
  }

  /** A cascade removes the pool row when every desktop goes, and otherwise leaves exactly those that did not. */
  lemma CascadeExact(db: Db, p: Id, fates: map<Id, Fate>)
    requires p in db.pools && db.pools[p].status == PoolDeleting
    ensures var db' := Cascade(db, p, true, fates);
            && (forall d :: d in RowsOf(db', p) <==> d in RowsOf(db, p) && !Razed(fates, d))
            && |RowsOf(db', p)| == |RowsOf(db, p)| - |RazedIn(RowsOf(db, p), fates)|
            && (p !in db'.pools <==> RowsOf(db', p) == {})
  {
    CascadeRows(db, p, fates);
    NothingLeft(RowsOf(db, p), RazedIn(RowsOf(db, p), fates));
  }

  /** What it leaves: failed rows in `error`, crashed ones as they were, other pools and their rows untouched. */
  lemma CascadeSpares(db: Db, p: Id, fates: map<Id, Fate>, d: Id)
    requires Inv(db) && p in db.pools && db.pools[p].status == PoolDeleting && d in db.desktops
    ensures var db' := Cascade(db, p, true, fates);
            && (d in RowsOf(db, p) && FateOf(fates, d) == Refused ==>
                  d in db'.desktops && db'.desktops[d] == db.desktops[d].(status := Error))
            && (d !in RowsOf(db, p) || FateOf(fates, d) == Crashed ==>
                  d in db'.desktops && db'.desktops[d] == db.desktops[d])
            && (forall q | q in db.pools && q != p :: q in db'.pools && db'.pools[q] == db.pools[q])
  {
  }

  /** A cascade that meets the pool with a row it razes, or with none left. */
  predicate Advances(db: Db, a: Action, p: Id) {
    && a.DoCascade? && a.p == p && a.hasProvider && p in db.pools && db.pools[p].status == PoolDeleting
    && (RowsOf(db, p) == {} || RazedIn(RowsOf(db, p), a.fates) != {})
  }

  /** How many steps of a run do. */
  function Advancing(db: Db, run: seq<Action>, p: Id): nat
    decreases |run|
  {
    if run == [] then 0
    else (if Advances(db, run[0], p) then 1 else 0) + Advancing(Step(db, run[0]), run[1..], p)
  }

  /**
   * Re-issuing the delete ends, whatever other calls come between: as many cascades that destroy a desktop as
   * the pool has rows, or one if it has none, remove the pool for good.
   */
  lemma {:induction false} ReissuedDeletesEnd(db: Db, run: seq<Action>, p: Id)
    requires Inv(db) && p < db.nextId && (p in db.pools ==> db.pools[p].status == PoolDeleting)
    requires p in db.pools ==> Advancing(db, run, p) >= 1 && Advancing(db, run, p) >= |RowsOf(db, p)|
    ensures p !in Execute(db, run).pools
    decreases |run|
  {
    if run != [] {
      var db' := Step(db, run[0]);
      StepKeeps(db, run[0]);
      StepEvolves(db, run[0]);
      if p in db.pools && p in db'.pools {
        InactivePoolsShrink(db, db', p);
        SubsetSize(RowsOf(db', p), RowsOf(db, p));
        if Advances(db, run[0], p) {
          CascadeExact(db, p, run[0].fates);
        }
      }
      ReissuedDeletesEnd(db', run[1..], p);
    }
  }
}

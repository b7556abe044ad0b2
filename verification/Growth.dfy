/**
 * Pools that are no longer active, with all calls interleaved: the events by which one gains a row or a live
 * session, or goes back in its lifecycle. Call by call none does.
 */
module Growth {
  import opened Entities
  import opened Lifecycle
  import opened Invariant
  import opened History
  import opened CheckThenWrite
  import opened WriteSafety
  import opened Claim
  import opened LateHistory
  import opened Races

  /** The insert of a provisioning, whose check of the pool came before its wait for the pool's lock. */
  predicate Inserts(s: State, e: Event, p: Id) {
    && e.Finish? && e.h in s.handlers && s.handlers[e.h].work.Inserting? && s.handlers[e.h].work.p == p
    && p in s.db.pools && LowestFree(UsedVmids(s.db, p), s.db.pools[p].lo, s.db.pools[p].hi).Some?
  }

  /** The commit of a connect, which checked the pool when it arrived. */
  predicate Opens(s: State, e: Event, p: Id) {
    || (e.Commit? && HasClaim(s, e.t) && s.db.desktops[s.txns[e.t].phase.row].pool == p)
    || (e.Finish? && e.h in s.handlers && s.handlers[e.h].work.Reconnecting?
        && s.handlers[e.h].work.d in RowsOf(s.db, p))
  }

  /** A drain that checked an active pool and is written over its deletion. */
  predicate Undeletes(s: State, e: Event, p: Id) {
    && e.Finish? && e.h in s.handlers && s.handlers[e.h].work == DrainingPool(p)
    && p in s.db.pools && s.db.pools[p].status == PoolDeleting
  }

  lemma NoNewRows(db: Db, db': Db, p: Id)
    requires Forward(db, db') && db'.desktops.Keys <= db.desktops.Keys
    ensures RowsOf(db', p) <= RowsOf(db, p)
  {
  }

  /** Only an insert adds rows. */
  lemma WriteAddsRows(db: Db, w: Work, a: Answer)
    requires !w.Inserting?
    ensures Write(db, w, a).desktops.Keys <= db.desktops.Keys
  {
  }

  lemma EventAddsRows(s: State, e: Event)
    requires ClaimInv(s) && Enabled(s, e) && !(e.Finish? && s.handlers[e.h].work.Inserting?)
    ensures Next(s, e).db.desktops.Keys <= s.db.desktops.Keys
  {
    match e
    case Finish(h, answer) =>
      FinishWrites(s, h, answer);
      WriteAddsRows(s.db, s.handlers[h].work, answer);
    case Entitle(_) =>
    case _ => ConnectAddsNoRows(s, e);
  }

  lemma ConnectAddsNoRows(s: State, e: Event)
    requires Enabled(s, e) && !e.Finish? && !e.Entitle?
    ensures Next(s, e).db.desktops.Keys == s.db.desktops.Keys && Next(s, e).db.pools == s.db.pools
    ensures !e.Commit? ==> Next(s, e).db == s.db
  {
  }

  lemma InsertAddsRow(db: Db, p: Id, q: Id, owner: Option<string>, clone: Option<string>)
    requires Inv(db)
    ensures !(RowsOf(Reserve(db, p, owner, clone), q) <= RowsOf(db, q))
            <==> p == q && p in db.pools && LowestFree(UsedVmids(db, p), db.pools[p].lo, db.pools[p].hi).Some?
  {
    var db' := Reserve(db, p, owner, clone);
    if db' != db {
      assert db.nextId in db'.desktops && db.nextId !in db.desktops;
      assert db.nextId in RowsOf(db', p);
    }
  }

  /** A pool gains a row exactly by an insert, active or not. */
  lemma RowsGrowIff(s: State, e: Event, p: Id)
    requires ClaimInv(s) && Enabled(s, e)
    ensures !(RowsOf(Next(s, e).db, p) <= RowsOf(s.db, p)) <==> Inserts(s, e, p)
  {
    if e.Finish? && s.handlers[e.h].work.Inserting? {
      var w := s.handlers[e.h].work;
      FinishWrites(s, e.h, e.answer);
      InsertAddsRow(s.db, w.p, p, w.owner, e.answer.clone);
    } else {
      EventAddsRows(s, e);
      EventIsForward(s, e);
      NoNewRows(s.db, Next(s, e).db, p);
    }
  }

  lemma NoNewSessions(db: Db, db': Db, p: Id)
    requires Inv(db) && Forward(db, db') && db'.sessions.Keys <= db.sessions.Keys
    ensures LiveOf(db', p) <= LiveOf(db, p)
  {
    forall s | s in LiveOf(db', p)
      ensures s in LiveOf(db, p)
    {
      LiveOfWas(db, db', p, s);
      assert SessionOk(db, db.sessions[s]);
    }
  }

  lemma WriteAddsSessions(db: Db, w: Work, a: Answer)
    requires !w.Reconnecting?
    ensures Write(db, w, a).sessions.Keys <= db.sessions.Keys
  {
  }

  lemma EventAddsSessions(s: State, e: Event)
    requires ClaimInv(s) && Enabled(s, e) && !(e.Finish? && s.handlers[e.h].work.Reconnecting?) && !e.Commit?
    ensures Next(s, e).db.sessions.Keys <= s.db.sessions.Keys
  {
    match e
    case Finish(h, answer) =>
      FinishWrites(s, h, answer);
      WriteAddsSessions(s.db, s.handlers[h].work, answer);
    case Entitle(_) =>
    case _ => ConnectAddsNoRows(s, e);
  }

  lemma OpenAddsSession(db: Db, d: Id, user: string, wasConnected: bool, ticket: string, p: Id)
    requires Inv(db)
    ensures !(LiveOf(WriteSession(db, d, user, wasConnected, ticket), p) <= LiveOf(db, p)) <==> d in RowsOf(db, p)
  {
    var db' := WriteSession(db, d, user, wasConnected, ticket);
    if d in db.desktops {
      assert forall s | s in db.sessions :: s in LiveOf(db', p) <==> s in LiveOf(db, p);
      assert db.nextId !in db.sessions;
      assert db.nextId in LiveOf(db', p) <==> d in RowsOf(db, p);
    }
  }

  lemma ClaimAddsSession(db: Db, r: Id, user: string, ticket: string, p: Id)
    requires Inv(db) && r in db.desktops
    ensures !(LiveOf(ClaimCommitted(db, r, user, ticket), p) <= LiveOf(db, p)) <==> r in RowsOf(db, p)
  {
    var db' := ClaimCommitted(db, r, user, ticket);
    assert forall s | s in db.sessions :: s in LiveOf(db', p) <==> s in LiveOf(db, p);
    assert db.nextId !in db.sessions;
    assert db.nextId in LiveOf(db', p) <==> r in RowsOf(db, p);
  }

  lemma CommitWrites(s: State, t: Id, ticket: string)
    requires Enabled(s, Commit(t, ticket))
    ensures Next(s, Commit(t, ticket)).db == ClaimCommitted(s.db, s.txns[t].phase.row, s.txns[t].user, ticket)
  {
  }

  /** A pool gains a live session exactly by the commit of a connect, active or not. */
  lemma SessionsGrowIff(s: State, e: Event, p: Id)
    requires ClaimInv(s) && Enabled(s, e)
    ensures !(LiveOf(Next(s, e).db, p) <= LiveOf(s.db, p)) <==> Opens(s, e, p)
  {
    if e.Finish? && s.handlers[e.h].work.Reconnecting? {
      var w := s.handlers[e.h].work;
      FinishWrites(s, e.h, e.answer);
      OpenAddsSession(s.db, w.d, w.user, w.wasConnected, e.answer.ticket, p);
    } else if e.Commit? {
      CommitWrites(s, e.t, e.ticket);
      ClaimAddsSession(s.db, s.txns[e.t].phase.row, s.txns[e.t].user, e.ticket, p);
    } else {
      EventAddsSessions(s, e);
      EventIsForward(s, e);
      NoNewSessions(s.db, Next(s, e).db, p);
    }
  }

  lemma CascadeKeepsPools(db: Db, p: Id, todo: set<Id>, doing: map<Id, bool>, failed: bool, a: Answer)
    ensures forall q | q in WriteCascade(db, p, todo, doing, failed, a).pools ::
              q in db.pools && WriteCascade(db, p, todo, doing, failed, a).pools[q] == db.pools[q]
  {
  }

  lemma WriteKeepsPools(db: Db, w: Work, a: Answer)
    requires Inv(db) && !w.DroppingPool? && !w.DrainingPool? && !w.CreatingPool? && !w.Cascading? && !w.Updating?
    ensures Write(db, w, a).pools == db.pools
  {
  }

  lemma PoolWriteRank(db: Db, w: Work, a: Answer, p: Id)
    requires Inv(db) && p in db.pools && OfPools(w)
    ensures p in Write(db, w, a).pools
    ensures PoolRank(Write(db, w, a).pools[p].status) < PoolRank(db.pools[p].status)
            <==> w == DrainingPool(p) && db.pools[p].status == PoolDeleting
  {
    assert db.nextId !in db.pools;
  }

  lemma WriteKeepsRank(db: Db, w: Work, a: Answer, p: Id)
    requires Inv(db) && p in db.pools && p in Write(db, w, a).pools
    ensures PoolRank(Write(db, w, a).pools[p].status) < PoolRank(db.pools[p].status)
            <==> w == DrainingPool(p) && db.pools[p].status == PoolDeleting
  {
    if OfPools(w) {
      PoolWriteRank(db, w, a, p);
    } else if w.Cascading? {
      CascadeKeepsPools(db, w.p, w.todo, w.doing, w.failed, a);
    } else {
      WriteKeepsPools(db, w, a);
    }
  }

  /** A pool goes back exactly when a drain is written over its deletion. */
  lemma StatusGoesBackIff(s: State, e: Event, p: Id)
    requires ClaimInv(s) && Enabled(s, e) && p in s.db.pools && p in Next(s, e).db.pools
    ensures PoolRank(Next(s, e).db.pools[p].status) < PoolRank(s.db.pools[p].status) <==> Undeletes(s, e, p)
  {
    if e.Finish? {
      FinishWrites(s, e.h, e.answer);
      WriteKeepsRank(s.db, s.handlers[e.h].work, e.answer, p);
    } else {
      OthersKeepPools(s, e);
    }
  }

  lemma OthersKeepPools(s: State, e: Event)
    requires Enabled(s, e) && !e.Finish?
    ensures Next(s, e).db.pools == s.db.pools
  {
    if !e.Entitle? {
      ConnectAddsNoRows(s, e);
    }
  }
}

/** What no late write undoes, safe or not: identifiers, the place of rows, the kind of pools, the end of sessions. */
module LateHistory {
  import opened Entities
  import opened Lifecycle
  import opened Invariant
  import opened CheckThenWrite
  import opened WriteSafety
  import opened Claim

  /** Identifiers are not reused, pools and rows keep what they are, sessions only end or lose their desktop. */
  ghost predicate Forward(db: Db, db': Db) {
    && db.nextId <= db'.nextId
    && (forall p | p in db'.pools ::
          if p in db.pools
          then SamePlace(db.pools[p], db'.pools[p])
          else p >= db.nextId)
    && (forall d | d in db'.desktops ::
          if d in db.desktops
          then db'.desktops[d].pool == db.desktops[d].pool && db'.desktops[d].vmid == db.desktops[d].vmid
          else d >= db.nextId)
    && (forall s | s in db'.sessions ::
          if s in db.sessions
          then Live(db'.sessions[s]) ==> Continues(db.sessions[s], db'.sessions[s])
          else s >= db.nextId)
  }

  predicate SamePlace(was: Pool, now: Pool) {
    now.kind == was.kind && now.lo == was.lo && now.hi == was.hi
  }

  predicate Continues(was: Session, now: Session) {
    Live(was) && now.desktop in {was.desktop, None}
  }

  predicate OfPools(w: Work) {
    w.Updating? || w.DroppingPool? || w.DrainingPool? || w.CreatingPool?
  }

  /** Works whose write makes, removes or opens rows, or writes several. */
  predicate OfTables(w: Work) {
    || w.Vacating? || w.Reconnecting? || w.Dropping? || w.Removing? || w.Inserting? || w.Sweeping? || w.Cascading?
  }

  lemma WriteIsForward(db: Db, w: Work, a: Answer)
    requires Inv(db) && WorkSound(db, w)
    ensures Forward(db, Write(db, w, a))
  {
    if OfPools(w) {
      PoolWriteIsForward(db, w, a);
    } else if OfTables(w) {
      TableWriteIsForward(db, w, a);
    } else {
      RowWriteIsForward(db, w, a);
    }
  }

  lemma PoolWriteIsForward(db: Db, w: Work, a: Answer)
    requires Inv(db) && OfPools(w)
    ensures Forward(db, Write(db, w, a))
  {
    match w
    case Updating(p, patch, seen) => UpdateIsForward(db, p, patch, seen);
    case DroppingPool(p) => MoveIsForward(db, p, PoolDeleting);
    case DrainingPool(p) => MoveIsForward(db, p, PoolDraining);
    case CreatingPool(pool) => CreateIsForward(db, pool);
  }

  lemma TableWriteIsForward(db: Db, w: Work, a: Answer)
    requires Inv(db) && OfTables(w)
    ensures Forward(db, Write(db, w, a))
  {
    if w.Dropping? || w.Removing? || w.Cascading? {
      RazingIsForward(db, w, a);
    } else {
      match w
      case Vacating(s, d, read) => EndIsForward(db, s, d, read);
      case Reconnecting(d, user, wasConnected) => SessionIsForward(db, d, user, wasConnected, a.ticket);
      case Inserting(p, owner, _) => InsertIsForward(db, p, owner, a.clone);
      case Sweeping(stuck) => SweepIsForward(db, stuck);
    }
  }

  lemma RazingIsForward(db: Db, w: Work, a: Answer)
    requires w.Dropping? || w.Removing? || w.Cascading?
    ensures Forward(db, Write(db, w, a))
  {
    match w
    case Dropping(d) => RemovalIsForward(db, d);
    case Removing(d) => RemovalIsForward(db, d);
    case Cascading(p, todo, doing, failed) => CascadeIsForward(db, p, todo, doing, failed, a);
  }

  /** The writes of one row, and the works that write nothing. */
  lemma RowWriteIsForward(db: Db, w: Work, a: Answer)
    requires !OfPools(w) && !OfTables(w)
    ensures Forward(db, Write(db, w, a))
  {
    match w
    case Closing(d, read, status, power, _) => LateIsForward(db, d, read, Closed(read, status, power));
    case Failing(d, read, clears) => LateIsForward(db, d, read, Failed(read, clears));
    case Resetting(d, owner, read) => ResetIsForward(db, d, owner, read, a.clone);
    case Building(d, given, _) => BuildIsForward(db, d, given, a.build);
    case Refreshing(d, floating, running) => RefreshIsForward(db, d, floating, running);
    case Polling(_, _) =>
    case Ending(_) =>
    case Restarting(_, _, _) =>
    case Listing(_) =>
    case _ => RewriteIsForward(db, w, a);
  }

  lemma InsertIsForward(db: Db, p: Id, owner: Option<string>, clone: Option<string>)
    requires Inv(db)
    ensures Forward(db, Reserve(db, p, owner, clone))
  {
    assert db.nextId !in db.desktops;
  }

  lemma ResetIsForward(db: Db, d: Id, owner: Option<string>, read: Desktop, clone: Option<string>)
    ensures Forward(db, WriteReset(db, d, owner, read, clone))
  {
    if read.pool in db.pools {
      LateIsForward(db, d, read, ResetRow(db.pools[read.pool], read, owner, clone));
    }
  }

  lemma SweepIsForward(db: Db, stuck: map<Id, Desktop>)
    ensures Forward(db, WriteSwept(db, stuck))
  {
  }

  lemma UpdateIsForward(db: Db, p: Id, patch: PoolPatch, seen: Pool)
    ensures Forward(db, WriteUpdate(db, p, patch, seen))
  {
  }

  lemma RazedIsForward(db: Db, d: Id, wasError: bool, fate: Fate)
    ensures Forward(db, WriteRazed(db, d, wasError, fate))
  {
  }

  lemma CascadeIsForward(db: Db, p: Id, todo: set<Id>, doing: map<Id, bool>, failed: bool, a: Answer)
    ensures Forward(db, WriteCascade(db, p, todo, doing, failed, a))
  {
    if todo != {} || doing != map[] {
      var d := Picked(todo, doing, a.at);
      if d in doing {
        RazedIsForward(db, d, doing[d], FateOf(a.fates, d));
      }
    }
  }

  lemma RowIsForward(db: Db, d: Id, row: Desktop)
    requires d in db.desktops && row.pool == db.desktops[d].pool && row.vmid == db.desktops[d].vmid
    ensures Forward(db, db.(desktops := db.desktops[d := row]))
  {
  }

  lemma BuildIsForward(db: Db, d: Id, given: bool, build: Build)
    ensures Forward(db, WriteBuild(db, d, given, build))
  {
    if d in db.desktops {
      RowIsForward(db, d, WriteBuild(db, d, given, build).desktops[d]);
    }
  }

  lemma RefreshIsForward(db: Db, d: Id, floating: bool, running: bool)
    ensures Forward(db, WriteRefresh(db, d, floating, running))
  {
    if d in db.desktops {
      RowIsForward(db, d, WriteRefresh(db, d, floating, running).desktops[d]);
    }
  }

  lemma LateIsForward(db: Db, d: Id, read: Desktop, row: Desktop)
    requires row.pool == read.pool && row.vmid == read.vmid
    ensures Forward(db, Late(db, d, read, row))
  {
    if d in db.desktops {
      RowIsForward(db, d, Merged(db.desktops[d], read, row));
    }
  }

  lemma RewriteIsForward(db: Db, w: Work, a: Answer)
    requires w.Assigning? || w.Unassigning? || w.Powering? || w.Dooming?
    ensures Forward(db, Write(db, w, a))
  {
    if w.d in db.desktops && db.desktops[w.d].pool in db.pools {
      RowIsForward(db, w.d, Rewritten(db, db.desktops[w.d], w, a));
    }
  }

  lemma MoveIsForward(db: Db, p: Id, status: PoolStatus)
    ensures Forward(db, MovePool(db, p, status))
  {
  }

  lemma CreateIsForward(db: Db, pool: Pool)
    requires Inv(db)
    ensures Forward(db, InsertPool(db, pool))
  {
    assert db.nextId !in db.pools;
  }

  lemma EndIsForward(db: Db, s: Id, d: Id, read: Desktop)
    ensures Forward(db, WriteVacated(db, s, d, read))
  {
  }

  lemma SessionIsForward(db: Db, d: Id, user: string, wasConnected: bool, ticket: string)
    requires Inv(db)
    ensures Forward(db, WriteSession(db, d, user, wasConnected, ticket))
  {
    assert db.nextId !in db.sessions;
  }

  lemma ClaimIsForward(db: Db, r: Id, user: string, ticket: string)
    requires Inv(db) && r in db.desktops
    ensures Forward(db, ClaimCommitted(db, r, user, ticket))
  {
    assert db.nextId !in db.sessions;
  }

  lemma RemovalIsForward(db: Db, d: Id)
    ensures Forward(db, WriteRemoved(db, d))
  {
  }
}

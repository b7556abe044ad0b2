/**
 * When a late write does no harm: for every write of `CheckThenWrite`, on any state, what could be checked
 * again just before it and is equivalent to the lifecycle invariant's surviving it.
 */
module WriteSafety {
  import opened Entities
  import opened Lifecycle
  import opened Invariant
  import opened CheckThenWrite

  // ── When a late write does no harm ────────────────────────────────

  predicate PoolIsDeleting(db: Db, row: Desktop) {
    row.pool in db.pools && db.pools[row.pool].status == PoolDeleting
  }

  /** An assignment overtaken: by a session of somebody else, or by a change of the status it relied on. */
  predicate AssignSafe(db: Db, d: Id, user: string, saw: Sight)
    requires d in db.desktops
  {
    saw.OwnRow?
    || (&& (forall s | s in LiveOn(db, d) :: db.sessions[s].user == user)
        && (if saw.SpareRow? then Doomed(db.desktops[d]) ==> PoolIsDeleting(db, db.desktops[d])
            else db.desktops[d].status != Available))
  }

  predicate UnassignSafe(db: Db, d: Id, wasAssigned: bool)
    requires d in db.desktops
  {
    LiveOn(db, d) == {} && (wasAssigned && Doomed(db.desktops[d]) ==> PoolIsDeleting(db, db.desktops[d]))
  }

  predicate DoomSafe(db: Db, d: Id, wasDeleting: bool)
    requires d in db.desktops
  {
    && LiveOn(db, d) == {}
    && (wasDeleting ==> db.desktops[d].status == Deleting || PoolIsDeleting(db, db.desktops[d]))
  }

  /** Nobody but the session that ends may be live on a desktop that is set free. */
  predicate EndSafe(db: Db, s: Id, d: Id, read: Desktop)
    requires d in db.desktops
  {
    && (read.assignment == Some(Floating) ==> LiveOn(db, d) <= {s})
    && (read.assignment == Some(Floating) || read.status != Disconnected ==>
          Doomed(db.desktops[d]) ==> PoolIsDeleting(db, db.desktops[d]))
  }

  /** Of a status set late, with the task fields read cleared: no task begun since, no user come, nobody live. */
  predicate CloseSafe(db: Db, d: Id, read: Desktop, status: DesktopStatus)
    requires d in db.desktops
  {
    var now := db.desktops[d];
    && (read.task.None? && Doomed(now) && status != read.status && status != Deleting ==> PoolIsDeleting(db, now))
    && (read.task.None? && read.upid.Some? ==> now.task.None?)
    && (status == Available && read.status != Available ==> now.user.None?)
    && (status == Deleting && read.status != Deleting ==> LiveOn(db, d) == {})
  }

  predicate FailSafe(db: Db, d: Id, read: Desktop, clears: bool)
    requires d in db.desktops
  {
    && (clears && read.assignment == Some(Floating) ==> LiveOn(db, d) == {})
    && (read.status != Error && Doomed(db.desktops[d]) ==> PoolIsDeleting(db, db.desktops[d]))
  }

  /** The row a connect found is still its user's, and stays. */
  predicate ReconnectSafe(db: Db, d: Id, user: string, wasConnected: bool)
    requires d in db.desktops && db.desktops[d].pool in db.pools
  {
    var row := db.desktops[d];
    && row.user == Some(user) && !Doomed(row) && !PoolIsDeleting(db, row)
    && (wasConnected ==> row.status != Deleting)
    && (db.pools[row.pool].kind == NonPersistent ==> LiveOn(db, d) == {})
  }

  /** A row nobody has given away, or a task to, while it was built. */
  predicate BuildSafe(row: Desktop, given: bool, build: Build) {
    row.task.None? && (build.Built? && !given ==> row.user.None?)
  }

  /** A refreshed desktop goes back to the spares: nobody may be live on it, or have been given it meanwhile. */
  predicate RefreshSafe(db: Db, d: Id, floating: bool)
    requires d in db.desktops
  {
    var row := db.desktops[d];
    (Doomed(row) ==> PoolIsDeleting(db, row)) && LiveOn(db, d) == {} && (floating || row.user.None?)
  }

  /** What is known of a row that was read, whatever has become of it since. */
  predicate ReadOk(db: Db, d: Id, read: Desktop) {
    && (d in db.desktops ==> db.desktops[d].pool == read.pool && db.desktops[d].vmid == read.vmid)
    && (read.user.None? <==> read.assignment.None?)
    && (read.status == Available ==> read.user.None?)
    && (read.pool in db.pools && read.assignment.Some? ==>
          (read.assignment.value == Dedicated <==> db.pools[read.pool].kind == Persistent))
  }

  predicate OwnerOk(db: Db, p: Id, owner: Option<string>) {
    owner.Some? && p in db.pools ==> db.pools[p].kind == Persistent
  }

  /**
   * The kept user of a rebuild is written only if the second leg read another: nobody else may be live on the
   * row by then. The rest guards against a user taken, a spare made, or a task begun, since that read.
   */
  predicate ResetSafe(db: Db, d: Id, owner: Option<string>, read: Desktop, clone: Option<string>)
    requires d in db.desktops
  {
    var now := db.desktops[d];
    var status := if clone.None? then Error else Provisioning;
    && (forall s | s in LiveOn(db, d) :: owner == read.user || owner == Some(db.sessions[s].user))
    && (owner.Some? && read.user.Some? && owner != read.user ==> now.user.Some?)
    && (owner.Some? && owner != read.user && read.status == status ==> now.status != Available)
    && (read.task.None? && Doomed(now) && read.status != status ==> PoolIsDeleting(db, now))
    && (read.task.None? && read.upid.Some? && clone.None? ==> now.task.None?)
  }

  /** A cascade's destroy of a row that sessions have got since, or of one another task will remove. */
  predicate RazeSafe(db: Db, d: Id, wasError: bool, fate: Fate)
    requires d in db.desktops
  {
    match fate
    case Crashed => true
    case Refused => !wasError && Doomed(db.desktops[d]) ==> PoolIsDeleting(db, db.desktops[d])
    case _ => LiveOn(db, d) == {}
  }

  predicate CascadeSafe(db: Db, todo: set<Id>, doing: map<Id, bool>, a: Answer) {
    todo != {} || doing != map[] ==>
      var d := Picked(todo, doing, a.at);
      d in doing && d in db.desktops ==> RazeSafe(db, d, doing[d], FateOf(a.fates, d))
  }

  predicate SweepSafe(db: Db, stuck: map<Id, Desktop>) {
    (forall d | d in stuck :: d in db.desktops) ==>
      forall d | d in stuck && d in db.desktops :: CloseSafe(db, d, stuck[d], Error)
  }

  /** Facts about a work that no call changes. */
  predicate WorkSound(db: Db, w: Work) {
    match w
    case CreatingPool(pool) => PoolOk(pool.(status := PoolActive))
    case Inserting(p, owner, _) => OwnerOk(db, p, owner)
    case Restarting(d, p, owner) => OwnerOk(db, p, owner) && (d in db.desktops ==> db.desktops[d].pool == p)
    case Resetting(d, owner, read) => ReadOk(db, d, read) && OwnerOk(db, read.pool, owner)
    case Vacating(s, d, read) =>
      ReadOk(db, d, read) && (s in db.sessions && Live(db.sessions[s]) ==> db.sessions[s].desktop in {Some(d), None})
    case Closing(d, read, _, _, _) => ReadOk(db, d, read)
    case Failing(d, read, _) => ReadOk(db, d, read)
    case Sweeping(stuck) => forall d | d in stuck :: stuck[d].status == Provisioning
    case Updating(p, patch, seen) =>
      p in db.pools ==> db.pools[p].lo == seen.lo && db.pools[p].hi == seen.hi && PoolOk(Patched(seen, patch))
    case _ => true
  }

  /** What could be checked again just before the write. */
  predicate Safe(db: Db, w: Work, a: Answer) {
    match w
    case Assigning(d, user, saw) => d in db.desktops ==> AssignSafe(db, d, user, saw)
    case Unassigning(d, wasAssigned) => d in db.desktops ==> UnassignSafe(db, d, wasAssigned)
    case Powering(_, _) => true
    case Dooming(d, _, wasDeleting) => d in db.desktops ==> DoomSafe(db, d, wasDeleting)
    case DroppingPool(p) => p in db.pools ==> LiveOf(db, p) == {}
    case DrainingPool(p) => p in db.pools && db.pools[p].status == PoolDeleting ==> DoomedRowsDelete(db, p)
    case CreatingPool(pool) =>
      || (exists q | q in db.pools :: db.pools[q].name == pool.name)
      || (forall q | q in db.pools :: !Meets(db.pools[q], pool.lo, pool.hi))
    case Ending(_) => true
    case Vacating(s, d, read) => s in db.sessions && d in db.desktops ==> EndSafe(db, s, d, read)
    case Polling(_, _) => true
    case Closing(d, read, status, _, _) => d in db.desktops ==> CloseSafe(db, d, read, status)
    case Dropping(d) => d in db.desktops ==> LiveOn(db, d) == {}
    case Reconnecting(d, user, wasConnected) =>
      d in db.desktops && db.desktops[d].pool in db.pools ==> ReconnectSafe(db, d, user, wasConnected)
    case Building(d, given, _) => d in db.desktops ==> BuildSafe(db.desktops[d], given, a.build)
    case Refreshing(d, floating, _) => a.cycle.CycleDone? && d in db.desktops ==> RefreshSafe(db, d, floating)
    case Removing(d) => a.cycle.CycleDone? && d in db.desktops ==> LiveOn(db, d) == {}
    case Failing(d, read, clears) => d in db.desktops ==> FailSafe(db, d, read, clears)
    case Inserting(_, _, _) => true
    case Restarting(_, _, _) => true
    case Resetting(d, owner, read) => d in db.desktops ==> ResetSafe(db, d, owner, read, a.clone)
    case Sweeping(stuck) => SweepSafe(db, stuck)
    case Updating(_, _, _) => true
    case Listing(_) => true
    case Cascading(_, todo, doing, _) => CascadeSafe(db, todo, doing, a)
  }

  /** What a row's live sessions can rely on. */
  lemma LiveMeansHosted(db: Db, d: Id)
    requires Inv(db) && d in db.desktops
    ensures RowOk(db, db.desktops[d])
    ensures forall s | s in LiveOn(db, d) :: Hosts(db, db.desktops[d], db.sessions[s].user)
  {
    assert RowOk(db, db.desktops[d]);
    forall s | s in LiveOn(db, d)
      ensures Hosts(db, db.desktops[d], db.sessions[s].user)
    {
      assert SessionOk(db, db.sessions[s]);
    }
  }

  /** A row can be rewritten in place exactly when the new row is sound and still hosts every live session. */
  lemma RowWriteIff(db: Db, d: Id, row: Desktop)
    requires Inv(db) && d in db.desktops && row.pool == db.desktops[d].pool && row.vmid == db.desktops[d].vmid
    ensures row.pool in db.pools
    ensures Inv(db.(desktops := db.desktops[d := row]))
            <==> RowOk(db, row) && forall s | s in LiveOn(db, d) :: Hosts(db, row, db.sessions[s].user)
  {
    assert RowOk(db, db.desktops[d]);
    if Inv(db.(desktops := db.desktops[d := row])) {
      LiveMeansHosted(db.(desktops := db.desktops[d := row]), d);
    }
    if RowOk(db, row) && forall s | s in LiveOn(db, d) :: Hosts(db, row, db.sessions[s].user) {
      WriteRow(db, d, row);
    }
  }

  lemma RewriteSafeIff(db: Db, w: Work, a: Answer)
    requires Inv(db) && (w.Assigning? || w.Unassigning? || w.Powering? || w.Dooming?)
    ensures Inv(Write(db, w, a)) <==> Safe(db, w, a)
  {
    if w.d in db.desktops {
      var row := db.desktops[w.d];
      LiveMeansHosted(db, w.d);
      RowWriteIff(db, w.d, Rewritten(db, row, w, a));
    }
  }

  lemma PoolWriteSafeIff(db: Db, w: Work, a: Answer)
    requires Inv(db) && (w.DroppingPool? || w.DrainingPool?)
    ensures Inv(Write(db, w, a)) <==> Safe(db, w, a)
  {
    if w.p in db.pools {
      var db' := Write(db, w, a);
      if Safe(db, w, a) {
        WritePool(db, w.p, db'.pools[w.p]);
      } else if w.DroppingPool? {
        var s :| s in LiveOf(db, w.p);
        assert SessionOk(db, db.sessions[s]);
        assert !SessionOk(db', db'.sessions[s]);
      } else {
        var d :| d in RowsOf(db, w.p) && Doomed(db.desktops[d]) && db.desktops[d].status != Deleting;
        assert !RowOk(db', db'.desktops[d]);
      }
    }
  }

  lemma CreateSafeIff(db: Db, pool: Pool, a: Answer)
    requires Inv(db) && PoolOk(pool.(status := PoolActive))
    ensures Inv(Write(db, CreatingPool(pool), a)) <==> Safe(db, CreatingPool(pool), a)
  {
    var db' := Write(db, CreatingPool(pool), a);
    if db' != db {
      if Safe(db, CreatingPool(pool), a) {
        CreatePoolKeeps(db, pool, {});
        assert CreatePool(db, pool, {}).0 == db';
      } else {
        var q :| q in db.pools && Meets(db.pools[q], pool.lo, pool.hi);
        assert !Apart(db'.pools[q], db'.pools[db.nextId]);
      }
    }
  }

  lemma EndedKeeps(db: Db, s: Id)
    requires Inv(db) && s in db.sessions
    ensures Inv(db.(sessions := db.sessions[s := db.sessions[s].(status := SessionEnded, ticket := None)]))
  {
    var db' := db.(sessions := db.sessions[s := db.sessions[s].(status := SessionEnded, ticket := None)]);
    forall t | t in db'.sessions
      ensures SessionOk(db', db'.sessions[t])
    {
      assert SessionOk(db, db.sessions[t]);
    }
    forall d | d in db'.desktops
      ensures RowOk(db', db'.desktops[d])
    {
      assert RowOk(db, db.desktops[d]);
    }
    forall t, u | t in db'.sessions && u in db'.sessions && t != u
      ensures !Clash(db', t, u)
    {
      assert !Clash(db, t, u);
    }
  }

  lemma EndSafeIff(db: Db, s: Id, d: Id, read: Desktop)
    requires Inv(db) && s in db.sessions && d in db.desktops && WorkSound(db, Vacating(s, d, read))
    ensures Inv(WriteVacated(db, s, d, read)) <==> EndSafe(db, s, d, read)
  {
    var ended := db.(sessions := db.sessions[s := db.sessions[s].(status := SessionEnded, ticket := None)]);
    EndedKeeps(db, s);
    assert LiveOn(ended, d) == LiveOn(db, d) - {s};
    assert LiveOn(db, d) <= {s} <==> LiveOn(ended, d) == {};
    VacatedRowIff(ended, d, s, read);
  }

  lemma VacatedRowIff(db: Db, d: Id, s: Id, read: Desktop)
    requires Inv(db) && d in db.desktops && ReadOk(db, d, read)
    ensures Inv(Late(db, d, read, Vacated(read)))
            <==> (read.assignment == Some(Floating) ==> LiveOn(db, d) == {})
                 && (read.assignment == Some(Floating) || read.status != Disconnected ==>
                       Doomed(db.desktops[d]) ==> PoolIsDeleting(db, db.desktops[d]))
  {
    LiveMeansHosted(db, d);
    RowWriteIff(db, d, Merged(db.desktops[d], read, Vacated(read)));
  }

  lemma CloseSafeIff(db: Db, d: Id, read: Desktop, status: DesktopStatus, power: Power)
    requires Inv(db) && d in db.desktops && ReadOk(db, d, read)
    ensures Inv(Late(db, d, read, Closed(read, status, power))) <==> CloseSafe(db, d, read, status)
  {
    LiveMeansHosted(db, d);
    RowWriteIff(db, d, Merged(db.desktops[d], read, Closed(read, status, power)));
  }

  lemma FailSafeIff(db: Db, d: Id, read: Desktop, clears: bool)
    requires Inv(db) && d in db.desktops && ReadOk(db, d, read)
    ensures Inv(Late(db, d, read, Failed(read, clears))) <==> FailSafe(db, d, read, clears)
  {
    LiveMeansHosted(db, d);
    RowWriteIff(db, d, Merged(db.desktops[d], read, Failed(read, clears)));
  }

  lemma ResetSafeIff(db: Db, d: Id, owner: Option<string>, read: Desktop, clone: Option<string>)
    requires Inv(db) && d in db.desktops && ReadOk(db, d, read) && OwnerOk(db, read.pool, owner)
    ensures Inv(WriteReset(db, d, owner, read, clone)) <==> ResetSafe(db, d, owner, read, clone)
  {
    LiveMeansHosted(db, d);
    RowWriteIff(db, d, Merged(db.desktops[d], read, ResetRow(db.pools[read.pool], read, owner, clone)));
  }

  lemma RazeSafeIff(db: Db, d: Id, wasError: bool, fate: Fate)
    requires Inv(db) && d in db.desktops
    ensures Inv(WriteRazed(db, d, wasError, fate)) <==> RazeSafe(db, d, wasError, fate)
  {
    if fate.Refused? {
      LiveMeansHosted(db, d);
      RowWriteIff(db, d, db.desktops[d].(status := Error));
    } else {
      RemovalSafeIff(db, d);
    }
  }

  function Swept(now: Desktop, read: Desktop): Desktop {
    Merged(now, read, TaskError(read))
  }

  lemma SweptRowIff(db: Db, d: Id, read: Desktop)
    requires Inv(db) && d in db.desktops && read.status == Provisioning
    ensures db.desktops[d].pool in db.pools
    ensures RowOk(db, Swept(db.desktops[d], read)) <==> CloseSafe(db, d, read, Error)
    ensures CloseSafe(db, d, read, Error) ==>
              forall s | s in LiveOn(db, d) :: Hosts(db, Swept(db.desktops[d], read), db.sessions[s].user)
  {
    LiveMeansHosted(db, d);
  }

  lemma SweepSafeIff(db: Db, stuck: map<Id, Desktop>)
    requires Inv(db) && WorkSound(db, Sweeping(stuck))
    ensures Inv(WriteSwept(db, stuck)) <==> SweepSafe(db, stuck)
  {
    if forall d | d in stuck :: d in db.desktops {
      var db' := WriteSwept(db, stuck);
      if SweepSafe(db, stuck) {
        SweepKeeps(db, stuck);
      } else {
        var d :| d in stuck && d in db.desktops && !CloseSafe(db, d, stuck[d], Error);
        SweptRowIff(db, d, stuck[d]);
        assert !RowOk(db', db'.desktops[d]);
      }
    }
  }

  lemma SweepKeeps(db: Db, stuck: map<Id, Desktop>)
    requires Inv(db) && WorkSound(db, Sweeping(stuck)) && (forall d | d in stuck :: d in db.desktops)
    requires SweepSafe(db, stuck)
    ensures Inv(WriteSwept(db, stuck))
  {
    var rows := WriteSwept(db, stuck).desktops;
    forall d | d in rows
      ensures RowOk(db, rows[d]) && rows[d].pool == db.desktops[d].pool && rows[d].vmid == db.desktops[d].vmid
    {
      assert RowOk(db, db.desktops[d]);
      if d in stuck {
        SweptRowIff(db, d, stuck[d]);
      }
    }
    forall s | s in db.sessions && Live(db.sessions[s])
      ensures Hosts(db, rows[db.sessions[s].desktop.value], db.sessions[s].user)
    {
      assert SessionOk(db, db.sessions[s]);
      var d := db.sessions[s].desktop.value;
      if d in stuck {
        SweptRowIff(db, d, stuck[d]);
        assert s in LiveOn(db, d);
      }
    }
    WriteRows(db, rows);
  }

  lemma UpdateKeeps(db: Db, p: Id, patch: PoolPatch, seen: Pool)
    requires Inv(db) && WorkSound(db, Updating(p, patch, seen))
    ensures Inv(WriteUpdate(db, p, patch, seen))
  {
    if p in db.pools {
      WritePool(db, p, UpdatedPool(db.pools[p], seen, patch));
    }
  }

  lemma CascadeSafeIff(db: Db, p: Id, todo: set<Id>, doing: map<Id, bool>, failed: bool, a: Answer)
    requires Inv(db)
    ensures Inv(WriteCascade(db, p, todo, doing, failed, a)) <==> CascadeSafe(db, todo, doing, a)
  {
    if todo == {} && doing == map[] {
      if WriteDropped(db, p, failed) != db {
        DropPool(db, p);
      }
    } else {
      var d := Picked(todo, doing, a.at);
      if d in doing && d in db.desktops {
        RazeSafeIff(db, d, doing[d], FateOf(a.fates, d));
      }
    }
  }

  lemma BuildSafeIff(db: Db, d: Id, given: bool, build: Build)
    requires Inv(db) && d in db.desktops
    ensures Inv(WriteBuild(db, d, given, build)) <==> BuildSafe(db.desktops[d], given, build)
  {
    LiveMeansHosted(db, d);
    RowWriteIff(db, d, WriteBuild(db, d, given, build).desktops[d]);
  }

  lemma RefreshWriteIff(db: Db, d: Id, floating: bool, running: bool)
    requires Inv(db) && d in db.desktops
    ensures Inv(WriteRefresh(db, d, floating, running)) <==> RefreshSafe(db, d, floating)
  {
    LiveMeansHosted(db, d);
    RowWriteIff(db, d, WriteRefresh(db, d, floating, running).desktops[d]);
  }

  lemma RemovalSafeIff(db: Db, d: Id)
    requires Inv(db) && d in db.desktops
    ensures Inv(RemoveRows(db, {d})) <==> LiveOn(db, d) == {}
  {
    if LiveOn(db, d) == {} {
      forall s | s in db.sessions && Live(db.sessions[s])
        ensures db.sessions[s].desktop.value !in {d}
      {
        assert s !in LiveOn(db, d);
      }
      DropRows(db, {d});
    } else {
      var s :| s in LiveOn(db, d);
      assert !SessionOk(RemoveRows(db, {d}), RemoveRows(db, {d}).sessions[s]);
    }
  }

  /** The new session of a row has to be hosted, and alone on a non-persistent one. */
  lemma SessionNeeds(db: Db, db': Db, d: Id)
    requires Inv(db) && Inv(db') && d in db.desktops && db'.pools == db.pools
    requires d in db'.desktops && db'.desktops[d].pool == db.desktops[d].pool && db.desktops[d].pool in db.pools
    requires db.nextId in db'.sessions && Live(db'.sessions[db.nextId]) && db'.sessions[db.nextId].desktop == Some(d)
    requires db'.sessions - {db.nextId} == db.sessions
    ensures Hosts(db', db'.desktops[d], db'.sessions[db.nextId].user)
    ensures db.pools[db.desktops[d].pool].kind == NonPersistent ==> LiveOn(db, d) == {}
  {
    assert SessionOk(db', db'.sessions[db.nextId]);
    forall s | s in db.sessions && db.pools[db.desktops[d].pool].kind == NonPersistent
      ensures s !in LiveOn(db, d)
    {
      assert s != db.nextId && db'.sessions[s] == (db'.sessions - {db.nextId})[s];
      assert !Clash(db', s, db.nextId);
    }
  }

  lemma ReconnectSafeIff(db: Db, d: Id, user: string, wasConnected: bool, ticket: string)
    requires Inv(db) && d in db.desktops
    ensures db.desktops[d].pool in db.pools
    ensures Inv(WriteSession(db, d, user, wasConnected, ticket)) <==> ReconnectSafe(db, d, user, wasConnected)
  {
    LiveMeansHosted(db, d);
    var db' := WriteSession(db, d, user, wasConnected, ticket);
    if ReconnectSafe(db, d, user, wasConnected) {
      Attach(db, d, db'.desktops[d], user, ticket);
    }
    if Inv(db') {
      SessionNeeds(db, db', d);
    }
  }

  /** Of every call taken apart: its late write keeps the lifecycle invariant exactly when it is safe. */
  lemma WriteSafeIff(db: Db, w: Work, a: Answer)
    requires Inv(db) && WorkSound(db, w)
    ensures Inv(Write(db, w, a)) <==> Safe(db, w, a)
  {
    match w
    case Inserting(p, owner, _) => ReserveKeeps(db, p, owner, a.clone);
    case Restarting(_, _, _) =>
    case Listing(_) =>
    case Resetting(d, owner, read) => if d in db.desktops { ResetSafeIff(db, d, owner, read, a.clone); }
    case Sweeping(stuck) => SweepSafeIff(db, stuck);
    case Updating(p, patch, seen) => UpdateKeeps(db, p, patch, seen);
    case Cascading(p, todo, doing, failed) => CascadeSafeIff(db, p, todo, doing, failed, a);
    case DroppingPool(_) => PoolWriteSafeIff(db, w, a);
    case DrainingPool(_) => PoolWriteSafeIff(db, w, a);
    case CreatingPool(pool) => CreateSafeIff(db, pool, a);
    case Ending(_) =>
    case Polling(_, _) =>
    case Vacating(s, d, read) => if s in db.sessions && d in db.desktops { EndSafeIff(db, s, d, read); }
    case Closing(d, read, status, power, _) => if d in db.desktops { CloseSafeIff(db, d, read, status, power); }
    case Dropping(d) => if d in db.desktops { RemovalSafeIff(db, d); }
    case Failing(d, read, clears) => if d in db.desktops { FailSafeIff(db, d, read, clears); }
    case Reconnecting(d, user, wasConnected) =>
      if d in db.desktops { ReconnectSafeIff(db, d, user, wasConnected, a.ticket); }
    case Building(d, given, _) => if d in db.desktops { BuildSafeIff(db, d, given, a.build); }
    case Refreshing(d, floating, running) =>
      if d in db.desktops { RefreshWriteIff(db, d, floating, running); }
    case Removing(d) => if d in db.desktops { RemovalSafeIff(db, d); }
    case _ => RewriteSafeIff(db, w, a);
  }

  // ── Inserts ───────────────────────────────────────────────────────

  lemma ReservedRow(db: Db, p: Id, user: Option<string>, clone: Option<string>)
    requires Inv(db) && p in db.pools && (user.Some? ==> db.pools[p].kind == Persistent)
    requires Reserve(db, p, user, clone) != db
    ensures var db1 := Reserve(db, p, user, clone);
            && db.nextId in db1.desktops && db1.desktops[db.nextId].pool == p && RowOk(db, db1.desktops[db.nextId])
            && LowestFree(UsedVmids(db, p), db.pools[p].lo, db.pools[p].hi) == Some(db1.desktops[db.nextId].vmid)
            && db1 == db.(desktops := db.desktops[db.nextId := db1.desktops[db.nextId]], nextId := db.nextId + 1)
  {
  }

  /** The lock makes the VMID safe; a pool that is no longer active gets its row all the same. */
  lemma ReserveKeeps(db: Db, p: Id, user: Option<string>, clone: Option<string>)
    requires Inv(db) && (user.Some? && p in db.pools ==> db.pools[p].kind == Persistent)
    ensures Inv(Reserve(db, p, user, clone))
  {
    if Reserve(db, p, user, clone) != db {
      ReservedRow(db, p, user, clone);
      NewRowKeeps(db, p, Reserve(db, p, user, clone).desktops[db.nextId]);
    }
  }
}

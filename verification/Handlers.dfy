/** The admin handlers on desktops and pools, and what the workers write. */
module Handlers {
  import opened Entities
  import opened Lifecycle
  import opened PoolRange
  import opened Store
  import opened Services
  import CheckThenWrite
  import Effects

  // ── Desktops ──────────────────────────────────────────────────────

  // Each reads its row and checks without a lock. `later` is what the tables hold when it comes to write.

  /** What a call that read `was` and would make it `done` leaves on the row as it is by the time of its write. */
  function WrittenLate(was: Db, done: Db, d: Id, later: Db): Db
    requires d in was.desktops && d in done.desktops
  {
    Late(later, d, was.desktops[d], done.desktops[d])
  }

  method AssignDesktop(db: AsyncSession, d: Id, user: string, later: Db) returns (reply: Reply)
    requires db.Clean()
    modifies db
    ensures db.Clean()
    ensures var (done, verdict) := Assign(old(db.State()), d, user);
            if verdict != Done then db.State() == old(db.State()) && reply == verdict
            else db.State() == WrittenLate(old(db.State()), done, d, later)
                 && reply == if d in later.desktops then Done else WriteFailed
  {
    if d !in db.desktops {
      return NotFound;
    }
    var read := db.desktops[d];
    var p := read.pool;
    if read.user.Some? && read.user != Some(user) {
      return Conflict;
    }
    var others := OtherRows(db.State(), d, user);
    if |others| > 1 {
      return MultipleRows;
    }
    if others != {} {
      return Conflict;
    }
    if p !in db.pools {
      return NotFound;
    }
    var persistent := db.pools[p].kind == Persistent;
    db.Wait(later);
    var row := read.(user := Some(user));
    row := row.(assignment := Some(if persistent then Dedicated else Floating));
    if row.status == Available {
      row := row.(status := Assigned);
    }
    var found := db.FlushDesktop(d, read, row);
    if !found {
      db.Rollback();
      return WriteFailed;
    }
    db.Commit();
    return Done;
  }

  method UnassignDesktop(db: AsyncSession, d: Id, later: Db) returns (reply: Reply)
    requires db.Clean()
    modifies db
    ensures db.Clean()
    ensures var (done, verdict) := Unassign(old(db.State()), d);
            if verdict != Done then db.State() == old(db.State()) && reply == verdict
            else db.State() == WrittenLate(old(db.State()), done, d, later)
                 && reply == if d in later.desktops then Done else WriteFailed
  {
    if d !in db.desktops {
      return NotFound;
    }
    var read := db.desktops[d];
    if read.user.None? {
      return Conflict;
    }
    if |GuardedOn(db.State(), d)| > 0 {
      return Conflict;
    }
    db.Wait(later);
    var row := read.(user := None, assignment := None);
    if row.status == Assigned {
      row := row.(status := Available);
    }
    var found := db.FlushDesktop(d, read, row);
    if !found {
      db.Rollback();
      return WriteFailed;
    }
    db.Commit();
    return Done;
  }

  method DesktopPower(db: AsyncSession, d: Id, action: PowerAction, hasProvider: bool, upid: Option<string>, later: Db)
    returns (reply: Reply)
    requires db.Clean()
    modifies db
    ensures db.Clean()
    ensures var (done, verdict) := PowerTask(old(db.State()), d, action, hasProvider, upid);
            if verdict == ProviderFailed then db.State() == later && reply == verdict
            else if verdict != Done then db.State() == old(db.State()) && reply == verdict
            else db.State() == WrittenLate(old(db.State()), done, d, later)
                 && reply == if d in later.desktops then Done else WriteFailed
  {
    if d !in db.desktops {
      return NotFound;
    }
    var read := db.desktops[d];
    if read.upid.Some? {
      return Conflict;
    }
    if !hasProvider {
      return NoProvider;
    }
    db.Wait(later);
    if upid.None? {
      return ProviderFailed;
    }
    var found := db.FlushDesktop(d, read, read.(upid := upid, task := Some(KindOf(action))));
    if !found {
      db.Rollback();
      return WriteFailed;
    }
    db.Commit();
    return Done;
  }

  /** `rebuild_desktop` and `destroy_desktop`: the same guards and writes, but for the task's kind. */
  method DoomDesktop(db: AsyncSession, d: Id, kind: TaskKind, hasProvider: bool, upid: Option<string>, later: Db)
    returns (reply: Reply)
    requires db.Clean() && kind in {RebuildTask, DestroyTask}
    modifies db
    ensures db.Clean()
    ensures var (done, verdict) := Doom(old(db.State()), d, kind, hasProvider, upid);
            if verdict == ProviderFailed then db.State() == later && reply == verdict
            else if verdict != Done then db.State() == old(db.State()) && reply == verdict
            else db.State() == WrittenLate(old(db.State()), done, d, later)
                 && reply == if d in later.desktops then Done else WriteFailed
  {
    if d !in db.desktops {
      return NotFound;
    }
    var read := db.desktops[d];
    if read.upid.Some? {
      return Conflict;
    }
    if |GuardedOn(db.State(), d)| > 0 {
      return Conflict;
    }
    if !hasProvider {
      return NoProvider;
    }
    db.Wait(later);
    if upid.None? {
      return ProviderFailed;
    }
    var row := read.(status := Deleting);
    row := row.(upid := upid, task := Some(kind));
    var found := db.FlushDesktop(d, read, row);
    if !found {
      db.Rollback();
      return WriteFailed;
    }
    db.Commit();
    return Done;
  }

  // ── Task tracker ──────────────────────────────────────────────────

  method MarkTaskError(db: AsyncSession, d: Id)
    requires db.Clean()
    modifies db
    ensures db.Clean()
    ensures db.State() == if d !in old(db.desktops) then old(db.State())
                          else old(db.State()).(desktops := old(db.desktops)[d := TaskError(old(db.desktops)[d])])
  {
    if d !in db.desktops {
      return;
    }
    db.desktops := db.desktops[d := db.desktops[d].(status := Error)];
    db.desktops := db.desktops[d := db.desktops[d].(upid := None, task := None)];
    assert db.desktops == old(db.desktops)[d := db.desktops[d]];
    db.Commit();
  }

  /**
   * The second leg of a rebuild on the tables as it finds them: the row, if it is there, is built for the user
   * kept from the first, whoever has it by now; if it is gone, another is provisioned.
   */
  function SecondLeg(db: Db, d: Id, p: Id, user: Option<string>, build: Build): Db {
    if p !in db.pools || db.pools[p].status != PoolActive then db
    else if d in db.desktops then
      db.(desktops := db.desktops[d := BuiltRow(db.pools[p], p, db.desktops[d].vmid, user, build)])
    else Provision(db, p, user, build).0
  }

  /**
   * A row that is there keeps its VMID and is its user's of the first leg; a row that is gone is replaced by a
   * new one, for that user, in the lowest free VMID.
   */
  lemma SecondLegEffect(db: Db, d: Id, p: Id, user: Option<string>, build: Build)
    ensures var end := SecondLeg(db, d, p, user, build);
            if p !in db.pools || db.pools[p].status != PoolActive then end == db
            else if d in db.desktops then
              && Effects.OnlyDesktops(db, end) && Effects.OthersKept(db, end, d)
              && end.desktops[d].vmid == db.desktops[d].vmid
              && Effects.IsBuilt(db.pools[p], p, user, build, end.desktops[d])
            else if forall v :: !Effects.FreeIn(db, p, v) then end == db
            else
              && Effects.RowAdded(db, end) && Effects.IsBuilt(db.pools[p], p, user, build, end.desktops[db.nextId])
              && Effects.LeastFree(db, p, end.desktops[db.nextId].vmid)
  {
    if p in db.pools && db.pools[p].status == PoolActive && d !in db.desktops {
      Effects.ProvisionEffect(db, p, user, build);
      assert SecondLeg(db, d, p, user, build) == Provision(db, p, user, build).0;
    }
  }

  function AfterSuccess(db: Db, d: Id, kind: TaskKind, build: Build, later: Db): Db
    requires d in db.desktops && db.desktops[d].pool in db.pools
  {
    if kind == RebuildTask
    then SecondLeg(later, d, db.desktops[d].pool, CheckThenWrite.KeptUser(db.desktops[d]), build)
    else TaskSuccess(db, d, kind, build)
  }

  /**
   * The end of a rebuild is decided by what the tables hold at its second transaction, the user by the row read at
   * its first; the other kinds of task have one transaction.
   */
  lemma AfterSuccessEffect(db: Db, d: Id, kind: TaskKind, build: Build, later: Db)
    requires d in db.desktops && db.desktops[d].pool in db.pools
    ensures var end := AfterSuccess(db, d, kind, build, later);
            var row := db.desktops[d];
            var user := if row.assignment == Some(Dedicated) then row.user else None;
            if kind != RebuildTask then end == TaskSuccess(db, d, kind, build)
            else if row.pool !in later.pools || later.pools[row.pool].status != PoolActive then end == later
            else if d in later.desktops then
              && Effects.OnlyDesktops(later, end) && Effects.OthersKept(later, end, d)
              && end.desktops[d].vmid == later.desktops[d].vmid
              && Effects.IsBuilt(later.pools[row.pool], row.pool, user, build, end.desktops[d])
            else if forall v :: !Effects.FreeIn(later, row.pool, v) then end == later
            else
              && Effects.RowAdded(later, end)
              && Effects.IsBuilt(later.pools[row.pool], row.pool, user, build, end.desktops[later.nextId])
  {
    if kind == RebuildTask {
      SecondLegEffect(later, d, db.desktops[d].pool, CheckThenWrite.KeptUser(db.desktops[d]), build);
    }
  }

  /** With nothing between the legs a rebuild is the one of the lifecycle. */
  lemma NoGapIsRebuild(db: Db, d: Id, build: Build)
    requires d in db.desktops && db.desktops[d].pool in db.pools
    ensures AfterSuccess(db, d, RebuildTask, build, CheckThenWrite.Entered(db, d, Provisioning))
         == TaskSuccess(db, d, RebuildTask, build)
  {
    var cleared := CheckThenWrite.Entered(db, d, Provisioning);
    assert AfterSuccess(db, d, RebuildTask, build, cleared).desktops == TaskSuccess(db, d, RebuildTask, build).desktops;
  }

  /**
   * Rebuild clears its task and commits; its second leg is a transaction of its own, on what the tables hold
   * `later`. No call moves a row to another pool.
   */
  method ApplyTaskSuccess(db: AsyncSession, d: Id, kind: TaskKind, clone: Option<string>, build: Build, later: Db)
    requires db.Clean() && d in db.desktops && db.desktops[d].pool in db.pools
    requires d in later.desktops ==> later.desktops[d].pool == db.desktops[d].pool
    modifies db
    ensures db.Clean() && db.State() == AfterSuccess(old(db.State()), d, kind, BuildOf(clone, build), later)
  {
    if kind == DestroyTask {
      db.DeleteDesktop(d);
      assert db.desktops == old(db.desktops) - {d} && db.sessions == RemoveRows(old(db.State()), {d}).sessions;
      db.Commit();
    } else if kind == RebuildTask {
      db.desktops := db.desktops[d := db.desktops[d].(status := Provisioning, upid := None, task := None)];
      var p := db.desktops[d].pool;
      var user := if db.desktops[d].assignment == Some(Dedicated) then db.desktops[d].user else None;
      db.Commit();
      db.Wait(later);
      if p !in db.pools {
        return;
      }
      var reply, _ := ProvisionDesktop(db, p, user, if d in db.desktops then Some(d) else None, clone, build);
    } else {
      if kind == ProvisionTask {
        db.desktops := db.desktops[d := db.desktops[d].(status := Available)];
      } else if kind == StartTask {
        db.desktops := db.desktops[d := db.desktops[d].(power := Running)];
      } else {
        db.desktops := db.desktops[d := db.desktops[d].(power := Stopped)];
      }
      db.desktops := db.desktops[d := db.desktops[d].(upid := None, task := None)];
      assert db.desktops == old(db.desktops)[d := db.desktops[d]];
      db.Commit();
    }
  }

  /** One in-flight row of a task-tracker tick. */
  method PollOne(db: AsyncSession, d: Id, poll: Poll, clone: Option<string>, build: Build, later: Db)
    requires db.Clean() && d in db.desktops && db.desktops[d].upid.Some? && db.desktops[d].pool in db.pools
    requires d in later.desktops ==> later.desktops[d].pool == db.desktops[d].pool
    modifies db
    ensures db.Clean()
    ensures var task := old(db.desktops)[d].task;
            db.State() == if task.Some? && poll == Succeeded
                          then AfterSuccess(old(db.State()), d, task.value, BuildOf(clone, build), later)
                          else PollTask(old(db.State()), d, poll, BuildOf(clone, build))
  {
    if db.desktops[d].task.None? {
      MarkTaskError(db, d);
    } else if poll == Unknown {
      MarkTaskError(db, d);
    } else if poll == StillRunning {
      return;
    } else if poll == Succeeded {
      ApplyTaskSuccess(db, d, db.desktops[d].task.value, clone, build, later);
    } else {
      MarkTaskError(db, d);
    }
  }

  // ── Session monitor: what it writes ───────────────────────────────

  /** The VM of a monitored desktop is stopped, or gone. */
  method EndLatestSession(db: AsyncSession, d: Id)
    requires db.Clean() && d in db.desktops && Monitored(db.desktops[d])
    modifies db
    ensures db.Clean() && db.State() == VmDown(old(db.State()), d)
  {
    var live := LiveOn(db.State(), d);
    if live != {} {
      var reply := TransitionToEnded(db, Latest(live));
      assert reply == Done;
      db.Commit();
    }
  }

  /**
   * What follows a session's end, by the pool the monitor had read. The cycle checks the rows anew, as in
   * `later`, and ends on the tables as in `last`.
   */
  function Cycled(later: Db, last: Db, d: Id, pool: Pool, outcome: CycleOutcome): Db {
    if pool.deleteOnLogoff then
      if DeleteOnLogoff(later, d, CycleDone).1 == Done then RemovalEnd(last, d, outcome) else later
    else if Refresh(later, d, CycleDone).1 == Done then RefreshEnd(later, d, last, outcome)
    else later
  }

  /** A confirmed logoff: a session that somebody else has ended counts as ended, one without desktop stops it. */
  function LoggedOff(db: Db, d: Id, s: Id, pool: Pool, later: Db, last: Db, outcome: CycleOutcome): Db {
    var (ended, reply) := EndSession(db, s);
    if reply == NotFound then db
    else if pool.kind == Persistent || !(pool.deleteOnLogoff || pool.refreshOnLogoff) then ended
    else Cycled(later, last, d, pool, outcome)
  }

  /**
   * Persistent pools, and pools with neither flag, see the session end and nothing else; one that is gone, or has
   * lost its desktop, is not even ended.
   */
  lemma LogoffKeepsTheRow(db: Db, d: Id, s: Id, pool: Pool, later: Db, last: Db, outcome: CycleOutcome)
    ensures pool.kind == Persistent || (!pool.deleteOnLogoff && !pool.refreshOnLogoff) ==>
              LoggedOff(db, d, s, pool, later, last, outcome) == EndSession(db, s).0
    ensures !Effects.HasDesktop(db, s) && (s in db.sessions ==> db.sessions[s].status != SessionEnded) ==>
              LoggedOff(db, d, s, pool, later, last, outcome) == db
  {
    Effects.EndEffect(db, s);
  }

  /**
   * A pool that deletes, whether or not it refreshes too: the row the cycle finds is removed with nothing of its
   * sessions but their desktop lost, or is in error and otherwise as found; a row that is none to delete stays.
   */
  lemma LogoffRemoves(db: Db, d: Id, s: Id, pool: Pool, later: Db, last: Db, outcome: CycleOutcome)
    requires Effects.HasDesktop(db, s) || (s in db.sessions && db.sessions[s].status == SessionEnded)
    requires pool.kind == NonPersistent && pool.deleteOnLogoff
    ensures var end := LoggedOff(db, d, s, pool, later, last, outcome);
            if !Effects.Removable(later, d) then end == later
            else if d !in last.desktops then end == last
            else if outcome == CycleDone then Effects.RowsGone(last, end, {d}) && end.pools == last.pools
            else Effects.OnlyRow(last, end, d) && end.desktops[d] == last.desktops[d].(status := Error)
  {
    Effects.EndEffect(db, s);
    Effects.RemovalEffect(later, d, CycleDone);
    RemovalEndEffect(last, d, outcome);
  }

  /**
   * A pool that refreshes and does not delete: the row the cycle finds ends available, running and without its
   * floating user, or in error; a row that is none to refresh stays.
   */
  lemma LogoffRecycles(db: Db, d: Id, s: Id, pool: Pool, later: Db, last: Db, outcome: CycleOutcome)
    requires Effects.HasDesktop(db, s) || (s in db.sessions && db.sessions[s].status == SessionEnded)
    requires pool.kind == NonPersistent && pool.refreshOnLogoff && !pool.deleteOnLogoff
    ensures var end := LoggedOff(db, d, s, pool, later, last, outcome);
            if !Effects.Refreshable(later, d) then end == later
            else if d !in last.desktops then end == last
            else Effects.OnlyRow(last, end, d)
                 && RefreshedLate(later.desktops[d], last.desktops[d], end.desktops[d], outcome)
  {
    Effects.EndEffect(db, s);
    Effects.RefreshEffect(later, d, CycleDone);
    if Effects.Refreshable(later, d) {
      RefreshEndEffect(later, d, last, outcome);
    }
  }

  /** The row of a cycle, entered on what the end of the session has left. */
  function CycleEntered(ended: Db, d: Id, pool: Pool): Db
    requires d in ended.desktops
  {
    CheckThenWrite.Entered(ended, d, if pool.deleteOnLogoff then Deleting else Provisioning)
  }

  /** With nothing between its commits a confirmed logoff is the one of the lifecycle. */
  lemma NoGapIsLogoff(db: Db, d: Id, s: Id, outcome: CycleOutcome)
    requires Effects.OnTop(db, d, s) && db.sessions[s].status == SessionActive && db.desktops[d].pool in db.pools
    ensures var pool := db.pools[db.desktops[d].pool];
            var ended := EndSession(db, s).0;
            && d in ended.desktops
            && LoggedOff(db, d, s, pool, ended, CycleEntered(ended, d, pool), outcome) == Logoff(db, d, outcome)
  {
    Effects.TopIsLatest(db, d);
    Effects.EndEffect(db, s);
    var pool := db.pools[db.desktops[d].pool];
    var ended := EndSession(db, s).0;
    if pool.kind == NonPersistent && pool.deleteOnLogoff {
      Effects.RemovalEffect(ended, d, CycleDone);
      NoGapIsRemoval(ended, d, outcome);
    } else if pool.kind == NonPersistent && pool.refreshOnLogoff {
      Effects.RefreshEffect(ended, d, CycleDone);
      NoGapIsRefresh(ended, d, outcome);
    }
  }

  /**
   * Dispatch of a confirmed logoff: the session's end is one commit, the cycle's two follow, each on what the
   * tables hold by then.
   */
  method HandleLogoff(db: AsyncSession, d: Id, s: Id, pool: Pool, later: Db, last: Db, outcome: CycleOutcome)
    requires db.Clean()
    modifies db
    ensures db.Clean() && db.State() == LoggedOff(old(db.State()), d, s, pool, later, last, outcome)
  {
    if s !in db.sessions {
      return;
    }
    var reply := TransitionToEnded(db, s);
    if reply == NotFound {
      db.Rollback();
      return;
    }
    if reply == InvalidState {
      db.Rollback();
    } else {
      db.Commit();
    }
    if pool.kind == Persistent {
      return;
    }
    if pool.deleteOnLogoff {
      db.Wait(later);
      var _ := DeleteDesktopOnLogoff(db, d, last, outcome);
    } else if pool.refreshOnLogoff {
      db.Wait(later);
      var _ := RefreshDesktop(db, d, last, outcome);
    }
  }

  // ── Health checker ────────────────────────────────────────────────

  const STUCK_PROVISIONING_MINUTES := 10

  /** `updatedAt` and `now` in seconds. */
  method CheckStuckProvisioning(db: AsyncSession, updatedAt: map<Id, int>, now: int)
    requires db.Clean()
    modifies db
    ensures db.Clean()
    ensures var stale := set d | d in updatedAt && now - updatedAt[d] > 600;
            db.State() == StuckSweep(old(db.State()), stale)
  {
    var threshold := now - 60 * STUCK_PROVISIONING_MINUTES;
    ghost var stale := set d | d in updatedAt && now - updatedAt[d] > 600;
    var todo := set d | d in db.desktops && db.desktops[d].status == Provisioning
                        && d in updatedAt && updatedAt[d] < threshold;
    ghost var stuck := todo;
    while todo != {}
      invariant todo <= stuck <= old(db.desktops).Keys == db.desktops.Keys
      invariant db.State() == old(db.State()).(desktops := db.desktops)
      invariant forall d | d in db.desktops :: db.desktops[d] ==
                  if d in stuck - todo then TaskError(old(db.desktops)[d]) else old(db.desktops)[d]
    {
      var d :| d in todo;
      db.desktops := db.desktops[d := db.desktops[d].(status := Error)];
      db.desktops := db.desktops[d := db.desktops[d].(upid := None, task := None)];
      todo := todo - {d};
    }
    assert db.desktops == StuckSweep(old(db.State()), stale).desktops;
    db.Commit();
  }

  // ── Pools ─────────────────────────────────────────────────────────

  /** What a pool refers to: clusters with whether a provider serves them, templates with their cluster. */
  datatype Site = Site(clusters: map<Id, bool>, templates: map<Id, Id>)

  function PlaceReply(site: Site, cluster: Id, template: Id): Reply {
    if cluster !in site.clusters || template !in site.templates then NotFound
    else if site.templates[template] != cluster then Invalid
    else if !site.clusters[cluster] then NoProvider
    else Done
  }

  method CreatePoolRow(db: AsyncSession, pool: Pool, site: Site, cluster: Id, template: Id, live: seq<LiveVm>,
                       later: Db)
    returns (reply: Reply)
    requires db.Clean()
    modifies db
    ensures db.Clean()
    ensures var place := PlaceReply(site, cluster, template);
            var verdict := CreatePool(old(db.State()), pool, LiveVmids(live)).1;
            if verdict == Invalid || place != Done || verdict != Done
            then db.State() == old(db.State())
                 && reply == if verdict == Invalid || place == Done then verdict else place
            else db.State() == InsertPool(later, pool) && reply == if db.State() != later then Done else WriteFailed
    ensures pool.lo < pool.hi && pool.maxSize <= pool.hi - pool.lo + 1 ==>
              if cluster !in site.clusters || template !in site.templates then reply == NotFound
              else if site.templates[template] != cluster then reply == Invalid
              else if !site.clusters[cluster] then reply == NoProvider
              else reply in {Conflict, Done, WriteFailed}
  {
    if pool.lo >= pool.hi || pool.maxSize > pool.hi - pool.lo + 1 {
      return Invalid;
    }
    if cluster !in site.clusters {
      return NotFound;
    }
    if template !in site.templates {
      return NotFound;
    }
    if site.templates[template] != cluster {
      return Invalid;
    }
    if !site.clusters[cluster] {
      return NoProvider;
    }
    var verdict := ValidatePoolRange(db, pool.lo, pool.hi, None, live);
    assert forall p | p in db.pools ::
             Rival(db.State(), p, pool.lo, pool.hi, None) <==> Meets(db.pools[p], pool.lo, pool.hi);
    if verdict.RangeConflict? {
      return Conflict;
    }
    if exists p | p in db.pools :: db.pools[p].name == pool.name {
      return Conflict;
    }
    db.Wait(later);
    var added := db.AddPool(pool.(status := PoolActive));
    if !added {
      db.Rollback();
      return WriteFailed;
    }
    db.Commit();
    return Done;
  }

  method UpdatePoolRow(db: AsyncSession, p: Id, patch: PoolPatch) returns (reply: Reply)
    requires db.Clean()
    modifies db
    ensures db.Clean() && (db.State(), reply) == UpdatePool(old(db.State()), p, patch)
  {
    if p !in db.pools {
      return NotFound;
    }
    if patch.immutable || patch.status {
      return Invalid;
    }
    if patch.maxSize.Some? {
      if patch.maxSize.value > db.pools[p].hi - db.pools[p].lo + 1 {
        return Invalid;
      }
      if patch.maxSize.value < |RowsOf(db.State(), p)| {
        return Invalid;
      }
    }
    var row := db.pools[p];
    row := row.(minSpare := OrElse(patch.minSpare, row.minSpare));
    row := row.(maxSize := OrElse(patch.maxSize, row.maxSize));
    row := row.(deleteOnLogoff := OrElse(patch.deleteOnLogoff, row.deleteOnLogoff));
    row := row.(refreshOnLogoff := OrElse(patch.refreshOnLogoff, row.refreshOnLogoff));
    db.pools := db.pools[p := row];
    db.Commit();
    return Done;
  }

  method DrainPool(db: AsyncSession, p: Id, later: Db) returns (reply: Reply, live: nat)
    requires db.Clean()
    modifies db
    ensures db.Clean()
    ensures var verdict := Drain(old(db.State()), p).1;
            if verdict != Done || old(db.pools)[p].status == PoolDraining
            then db.State() == old(db.State()) && reply == verdict
            else db.State() == MovePool(later, p, PoolDraining)
                 && reply == if p in later.pools then Done else WriteFailed
    ensures live == if reply == Done then |GuardedOf(db.State(), p)| else 0
  {
    if p !in db.pools {
      return NotFound, 0;
    }
    if db.pools[p].status == PoolDraining {
      return Done, |GuardedOf(db.State(), p)|;
    }
    if db.pools[p].status != PoolActive {
      return Conflict, 0;
    }
    db.Wait(later);
    var found := db.FlushPoolStatus(p, PoolDraining);
    if !found {
      db.Rollback();
      return WriteFailed, 0;
    }
    db.Commit();
    return Done, |GuardedOf(db.State(), p)|;
  }

  /** `scheduled` tells whether the cascade will run after the response, `remaining` how many rows it will meet. */
  method StartPoolDelete(db: AsyncSession, p: Id, later: Db) returns (reply: Reply, scheduled: bool, remaining: nat)
    requires db.Clean()
    modifies db
    ensures db.Clean()
    ensures var verdict := DeletePool(old(db.State()), p).1;
            if verdict != Done || old(db.pools)[p].status == PoolDeleting
            then db.State() == old(db.State()) && reply == verdict
            else db.State() == MovePool(later, p, PoolDeleting)
                 && reply == if p in later.pools then Done else WriteFailed
    ensures scheduled <==> reply == Done
    ensures scheduled ==> p in db.pools && db.pools[p].status == PoolDeleting && remaining == |RowsOf(db.State(), p)|
  {
    if p !in db.pools {
      return NotFound, false, 0;
    }
    if db.pools[p].status == PoolDeleting {
      return Done, true, |RowsOf(db.State(), p)|;
    }
    if |GuardedOf(db.State(), p)| > 0 {
      return Conflict, false, 0;
    }
    db.Wait(later);
    var found := db.FlushPoolStatus(p, PoolDeleting);
    if !found {
      db.Rollback();
      return WriteFailed, false, 0;
    }
    remaining := |RowsOf(db.State(), p)|;
    db.Commit();
    return Done, true, remaining;
  }

  /** `_destroy_one`: true when the row is gone, also when it was gone before. */
  method DestroyOne(db: AsyncSession, d: Id, fate: Fate) returns (gone: bool)
    requires db.Clean()
    modifies db
    ensures db.Clean() && (gone <==> d !in db.desktops)
    ensures var was := old(db.State());
            db.State() ==
              if d !in was.desktops || fate.Crashed? then was
              else if fate.Refused? then was.(desktops := was.desktops[d := was.desktops[d].(status := Error)])
              else RemoveRows(was, {d})
  {
    if d !in db.desktops {
      return true;
    }
    if fate.Crashed? {
      return false;
    }
    if fate.Refused? {
      db.desktops := db.desktops[d := db.desktops[d].(status := Error)];
      db.Commit();
      return false;
    }
    db.DeleteDesktop(d);
    assert db.desktops == old(db.desktops) - {d} && db.sessions == RemoveRows(old(db.State()), {d}).sessions;
    db.Commit();
    return true;
  }

  /**
   * The background cascade: every desktop is destroyed in its own transaction, in whatever order the
   * destructions end; the pool row goes only when none failed.
   */
  method DeletePoolCascade(db: AsyncSession, p: Id, hasProvider: bool, fates: map<Id, Fate>)
    requires db.Clean() && (p in db.pools ==> db.pools[p].status == PoolDeleting)
    modifies db
    ensures db.Clean() && db.State() == Cascade(old(db.State()), p, hasProvider, fates)
  {
    if p !in db.pools || !hasProvider {
      return;
    }
    var ids := RowsOf(db.State(), p);
    var todo, failures := ids, 0;
    ghost var was, done := db.State(), {};
    CheckThenWrite.RazeNone(was, fates);
    while todo != {}
      invariant db.Clean() && db.State() == Raze(was, done, fates)
      invariant todo !! done && todo + done == ids
      invariant 0 <= failures && (failures == 0 <==> forall d | d in done :: Razed(fates, d))
    {
      var d :| d in todo;
      CheckThenWrite.RazeOneMore(was, done, d, fates);
      var gone := DestroyOne(db, d, FateOf(fates, d));
      if !gone {
        failures := failures + 1;
      }
      todo, done := todo - {d}, done + {d};
    }
    assert done == ids;
    assert failures == 0 <==> RazedIn(ids, fates) == ids;
    if failures > 0 {
      return;
    }
    db.pools := db.pools - {p};
    db.entitlements := set e | e in db.entitlements && e.pool != p;
    db.Commit();
  }
}

/** The session tracker, the provisioner and the broker: methods that change rows in place. */
module Services {
  import opened Entities
  import opened Lifecycle
  import opened Store
  import CheckThenWrite
  import Effects

  // ── Session tracker ───────────────────────────────────────────────

  method TransitionToActive(db: AsyncSession, s: Id, ticket: string) returns (legal: bool)
    requires s in db.sessions
    modifies db`sessions
    ensures legal <==> ToActive(old(db.sessions)[s], ticket).Some?
    ensures db.sessions
         == if legal then old(db.sessions)[s := ToActive(old(db.sessions)[s], ticket).value] else old(db.sessions)
  {
    if db.sessions[s].status != SessionConnecting {
      return false;
    }
    db.sessions := db.sessions[s := db.sessions[s].(status := SessionActive)];
    db.sessions := db.sessions[s := db.sessions[s].(ticket := Some(ticket))];
    return true;
  }

  method TransitionToDisconnected(db: AsyncSession, s: Id) returns (legal: bool)
    requires s in db.sessions
    modifies db`sessions
    ensures legal <==> ToDisconnected(old(db.sessions)[s]).Some?
    ensures db.sessions
         == if legal then old(db.sessions)[s := ToDisconnected(old(db.sessions)[s]).value] else old(db.sessions)
  {
    if db.sessions[s].status != SessionActive {
      return false;
    }
    db.sessions := db.sessions[s := db.sessions[s].(status := SessionDisconnected)];
    return true;
  }

  /** The session row is written before its desktop is looked up: `NotFound` leaves that write to be rolled back. */
  method TransitionToEnded(db: AsyncSession, s: Id) returns (reply: Reply)
    requires s in db.sessions
    modifies db`sessions, db`desktops
    ensures reply == EndSession(old(db.State()), s).1
    ensures reply != NotFound ==> db.State() == EndSession(old(db.State()), s).0
  {
    if db.sessions[s].status == SessionEnded {
      return InvalidState;
    }
    db.sessions := db.sessions[s := db.sessions[s].(status := SessionEnded)];
    db.sessions := db.sessions[s := db.sessions[s].(ticket := None)];
    var desktop := db.sessions[s].desktop;
    if desktop.None? || desktop.value !in db.desktops {
      return NotFound;
    }
    var d := desktop.value;
    if db.desktops[d].assignment == Some(Floating) {
      db.desktops := db.desktops[d := db.desktops[d].(user := None)];
      db.desktops := db.desktops[d := db.desktops[d].(assignment := None)];
      db.desktops := db.desktops[d := db.desktops[d].(status := Available)];
    } else {
      db.desktops := db.desktops[d := db.desktops[d].(status := Disconnected)];
    }
    return Done;
  }

  // ── VMID allocator and provisioner ────────────────────────────────

  method AllocateVmid(db: AsyncSession, p: Id) returns (vmid: Option<int>)
    requires p in db.pools
    ensures vmid == LowestFree(UsedVmids(db.State(), p), db.pools[p].lo, db.pools[p].hi)
  {
    var used := UsedVmids(db.State(), p);
    var v := db.pools[p].lo;
    while v <= db.pools[p].hi
      invariant LowestFree(used, db.pools[p].lo, db.pools[p].hi) == LowestFree(used, v, db.pools[p].hi)
    {
      if v !in used {
        return Some(v);
      }
      v := v + 1;
    }
    return None;
  }

  /** A reserved row once its build has ended. */
  function Finished(row: Desktop, pool: Pool, build: Build): Desktop {
    match build
    case Built =>
      row.(status := if pool.kind == Persistent && row.user.Some? then Assigned else Available, power := Running,
           upid := None)
    case BuildFailed(power) => row.(status := Error, power := power, upid := None)
  }

  /** A build is as good as its clone and what follows it: a refused clone leaves the VM stopped. */
  lemma FinishedEffect(row: Desktop, pool: Pool, clone: Option<string>, build: Build)
    ensures var end := Finished(row, pool, BuildOf(clone, build));
            && end.upid == None && end.pool == row.pool && end.vmid == row.vmid && Effects.SameUser(row, end)
            && (clone != None && build == Built ==>
                  end.power == Running && end.status
                  == if row.user != None && pool.kind == Persistent then Assigned else Available)
            && (clone == None ==> end.status == Error && end.power == Stopped)
            && (clone != None && build != Built ==> end.status == Error && end.power == build.power)
  {
  }

  /** From the clone to the final state: the clone's UPID is committed before the waits, the outcome after them. */
  method BuildDesktop(db: AsyncSession, d: Id, clone: Option<string>, build: Build) returns (reply: Reply)
    requires d in db.desktops && db.desktops[d].pool in db.pools && db.desktops[d].power == Stopped
    modifies db
    ensures db.Clean()
    ensures db.State() == old(db.State()).(desktops := old(db.desktops)[d :=
              Finished(old(db.desktops)[d], old(db.pools)[old(db.desktops)[d].pool], BuildOf(clone, build))])
    ensures reply == if BuildOf(clone, build).Built? then Done else ProvisioningFailed
  {
    if clone.Some? {
      db.desktops := db.desktops[d := db.desktops[d].(upid := clone)];
      db.Commit();
    }
    if clone.Some? && build.Built? {
      var persistent := db.pools[db.desktops[d].pool].kind == Persistent;
      db.desktops := db.desktops[d := db.desktops[d].(power := Running)];
      var final := if persistent && db.desktops[d].user.Some? then Assigned else Available;
      db.desktops := db.desktops[d := db.desktops[d].(status := final)];
      reply := Done;
    } else {
      if clone.Some? {
        db.desktops := db.desktops[d := db.desktops[d].(power := build.power)];
      }
      db.desktops := db.desktops[d := db.desktops[d].(status := Error)];
      reply := ProvisioningFailed;
    }
    db.desktops := db.desktops[d := db.desktops[d].(upid := None)];
    assert db.desktops == old(db.desktops)[d := db.desktops[d]];
    db.Commit();
  }

  function AssignmentFor(pool: Pool, user: Option<string>): Option<Assignment> {
    if user.Some? && pool.kind == Persistent then Some(Dedicated) else None
  }

  /** A row in `provisioning`: a new one in the lowest free VMID, or `existing` reset in its own. */
  method ReserveRow(db: AsyncSession, p: Id, user: Option<string>, existing: Option<Id>) returns (d: Option<Id>)
    requires p in db.pools
    requires existing.Some? ==> existing.value in db.desktops && db.desktops[existing.value].pool == p
    modifies db`desktops, db`nextId
    ensures d.None? ==>
              && db.State() == old(db.State()) && existing.None?
              && old(LowestFree(UsedVmids(db.State(), p), db.pools[p].lo, db.pools[p].hi)) == None
    ensures existing.None? && d.Some? ==>
              && d == Some(old(db.nextId)) && db.nextId == old(db.nextId) + 1 && d.value in db.desktops
              && old(LowestFree(UsedVmids(db.State(), p), db.pools[p].lo, db.pools[p].hi))
                 == Some(db.desktops[d.value].vmid)
    ensures existing.Some? ==>
              && d == existing && db.nextId == old(db.nextId) && d.value in db.desktops
              && db.desktops[d.value].vmid == old(db.desktops)[d.value].vmid
    ensures d.Some? ==>
              var row := Desktop(p, db.desktops[d.value].vmid, Provisioning, user, AssignmentFor(db.pools[p], user),
                                 Stopped, None, None);
              db.desktops == old(db.desktops)[d.value := row]
  {
    var assignment := AssignmentFor(db.pools[p], user);
    if existing.None? {
      var vmid := AllocateVmid(db, p);
      if vmid.None? {
        return None;
      }
      var n := db.AddDesktop(Desktop(p, vmid.value, Provisioning, user, assignment, Stopped, None, None));
      return Some(n);
    }
    var e := existing.value;
    db.desktops := db.desktops[e := db.desktops[e].(status := Provisioning, power := Stopped)];
    db.desktops := db.desktops[e := db.desktops[e].(upid := None, task := None)];
    db.desktops := db.desktops[e := db.desktops[e].(user := user, assignment := assignment)];
    assert db.desktops == old(db.desktops)[e := db.desktops[e]];
    return existing;
  }

  /** Provisions a new row, or rebuilds `existing` in its VMID. `clone` is the accepted clone task. */
  method ProvisionDesktop(db: AsyncSession, p: Id, user: Option<string>, existing: Option<Id>,
                          clone: Option<string>, build: Build)
    returns (reply: Reply, d: Id)
    requires db.Clean() && p in db.pools
    requires existing.Some? ==> existing.value in db.desktops && db.desktops[existing.value].pool == p
    modifies db
    ensures db.Clean()
    ensures existing.None? ==> (db.State(), reply) == Provision(old(db.State()), p, user, BuildOf(clone, build))
    ensures existing.None? && reply in {Done, ProvisioningFailed} ==> d == old(db.nextId)
    ensures existing.Some? && old(db.pools[p].status) != PoolActive ==>
              db.State() == old(db.State()) && reply == Inactive
    ensures existing.Some? && old(db.pools[p].status) == PoolActive ==>
              var vmid := old(db.desktops)[existing.value].vmid;
              var row := BuiltRow(old(db.pools[p]), p, vmid, user, BuildOf(clone, build));
              && db.State() == old(db.State()).(desktops := old(db.desktops)[existing.value := row])
              && reply == if BuildOf(clone, build).Built? then Done else ProvisioningFailed
  {
    if db.pools[p].status != PoolActive {
      return Inactive, 0;
    }
    var reserved := ReserveRow(db, p, user, existing);
    if reserved.None? {
      return RangeExhausted, 0;
    }
    d := reserved.value;
    ghost var row := BuiltRow(db.pools[p], p, db.desktops[d].vmid, user, BuildOf(clone, build));
    reply := BuildDesktop(db, d, clone, build);
    assert db.desktops == old(db.desktops)[d := row];
  }

  /**
   * The refresh cycle of a row entered in `was`, ended on what the tables hold by then: a success writes the
   * columns that differ from the row as it entered, a failure reads the row anew.
   */
  function RefreshEnd(was: Db, d: Id, later: Db, outcome: CycleOutcome): Db
    requires Refresh(was, d, CycleDone).1 == Done
  {
    if outcome.CycleDone?
    then
      Late(later, d, CheckThenWrite.Entered(was, d, Provisioning).desktops[d], Refresh(was, d, CycleDone).0.desktops[d])
    else FailedIn(later, d, true)
  }

  /** A failure reads the row anew. */
  function FailedIn(later: Db, d: Id, clears: bool): Db {
    if d in later.desktops
    then later.(desktops := later.desktops[d := CheckThenWrite.Failed(later.desktops[d], clears)]) else later
  }

  function RemovalEnd(later: Db, d: Id, outcome: CycleOutcome): Db {
    if outcome.CycleDone? then CheckThenWrite.WriteRemoved(later, d) else FailedIn(later, d, false)
  }

  /** A row as a refresh that entered it as `was` leaves it: a running spare without the floating user, or in error. */
  predicate RefreshedLate(was: Desktop, found: Desktop, row: Desktop, outcome: CycleOutcome) {
    && Effects.SameTask(found, row)
    && match outcome
       case CycleDone =>
         && row.status == Available && row.power == (if was.power == Running then found.power else Running)
         && (if was.assignment == Some(Floating)
             then row.assignment == None && (was.user != None ==> row.user == None)
             else Effects.SameUser(found, row))
       case CycleFailed =>
         && row.status == Error && row.power == found.power
         && (if found.assignment == Some(Floating) then row.user == None && row.assignment == None
             else Effects.SameUser(found, row))
  }

  /** What the second commit of a refresh changes of the tables it finds. */
  lemma RefreshEndEffect(was: Db, d: Id, later: Db, outcome: CycleOutcome)
    requires Refresh(was, d, CycleDone).1 == Done
    ensures var end := RefreshEnd(was, d, later, outcome);
            if d !in later.desktops then end == later
            else Effects.OnlyRow(later, end, d)
                 && RefreshedLate(was.desktops[d], later.desktops[d], end.desktops[d], outcome)
  {
  }

  /** That of a removal: the row is gone, its sessions keep no desktop; or it is in error, and that is all. */
  lemma RemovalEndEffect(later: Db, d: Id, outcome: CycleOutcome)
    ensures var end := RemovalEnd(later, d, outcome);
            if d !in later.desktops then end == later
            else
              match outcome
              case CycleDone =>
                && Effects.RowsGone(later, end, {d}) && d !in end.desktops
                && end.pools == later.pools && end.entitlements == later.entitlements && end.nextId == later.nextId
              case CycleFailed =>
                Effects.OnlyRow(later, end, d) && end.desktops[d] == later.desktops[d].(status := Error)
  {
  }

  /** With nothing between its commits a refresh is the one of the lifecycle. */
  lemma NoGapIsRefresh(db: Db, d: Id, outcome: CycleOutcome)
    requires Refresh(db, d, CycleDone).1 == Done
    ensures RefreshEnd(db, d, CheckThenWrite.Entered(db, d, Provisioning), outcome) == Refresh(db, d, outcome).0
  {
    var entered := CheckThenWrite.Entered(db, d, Provisioning);
    assert RefreshEnd(db, d, entered, outcome).desktops == Refresh(db, d, outcome).0.desktops;
  }

  /** So is a removal. */
  lemma NoGapIsRemoval(db: Db, d: Id, outcome: CycleOutcome)
    requires DeleteOnLogoff(db, d, CycleDone).1 == Done
    ensures RemovalEnd(CheckThenWrite.Entered(db, d, Deleting), d, outcome) == DeleteOnLogoff(db, d, outcome).0
  {
    var entered := CheckThenWrite.Entered(db, d, Deleting);
    assert RemovalEnd(entered, d, outcome).desktops == DeleteOnLogoff(db, d, outcome).0.desktops;
  }

  /** The row enters its cycle in one commit; the outcome is written in a second. */
  method RefreshDesktop(db: AsyncSession, d: Id, later: Db, outcome: CycleOutcome) returns (reply: Reply)
    requires db.Clean()
    modifies db
    ensures db.Clean()
    ensures var verdict := Refresh(old(db.State()), d, CycleDone).1;
            if verdict != Done then db.State() == old(db.State()) && reply == verdict
            else db.State() == RefreshEnd(old(db.State()), d, later, outcome)
                 && reply == if outcome.CycleFailed? then ProviderFailed
                             else if d in later.desktops then Done else WriteFailed
  {
    if d !in db.desktops {
      return NotFound;
    }
    var p := db.desktops[d].pool;
    if p !in db.pools || db.pools[p].kind == Persistent || !db.pools[p].refreshOnLogoff
       || db.desktops[d].status in {Deleting, Maintenance, Provisioning}
    {
      return InvalidState;
    }
    db.desktops := db.desktops[d := db.desktops[d].(status := Provisioning, upid := None, task := None)];
    var read := db.desktops[d];
    db.Commit();
    db.Wait(later);
    if outcome.CycleDone? {
      var row := read.(status := Available, power := Running);
      if row.assignment == Some(Floating) {
        row := row.(user := None, assignment := None);
      }
      var found := db.FlushDesktop(d, read, row);
      if !found {
        db.Rollback();
        return WriteFailed;
      }
      reply := Done;
    } else {
      db.Rollback();
      reply := ProviderFailed;
      if d !in db.desktops {
        return;
      }
      db.desktops := db.desktops[d := db.desktops[d].(status := Error)];
      if db.desktops[d].assignment == Some(Floating) {
        db.desktops := db.desktops[d := db.desktops[d].(user := None, assignment := None)];
      }
      assert db.desktops == later.desktops[d := db.desktops[d]];
    }
    db.Commit();
  }

  /** Likewise; a row that is gone by the end is as good as removed. */
  method DeleteDesktopOnLogoff(db: AsyncSession, d: Id, later: Db, outcome: CycleOutcome) returns (reply: Reply)
    requires db.Clean()
    modifies db
    ensures db.Clean()
    ensures var verdict := DeleteOnLogoff(old(db.State()), d, CycleDone).1;
            if verdict != Done then db.State() == old(db.State()) && reply == verdict
            else db.State() == RemovalEnd(later, d, outcome)
                 && reply == if outcome.CycleFailed? then ProviderFailed else Done
    ensures reply == Done ==> d !in db.desktops
  {
    if d !in db.desktops {
      return NotFound;
    }
    var p := db.desktops[d].pool;
    if p !in db.pools || db.pools[p].kind == Persistent || !db.pools[p].deleteOnLogoff
       || db.desktops[d].status == Deleting
    {
      return InvalidState;
    }
    db.desktops := db.desktops[d := db.desktops[d].(status := Deleting, upid := None, task := None)];
    db.Commit();
    db.Wait(later);
    if outcome.CycleFailed? {
      db.Rollback();
      reply := ProviderFailed;
      if d !in db.desktops {
        return;
      }
      db.desktops := db.desktops[d := db.desktops[d].(status := Error)];
    } else {
      reply := Done;
      if d !in db.desktops {
        return;
      }
      db.DeleteDesktop(d);
      assert db.desktops == later.desktops - {d} && db.sessions == RemoveRows(later, {d}).sessions;
    }
    db.Commit();
  }

  // ── Broker ────────────────────────────────────────────────────────

  /** Session row created, activated with its ticket, desktop connected: one commit. */
  method OpenDesktopSession(db: AsyncSession, d: Id, user: string, ticket: string) returns (s: Id)
    requires d in db.desktops
    modifies db
    ensures db.Clean() && (db.State(), Opened(s)) == OpenSession(old(db.State()), d, user, ticket)
  {
    db.desktops := db.desktops[d := db.desktops[d].(power := Running)];
    s := db.AddSession(Session(Some(d), user, SessionConnecting, None));
    var legal := TransitionToActive(db, s, ticket);
    assert legal;
    db.desktops := db.desktops[d := db.desktops[d].(status := Connected)];
    assert db.sessions == old(db.sessions)[s := Session(Some(d), user, SessionActive, Some(ticket))];
    assert db.desktops == old(db.desktops)[d := old(db.desktops)[d].(status := Connected, power := Running)];
    db.Commit();
  }

  /** `clone` and `build` are used by a first connect only; `ticket` is missing when any later provider call fails. */
  method ConnectDesktop(db: AsyncSession, user: string, groups: seq<string>, p: Id, hasProvider: bool,
                        clone: Option<string>, build: Build, ticket: Option<string>)
    returns (reply: Reply)
    requires db.Clean()
    modifies db
    ensures db.Clean()
    ensures (db.State(), reply)
         == Connect(old(db.State()), user, groups, p, ConnectEnv(hasProvider, BuildOf(clone, build), ticket))
  {
    if p !in db.pools {
      return NotFound;
    }
    if db.pools[p].status != PoolActive {
      return Inactive;
    }
    if !Entitled(db.State(), p, user, groups) {
      return NotEntitled;
    }
    if !hasProvider {
      return NoProvider;
    }
    var d: Id;
    if db.pools[p].kind == Persistent {
      var rows := DedicatedRows(db.State(), p, user);
      if |rows| > 1 {
        return MultipleRows;
      }
      if rows == {} {
        reply, d := ProvisionDesktop(db, p, Some(user), None, clone, build);
        if reply != Done {
          return;
        }
      } else {
        d := First(db.State(), rows);
      }
    } else {
      var spares := RowsWithStatus(db.State(), p, Available);
      if spares == {} {
        return PoolFull;
      }
      d := First(db.State(), spares);
      db.desktops := db.desktops[d := db.desktops[d].(user := Some(user))];
      db.desktops := db.desktops[d := db.desktops[d].(assignment := Some(Floating))];
      assert db.desktops
          == old(db.desktops)[d := old(db.desktops)[d].(user := Some(user), assignment := Some(Floating))];
    }
    if ticket.None? {
      db.Rollback();
      return ProviderFailed;
    }
    var s := OpenDesktopSession(db, d, user, ticket.value);
    return Opened(s);
  }

  method EndUserSession(db: AsyncSession, s: Id) returns (reply: Reply)
    requires db.Clean()
    modifies db
    ensures db.Clean() && (db.State(), reply) == EndSession(old(db.State()), s)
  {
    if s !in db.sessions {
      return NotFound;
    }
    reply := TransitionToEnded(db, s);
    if reply == NotFound {
      db.Rollback();
    } else {
      db.Commit();
    }
  }
}

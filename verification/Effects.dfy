/**
 * What every call answers and what it does to the rows, said in their columns alone: no law here goes through
 * the functions the calls share.
 */
module Effects {
  import opened Entities
  import opened Lifecycle

  // ── Frames ────────────────────────────────────────────────────────

  /** Nothing changes but the desktop rows. */
  predicate OnlyDesktops(was: Db, now: Db) {
    now.pools == was.pools && now.sessions == was.sessions && now.entitlements == was.entitlements
    && now.nextId == was.nextId
  }

  predicate OthersKept(was: Db, now: Db, d: Id) {
    && now.desktops.Keys == was.desktops.Keys
    && forall e | e in was.desktops && e != d :: now.desktops[e] == was.desktops[e]
  }

  /** Nothing changes but row `d`, and that one stays in its pool and VMID. */
  predicate OnlyRow(was: Db, now: Db, d: Id) {
    && OnlyDesktops(was, now) && OthersKept(was, now, d) && d in was.desktops
    && now.desktops[d].pool == was.desktops[d].pool && now.desktops[d].vmid == was.desktops[d].vmid
  }

  predicate SameUser(was: Desktop, now: Desktop) {
    now.user == was.user && now.assignment == was.assignment
  }

  predicate SameTask(was: Desktop, now: Desktop) {
    now.upid == was.upid && now.task == was.task
  }

  /** A task that is over or lost: the row is in error, its user and power as they were. */
  predicate InError(was: Desktop, now: Desktop) {
    now.status == Error && now.upid == None && now.task == None && SameUser(was, now) && now.power == was.power
  }

  /** Exactly the rows `gone` are removed; the sessions that named them name no desktop. */
  predicate RowsGone(was: Db, now: Db, gone: set<Id>) {
    && now.desktops.Keys == was.desktops.Keys - gone
    && (forall e | e in now.desktops :: now.desktops[e] == was.desktops[e])
    && Orphaned(was, now, gone)
  }

  predicate Orphaned(was: Db, now: Db, gone: set<Id>) {
    && now.sessions.Keys == was.sessions.Keys
    && forall s | s in was.sessions ::
         && now.sessions[s].user == was.sessions[s].user && now.sessions[s].status == was.sessions[s].status
         && now.sessions[s].ticket == was.sessions[s].ticket
         && (was.sessions[s].desktop.Some? && was.sessions[s].desktop.value in gone
             ==> now.sessions[s].desktop == None)
         && (was.sessions[s].desktop.None? || was.sessions[s].desktop.value !in gone
             ==> now.sessions[s].desktop == was.sessions[s].desktop)
  }

  // ── Sessions ──────────────────────────────────────────────────────

  /** A session connects, disconnects and ends, in that order, as the desktop's and the user's it was made for. */
  lemma TransitionsOf(s: Session, ticket: string)
    ensures ToActive(s, ticket)
         == if s.status != SessionConnecting then None
            else Some(Session(s.desktop, s.user, SessionActive, Some(ticket)))
    ensures ToDisconnected(s)
         == if s.status == SessionActive then Some(Session(s.desktop, s.user, SessionDisconnected, s.ticket)) else None
    ensures ToEnded(s)
         == if s.status != SessionEnded then Some(Session(s.desktop, s.user, SessionEnded, None)) else None
  {
  }

  predicate HasDesktop(db: Db, s: Id) {
    s in db.sessions && db.sessions[s].desktop.Some? && db.sessions[s].desktop.value in db.desktops
  }

  /** What an ended session leaves of its desktop: a floating user is gone, a dedicated one disconnected. */
  predicate LeftBy(was: Desktop, now: Desktop) {
    && now.pool == was.pool && now.vmid == was.vmid && now.power == was.power && SameTask(was, now)
    && if was.assignment == Some(Floating)
       then now.status == Available && now.user == None && now.assignment == None
       else now.status == Disconnected && SameUser(was, now)
  }

  predicate EndedNow(was: Db, now: Db, s: Id)
    requires s in was.sessions
  {
    && now.sessions.Keys == was.sessions.Keys
    && now.sessions[s].status == SessionEnded && now.sessions[s].ticket == None
    && now.sessions[s].user == was.sessions[s].user
    && forall t | t in was.sessions && t != s :: now.sessions[t] == was.sessions[t]
  }

  lemma EndEffect(db: Db, s: Id)
    ensures var (now, reply) := EndSession(db, s);
            && (reply == InvalidState <==> s in db.sessions && db.sessions[s].status == SessionEnded)
            && (reply == Done <==> HasDesktop(db, s) && db.sessions[s].status != SessionEnded)
            && (reply !in {InvalidState, Done} ==> reply == NotFound)
            && (reply != Done ==> now == db)
            && (reply == Done ==>
                  var d := db.sessions[s].desktop.value;
                  && EndedNow(db, now, s) && now.sessions[s].desktop == Some(d)
                  && OthersKept(db, now, d) && LeftBy(db.desktops[d], now.desktops[d])
                  && now.pools == db.pools && now.entitlements == db.entitlements && now.nextId == db.nextId)
  {
  }

  // ── Provisioning ──────────────────────────────────────────────────

  /** A VMID of the pool's range that no row of the pool has. */
  predicate FreeIn(db: Db, p: Id, v: int) {
    && p in db.pools && db.pools[p].lo <= v <= db.pools[p].hi
    && forall d | d in db.desktops && db.desktops[d].pool == p :: db.desktops[d].vmid != v
  }

  ghost predicate LeastFree(db: Db, p: Id, v: int) {
    FreeIn(db, p, v) && forall w | FreeIn(db, p, w) :: v <= w
  }

  lemma LeastIsAllocated(db: Db, p: Id)
    requires p in db.pools
    ensures var v := LowestFree(UsedVmids(db, p), db.pools[p].lo, db.pools[p].hi);
            if v.Some? then LeastFree(db, p, v.value) else forall w :: !FreeIn(db, p, w)
  {
    forall v
      ensures FreeIn(db, p, v) <==> db.pools[p].lo <= v <= db.pools[p].hi && v !in UsedVmids(db, p)
    {
      forall d | d in db.desktops && db.desktops[d].pool == p && db.pools[p].lo <= v <= db.pools[p].hi
        ensures db.desktops[d].vmid == v ==> v in UsedVmids(db, p)
      {
        assert d in RowsOf(db, p);
      }
    }
  }

  /** A row whose build has ended: dedicated to its user in a persistent pool, a spare or in error otherwise. */
  predicate IsBuilt(pool: Pool, p: Id, user: Option<string>, build: Build, row: Desktop) {
    && row.pool == p && row.user == user && row.upid == None && row.task == None
    && row.assignment == (if pool.kind == Persistent && user != None then Some(Dedicated) else None)
    && (build == Built ==>
          row.power == Running && row.status == if pool.kind == Persistent && user != None then Assigned else Available)
    && (build.BuildFailed? ==> row.power == build.power && row.status == Error)
  }

  /** One row more, under the next identifier. */
  predicate RowAdded(was: Db, now: Db) {
    && now.desktops.Keys == was.desktops.Keys + {was.nextId} && now.nextId == was.nextId + 1
    && (forall e | e in was.desktops && e != was.nextId :: now.desktops[e] == was.desktops[e])
    && now.pools == was.pools && now.sessions == was.sessions && now.entitlements == was.entitlements
  }

  /** An active pool builds in its lowest free VMID; a failed build leaves its row, in error. */
  lemma ProvisionEffect(db: Db, p: Id, user: Option<string>, build: Build)
    requires p in db.pools
    ensures var (now, reply) := Provision(db, p, user, build);
            if db.pools[p].status != PoolActive then reply == Inactive && now == db
            else if forall v :: !FreeIn(db, p, v) then reply == RangeExhausted && now == db
            else
              && reply == (if build == Built then Done else ProvisioningFailed)
              && RowAdded(db, now) && IsBuilt(db.pools[p], p, user, build, now.desktops[db.nextId])
              && LeastFree(db, p, now.desktops[db.nextId].vmid)
    ensures ProvisionSpare(db, p, build) == Provision(db, p, None, build)
  {
    LeastIsAllocated(db, p);
  }

  /** What a tick of the task tracker can see of a build: a row with a task of no kind, its VM not started yet. */
  lemma CloneWindowEffect(pool: Pool, p: Id, vmid: int, user: Option<string>, upid: string)
    ensures var row := CloneWindow(pool, p, vmid, user, upid);
            && row.pool == p && row.vmid == vmid && row.status == Provisioning && row.power == Stopped
            && row.upid == Some(upid) && row.task == None && row.user == user
            && row.assignment == (if pool.kind == Persistent && user != None then Some(Dedicated) else None)
  {
  }

  // ── Connect ───────────────────────────────────────────────────────

  /** An entitlement to the pool that names the user or a group of the user. */
  predicate Grants(e: Entitlement, p: Id, user: string, groups: seq<string>) {
    e.pool == p && (if e.principal.UserPrincipal? then e.principal.name == user else e.principal.name in groups)
  }

  predicate Granted(db: Db, p: Id, user: string, groups: seq<string>) {
    exists e :: e in db.entitlements && Grants(e, p, user, groups)
  }

  lemma EntitledIsGranted(db: Db, p: Id, user: string, groups: seq<string>)
    ensures Entitled(db, p, user, groups) <==> Granted(db, p, user, groups)
  {
    assert Grants(Entitlement(p, UserPrincipal(user)), p, user, groups);
    forall g | g in groups
      ensures Grants(Entitlement(p, GroupPrincipal(g)), p, user, groups)
    {
    }
    if Granted(db, p, user, groups) {
      var e :| e in db.entitlements && Grants(e, p, user, groups);
      assert e == if e.principal.UserPrincipal? then Entitlement(p, UserPrincipal(user))
                  else Entitlement(p, GroupPrincipal(e.principal.name));
    }
  }

  /** The checks before any desktop is looked for, each alone deciding its answer. */
  lemma ConnectRefuses(db: Db, user: string, groups: seq<string>, p: Id, env: ConnectEnv)
    ensures var (now, reply) := Connect(db, user, groups, p, env);
            && (reply == NotFound <==> p !in db.pools)
            && (reply == Inactive <==> p in db.pools && db.pools[p].status != PoolActive)
            && (reply == NotEntitled <==>
                  p in db.pools && db.pools[p].status == PoolActive && !Granted(db, p, user, groups))
            && (reply == NoProvider <==>
                  && p in db.pools && db.pools[p].status == PoolActive && Granted(db, p, user, groups)
                  && !env.hasProvider)
            && (reply in {NotFound, Inactive, NotEntitled, NoProvider} ==> now == db)
  {
    EntitledIsGranted(db, p, user, groups);
  }

  /** One grant to a group is enough for each of its members; without any grant nobody is let in. */
  lemma GrantAdmits(db: Db, user: string, groups: seq<string>, g: string, p: Id, env: ConnectEnv)
    requires g in groups
    ensures var granted := db.(entitlements := db.entitlements + {Entitlement(p, GroupPrincipal(g))});
            Connect(granted, user, groups, p, env).1 != NotEntitled
    ensures var withdrawn :=
              db.(entitlements := set e | e in db.entitlements && !Grants(e, p, user, groups));
            p in db.pools && db.pools[p].status == PoolActive ==>
              Connect(withdrawn, user, groups, p, env).1 == NotEntitled
  {
    var granted := db.(entitlements := db.entitlements + {Entitlement(p, GroupPrincipal(g))});
    assert Grants(Entitlement(p, GroupPrincipal(g)), p, user, groups);
    ConnectRefuses(granted, user, groups, p, env);
    ConnectRefuses(db.(entitlements := set e | e in db.entitlements && !Grants(e, p, user, groups)), user, groups, p,
                   env);
  }

  /** A row of the pool that is the user's and not being deleted. */
  predicate Keeps(db: Db, p: Id, user: string, d: Id) {
    && d in db.desktops && db.desktops[d].pool == p && db.desktops[d].user == Some(user)
    && db.desktops[d].status != Deleting
  }

  ghost predicate KeepsTwo(db: Db, p: Id, user: string) {
    exists d, e :: Keeps(db, p, user, d) && Keeps(db, p, user, e) && d != e
  }

  lemma TwoOrMore(ids: set<Id>)
    ensures |ids| > 1 <==> exists d, e :: d in ids && e in ids && d != e
  {
    if |ids| > 1 {
      var d :| d in ids;
      assert |ids - {d}| > 0;
      var e :| e in ids - {d};
      assert d in ids && e in ids && d != e;
    }
    if d, e :| d in ids && e in ids && d != e {
      assert |{d, e}| <= |ids| by {
        assert ids == {d, e} + (ids - {d, e});
      }
    }
  }

  lemma KeptRows(db: Db, p: Id, user: string)
    ensures forall d :: d in DedicatedRows(db, p, user) <==> Keeps(db, p, user, d)
    ensures |DedicatedRows(db, p, user)| > 1 <==> KeepsTwo(db, p, user)
  {
    TwoOrMore(DedicatedRows(db, p, user));
  }

  predicate LetIn(db: Db, user: string, groups: seq<string>, p: Id, env: ConnectEnv) {
    p in db.pools && db.pools[p].status == PoolActive && Granted(db, p, user, groups) && env.hasProvider
  }

  /** A persistent pool: the user's one row, or a new one; two rows are an error. */
  lemma PersistentConnectAnswers(db: Db, user: string, groups: seq<string>, p: Id, env: ConnectEnv)
    requires LetIn(db, user, groups, p, env) && db.pools[p].kind == Persistent
    ensures var reply := Connect(db, user, groups, p, env).1;
            if KeepsTwo(db, p, user) then reply == MultipleRows
            else if exists d :: Keeps(db, p, user, d) then
              if env.ticket == None then reply == ProviderFailed else reply.Opened?
            else if forall v :: !FreeIn(db, p, v) then reply == RangeExhausted
            else if env.build != Built then reply == ProvisioningFailed
            else if env.ticket == None then reply == ProviderFailed
            else reply.Opened?
  {
    EntitledIsGranted(db, p, user, groups);
    KeptRows(db, p, user);
    LeastIsAllocated(db, p);
  }

  /** A non-persistent pool: any available row will do. */
  lemma PooledConnectAnswers(db: Db, user: string, groups: seq<string>, p: Id, env: ConnectEnv)
    requires LetIn(db, user, groups, p, env) && db.pools[p].kind == NonPersistent
    ensures var (now, reply) := Connect(db, user, groups, p, env);
            && (if forall d | d in db.desktops :: db.desktops[d].pool != p || db.desktops[d].status != Available
                then reply == PoolFull
                else if env.ticket == None then reply == ProviderFailed
                else reply.Opened?)
            && (!reply.Opened? ==> now == db)
  {
    EntitledIsGranted(db, p, user, groups);
    assert forall d :: d in RowsWithStatus(db, p, Available)
                       <==> d in db.desktops && db.desktops[d].pool == p && db.desktops[d].status == Available;
  }

  /** A session is opened on `d`. */
  predicate OpenedOn(was: Db, now: Db, s: Id, d: Id, user: string, ticket: Option<string>) {
    && s in now.sessions && now.sessions.Keys == was.sessions.Keys + {s}
    && now.sessions[s] == Session(Some(d), user, SessionActive, ticket)
    && (forall t | t in was.sessions && t != s :: now.sessions[t] == was.sessions[t])
    && now.pools == was.pools && now.entitlements == was.entitlements
    && d in now.desktops && now.desktops[d].status == Connected && now.desktops[d].power == Running
    && now.desktops[d].user == Some(user)
    && forall e | e in was.desktops && e != d :: e in now.desktops && now.desktops[e] == was.desktops[e]
  }

  /** The spare with the lowest VMID becomes the floating user's for the session. */
  lemma PooledConnectOpens(db: Db, user: string, groups: seq<string>, p: Id, env: ConnectEnv) returns (d: Id)
    requires LetIn(db, user, groups, p, env) && db.pools[p].kind == NonPersistent
    requires Connect(db, user, groups, p, env).1.Opened?
    ensures d in db.desktops && db.desktops[d].pool == p && db.desktops[d].status == Available
    ensures forall e | e in db.desktops && db.desktops[e].pool == p && db.desktops[e].status == Available ::
              db.desktops[d].vmid <= db.desktops[e].vmid
    ensures var (now, reply) := Connect(db, user, groups, p, env);
            && OpenedOn(db, now, reply.session, d, user, env.ticket) && now.desktops.Keys == db.desktops.Keys
            && now.desktops[d].pool == p && now.desktops[d].vmid == db.desktops[d].vmid
            && now.desktops[d].assignment == Some(Floating) && SameTask(db.desktops[d], now.desktops[d])
            && reply.session == db.nextId && now.nextId == db.nextId + 1
  {
    EntitledIsGranted(db, p, user, groups);
    d := First(db, RowsWithStatus(db, p, Available));
    forall e | e in db.desktops && db.desktops[e].pool == p && db.desktops[e].status == Available
      ensures db.desktops[d].vmid <= db.desktops[e].vmid
    {
      assert e in RowsWithStatus(db, p, Available);
    }
  }

  /** The user's row is reconnected as it is. */
  lemma PersistentConnectOpens(db: Db, user: string, groups: seq<string>, p: Id, env: ConnectEnv, d: Id)
    requires LetIn(db, user, groups, p, env) && db.pools[p].kind == Persistent && Keeps(db, p, user, d)
    requires Connect(db, user, groups, p, env).1.Opened?
    ensures var (now, reply) := Connect(db, user, groups, p, env);
            && OpenedOn(db, now, reply.session, d, user, env.ticket) && now.desktops.Keys == db.desktops.Keys
            && now.desktops[d].pool == p && now.desktops[d].vmid == db.desktops[d].vmid
            && now.desktops[d].assignment == db.desktops[d].assignment && SameTask(db.desktops[d], now.desktops[d])
            && reply.session == db.nextId && now.nextId == db.nextId + 1
  {
    EntitledIsGranted(db, p, user, groups);
    KeptRows(db, p, user);
    assert d in DedicatedRows(db, p, user);
    var first := First(db, DedicatedRows(db, p, user));
    assert Keeps(db, p, user, first);
  }

  /** A first connect: the row it builds is the user's, whether or not the session comes about. */
  lemma FirstConnectEffect(db: Db, user: string, groups: seq<string>, p: Id, env: ConnectEnv)
    requires LetIn(db, user, groups, p, env) && db.pools[p].kind == Persistent
    requires (forall d :: !Keeps(db, p, user, d)) && exists v :: FreeIn(db, p, v)
    ensures var (now, reply) := Connect(db, user, groups, p, env);
            var d := db.nextId;
            && d in now.desktops && LeastFree(db, p, now.desktops[d].vmid) && now.desktops[d].pool == p
            && now.desktops[d].user == Some(user) && now.desktops[d].assignment == Some(Dedicated)
            && (!reply.Opened? ==>
                  RowAdded(db, now) && IsBuilt(db.pools[p], p, Some(user), env.build, now.desktops[d]))
            && (reply.Opened? ==>
                  && OpenedOn(db, now, reply.session, d, user, env.ticket) && now.nextId == db.nextId + 2
                  && now.desktops.Keys == db.desktops.Keys + {d} && reply.session == d + 1
                  && now.desktops[d].upid == None && now.desktops[d].task == None)
  {
    EntitledIsGranted(db, p, user, groups);
    KeptRows(db, p, user);
    assert DedicatedRows(db, p, user) == {};
    ProvisionEffect(db, p, Some(user), env.build);
  }

  /** Refused on the way to a row that exists, a connect changes nothing. */
  lemma FailedConnectChangesNothing(db: Db, user: string, groups: seq<string>, p: Id, env: ConnectEnv)
    requires LetIn(db, user, groups, p, env) && db.pools[p].kind == Persistent
    requires (exists d :: Keeps(db, p, user, d)) || forall v :: !FreeIn(db, p, v)
    requires !Connect(db, user, groups, p, env).1.Opened?
    ensures Connect(db, user, groups, p, env).0 == db
  {
    EntitledIsGranted(db, p, user, groups);
    KeptRows(db, p, user);
    LeastIsAllocated(db, p);
  }

  // ── Admin handlers on desktops ────────────────────────────────────

  /** Another row of the pool is the user's, whatever its status. */
  predicate Second(db: Db, d: Id, user: string, e: Id)
    requires d in db.desktops
  {
    e in db.desktops && e != d && db.desktops[e].pool == db.desktops[d].pool && db.desktops[e].user == Some(user)
  }

  ghost predicate TwoOthers(db: Db, d: Id, user: string)
    requires d in db.desktops
  {
    exists e, f :: Second(db, d, user, e) && Second(db, d, user, f) && e != f
  }

  lemma AssignEffect(db: Db, d: Id, user: string)
    ensures var (now, reply) := Assign(db, d, user);
            && (if d !in db.desktops then reply == NotFound
                else if db.desktops[d].user.Some? && db.desktops[d].user.value != user then reply == Conflict
                else if TwoOthers(db, d, user) then reply == MultipleRows
                else if exists e :: Second(db, d, user, e) then reply == Conflict
                else if db.desktops[d].pool !in db.pools then reply == NotFound
                else reply == Done)
            && (reply != Done ==> now == db)
            && (reply == Done ==>
                  && OnlyRow(db, now, d)
                  && var row, row' := db.desktops[d], now.desktops[d];
                     && row'.user == Some(user)
                     && row'.assignment == Some(if db.pools[row.pool].kind == Persistent then Dedicated else Floating)
                     && row'.status == (if row.status == Available then Assigned else row.status)
                     && row'.power == row.power && SameTask(row, row'))
  {
    if d in db.desktops {
      assert forall e :: e in OtherRows(db, d, user) <==> Second(db, d, user, e);
      TwoOrMore(OtherRows(db, d, user));
    }
  }

  /** A session of the desktop that is connecting or active: it keeps the desktop from being taken away. */
  predicate InUse(db: Db, d: Id) {
    exists s | s in db.sessions ::
      db.sessions[s].desktop == Some(d) && db.sessions[s].status in {SessionConnecting, SessionActive}
  }

  lemma GuardedIsInUse(db: Db, d: Id)
    ensures GuardedOn(db, d) != {} <==> InUse(db, d)
  {
    if s :| s in db.sessions && db.sessions[s].desktop == Some(d)
            && db.sessions[s].status in {SessionConnecting, SessionActive}
    {
      assert s in GuardedOn(db, d);
    }
    if s :| s in GuardedOn(db, d) {
      assert InUse(db, d);
    }
  }

  lemma UnassignEffect(db: Db, d: Id)
    ensures var (now, reply) := Unassign(db, d);
            && (if d !in db.desktops then reply == NotFound
                else if db.desktops[d].user == None || InUse(db, d) then reply == Conflict
                else reply == Done)
            && (reply != Done ==> now == db)
            && (reply == Done ==>
                  && OnlyRow(db, now, d)
                  && var row, row' := db.desktops[d], now.desktops[d];
                     && row'.user == None && row'.assignment == None
                     && row'.status == (if row.status == Assigned then Available else row.status)
                     && row'.power == row.power && SameTask(row, row'))
  {
    GuardedIsInUse(db, d);
  }

  /** One task at a time; the kind recorded says where the VM will be, so a reboot counts as a start. */
  lemma PowerEffect(db: Db, d: Id, action: PowerAction, hasProvider: bool, upid: Option<string>)
    ensures var (now, reply) := PowerTask(db, d, action, hasProvider, upid);
            && (if d !in db.desktops then reply == NotFound
                else if db.desktops[d].upid != None then reply == Conflict
                else if !hasProvider then reply == NoProvider
                else if upid == None then reply == ProviderFailed
                else reply == Done)
            && (reply != Done ==> now == db)
            && (reply == Done ==>
                  && OnlyRow(db, now, d)
                  && var row, row' := db.desktops[d], now.desktops[d];
                     && row'.upid == upid
                     && (row'.task == Some(StartTask) <==> action in {PowerStart, PowerReboot})
                     && (row'.task == Some(StopTask) <==> action == PowerStop)
                     && (row'.task == Some(ShutdownTask) <==> action == PowerShutdown)
                     && row'.status == row.status && row'.power == row.power && SameUser(row, row'))
  {
  }

  lemma DoomEffect(db: Db, d: Id, kind: TaskKind, hasProvider: bool, upid: Option<string>)
    ensures var (now, reply) := Doom(db, d, kind, hasProvider, upid);
            && (if d !in db.desktops then reply == NotFound
                else if db.desktops[d].upid != None || InUse(db, d) then reply == Conflict
                else if !hasProvider then reply == NoProvider
                else if upid == None then reply == ProviderFailed
                else reply == Done)
            && (reply != Done ==> now == db)
            && (reply == Done ==>
                  && OnlyRow(db, now, d)
                  && var row, row' := db.desktops[d], now.desktops[d];
                     && row'.status == Deleting && row'.upid == upid && row'.task == Some(kind)
                     && row'.power == row.power && SameUser(row, row'))
  {
    GuardedIsInUse(db, d);
  }

  /** A column of a late write is the writer's if he changed it, and else what the row holds by now. */
  predicate Column<T(==)>(now: T, read: T, row: T, after: T) {
    after == if row == read then now else row
  }

  /** A late write changes only the columns its call changed, and those as the call would have. */
  lemma LateEffect(db: Db, d: Id, read: Desktop, row: Desktop)
    ensures var end := Late(db, d, read, row);
            if d !in db.desktops then end == db
            else
              var now, after := db.desktops[d], end.desktops[d];
              && OnlyDesktops(db, end) && OthersKept(db, end, d)
              && (row == read ==> end == db) && (now == read ==> after == row)
              && Column(now.pool, read.pool, row.pool, after.pool)
              && Column(now.vmid, read.vmid, row.vmid, after.vmid)
              && Column(now.status, read.status, row.status, after.status)
              && Column(now.user, read.user, row.user, after.user)
              && Column(now.assignment, read.assignment, row.assignment, after.assignment)
              && Column(now.power, read.power, row.power, after.power)
              && Column(now.upid, read.upid, row.upid, after.upid)
              && Column(now.task, read.task, row.task, after.task)
  {
    if d in db.desktops && row == read {
      assert Late(db, d, read, row).desktops == db.desktops;
    }
  }

  // ── Task tracker ──────────────────────────────────────────────────

  predicate InFlight(db: Db, d: Id) {
    d in db.desktops && db.desktops[d].upid != None && db.desktops[d].pool in db.pools
  }

  /**
   * Only a row with a task in flight is touched, and not while the task runs. One that fails, cannot be polled or
   * has no kind puts its row in error.
   */
  lemma PollEffect(db: Db, d: Id, poll: Poll, build: Build)
    requires InFlight(db, d) && db.desktops[d].task.Some? ==> poll != Succeeded
    ensures var now := PollTask(db, d, poll, build);
            if InFlight(db, d) && (db.desktops[d].task == None || poll in {TaskFailed, Unknown})
            then OnlyRow(db, now, d) && InError(db.desktops[d], now.desktops[d])
            else now == db
  {
  }

  /** A power task leaves its VM running or stopped, one of no handler's making the row available; the rest stays. */
  lemma PowerTaskEnds(db: Db, d: Id, build: Build)
    requires InFlight(db, d) && db.desktops[d].task.Some?
    requires db.desktops[d].task.value !in {DestroyTask, RebuildTask}
    ensures var now := PollTask(db, d, Succeeded, build);
            && OnlyRow(db, now, d)
            && var row, row' := db.desktops[d], now.desktops[d];
               && row'.upid == None && row'.task == None && SameUser(row, row')
               && row'.status == (if row.task == Some(ProvisionTask) then Available else row.status)
               && (row.task == Some(StartTask) ==> row'.power == Running)
               && (row.task in {Some(ShutdownTask), Some(StopTask)} ==> row'.power == Stopped)
               && (row.task == Some(ProvisionTask) ==> row'.power == row.power)
  {
  }

  lemma DestroyTaskEnds(db: Db, d: Id, build: Build)
    requires InFlight(db, d) && db.desktops[d].task == Some(DestroyTask)
    ensures var now := PollTask(db, d, Succeeded, build);
            && RowsGone(db, now, {d})
            && now.pools == db.pools && now.entitlements == db.entitlements && now.nextId == db.nextId
  {
  }

  /**
   * A rebuild that succeeds builds the row anew in its VMID, for its user if that one is dedicated; if its pool
   * is no longer active, the row is left in `provisioning`.
   */
  lemma RebuildTaskEnds(db: Db, d: Id, build: Build)
    requires InFlight(db, d) && db.desktops[d].task == Some(RebuildTask)
    ensures var now := PollTask(db, d, Succeeded, build);
            && OnlyRow(db, now, d)
            && var row, row' := db.desktops[d], now.desktops[d];
               if db.pools[row.pool].status != PoolActive
               then row'.status == Provisioning && row'.upid == None && row'.task == None
                    && row'.power == row.power && SameUser(row, row')
               else IsBuilt(db.pools[row.pool], row.pool,
                            if row.assignment == Some(Dedicated) then row.user else None, build, row')
  {
  }

  // ── Session monitor ───────────────────────────────────────────────

  predicate LiveAt(db: Db, d: Id, s: Id) {
    s in db.sessions && db.sessions[s].desktop == Some(d) && db.sessions[s].status != SessionEnded
  }

  /** The youngest live session of a monitored desktop. */
  ghost predicate OnTop(db: Db, d: Id, s: Id) {
    && d in db.desktops && db.desktops[d].status in {Assigned, Connected, Disconnected}
    && LiveAt(db, d, s) && forall t: Id | LiveAt(db, d, t) :: t <= s
  }

  lemma TopIsLatest(db: Db, d: Id)
    ensures forall s: Id :: s in LiveOn(db, d) <==> LiveAt(db, d, s)
    ensures forall s: Id | OnTop(db, d, s) :: LiveOn(db, d) != {} && s == Latest(LiveOn(db, d))
    ensures (forall s: Id :: !OnTop(db, d, s))
            <==> LiveOn(db, d) == {} || d !in db.desktops
                 || db.desktops[d].status !in {Assigned, Connected, Disconnected}
  {
    if LiveOn(db, d) != {} && d in db.desktops && db.desktops[d].status in {Assigned, Connected, Disconnected} {
      assert forall t: Id | LiveAt(db, d, t) :: t in LiveOn(db, d);
      assert OnTop(db, d, Latest(LiveOn(db, d)));
    }
    forall s: Id | OnTop(db, d, s)
      ensures LiveOn(db, d) != {} && s == Latest(LiveOn(db, d))
    {
      assert s in LiveOn(db, d);
    }
  }

  /** A VM that is down ends the youngest session, and nothing else comes of it. */
  lemma VmDownEffect(db: Db, d: Id)
    ensures (forall s: Id :: !OnTop(db, d, s)) ==> VmDown(db, d) == db
    ensures forall s: Id | OnTop(db, d, s) ::
              var now := VmDown(db, d);
              && EndedNow(db, now, s) && OthersKept(db, now, d) && LeftBy(db.desktops[d], now.desktops[d])
              && now.pools == db.pools && now.entitlements == db.entitlements && now.nextId == db.nextId
  {
    TopIsLatest(db, d);
  }

  predicate Cycles(db: Db, d: Id) {
    && d in db.desktops && db.desktops[d].pool in db.pools
    && db.pools[db.desktops[d].pool].kind == NonPersistent
  }

  /** What lets a refresh begin. */
  predicate Refreshable(db: Db, d: Id) {
    Cycles(db, d) && db.pools[db.desktops[d].pool].refreshOnLogoff
    && db.desktops[d].status !in {Deleting, Maintenance, Provisioning}
  }

  predicate Removable(db: Db, d: Id) {
    Cycles(db, d) && db.pools[db.desktops[d].pool].deleteOnLogoff && db.desktops[d].status != Deleting
  }

  /** A refreshed row: a running spare without its floating user, or in error. */
  predicate Refreshed(was: Desktop, now: Desktop, outcome: CycleOutcome) {
    && now.upid == None && now.task == None
    && (if was.assignment == Some(Floating) then now.user == None && now.assignment == None else SameUser(was, now))
    && (outcome == CycleDone ==> now.status == Available && now.power == Running)
    && (outcome == CycleFailed ==> now.status == Error && now.power == was.power)
  }

  lemma RefreshEffect(db: Db, d: Id, outcome: CycleOutcome)
    ensures var (now, reply) := Refresh(db, d, outcome);
            if d !in db.desktops then reply == NotFound && now == db
            else if !Refreshable(db, d) then reply == InvalidState && now == db
            else
              && reply == (if outcome == CycleDone then Done else ProviderFailed)
              && OnlyRow(db, now, d) && Refreshed(db.desktops[d], now.desktops[d], outcome)
  {
  }

  lemma RemovalEffect(db: Db, d: Id, outcome: CycleOutcome)
    ensures var (now, reply) := DeleteOnLogoff(db, d, outcome);
            if d !in db.desktops then reply == NotFound && now == db
            else if !Removable(db, d) then reply == InvalidState && now == db
            else
              && reply == (if outcome == CycleDone then Done else ProviderFailed)
              && (outcome == CycleDone ==> RowsGone(db, now, {d}) && now.pools == db.pools && now.nextId == db.nextId)
              && (outcome == CycleFailed ==> OnlyRow(db, now, d) && InError(db.desktops[d], now.desktops[d]))
  {
  }

  /** A logoff ends the youngest session if it is active; otherwise nothing happens. */
  lemma LogoffWaits(db: Db, d: Id, outcome: CycleOutcome)
    ensures (forall s: Id | OnTop(db, d, s) :: db.sessions[s].status != SessionActive) ==> Logoff(db, d, outcome) == db
  {
    TopIsLatest(db, d);
  }

  /** In a persistent pool, and in one with neither flag, the end of the session is all. */
  lemma LogoffKeeps(db: Db, d: Id, s: Id, outcome: CycleOutcome)
    requires OnTop(db, d, s) && db.sessions[s].status == SessionActive
    requires Cycles(db, d) ==>
               var pool := db.pools[db.desktops[d].pool];
               !pool.deleteOnLogoff && !pool.refreshOnLogoff
    ensures var now := Logoff(db, d, outcome);
            && EndedNow(db, now, s) && OthersKept(db, now, d) && LeftBy(db.desktops[d], now.desktops[d])
            && now.pools == db.pools
  {
    TopIsLatest(db, d);
  }

  /** A pool that deletes on logoff, refreshing or not, loses the row; if the VM resists, it is in error. */
  lemma LogoffDeletes(db: Db, d: Id, s: Id, outcome: CycleOutcome)
    requires OnTop(db, d, s) && db.sessions[s].status == SessionActive
    requires Cycles(db, d) && db.pools[db.desktops[d].pool].deleteOnLogoff
    ensures var now := Logoff(db, d, outcome);
            && s in now.sessions && now.sessions[s].status == SessionEnded && now.pools == db.pools
            && (outcome == CycleDone ==>
                  && now.desktops == db.desktops - {d} && now.sessions[s].desktop == None
                  && forall t | t in db.sessions && db.sessions[t].desktop != Some(d) ::
                       t in now.sessions && now.sessions[t] == db.sessions[t])
            && (outcome == CycleFailed ==>
                  && OthersKept(db, now, d) && now.desktops[d].status == Error
                  && (db.desktops[d].assignment == Some(Floating) ==> now.desktops[d].user == None))
  {
    TopIsLatest(db, d);
  }

  /** A pool that only refreshes gets the row back as a running spare, or in error. */
  lemma LogoffRefreshes(db: Db, d: Id, s: Id, outcome: CycleOutcome)
    requires OnTop(db, d, s) && db.sessions[s].status == SessionActive
    requires Cycles(db, d)
    requires !db.pools[db.desktops[d].pool].deleteOnLogoff && db.pools[db.desktops[d].pool].refreshOnLogoff
    ensures var now := Logoff(db, d, outcome);
            && EndedNow(db, now, s) && OthersKept(db, now, d) && now.pools == db.pools
            && Refreshed(db.desktops[d], now.desktops[d], outcome)
  {
    TopIsLatest(db, d);
  }

  // ── Health checker ────────────────────────────────────────────────

  lemma SweepEffect(db: Db, stale: set<Id>)
    ensures var now := StuckSweep(db, stale);
            && OnlyDesktops(db, now) && now.desktops.Keys == db.desktops.Keys
            && forall d | d in db.desktops ::
                 if d in stale && db.desktops[d].status == Provisioning
                 then InError(db.desktops[d], now.desktops[d])
                      && now.desktops[d].pool == db.desktops[d].pool && now.desktops[d].vmid == db.desktops[d].vmid
                 else now.desktops[d] == db.desktops[d]
  {
  }

  // ── Pools ─────────────────────────────────────────────────────────

  predicate InRange(pool: Pool, v: int) {
    pool.lo <= v <= pool.hi
  }

  /** A VMID of the range is another pool's, or a VM of the cluster has it, or the name is taken. */
  ghost predicate Taken(db: Db, pool: Pool, live: set<int>) {
    || (exists q, v :: q in db.pools && InRange(db.pools[q], v) && InRange(pool, v))
    || (exists v :: v in live && InRange(pool, v))
    || (exists q | q in db.pools :: db.pools[q].name == pool.name)
  }

  lemma CreateEffect(db: Db, pool: Pool, live: set<int>)
    requires forall q | q in db.pools :: db.pools[q].lo <= db.pools[q].hi
    ensures var (now, reply) := CreatePool(db, pool, live);
            && (if pool.lo >= pool.hi || pool.maxSize > pool.hi - pool.lo + 1 then reply == Invalid
                else if Taken(db, pool, live) then reply == Conflict
                else reply == Done)
            && (reply != Done ==> now == db)
            && (reply == Done ==>
                  && now.pools.Keys == db.pools.Keys + {db.nextId} && now.nextId == db.nextId + 1
                  && (forall q | q in db.pools && q != db.nextId :: now.pools[q] == db.pools[q])
                  && now.pools[db.nextId].status == PoolActive && now.pools[db.nextId].(status := pool.status) == pool
                  && now.desktops == db.desktops && now.sessions == db.sessions && now.entitlements == db.entitlements)
  {
    if pool.lo < pool.hi {
      forall q | q in db.pools
        ensures Meets(db.pools[q], pool.lo, pool.hi) <==> exists v :: InRange(db.pools[q], v) && InRange(pool, v)
      {
        var v := if db.pools[q].lo > pool.lo then db.pools[q].lo else pool.lo;
        if Meets(db.pools[q], pool.lo, pool.hi) {
          assert InRange(db.pools[q], v) && InRange(pool, v);
        }
      }
    }
  }

  /** An insert fails on the name alone, whatever the ranges are by then. */
  lemma InsertEffect(db: Db, pool: Pool)
    ensures var now := InsertPool(db, pool);
            if exists q | q in db.pools :: db.pools[q].name == pool.name then now == db
            else
              && now.pools.Keys == db.pools.Keys + {db.nextId} && now.nextId == db.nextId + 1
              && (forall q | q in db.pools && q != db.nextId :: now.pools[q] == db.pools[q])
              && now.pools[db.nextId].status == PoolActive && now.pools[db.nextId].name == pool.name
  {
  }

  predicate OnlyPool(was: Db, now: Db, p: Id) {
    && p in was.pools && now.pools.Keys == was.pools.Keys
    && (forall q | q in was.pools && q != p :: now.pools[q] == was.pools[q])
    && now.desktops == was.desktops && now.sessions == was.sessions && now.entitlements == was.entitlements
    && now.nextId == was.nextId
  }

  /** A field that is given is set; one that is not stays. */
  predicate Set<T(==)>(given: Option<T>, was: T, now: T) {
    if given == None then now == was else given == Some(now)
  }

  predicate Sets(patch: PoolPatch, was: Pool, now: Pool) {
    && Set(patch.minSpare, was.minSpare, now.minSpare) && Set(patch.maxSize, was.maxSize, now.maxSize)
    && Set(patch.deleteOnLogoff, was.deleteOnLogoff, now.deleteOnLogoff)
    && Set(patch.refreshOnLogoff, was.refreshOnLogoff, now.refreshOnLogoff)
    && now.name == was.name && now.kind == was.kind && now.status == was.status
    && now.lo == was.lo && now.hi == was.hi
  }

  lemma UpdateEffect(db: Db, p: Id, patch: PoolPatch)
    ensures var (now, reply) := UpdatePool(db, p, patch);
            if p !in db.pools then reply == NotFound && now == db
            else if patch.immutable || patch.status
                    || exists n :: patch.maxSize == Some(n)
                                   && (n > db.pools[p].hi - db.pools[p].lo + 1
                                       || n < |set d | d in db.desktops && db.desktops[d].pool == p|)
            then reply == Invalid && now == db
            else reply == Done && OnlyPool(db, now, p) && Sets(patch, db.pools[p], now.pools[p])
  {
    assert RowsOf(db, p) == set d | d in db.desktops && db.desktops[d].pool == p;
  }

  lemma DrainEffect(db: Db, p: Id)
    ensures var (now, reply) := Drain(db, p);
            && (reply == NotFound <==> p !in db.pools)
            && (reply == Done <==> p in db.pools && db.pools[p].status in {PoolActive, PoolDraining})
            && (reply !in {NotFound, Done} ==> reply == Conflict)
            && (reply == Done ==>
                  OnlyPool(db, now, p) && now.pools[p] == db.pools[p].(status := PoolDraining))
            && (reply != Done ==> now == db)
  {
  }

  /** Some session of the pool is connecting or active. */
  predicate PoolInUse(db: Db, p: Id) {
    exists s | s in db.sessions ::
      && db.sessions[s].status in {SessionConnecting, SessionActive}
      && db.sessions[s].desktop.Some? && db.sessions[s].desktop.value in db.desktops
      && db.desktops[db.sessions[s].desktop.value].pool == p
  }

  lemma DeleteEffect(db: Db, p: Id)
    ensures var (now, reply) := DeletePool(db, p);
            && (if p !in db.pools then reply == NotFound
                else if db.pools[p].status != PoolDeleting && PoolInUse(db, p) then reply == Conflict
                else reply == Done)
            && (reply == Done ==>
                  OnlyPool(db, now, p) && now.pools[p] == db.pools[p].(status := PoolDeleting))
            && (reply != Done ==> now == db)
  {
    if s :| s in GuardedOf(db, p) {
      assert PoolInUse(db, p);
    }
    if PoolInUse(db, p) {
      var s :| s in db.sessions && db.sessions[s].status in {SessionConnecting, SessionActive}
               && db.sessions[s].desktop.Some? && db.sessions[s].desktop.value in db.desktops
               && db.desktops[db.sessions[s].desktop.value].pool == p;
      assert s in GuardedOf(db, p);
    }
  }

  /** The destroys of a cascade that leave no row. */
  function RowsRazed(db: Db, p: Id, fates: map<Id, Fate>): set<Id> {
    set d | d in db.desktops && db.desktops[d].pool == p && d in fates && fates[d] in {Destroyed, AlreadyGone}
  }

  lemma RazeEffect(db: Db, p: Id, fates: map<Id, Fate>)
    ensures RazedIn(RowsOf(db, p), fates) == RowsRazed(db, p, fates)
    ensures var now := Raze(db, RowsOf(db, p), fates);
            && now.desktops.Keys == db.desktops.Keys - RowsRazed(db, p, fates)
            && (forall d | d in now.desktops ::
                  now.desktops[d] == if db.desktops[d].pool == p && d in fates && fates[d] == Refused
                                     then db.desktops[d].(status := Error) else db.desktops[d])
            && Orphaned(db, now, RowsRazed(db, p, fates)) && now.nextId == db.nextId
            && now.pools == db.pools && now.entitlements == db.entitlements
  {
    assert RazedIn(RowsOf(db, p), fates) == RowsRazed(db, p, fates);
  }

  /** All rows of a pool are razed exactly when none is left. */
  lemma NoneLeft(db: Db, p: Id, fates: map<Id, Fate>)
    ensures RowsRazed(db, p, fates) == RowsOf(db, p)
            <==> forall d | d in db.desktops && d !in RowsRazed(db, p, fates) :: db.desktops[d].pool != p
  {
    var razed, rows := RowsRazed(db, p, fates), RowsOf(db, p);
    assert razed <= rows;
    if razed != rows {
      assert rows == razed + (rows - razed);
      var d :| d in rows - razed;
      assert d in db.desktops && db.desktops[d].pool == p;
    }
  }

  /**
   * A cascade removes the rows that were destroyed or gone, marks those that were refused, leaves those that
   * crashed, and removes the pool with its entitlements exactly when no row of it is left.
   */
  lemma CascadeEffect(db: Db, p: Id, fates: map<Id, Fate>)
    requires p in db.pools && db.pools[p].status == PoolDeleting
    ensures Cascade(db, p, false, fates) == db
    ensures var now := Cascade(db, p, true, fates);
            && now.desktops.Keys == db.desktops.Keys - RowsRazed(db, p, fates)
            && (forall d | d in now.desktops ::
                  now.desktops[d] == if db.desktops[d].pool == p && d in fates && fates[d] == Refused
                                     then db.desktops[d].(status := Error) else db.desktops[d])
            && Orphaned(db, now, RowsRazed(db, p, fates)) && now.nextId == db.nextId
            && (p !in now.pools <==> forall d | d in now.desktops :: db.desktops[d].pool != p)
            && now.pools == (if p in now.pools then db.pools else db.pools - {p})
            && (forall e :: e in now.entitlements <==> e in db.entitlements && (p in now.pools || e.pool != p))
  {
    RazeEffect(db, p, fates);
    NoneLeft(db, p, fates);
    assert Cascade(db, p, true, fates).desktops == Raze(db, RowsOf(db, p), fates).desktops;
    assert Cascade(db, p, true, fates).sessions == Raze(db, RowsOf(db, p), fates).sessions;
  }
}

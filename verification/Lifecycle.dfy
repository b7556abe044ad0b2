/**
 * What one call of the broker, of an admin handler or of a worker does to the database.
 *
 * Each function is one service call taken as one step: it returns the database after the call's last
 * commit or rollback, and what the caller is told. Whatever the hypervisor or the guest agent answers
 * is an argument.
 */
module Lifecycle {
  import opened Entities

  /** What a call tells its caller; every value but `Done` and `Opened` is an error of the source. */
  datatype Reply =
    | Done
    | Opened(session: Id)
    | NotFound
    | WriteFailed
    | Invalid
    | Conflict
    | Inactive
    | NotEntitled
    | NoProvider
    | PoolFull
    | MultipleRows
    | RangeExhausted
    | InvalidState
    | ProviderFailed
    | ProvisioningFailed

  /** How the clone, configure, start and agent steps of one provisioning end. */
  datatype Build = Built | BuildFailed(power: Power)

  /** A clone request the provider refuses fails the build before anything was started. */
  function BuildOf(clone: Option<string>, build: Build): Build {
    if clone.None? then BuildFailed(Stopped) else build
  }

  /** How a refresh or delete cycle of a desktop ends. */
  datatype CycleOutcome = CycleDone | CycleFailed

  // ── Session transitions ───────────────────────────────────────────

  function ToActive(s: Session, ticket: string): Option<Session> {
    if s.status != SessionConnecting then None
    else Some(s.(status := SessionActive, ticket := Some(ticket)))
  }

  function ToDisconnected(s: Session): Option<Session> {
    if s.status != SessionActive then None
    else Some(s.(status := SessionDisconnected))
  }

  function ToEnded(s: Session): Option<Session> {
    if s.status == SessionEnded then None
    else Some(s.(status := SessionEnded, ticket := None))
  }

  /** What the end of a session does to its desktop. */
  function Vacated(row: Desktop): Desktop {
    if row.assignment == Some(Floating)
    then row.(user := None, assignment := None, status := Available)
    else row.(status := Disconnected)
  }

  function EndSession(db: Db, s: Id): (Db, Reply) {
    if s !in db.sessions then (db, NotFound)
    else
      var row := db.sessions[s];
      match ToEnded(row)
      case None => (db, InvalidState)
      case Some(ended) =>
        if row.desktop.None? || row.desktop.value !in db.desktops then (db, NotFound)
        else
          var d := row.desktop.value;
          (db.(sessions := db.sessions[s := ended], desktops := db.desktops[d := Vacated(db.desktops[d])]), Done)
  }

  // ── Provisioning ──────────────────────────────────────────────────

  /** The row a provisioning leaves behind, in the VMID it was given. */
  function BuiltRow(pool: Pool, p: Id, vmid: int, user: Option<string>, build: Build): Desktop {
    Desktop(
      p, vmid,
      if build.BuildFailed? then Error
      else if pool.kind == Persistent && user.Some? then Assigned
      else Available,
      user,
      if user.Some? && pool.kind == Persistent then Some(Dedicated) else None,
      if build.BuildFailed? then build.power else Running,
      None, None)
  }

  /** The row while the clone runs: its UPID is committed, without a task kind. */
  function CloneWindow(pool: Pool, p: Id, vmid: int, user: Option<string>, upid: string): Desktop {
    BuiltRow(pool, p, vmid, user, Built).(status := Provisioning, power := Stopped, upid := Some(upid))
  }

  function Provision(db: Db, p: Id, user: Option<string>, build: Build): (Db, Reply)
    requires p in db.pools
  {
    var pool := db.pools[p];
    if pool.status != PoolActive then (db, Inactive)
    else
      match LowestFree(UsedVmids(db, p), pool.lo, pool.hi)
      case None => (db, RangeExhausted)
      case Some(v) =>
        var row := BuiltRow(pool, p, v, user, build);
        (db.(desktops := db.desktops[db.nextId := row], nextId := db.nextId + 1),
         if build.Built? then Done else ProvisioningFailed)
  }

  /** A worker's warm spare, or one row of an admin's provision request. */
  function ProvisionSpare(db: Db, p: Id, build: Build): (Db, Reply) {
    if p !in db.pools then (db, NotFound) else Provision(db, p, None, build)
  }

  // ── Connect ───────────────────────────────────────────────────────

  /** Session row created and activated, desktop connected, one commit. */
  function OpenSession(db: Db, d: Id, user: string, ticket: string): (Db, Reply)
    requires d in db.desktops
  {
    (db.(sessions := db.sessions[db.nextId := Session(Some(d), user, SessionActive, Some(ticket))],
         desktops := db.desktops[d := db.desktops[d].(status := Connected, power := Running)],
         nextId := db.nextId + 1),
     Opened(db.nextId))
  }

  /**
   * `ticket` is the console ticket, or nothing when starting the VM, waiting for its agent or
   * issuing the ticket failed: the transaction then rolls back.
   */
  datatype ConnectEnv = ConnectEnv(hasProvider: bool, build: Build, ticket: Option<string>)

  function ConnectTo(db: Db, d: Id, user: string, env: ConnectEnv): (Db, Reply)
    requires d in db.desktops
  {
    if env.ticket.None? then (db, ProviderFailed) else OpenSession(db, d, user, env.ticket.value)
  }

  function Connect(db: Db, user: string, groups: seq<string>, p: Id, env: ConnectEnv): (Db, Reply) {
    if p !in db.pools then (db, NotFound)
    else if db.pools[p].status != PoolActive then (db, Inactive)
    else if !Entitled(db, p, user, groups) then (db, NotEntitled)
    else if !env.hasProvider then (db, NoProvider)
    else if db.pools[p].kind == Persistent then
      var rows := DedicatedRows(db, p, user);
      if |rows| > 1 then (db, MultipleRows)
      else if rows != {} then ConnectTo(db, First(db, rows), user, env)
      else
        var (provisioned, reply) := Provision(db, p, Some(user), env.build);
        if reply.Done? then ConnectTo(provisioned, db.nextId, user, env) else (provisioned, reply)
    else
      var spares := RowsWithStatus(db, p, Available);
      if spares == {} then (db, PoolFull)
      else if env.ticket.None? then (db, ProviderFailed)
      else
        var d := First(db, spares);
        var claimed := db.desktops[d].(user := Some(user), assignment := Some(Floating));
        OpenSession(db.(desktops := db.desktops[d := claimed]), d, user, env.ticket.value)
  }

  // ── Admin handlers on desktops ────────────────────────────────────

  function Assign(db: Db, d: Id, user: string): (Db, Reply) {
    if d !in db.desktops then (db, NotFound)
    else
      var row := db.desktops[d];
      if row.user.Some? && row.user != Some(user) then (db, Conflict)
      else
        var others := OtherRows(db, d, user);
        if |others| > 1 then (db, MultipleRows)
        else if others != {} then (db, Conflict)
        else if row.pool !in db.pools then (db, NotFound)
        else
          var assignment := if db.pools[row.pool].kind == Persistent then Dedicated else Floating;
          var status := if row.status == Available then Assigned else row.status;
          var row' := row.(user := Some(user), assignment := Some(assignment), status := status);
          (db.(desktops := db.desktops[d := row']), Done)
  }

  function Unassign(db: Db, d: Id): (Db, Reply) {
    if d !in db.desktops then (db, NotFound)
    else if db.desktops[d].user.None? || GuardedOn(db, d) != {} then (db, Conflict)
    else
      var row := db.desktops[d];
      var status := if row.status == Assigned then Available else row.status;
      (db.(desktops := db.desktops[d := row.(user := None, assignment := None, status := status)]), Done)
  }

  datatype PowerAction = PowerStart | PowerStop | PowerShutdown | PowerReboot

  function KindOf(action: PowerAction): TaskKind {
    match action
    case PowerStart => StartTask
    case PowerStop => StopTask
    case PowerShutdown => ShutdownTask
    case PowerReboot => StartTask
  }

  /** `upid` is the accepted task, or nothing when the provider call failed. */
  function PowerTask(db: Db, d: Id, action: PowerAction, hasProvider: bool, upid: Option<string>): (Db, Reply) {
    if d !in db.desktops then (db, NotFound)
    else if db.desktops[d].upid.Some? then (db, Conflict)
    else if !hasProvider then (db, NoProvider)
    else if upid.None? then (db, ProviderFailed)
    else (db.(desktops := db.desktops[d := db.desktops[d].(upid := upid, task := Some(KindOf(action)))]), Done)
  }

  /** First leg of rebuild and of destroy: the VM's destruction is under way. */
  function Doom(db: Db, d: Id, kind: TaskKind, hasProvider: bool, upid: Option<string>): (Db, Reply) {
    if d !in db.desktops then (db, NotFound)
    else if db.desktops[d].upid.Some? || GuardedOn(db, d) != {} then (db, Conflict)
    else if !hasProvider then (db, NoProvider)
    else if upid.None? then (db, ProviderFailed)
    else (db.(desktops := db.desktops[d := db.desktops[d].(status := Deleting, upid := upid, task := Some(kind))]),
          Done)
  }

  // ── Task tracker ──────────────────────────────────────────────────

  /** What polling a task finds; `Unknown` is a provider error on the poll itself. */
  datatype Poll = StillRunning | Succeeded | TaskFailed | Unknown

  /** Rows go and the sessions that named them keep no desktop (ON DELETE SET NULL). */
  function RemoveRows(db: Db, ds: set<Id>): Db {
    db.(desktops := db.desktops - ds,
        sessions := map s | s in db.sessions ::
          if db.sessions[s].desktop.Some? && db.sessions[s].desktop.value in ds
          then db.sessions[s].(desktop := None) else db.sessions[s])
  }

  function TaskError(row: Desktop): Desktop {
    row.(status := Error, upid := None, task := None)
  }

  /** Second leg of rebuild; a pool that is no longer active leaves the row in `provisioning`. */
  function Rebuilt(pool: Pool, row: Desktop, build: Build): Desktop {
    if pool.status != PoolActive then row.(status := Provisioning, upid := None, task := None)
    else BuiltRow(pool, row.pool, row.vmid, if row.assignment == Some(Dedicated) then row.user else None, build)
  }

  function TaskSuccess(db: Db, d: Id, kind: TaskKind, build: Build): Db
    requires d in db.desktops && db.desktops[d].pool in db.pools
  {
    var row := db.desktops[d];
    if kind == DestroyTask then RemoveRows(db, {d})
    else
      var row' :=
        match kind
        case RebuildTask => Rebuilt(db.pools[row.pool], row, build)
        case ProvisionTask => row.(status := Available, upid := None, task := None)
        case StartTask => row.(power := Running, upid := None, task := None)
        case _ => row.(power := Stopped, upid := None, task := None);
      db.(desktops := db.desktops[d := row'])
  }

  function PollTask(db: Db, d: Id, poll: Poll, build: Build): Db {
    if d !in db.desktops || db.desktops[d].upid.None? || db.desktops[d].pool !in db.pools then db
    else if db.desktops[d].task.None? then db.(desktops := db.desktops[d := TaskError(db.desktops[d])])
    else
      match poll
      case StillRunning => db
      case Succeeded => TaskSuccess(db, d, db.desktops[d].task.value, build)
      case _ => db.(desktops := db.desktops[d := TaskError(db.desktops[d])])
  }

  // ── Session monitor ───────────────────────────────────────────────

  predicate Monitored(row: Desktop) {
    row.status == Assigned || row.status == Connected || row.status == Disconnected
  }

  /** The VM is stopped or gone: its latest session ends, nothing is recycled. */
  function VmDown(db: Db, d: Id): Db {
    if d !in db.desktops || !Monitored(db.desktops[d]) || LiveOn(db, d) == {} then db
    else EndSession(db, Latest(LiveOn(db, d))).0
  }

  function Refresh(db: Db, d: Id, outcome: CycleOutcome): (Db, Reply) {
    if d !in db.desktops then (db, NotFound)
    else
      var row := db.desktops[d];
      if row.pool !in db.pools || db.pools[row.pool].kind == Persistent || !db.pools[row.pool].refreshOnLogoff
         || row.status in {Deleting, Maintenance, Provisioning}
      then (db, InvalidState)
      else
        var released := if row.assignment == Some(Floating) then row.(user := None, assignment := None) else row;
        var row' :=
          match outcome
          case CycleDone => released.(status := Available, power := Running, upid := None, task := None)
          case CycleFailed => released.(status := Error, upid := None, task := None);
        (db.(desktops := db.desktops[d := row']), if outcome.CycleDone? then Done else ProviderFailed)
  }

  function DeleteOnLogoff(db: Db, d: Id, outcome: CycleOutcome): (Db, Reply) {
    if d !in db.desktops then (db, NotFound)
    else
      var row := db.desktops[d];
      if row.pool !in db.pools || db.pools[row.pool].kind == Persistent || !db.pools[row.pool].deleteOnLogoff
         || row.status == Deleting
      then (db, InvalidState)
      else if outcome.CycleDone? then (RemoveRows(db, {d}), Done)
      else (db.(desktops := db.desktops[d := TaskError(row)]), ProviderFailed)
  }

  /** What follows the end of the session: delete wins over refresh, persistent desktops stay. */
  function Recycle(db: Db, d: Id, outcome: CycleOutcome): Db {
    if d !in db.desktops || db.desktops[d].pool !in db.pools then db
    else
      var pool := db.pools[db.desktops[d].pool];
      if pool.kind == Persistent then db
      else if pool.deleteOnLogoff then DeleteOnLogoff(db, d, outcome).0
      else if pool.refreshOnLogoff then Refresh(db, d, outcome).0
      else db
  }

  /** A logoff the debounce has confirmed, its two commits taken as one step. */
  function Logoff(db: Db, d: Id, outcome: CycleOutcome): Db {
    if d !in db.desktops || !Monitored(db.desktops[d]) || LiveOn(db, d) == {} then db
    else
      var s := Latest(LiveOn(db, d));
      if db.sessions[s].status != SessionActive then db
      else Recycle(EndSession(db, s).0, d, outcome)
  }

  // ── Health checker ────────────────────────────────────────────────

  /** `stale` are the rows whose last update is older than the threshold. */
  function StuckSweep(db: Db, stale: set<Id>): Db {
    db.(desktops := map d | d in db.desktops ::
      if d in stale && db.desktops[d].status == Provisioning then TaskError(db.desktops[d]) else db.desktops[d])
  }

  // ── Pools ─────────────────────────────────────────────────────────

  predicate Meets(p: Pool, lo: int, hi: int) {
    !(p.hi < lo || p.lo > hi)
  }

  function CreatePool(db: Db, pool: Pool, live: set<int>): (Db, Reply) {
    if pool.lo >= pool.hi || pool.maxSize > pool.hi - pool.lo + 1 then (db, Invalid)
    else if (exists p | p in db.pools :: Meets(db.pools[p], pool.lo, pool.hi))
            || (exists v | v in live :: pool.lo <= v <= pool.hi)
            || (exists p | p in db.pools :: db.pools[p].name == pool.name)
    then (db, Conflict)
    else (InsertPool(db, pool), Done)
  }

  /** The name is unique; the ranges have no constraint. */
  function InsertPool(db: Db, pool: Pool): Db {
    if exists p | p in db.pools :: db.pools[p].name == pool.name then db
    else db.(pools := db.pools[db.nextId := pool.(status := PoolActive)], nextId := db.nextId + 1)
  }

  /** A PUT body: the settable fields it carries, and whether it carries any other field. */
  datatype PoolPatch = PoolPatch(
    immutable: bool, status: bool, minSpare: Option<int>, maxSize: Option<int>,
    deleteOnLogoff: Option<bool>, refreshOnLogoff: Option<bool>)

  function OrElse<T>(o: Option<T>, t: T): T {
    match o
    case Some(v) => v
    case None => t
  }

  function Patched(pool: Pool, patch: PoolPatch): Pool {
    pool.(minSpare := OrElse(patch.minSpare, pool.minSpare), maxSize := OrElse(patch.maxSize, pool.maxSize),
          deleteOnLogoff := OrElse(patch.deleteOnLogoff, pool.deleteOnLogoff),
          refreshOnLogoff := OrElse(patch.refreshOnLogoff, pool.refreshOnLogoff))
  }

  function UpdatePool(db: Db, p: Id, patch: PoolPatch): (Db, Reply) {
    if p !in db.pools then (db, NotFound)
    else
      var pool := db.pools[p];
      if patch.immutable || patch.status then (db, Invalid)
      else if patch.maxSize.Some?
              && (patch.maxSize.value > pool.hi - pool.lo + 1 || patch.maxSize.value < |RowsOf(db, p)|)
      then (db, Invalid)
      else (db.(pools := db.pools[p := Patched(pool, patch)]), Done)
  }

  function Drain(db: Db, p: Id): (Db, Reply) {
    if p !in db.pools then (db, NotFound)
    else if db.pools[p].status == PoolDraining then (db, Done)
    else if db.pools[p].status != PoolActive then (db, Conflict)
    else (MovePool(db, p, PoolDraining), Done)
  }

  function DeletePool(db: Db, p: Id): (Db, Reply) {
    if p !in db.pools then (db, NotFound)
    else if db.pools[p].status == PoolDeleting then (db, Done)
    else if GuardedOf(db, p) != {} then (db, Conflict)
    else (MovePool(db, p, PoolDeleting), Done)
  }

  /** How one desktop's destruction in the cascade ends; `Crashed` is an unexpected exception. */
  datatype Fate = Destroyed | AlreadyGone | Refused | Crashed

  function FateOf(fates: map<Id, Fate>, d: Id): Fate {
    if d in fates then fates[d] else Crashed
  }

  predicate Razed(fates: map<Id, Fate>, d: Id) {
    FateOf(fates, d).Destroyed? || FateOf(fates, d).AlreadyGone?
  }

  function RazedIn(ids: set<Id>, fates: map<Id, Fate>): set<Id> {
    set d | d in ids && Razed(fates, d)
  }

  function MarkRefused(db: Db, ids: set<Id>, fates: map<Id, Fate>): Db {
    db.(desktops := map d | d in db.desktops ::
      if d in ids && FateOf(fates, d).Refused? then db.desktops[d].(status := Error) else db.desktops[d])
  }

  /** The rows `ids` after each has met its fate. */
  function Raze(db: Db, ids: set<Id>, fates: map<Id, Fate>): Db {
    RemoveRows(MarkRefused(db, ids, fates), RazedIn(ids, fates))
  }

  function DropPoolRow(db: Db, p: Id): Db {
    db.(pools := db.pools - {p}, entitlements := set e | e in db.entitlements && e.pool != p)
  }

  /** The background cascade of a pool already marked `deleting`. */
  function Cascade(db: Db, p: Id, hasProvider: bool, fates: map<Id, Fate>): Db {
    if p !in db.pools || db.pools[p].status != PoolDeleting || !hasProvider then db
    else
      var rows := RowsOf(db, p);
      if RazedIn(rows, fates) == rows then DropPoolRow(Raze(db, rows, fates), p) else Raze(db, rows, fates)
  }

  // ── The machine ───────────────────────────────────────────────────

  datatype Action =
    | DoConnect(user: string, groups: seq<string>, p: Id, env: ConnectEnv)
    | DoEndSession(s: Id)
    | DoAssign(d: Id, user: string)
    | DoUnassign(d: Id)
    | DoPower(d: Id, action: PowerAction, hasProvider: bool, upid: Option<string>)
    | DoRebuild(d: Id, hasProvider: bool, upid: Option<string>)
    | DoDestroy(d: Id, hasProvider: bool, upid: Option<string>)
    | DoPoll(d: Id, poll: Poll, build: Build)
    | DoVmDown(d: Id)
    | DoLogoff(d: Id, outcome: CycleOutcome)
    | DoProvision(p: Id, build: Build)
    | DoStuckSweep(stale: set<Id>)
    | DoCreatePool(pool: Pool, live: set<int>)
    | DoUpdatePool(p: Id, patch: PoolPatch)
    | DoDrain(p: Id)
    | DoDeletePool(p: Id)
    | DoCascade(p: Id, hasProvider: bool, fates: map<Id, Fate>)
    | DoEntitle(entitlements: set<Entitlement>)

  function Step(db: Db, a: Action): Db {
    match a
    case DoConnect(user, groups, p, env) => Connect(db, user, groups, p, env).0
    case DoEndSession(s) => EndSession(db, s).0
    case DoAssign(d, user) => Assign(db, d, user).0
    case DoUnassign(d) => Unassign(db, d).0
    case DoPower(d, action, hasProvider, upid) => PowerTask(db, d, action, hasProvider, upid).0
    case DoRebuild(d, hasProvider, upid) => Doom(db, d, RebuildTask, hasProvider, upid).0
    case DoDestroy(d, hasProvider, upid) => Doom(db, d, DestroyTask, hasProvider, upid).0
    case DoPoll(d, poll, build) => PollTask(db, d, poll, build)
    case DoVmDown(d) => VmDown(db, d)
    case DoLogoff(d, outcome) => Logoff(db, d, outcome)
    case DoProvision(p, build) => ProvisionSpare(db, p, build).0
    case DoStuckSweep(stale) => StuckSweep(db, stale)
    case DoCreatePool(pool, live) => CreatePool(db, pool, live).0
    case DoUpdatePool(p, patch) => UpdatePool(db, p, patch).0
    case DoDrain(p) => Drain(db, p).0
    case DoDeletePool(p) => DeletePool(db, p).0
    case DoCascade(p, hasProvider, fates) => Cascade(db, p, hasProvider, fates)
    case DoEntitle(entitlements) => db.(entitlements := entitlements)
  }

  /** The database after a run of calls. */
  function Execute(db: Db, run: seq<Action>): Db
    decreases |run|
  {
    if run == [] then db else Execute(Step(db, run[0]), run[1..])
  }
}

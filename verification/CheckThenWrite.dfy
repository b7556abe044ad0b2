/**
 * Calls that read first and write later. Every handler checks its guard on rows it reads without a lock; by
 * the time it writes, after provider calls, after another commit or just after, the rows may have changed. The
 * longer cycles go on from there, reading again and writing again. This module says what each late write does,
 * to the columns it really writes, and what follows it.
 */
module CheckThenWrite {
  import opened Entities
  import opened Lifecycle
  import opened Invariant
  import Effects

  /** How an assignment saw its row: already the user's, available, or without user in another status. */
  datatype Sight = OwnRow | SpareRow | UnownedRow

  /** What a row's task, once over, or a logoff still has before it. */
  datatype Follow = NothingFollows | SecondLeg | RefreshCycle(floating: bool, running: bool) | RemovalCycle

  /** A call that has passed its guard, with what it read and its write depends on. */
  datatype Work =
    | Assigning(d: Id, user: string, saw: Sight)
    | Unassigning(d: Id, wasAssigned: bool)
    | Powering(d: Id, action: PowerAction)
    | Dooming(d: Id, rebuild: bool, wasDeleting: bool)
    | DroppingPool(p: Id)
    | DrainingPool(p: Id)
    | CreatingPool(pool: Pool)
    | Ending(s: Id)
    | Vacating(s: Id, d: Id, read: Desktop)
    | Polling(d: Id, kind: Option<TaskKind>)
    | Closing(d: Id, read: Desktop, status: DesktopStatus, power: Power, follow: Follow)
    | Dropping(d: Id)
    | Reconnecting(d: Id, user: string, wasConnected: bool)
    | Inserting(p: Id, owner: Option<string>, opening: bool)
    | Building(d: Id, given: bool, opens: Option<string>)
    | Restarting(d: Id, p: Id, owner: Option<string>)
    | Resetting(d: Id, owner: Option<string>, read: Desktop)
    | Refreshing(d: Id, floating: bool, running: bool)
    | Removing(d: Id)
    | Failing(d: Id, read: Desktop, clears: bool)
    | Sweeping(stuck: map<Id, Desktop>)
    | Updating(p: Id, patch: PoolPatch, seen: Pool)
    | Listing(p: Id)
    | Cascading(p: Id, todo: set<Id>, doing: map<Id, bool>, failed: bool)

  /** What is asked of the broker. */
  datatype Request =
    | AskAssign(d: Id, user: string)
    | AskUnassign(d: Id)
    | AskPower(d: Id, action: PowerAction)
    | AskDoom(d: Id, rebuild: bool)
    | AskDeletePool(p: Id)
    | AskDrain(p: Id)
    | AskCreatePool(pool: Pool, live: set<int>)
    | AskEnd(s: Id)
    | AskPoll(d: Id)
    | AskConnect(user: string, groups: seq<string>, p: Id)
    | AskProvision(p: Id)
    | AskSweep(stale: set<Id>)
    | AskUpdate(p: Id, patch: PoolPatch)
    | AskRefresh(d: Id)
    | AskRemoval(d: Id)

  /**
   * What the provider, or the finished task, answers meanwhile; for a cascade, which of its destroys goes on
   * next and how each ends.
   */
  datatype Answer = Answer(
    upid: string, poll: Poll, clone: Option<string>, build: Build, cycle: CycleOutcome, ticket: string,
    at: Id, fates: map<Id, Fate>)

  function DoomKind(rebuild: bool): TaskKind {
    if rebuild then RebuildTask else DestroyTask
  }

  // ── Guards ────────────────────────────────────────────────────────

  function Seen(row: Desktop): Sight {
    if row.user.Some? then OwnRow else if row.status == Available then SpareRow else UnownedRow
  }

  function WorkOn(db: Db, d: Id, user: string): Work
    requires d in db.desktops
  {
    Reconnecting(d, user, db.desktops[d].status == Connected)
  }

  /**
   * The pool is checked before the wait for its lock: a persistent connect goes on with the row it found, or
   * provisions one.
   */
  function AdmitConnect(db: Db, user: string, groups: seq<string>, p: Id): Option<Work> {
    if p !in db.pools || db.pools[p].status != PoolActive || db.pools[p].kind != Persistent
       || !Entitled(db, p, user, groups)
    then None
    else
      var rows := DedicatedRows(db, p, user);
      if |rows| > 1 then None
      else if rows != {} then Some(WorkOn(db, First(db, rows), user))
      else Some(Inserting(p, Some(user), true))
  }

  predicate Provisions(db: Db, p: Id) {
    p in db.pools && db.pools[p].status == PoolActive
  }

  /** A row whose status is set and whose task fields are cleared, as at the start of a cycle or the end of a task. */
  function Closed(row: Desktop, status: DesktopStatus, power: Power): Desktop {
    row.(status := status, power := power, upid := None, task := None)
  }

  function Entered(db: Db, d: Id, status: DesktopStatus): Db
    requires d in db.desktops
  {
    db.(desktops := db.desktops[d := Closed(db.desktops[d], status, db.desktops[d].power)])
  }

  function AdmitRefresh(db: Db, d: Id): Option<Work> {
    if Refresh(db, d, CycleDone).1 != Done then None
    else
      var row := db.desktops[d];
      var cycle := RefreshCycle(row.assignment == Some(Floating), row.power == Running);
      Some(Closing(d, row, Provisioning, row.power, cycle))
  }

  function AdmitRemoval(db: Db, d: Id): Option<Work> {
    if DeleteOnLogoff(db, d, CycleDone).1 != Done then None
    else Some(Closing(d, db.desktops[d], Deleting, db.desktops[d].power, RemovalCycle))
  }

  function AdmitDelete(db: Db, p: Id): Option<Work> {
    if DeletePool(db, p).1 != Done then None
    else if db.pools[p].status == PoolDeleting then Some(Listing(p))
    else Some(DroppingPool(p))
  }

  /** The rows stuck in provisioning, as they are read. */
  function StuckRows(db: Db, stale: set<Id>): map<Id, Desktop> {
    map d | d in db.desktops && d in stale && db.desktops[d].status == Provisioning :: db.desktops[d]
  }

  /** The guard: the work that is let in, or nothing when it is refused. */
  function Admit(db: Db, req: Request): Option<Work> {
    match req
    case AskAssign(d, user) =>
      if Assign(db, d, user).1 == Done then Some(Assigning(d, user, Seen(db.desktops[d]))) else None
    case AskUnassign(d) =>
      if Unassign(db, d).1 == Done then Some(Unassigning(d, db.desktops[d].status == Assigned)) else None
    case AskPower(d, action) =>
      if d in db.desktops && db.desktops[d].upid.None? then Some(Powering(d, action)) else None
    case AskDoom(d, rebuild) =>
      if d in db.desktops && db.desktops[d].upid.None? && GuardedOn(db, d) == {}
      then Some(Dooming(d, rebuild, db.desktops[d].status == Deleting)) else None
    case AskDeletePool(p) => AdmitDelete(db, p)
    case AskDrain(p) =>
      if Drain(db, p).1 == Done && db.pools[p].status == PoolActive then Some(DrainingPool(p)) else None
    case AskCreatePool(pool, live) => if CreatePool(db, pool, live).1 == Done then Some(CreatingPool(pool)) else None
    case AskEnd(s) => if s in db.sessions && Live(db.sessions[s]) then Some(Ending(s)) else None
    case AskPoll(d) =>
      if d in db.desktops && db.desktops[d].upid.Some? then Some(Polling(d, db.desktops[d].task)) else None
    case AskConnect(user, groups, p) => AdmitConnect(db, user, groups, p)
    case AskProvision(p) => if Provisions(db, p) then Some(Inserting(p, None, false)) else None
    case AskSweep(stale) => Some(Sweeping(StuckRows(db, stale)))
    case AskUpdate(p, patch) =>
      if UpdatePool(db, p, patch).1 == Done then Some(Updating(p, patch, db.pools[p])) else None
    case AskRefresh(d) => AdmitRefresh(db, d)
    case AskRemoval(d) => AdmitRemoval(db, d)
  }

  // ── Writes ────────────────────────────────────────────────────────

  /** The new row of a work that rewrites one. Columns whose new value is the one read are not written. */
  function Rewritten(db: Db, row: Desktop, w: Work, a: Answer): Desktop
    requires row.pool in db.pools
  {
    match w
    case Assigning(_, user, saw) =>
      if saw.OwnRow? then row
      else
        row.(user := Some(user),
             assignment := Some(if db.pools[row.pool].kind == Persistent then Dedicated else Floating),
             status := if saw.SpareRow? then Assigned else row.status)
    case Unassigning(_, wasAssigned) =>
      row.(user := None, assignment := None, status := if wasAssigned then Available else row.status)
    case Powering(_, action) => row.(upid := Some(a.upid), task := Some(KindOf(action)))
    case Dooming(_, rebuild, wasDeleting) =>
      row.(status := if wasDeleting then row.status else Deleting, upid := Some(a.upid),
           task := Some(DoomKind(rebuild)))
    case _ => row
  }

  /** The end of a session: its desktop is freed or kept by the assignment type that was read. */
  function WriteVacated(db: Db, s: Id, d: Id, read: Desktop): Db {
    if s !in db.sessions || d !in db.desktops then db
    else
      db.(sessions := db.sessions[s := db.sessions[s].(status := SessionEnded, ticket := None)],
          desktops := db.desktops[d := Merged(db.desktops[d], read, Vacated(read))])
  }

  /**
   * A provisioning up to the commit before its waits: a row in the lowest free VMID, with the UPID of its clone.
   * A clone that is refused leaves the row in error.
   */
  function Reserve(db: Db, p: Id, user: Option<string>, clone: Option<string>): Db {
    if p !in db.pools then db
    else
      var pool := db.pools[p];
      match LowestFree(UsedVmids(db, p), pool.lo, pool.hi)
      case None => db
      case Some(vmid) =>
        var row := if clone.None? then BuiltRow(pool, p, vmid, user, BuildFailed(Stopped))
                   else CloneWindow(pool, p, vmid, user, clone.value);
        db.(desktops := db.desktops[db.nextId := row], nextId := db.nextId + 1)
  }

  function KeptUser(row: Desktop): Option<string> {
    if row.assignment == Some(Dedicated) then row.user else None
  }

  /** What the second leg of a rebuild makes of the row it read, up to its waits: the user is the one kept. */
  function ResetRow(pool: Pool, read: Desktop, user: Option<string>, clone: Option<string>): Desktop {
    if clone.None? then BuiltRow(pool, read.pool, read.vmid, user, BuildFailed(Stopped))
    else CloneWindow(pool, read.pool, read.vmid, user, clone.value)
  }

  function WriteReset(db: Db, d: Id, user: Option<string>, read: Desktop, clone: Option<string>): Db {
    if read.pool in db.pools then Late(db, d, read, ResetRow(db.pools[read.pool], read, user, clone)) else db
  }

  /** What a poll's answer makes of the row, read again. */
  function PollNext(db: Db, d: Id, kind: Option<TaskKind>, poll: Poll): Option<Work> {
    if d !in db.desktops || (kind.Some? && poll == StillRunning) then None
    else
      var read := db.desktops[d];
      if kind.None? || poll != Succeeded then Some(Closing(d, read, Error, read.power, NothingFollows))
      else
        match kind.value
        case DestroyTask => Some(Dropping(d))
        case RebuildTask => Some(Closing(d, read, Provisioning, read.power, SecondLeg))
        case ProvisionTask => Some(Closing(d, read, Available, read.power, NothingFollows))
        case StartTask => Some(Closing(d, read, read.status, Running, NothingFollows))
        case _ => Some(Closing(d, read, read.status, Stopped, NothingFollows))
  }

  function CloseNext(db: Db, d: Id, read: Desktop, follow: Follow): Option<Work> {
    if d !in db.desktops then None
    else
      match follow
      case NothingFollows => None
      case SecondLeg => Some(Restarting(d, read.pool, KeptUser(read)))
      case RefreshCycle(floating, running) => Some(Refreshing(d, floating, running))
      case RemovalCycle => Some(Removing(d))
  }

  function WriteRemoved(db: Db, d: Id): Db {
    if d in db.desktops then RemoveRows(db, {d}) else db
  }

  /** A session row needs its desktop's row; `connected` is not written when it was read. */
  function WriteSession(db: Db, d: Id, user: string, wasConnected: bool, ticket: string): Db {
    if d !in db.desktops then db
    else
      var row := db.desktops[d];
      db.(sessions := db.sessions[db.nextId := Session(Some(d), user, SessionActive, Some(ticket))],
          desktops := db.desktops[d := row.(status := if wasConnected then row.status else Connected,
                                            power := Running)],
          nextId := db.nextId + 1)
  }

  /** The end of a provisioning: the status depends on what it was started for, not on the row. */
  function WriteBuild(db: Db, d: Id, given: bool, build: Build): Db {
    if d !in db.desktops then db
    else
      var row := db.desktops[d];
      var row' :=
        match build
        case Built => row.(status := if given then Assigned else Available, power := Running, upid := None)
        case BuildFailed(power) =>
          row.(status := Error, power := if power == Stopped then row.power else power, upid := None);
      db.(desktops := db.desktops[d := row'])
  }

  /** The end of a refresh that succeeds, by what was read at its start. */
  function WriteRefresh(db: Db, d: Id, floating: bool, running: bool): Db {
    if d !in db.desktops then db
    else
      var row := db.desktops[d];
      var released := if floating then row.(user := None, assignment := None) else row;
      db.(desktops :=
        db.desktops[d := released.(status := Available, power := if running then row.power else Running)])
  }

  /** The end of a cycle that fails; a refresh takes its floating user off the row. */
  function Failed(row: Desktop, clears: bool): Desktop {
    var released := if clears && row.assignment == Some(Floating) then row.(user := None, assignment := None) else row;
    released.(status := Error)
  }

  /** A failed cycle rolls back and reads the row again. */
  function FailNext(db: Db, d: Id, clears: bool): Option<Work> {
    if d in db.desktops then Some(Failing(d, db.desktops[d], clears)) else None
  }

  /** All rows of a sweep in one commit, which fails when one of them is gone. */
  function WriteSwept(db: Db, stuck: map<Id, Desktop>): Db {
    if exists d :: d in stuck && d !in db.desktops then db
    else
      db.(desktops := map d | d in db.desktops ::
        if d in stuck then Merged(db.desktops[d], stuck[d], TaskError(stuck[d])) else db.desktops[d])
  }

  /** The limits and flags that differ from the pool read. */
  function UpdatedPool(now: Pool, seen: Pool, patch: PoolPatch): Pool {
    var pool := Patched(seen, patch);
    now.(minSpare := if pool.minSpare != seen.minSpare then pool.minSpare else now.minSpare,
         maxSize := if pool.maxSize != seen.maxSize then pool.maxSize else now.maxSize,
         deleteOnLogoff :=
           if pool.deleteOnLogoff != seen.deleteOnLogoff then pool.deleteOnLogoff else now.deleteOnLogoff,
         refreshOnLogoff :=
           if pool.refreshOnLogoff != seen.refreshOnLogoff then pool.refreshOnLogoff else now.refreshOnLogoff)
  }

  function WriteUpdate(db: Db, p: Id, patch: PoolPatch, seen: Pool): Db {
    if p in db.pools then db.(pools := db.pools[p := UpdatedPool(db.pools[p], seen, patch)]) else db
  }

  /** The destroy of the cascade that goes on: the one named, or else one begun, or else one not begun. */
  function Picked(todo: set<Id>, doing: map<Id, bool>, at: Id): (d: Id)
    requires todo != {} || doing != map[]
    ensures d in todo || d in doing
  {
    if at in todo || at in doing then at else if doing != map[] then Latest(doing.Keys) else Latest(todo)
  }

  /** The end of one destroy; `error` is not written when it was read. */
  function WriteRazed(db: Db, d: Id, wasError: bool, fate: Fate): Db {
    if d !in db.desktops || fate.Crashed? then db
    else if fate.Refused? then
      if wasError then db else db.(desktops := db.desktops[d := db.desktops[d].(status := Error)])
    else RemoveRows(db, {d})
  }

  /** The pool row goes when nothing failed; a row that still refers to it forbids that. */
  function WriteDropped(db: Db, p: Id, failed: bool): Db {
    if failed || p !in db.pools || RowsOf(db, p) != {} then db else DropPoolRow(db, p)
  }

  function WriteCascade(db: Db, p: Id, todo: set<Id>, doing: map<Id, bool>, failed: bool, a: Answer): Db {
    if todo == {} && doing == map[] then WriteDropped(db, p, failed)
    else
      var d := Picked(todo, doing, a.at);
      if d in doing then WriteRazed(db, d, doing[d], FateOf(a.fates, d)) else db
  }

  /** A destroy begins by reading its row, which may be gone; begun, it ends. */
  function CascadeOn(db: Db, p: Id, todo: set<Id>, doing: map<Id, bool>, failed: bool, a: Answer): Option<Work> {
    if todo == {} && doing == map[] then None
    else
      var d := Picked(todo, doing, a.at);
      if d in doing then
        Some(Cascading(p, todo - {d}, doing - {d}, failed || !Razed(a.fates, d)))
      else if d in db.desktops then
        Some(Cascading(p, todo - {d}, doing[d := db.desktops[d].status == Error], failed))
      else Some(Cascading(p, todo - {d}, doing, failed))
  }

  /** The write and its commit, on whatever is there by then; a row that is gone makes it fail. */
  function Write(db: Db, w: Work, a: Answer): Db {
    match w
    case DroppingPool(p) => MovePool(db, p, PoolDeleting)
    case DrainingPool(p) => MovePool(db, p, PoolDraining)
    case CreatingPool(pool) => InsertPool(db, pool)
    case Ending(_) => db
    case Vacating(s, d, read) => WriteVacated(db, s, d, read)
    case Polling(_, _) => db
    case Closing(d, read, status, power, _) => Late(db, d, read, Closed(read, status, power))
    case Dropping(d) => WriteRemoved(db, d)
    case Reconnecting(d, user, wasConnected) => WriteSession(db, d, user, wasConnected, a.ticket)
    case Inserting(p, user, _) => Reserve(db, p, user, a.clone)
    case Building(d, given, _) => WriteBuild(db, d, given, a.build)
    case Restarting(_, _, _) => db
    case Resetting(d, user, read) => WriteReset(db, d, user, read, a.clone)
    case Refreshing(d, floating, running) =>
      if a.cycle.CycleDone? then WriteRefresh(db, d, floating, running) else db
    case Removing(d) => if a.cycle.CycleDone? then WriteRemoved(db, d) else db
    case Failing(d, read, clears) => Late(db, d, read, Failed(read, clears))
    case Sweeping(stuck) => WriteSwept(db, stuck)
    case Updating(p, patch, seen) => WriteUpdate(db, p, patch, seen)
    case Listing(_) => db
    case Cascading(p, todo, doing, failed) => WriteCascade(db, p, todo, doing, failed, a)
    case _ =>
      if w.d in db.desktops && db.desktops[w.d].pool in db.pools
      then db.(desktops := db.desktops[w.d := Rewritten(db, db.desktops[w.d], w, a)])
      else db
  }

  function Stage(w: Work): nat {
    match w
    case Reconnecting(_, _, _) => 0
    case Failing(_, _, _) => 0
    case Building(_, _, _) => 1
    case Refreshing(_, _, _) => 1
    case Removing(_) => 1
    case Dropping(_) => 1
    case Vacating(_, _, _) => 1
    case Inserting(_, _, _) => 2
    case Resetting(_, _, _) => 2
    case Cascading(_, _, _, _) => 2
    case Restarting(_, _, _) => 3
    case Listing(_) => 3
    case Closing(_, _, _, _, _) => 4
    case _ => 5
  }

  function Size(w: Work): nat {
    if w.Cascading? then 2 * |w.todo| + |w.doing.Keys| else 0
  }

  predicate Closer(next: Work, w: Work) {
    Stage(next) < Stage(w) || (Stage(next) == Stage(w) && Size(next) < Size(w))
  }

  lemma EndCloser(todo: set<Id>, doing: map<Id, bool>, d: Id)
    requires todo !! doing.Keys && d in doing
    ensures todo - {d} !! (doing - {d}).Keys
    ensures 2 * |todo - {d}| + |(doing - {d}).Keys| < 2 * |todo| + |doing.Keys|
  {
    assert todo - {d} == todo;
    assert (doing - {d}).Keys == doing.Keys - {d};
  }

  lemma BeginCloser(todo: set<Id>, doing: map<Id, bool>, d: Id, wasError: bool)
    requires todo !! doing.Keys && d in todo
    ensures todo - {d} !! doing[d := wasError].Keys && todo - {d} !! doing.Keys
    ensures 2 * |todo - {d}| + |doing[d := wasError].Keys| < 2 * |todo| + |doing.Keys|
    ensures 2 * |todo - {d}| + |doing.Keys| < 2 * |todo| + |doing.Keys|
  {
    assert doing[d := wasError].Keys == doing.Keys + {d};
  }

  lemma CascadeCloser(db: Db, p: Id, todo: set<Id>, doing: map<Id, bool>, failed: bool, a: Answer)
    requires (todo != {} || doing != map[]) && todo !! doing.Keys
    ensures var next := CascadeOn(db, p, todo, doing, failed, a);
            next.Some? && next.value.todo !! next.value.doing.Keys
            && Size(next.value) < 2 * |todo| + |doing.Keys|
  {
    var d := Picked(todo, doing, a.at);
    if d in doing {
      EndCloser(todo, doing, d);
    } else {
      BeginCloser(todo, doing, d, d in db.desktops && db.desktops[d].status == Error);
    }
  }

  /** After the insert: the build, which opens a session if a connect asked for it. */
  function BuildNext(db: Db, p: Id, user: Option<string>, opens: bool, clone: Option<string>): Option<Work> {
    if Reserve(db, p, user, clone) == db || clone.None? then None
    else
      Some(Building(db.nextId, db.pools[p].kind == Persistent && user.Some?, if opens then user else None))
  }

  /** The second leg of a rebuild reads the pool and the row; without a row it provisions one. */
  function LegNext(db: Db, d: Id, p: Id, user: Option<string>): Option<Work> {
    if !Provisions(db, p) then None
    else if d in db.desktops then Some(Resetting(d, user, db.desktops[d]))
    else Some(Inserting(p, user, false))
  }

  /** What a call does after this write: a rebuild goes through its second leg, a connect opens its session. */
  function Continued(db: Db, w: Work, a: Answer): Option<Work> {
    match w
    case Polling(d, kind) => PollNext(db, d, kind, a.poll)
    case Closing(d, read, _, _, follow) => CloseNext(db, d, read, follow)
    case Ending(s) =>
      if s in db.sessions && db.sessions[s].desktop.Some? && db.sessions[s].desktop.value in db.desktops
      then Some(Vacating(s, db.sessions[s].desktop.value, db.desktops[db.sessions[s].desktop.value])) else None
    case Refreshing(d, _, _) => if a.cycle.CycleFailed? then FailNext(db, d, true) else None
    case Removing(d) => if a.cycle.CycleFailed? then FailNext(db, d, false) else None
    case Restarting(d, p, user) => LegNext(db, d, p, user)
    case Resetting(d, user, read) =>
      if d in db.desktops && read.pool in db.pools && a.clone.Some?
      then Some(Building(d, db.pools[read.pool].kind == Persistent && user.Some?, None))
      else None
    case Inserting(p, user, opens) => BuildNext(db, p, user, opens, a.clone)
    case Building(d, _, opens) =>
      if opens.Some? && d in db.desktops && a.build.Built? then Some(Reconnecting(d, opens.value, false)) else None
    case DroppingPool(p) => if p in db.pools then Some(Listing(p)) else None
    case Listing(p) => if p in db.pools then Some(Cascading(p, RowsOf(db, p), map[], false)) else None
    case Cascading(p, todo, doing, failed) => CascadeOn(db, p, todo, doing, failed, a)
    case _ => None
  }

  /** The destroys of a cascade are begun, or not. */
  predicate WorkOk(w: Work) {
    w.Cascading? ==> w.todo !! w.doing.Keys
  }

  lemma PollCloser(db: Db, w: Work, a: Answer)
    requires w.Polling? && Continued(db, w, a).Some?
    ensures WorkOk(Continued(db, w, a).value) && Stage(Continued(db, w, a).value) < Stage(w)
  {
  }

  lemma CloseCloser(db: Db, w: Work, a: Answer)
    requires w.Closing? && Continued(db, w, a).Some?
    ensures WorkOk(Continued(db, w, a).value) && Stage(Continued(db, w, a).value) < Stage(w)
  {
  }

  lemma OthersCloser(db: Db, w: Work, a: Answer)
    requires !w.Polling? && !w.Closing? && !w.Cascading? && Continued(db, w, a).Some?
    ensures WorkOk(Continued(db, w, a).value) && Stage(Continued(db, w, a).value) < Stage(w)
  {
  }

  lemma ContinuedCloser(db: Db, w: Work, a: Answer)
    requires WorkOk(w) && Continued(db, w, a).Some?
    ensures WorkOk(Continued(db, w, a).value) && Closer(Continued(db, w, a).value, w)
  {
    if w.Cascading? {
      CascadeCloser(db, w.p, w.todo, w.doing, w.failed, a);
    } else if w.Polling? {
      PollCloser(db, w, a);
    } else if w.Closing? {
      CloseCloser(db, w, a);
    } else {
      OthersCloser(db, w, a);
    }
  }

  /** What is left of the work when nothing else runs. */
  function Finish(db: Db, w: Option<Work>, a: Answer): Db
    requires w.Some? ==> WorkOk(w.value)
    decreases if w.None? then 0 else 1 + Stage(w.value), if w.None? then 0 else Size(w.value)
  {
    if w.None? then db
    else
      var next := Continued(db, w.value, a);
      if next.None? then Write(db, w.value, a)
      else
        ContinuedCloser(db, w.value, a);
        Finish(Write(db, w.value, a), next, a)
  }

  /** The call of the lifecycle a request is, with the answers it gets. */
  function Called(db: Db, req: Request, a: Answer): Db {
    match req
    case AskAssign(d, user) => Assign(db, d, user).0
    case AskUnassign(d) => Unassign(db, d).0
    case AskPower(d, action) => PowerTask(db, d, action, true, Some(a.upid)).0
    case AskDoom(d, rebuild) => Doom(db, d, DoomKind(rebuild), true, Some(a.upid)).0
    case AskDeletePool(p) =>
      var (marked, reply) := DeletePool(db, p);
      if reply == Done then Cascade(marked, p, true, a.fates) else db
    case AskDrain(p) => Drain(db, p).0
    case AskCreatePool(pool, live) => CreatePool(db, pool, live).0
    case AskEnd(s) => EndSession(db, s).0
    case AskPoll(d) => PollTask(db, d, a.poll, BuildOf(a.clone, a.build))
    case AskConnect(user, groups, p) =>
      Connect(db, user, groups, p, ConnectEnv(true, BuildOf(a.clone, a.build), Some(a.ticket))).0
    case AskProvision(p) => ProvisionSpare(db, p, BuildOf(a.clone, a.build)).0
    case AskSweep(stale) => StuckSweep(db, stale)
    case AskUpdate(p, patch) => UpdatePool(db, p, patch).0
    case AskRefresh(d) => Refresh(db, d, a.cycle).0
    case AskRemoval(d) => DeleteOnLogoff(db, d, a.cycle).0
  }

  lemma AdmitOk(db: Db, req: Request)
    ensures Admit(db, req).Some? ==> WorkOk(Admit(db, req).value)
  {
  }

  /** When nothing comes between, check and writes together are the call of the lifecycle. */
  lemma NoGapIsTheCall(db: Db, req: Request, a: Answer)
    requires Inv(db)
    requires req.AskConnect? && req.p in db.pools ==> db.pools[req.p].kind == Persistent
    ensures Admit(db, req).Some? ==> WorkOk(Admit(db, req).value)
    ensures Finish(db, Admit(db, req), a) == Called(db, req, a)
  {
    AdmitOk(db, req);
    match req
    case AskAssign(d, user) => NoGapAssign(db, d, user, a);
    case AskConnect(user, groups, p) => NoGapConnect(db, user, groups, p, a);
    case AskProvision(p) => NoGapProvision(db, p, a);
    case AskRefresh(d) => NoGapRefresh(db, d, a);
    case AskRemoval(d) => NoGapRemoval(db, d, a);
    case AskPoll(d) => NoGapPoll(db, d, a);
    case AskDoom(d, rebuild) => NoGapRow(db, req, d, a);
    case AskUnassign(d) => NoGapUnassign(db, d, a);
    case AskPower(d, _) => NoGapRow(db, req, d, a);
    case AskEnd(s) => NoGapEnd(db, s, a);
    case AskDeletePool(p) => NoGapDelete(db, p, a);
    case AskSweep(stale) => NoGapSweep(db, stale, a);
    case _ => NoGapPool(db, req, a);
  }

  /** Work with nothing to follow. */
  lemma LastWrite(db: Db, w: Work, a: Answer)
    requires WorkOk(w) && Continued(db, w, a) == None
    ensures Finish(db, Some(w), a) == Write(db, w, a)
  {
  }

  /** Work with something to follow. */
  lemma GoesOn(db: Db, w: Work, a: Answer)
    requires WorkOk(w) && Continued(db, w, a).Some?
    ensures WorkOk(Continued(db, w, a).value)
    ensures Finish(db, Some(w), a) == Finish(Write(db, w, a), Continued(db, w, a), a)
  {
    ContinuedCloser(db, w, a);
  }

  lemma LateAtOnce(db: Db, d: Id, row: Desktop)
    requires d in db.desktops
    ensures Late(db, d, db.desktops[d], row) == db.(desktops := db.desktops[d := row])
  {
    assert Merged(db.desktops[d], db.desktops[d], row) == row;
  }

  lemma NoGapAssign(db: Db, d: Id, user: string, a: Answer)
    requires Inv(db)
    ensures Finish(db, Admit(db, AskAssign(d, user)), a) == Assign(db, d, user).0
  {
    if Assign(db, d, user).1 == Reply.Done {
      var row := db.desktops[d];
      assert RowOk(db, row);
      var row' := Assign(db, d, user).0.desktops[d];
      assert Rewritten(db, row, Assigning(d, user, Seen(row)), a) == row';
      LastWrite(db, Assigning(d, user, Seen(row)), a);
    }
  }

  lemma NoGapUnassign(db: Db, d: Id, a: Answer)
    requires Inv(db)
    ensures Finish(db, Admit(db, AskUnassign(d)), a) == Unassign(db, d).0
  {
    if Unassign(db, d).1 == Reply.Done {
      assert RowOk(db, db.desktops[d]);
      LastWrite(db, Admit(db, AskUnassign(d)).value, a);
    }
  }

  lemma NoGapRow(db: Db, req: Request, d: Id, a: Answer)
    requires Inv(db) && ((req.AskPower? && req.d == d) || (req.AskDoom? && req.d == d))
    ensures Finish(db, Admit(db, req), a) == Called(db, req, a)
  {
    if Admit(db, req).Some? {
      assert RowOk(db, db.desktops[d]);
      LastWrite(db, Admit(db, req).value, a);
    }
  }

  lemma NoGapPoll(db: Db, d: Id, a: Answer)
    requires Inv(db)
    ensures Finish(db, Admit(db, AskPoll(d)), a) == Called(db, AskPoll(d), a)
  {
    if d in db.desktops && db.desktops[d].upid.Some? {
      assert RowOk(db, db.desktops[d]);
      PollEnds(db, d, db.desktops[d].task, a);
    }
  }

  lemma PollEnds(db: Db, d: Id, kind: Option<TaskKind>, a: Answer)
    requires Inv(db) && d in db.desktops && db.desktops[d].pool in db.pools
    requires db.desktops[d].upid.Some? && db.desktops[d].task == kind
    ensures Finish(db, Some(Polling(d, kind)), a) == PollTask(db, d, a.poll, BuildOf(a.clone, a.build))
  {
    var w := Polling(d, kind);
    var next := PollNext(db, d, kind, a.poll);
    if next.None? {
      LastWrite(db, w, a);
    } else {
      GoesOn(db, w, a);
      if next.value.Dropping? {
        LastWrite(db, next.value, a);
      } else if next.value.follow.SecondLeg? {
        RebuildEnds(db, d, a);
      } else {
        TaskCloses(db, d, next.value, a);
      }
    }
  }

  lemma TaskCloses(db: Db, d: Id, w: Work, a: Answer)
    requires d in db.desktops && w.Closing? && w.d == d && w.read == db.desktops[d] && w.follow.NothingFollows?
    ensures Finish(db, Some(w), a) == db.(desktops := db.desktops[d := Closed(db.desktops[d], w.status, w.power)])
  {
    LastWrite(db, w, a);
    LateAtOnce(db, d, Closed(db.desktops[d], w.status, w.power));
  }

  /** A rebuild's end from the clearing commit on: the row it clears is the one its second leg resets and builds. */
  lemma RebuildEnds(db: Db, d: Id, a: Answer)
    requires Inv(db) && d in db.desktops && db.desktops[d].pool in db.pools
    ensures Finish(db, Some(Closing(d, db.desktops[d], Provisioning, db.desktops[d].power, SecondLeg)), a)
         == TaskSuccess(db, d, RebuildTask, BuildOf(a.clone, a.build))
  {
    var row := db.desktops[d];
    LateAtOnce(db, d, Closed(row, Provisioning, row.power));
    GoesOn(db, Closing(d, row, Provisioning, row.power, SecondLeg), a);
    SecondLegEnds(db, d, a);
  }

  lemma SecondLegEnds(db: Db, d: Id, a: Answer)
    requires Inv(db) && d in db.desktops && db.desktops[d].pool in db.pools
    ensures Finish(Entered(db, d, Provisioning), Some(Restarting(d, db.desktops[d].pool, KeptUser(db.desktops[d]))), a)
         == TaskSuccess(db, d, RebuildTask, BuildOf(a.clone, a.build))
  {
    var row := db.desktops[d];
    var db1 := Entered(db, d, Provisioning);
    var leg := Restarting(d, row.pool, KeptUser(row));
    if Provisions(db, row.pool) {
      GoesOn(db1, leg, a);
      if a.clone.None? {
        LegFails(db, d, a);
      } else {
        LegEnds(db, d, a);
      }
    } else {
      LastWrite(db1, leg, a);
      assert db1.desktops[d] == Rebuilt(db.pools[row.pool], row, BuildOf(a.clone, a.build));
    }
  }

  lemma ResetAtOnce(db: Db, d: Id, clone: Option<string>)
    requires Inv(db) && d in db.desktops
    ensures db.desktops[d].pool in db.pools
    ensures var row := db.desktops[d];
            var db1 := Entered(db, d, Provisioning);
            WriteReset(db1, d, KeptUser(row), db1.desktops[d], clone)
            == db.(desktops := db.desktops[d := ResetRow(db.pools[row.pool], row, KeptUser(row), clone)])
  {
    var row := db.desktops[d];
    assert RowOk(db, row);
    var db1 := Entered(db, d, Provisioning);
    var reset := ResetRow(db.pools[row.pool], row, KeptUser(row), clone);
    assert Merged(db1.desktops[d], db1.desktops[d], reset) == reset;
    assert db1.desktops[d := reset] == db.desktops[d := reset];
  }

  lemma LegFails(db: Db, d: Id, a: Answer)
    requires Inv(db) && d in db.desktops && Provisions(db, db.desktops[d].pool) && a.clone.None?
    ensures var db1 := Entered(db, d, Provisioning);
            Finish(db1, Some(Resetting(d, KeptUser(db.desktops[d]), db1.desktops[d])), a)
            == TaskSuccess(db, d, RebuildTask, BuildFailed(Stopped))
  {
    var db1 := Entered(db, d, Provisioning);
    ResetAtOnce(db, d, None);
    LastWrite(db1, Resetting(d, KeptUser(db.desktops[d]), db1.desktops[d]), a);
  }

  lemma LegEnds(db: Db, d: Id, a: Answer)
    requires Inv(db) && d in db.desktops && Provisions(db, db.desktops[d].pool) && a.clone.Some?
    ensures var db1 := Entered(db, d, Provisioning);
            Finish(db1, Some(Resetting(d, KeptUser(db.desktops[d]), db1.desktops[d])), a)
            == TaskSuccess(db, d, RebuildTask, a.build)
  {
    var row := db.desktops[d];
    var db1 := Entered(db, d, Provisioning);
    var reset := Resetting(d, KeptUser(row), db1.desktops[d]);
    ResetAtOnce(db, d, a.clone);
    var db2 := Write(db1, reset, a);
    var given := db.pools[row.pool].kind == Persistent && KeptUser(row).Some?;
    assert Continued(db1, reset, a) == Some(Building(d, given, None));
    GoesOn(db1, reset, a);
    LastWrite(db2, Building(d, given, None), a);
    ResetIsBuilt(db, d, a.clone.value, a.build);
  }

  lemma ResetIsBuilt(db: Db, d: Id, upid: string, build: Build)
    requires d in db.desktops && Provisions(db, db.desktops[d].pool)
    ensures var row := db.desktops[d];
            var pool := db.pools[row.pool];
            var db2 := db.(desktops := db.desktops[d := ResetRow(pool, row, KeptUser(row), Some(upid))]);
            WriteBuild(db2, d, pool.kind == Persistent && KeptUser(row).Some?, build)
            == TaskSuccess(db, d, RebuildTask, build)
  {
    var row := db.desktops[d];
    var pool := db.pools[row.pool];
    var reset := ResetRow(pool, row, KeptUser(row), Some(upid));
    var end := Rebuilt(pool, row, build);
    assert db.desktops[d := reset][d := end] == db.desktops[d := end];
  }

  lemma NoGapEnd(db: Db, s: Id, a: Answer)
    ensures Finish(db, Admit(db, AskEnd(s)), a) == EndSession(db, s).0
  {
    if Admit(db, AskEnd(s)).Some? {
      if Continued(db, Ending(s), a).Some? {
        var d := db.sessions[s].desktop.value;
        var w := Vacating(s, d, db.desktops[d]);
        GoesOn(db, Ending(s), a);
        LastWrite(db, w, a);
        assert Merged(db.desktops[d], db.desktops[d], Vacated(db.desktops[d])) == Vacated(db.desktops[d]);
      } else {
        LastWrite(db, Ending(s), a);
      }
    }
  }

  lemma NoGapSweep(db: Db, stale: set<Id>, a: Answer)
    ensures Finish(db, Admit(db, AskSweep(stale)), a) == StuckSweep(db, stale)
  {
    LastWrite(db, Admit(db, AskSweep(stale)).value, a);
    assert Write(db, Admit(db, AskSweep(stale)).value, a).desktops == StuckSweep(db, stale).desktops;
  }

  lemma NoGapPool(db: Db, req: Request, a: Answer)
    requires req.AskDrain? || req.AskCreatePool? || req.AskUpdate?
    ensures Finish(db, Admit(db, req), a) == Called(db, req, a)
  {
    if Admit(db, req).Some? {
      LastWrite(db, Admit(db, req).value, a);
    }
  }

  /** Destroying one more desktop, after those in `done`. */
  lemma RazeOneMore(db: Db, done: set<Id>, d: Id, fates: map<Id, Fate>)
    requires d in db.desktops && d !in done
    ensures d in Raze(db, done, fates).desktops
    ensures var was := Raze(db, done, fates);
            Raze(db, done + {d}, fates) ==
              if FateOf(fates, d).Crashed? then was
              else if FateOf(fates, d).Refused?
              then was.(desktops := was.desktops[d := was.desktops[d].(status := Error)])
              else RemoveRows(was, {d})
  {
    var was, now := Raze(db, done, fates), Raze(db, done + {d}, fates);
    var razed := RazedIn(done, fates);
    assert RazedIn(done + {d}, fates) == if Razed(fates, d) then razed + {d} else razed;
    if FateOf(fates, d).Crashed? {
      assert now.desktops == was.desktops && now.sessions == was.sessions;
    } else if FateOf(fates, d).Refused? {
      assert now.desktops == was.desktops[d := was.desktops[d].(status := Error)] && now.sessions == was.sessions;
    } else {
      assert now.desktops == RemoveRows(was, {d}).desktops && now.sessions == RemoveRows(was, {d}).sessions;
    }
  }

  lemma RazeNone(db: Db, fates: map<Id, Fate>)
    ensures Raze(db, {}, fates) == db
  {
    assert Raze(db, {}, fates).desktops == db.desktops && Raze(db, {}, fates).sessions == db.sessions;
  }

  /** The cascade after the destroys of `done`, with those of `todo` before it. */
  function CascadeFrom(db: Db, p: Id, done: set<Id>, todo: set<Id>, a: Answer): Db {
    Finish(Raze(db, done, a.fates), Some(Cascading(p, todo, map[], RazedIn(done, a.fates) != done)), a)
  }

  /** A cascade from some point on: its destroys, in whatever order, and the pool row if all went well. */
  lemma {:induction false} CascadeEnds(db: Db, done: set<Id>, p: Id, todo: set<Id>, a: Answer)
    requires p in db.pools && db.pools[p].status == PoolDeleting
    requires done + todo == RowsOf(db, p) && done !! todo
    ensures CascadeFrom(db, p, done, todo, a) == Cascade(db, p, true, a.fates)
    decreases |todo|
  {
    if todo == {} {
      assert done == RowsOf(db, p);
      CascadeIsOver(db, p, a);
    } else {
      var d := Picked(todo, map[], a.at);
      DestroyEnds(db, done, p, todo, a);
      assert (done + {d}) + (todo - {d}) == done + todo;
      CascadeEnds(db, done + {d}, p, todo - {d}, a);
    }
  }

  lemma RazedMore(done: set<Id>, d: Id, fates: map<Id, Fate>)
    requires d !in done
    ensures RazedIn(done + {d}, fates) == done + {d} <==> RazedIn(done, fates) == done && Razed(fates, d)
  {
    assert RazedIn(done + {d}, fates) == if Razed(fates, d) then RazedIn(done, fates) + {d} else RazedIn(done, fates);
    assert RazedIn(done + {d}, fates) - {d} == RazedIn(done, fates);
  }

  lemma CascadeIsOver(db: Db, p: Id, a: Answer)
    requires p in db.pools && db.pools[p].status == PoolDeleting
    ensures CascadeFrom(db, p, RowsOf(db, p), {}, a) == Cascade(db, p, true, a.fates)
  {
    var now := Raze(db, RowsOf(db, p), a.fates);
    var failed := RazedIn(RowsOf(db, p), a.fates) != RowsOf(db, p);
    LastWrite(now, Cascading(p, {}, map[], failed), a);
    if !failed {
      assert RowsOf(now, p) == {};
    }
  }

  /** One destroy, its two steps. */
  lemma DestroyEnds(db: Db, done: set<Id>, p: Id, todo: set<Id>, a: Answer)
    requires done + todo == RowsOf(db, p) && done !! todo && todo != {}
    ensures var d := Picked(todo, map[], a.at);
            CascadeFrom(db, p, done, todo, a) == CascadeFrom(db, p, done + {d}, todo - {d}, a)
  {
    var d := Picked(todo, map[], a.at);
    var now := Raze(db, done, a.fates);
    var failed := RazedIn(done, a.fates) != done;
    RazeOneMore(db, done, d, a.fates);
    RazedMore(done, d, a.fates);
    var wasError := now.desktops[d].status == Error;
    var begun := Cascading(p, todo - {d}, map[][d := wasError], failed);
    assert Continued(now, Cascading(p, todo, map[], failed), a) == Some(begun);
    GoesOn(now, Cascading(p, todo, map[], failed), a);
    DestroyGoesOn(now, p, todo, d, wasError, failed, a);
    GoesOn(now, begun, a);
    RazedAtOnce(now, d, FateOf(a.fates, d));
  }

  lemma DestroyGoesOn(now: Db, p: Id, todo: set<Id>, d: Id, wasError: bool, failed: bool, a: Answer)
    requires d in todo && d in now.desktops && (d == a.at || a.at !in todo)
    ensures var begun := Cascading(p, todo - {d}, map[][d := wasError], failed);
            && Write(now, begun, a) == WriteRazed(now, d, wasError, FateOf(a.fates, d))
            && Continued(now, begun, a) == Some(Cascading(p, todo - {d}, map[], failed || !Razed(a.fates, d)))
  {
    var doing: map<Id, bool> := map[][d := wasError];
    assert doing.Keys == {d};
    assert Picked(todo - {d}, doing, a.at) == d;
    assert doing - {d} == map[];
    assert todo - {d} - {d} == todo - {d};
  }

  lemma RazedAtOnce(now: Db, d: Id, fate: Fate)
    requires d in now.desktops
    ensures WriteRazed(now, d, now.desktops[d].status == Error, fate)
         == if fate.Crashed? then now
            else if fate.Refused? then now.(desktops := now.desktops[d := now.desktops[d].(status := Error)])
            else RemoveRows(now, {d})
  {
    if now.desktops[d].status == Error {
      assert now.desktops[d := now.desktops[d].(status := Error)] == now.desktops;
    }
  }

  lemma NoGapDelete(db: Db, p: Id, a: Answer)
    requires Inv(db)
    ensures Finish(db, Admit(db, AskDeletePool(p)), a) == Called(db, AskDeletePool(p), a)
  {
    var (marked, reply) := DeletePool(db, p);
    if reply == Done {
      ListingEnds(marked, p, a);
      if db.pools[p].status != PoolDeleting {
        GoesOn(db, DroppingPool(p), a);
      }
    }
  }

  lemma ListingEnds(db: Db, p: Id, a: Answer)
    requires p in db.pools && db.pools[p].status == PoolDeleting
    ensures Finish(db, Some(Listing(p)), a) == Cascade(db, p, true, a.fates)
  {
    GoesOn(db, Listing(p), a);
    RazeNone(db, a.fates);
    CascadeEnds(db, {}, p, RowsOf(db, p), a);
    assert RazedIn({}, a.fates) == {};
  }

  /** A build that goes on from its reservation ends in the row of the whole provisioning. */
  lemma BuildEnds(db: Db, p: Id, user: Option<string>, upid: string, build: Build)
    requires p in db.pools && db.pools[p].status == PoolActive && Reserve(db, p, user, Some(upid)) != db
    ensures var given := db.pools[p].kind == Persistent && user.Some?;
            WriteBuild(Reserve(db, p, user, Some(upid)), db.nextId, given, build) == Provision(db, p, user, build).0
  {
    var vmid := LowestFree(UsedVmids(db, p), db.pools[p].lo, db.pools[p].hi).value;
    var db1 := Reserve(db, p, user, Some(upid));
    var given := db.pools[p].kind == Persistent && user.Some?;
    assert WriteBuild(db1, db.nextId, given, build).desktops[db.nextId] == BuiltRow(db.pools[p], p, vmid, user, build);
    assert db1.desktops[db.nextId := BuiltRow(db.pools[p], p, vmid, user, build)]
        == db.desktops[db.nextId := BuiltRow(db.pools[p], p, vmid, user, build)];
  }

  lemma ProvisionWithoutBuild(db: Db, p: Id, user: Option<string>, clone: Option<string>, build: Build)
    requires Provisions(db, p) && (Reserve(db, p, user, clone) == db || clone.None?) && db.nextId !in db.desktops
    ensures Reserve(db, p, user, clone) == Provision(db, p, user, BuildOf(clone, build)).0
    ensures Provision(db, p, user, BuildOf(clone, build)).1 != Done
  {
    if LowestFree(UsedVmids(db, p), db.pools[p].lo, db.pools[p].hi).Some? {
      assert db.nextId in Reserve(db, p, user, clone).desktops;
    }
  }

  lemma SpareEnds(db: Db, p: Id, upid: string, a: Answer)
    requires Provisions(db, p) && a.clone == Some(upid) && Reserve(db, p, None, a.clone) != db
    ensures Finish(db, Some(Inserting(p, None, false)), a) == Provision(db, p, None, a.build).0
  {
    var w := Inserting(p, None, false);
    var build := Building(db.nextId, false, None);
    BuildEnds(db, p, None, upid, a.build);
    assert Continued(db, w, a) == Some(build);
    GoesOn(db, w, a);
    LastWrite(Write(db, w, a), build, a);
  }

  lemma NoGapProvision(db: Db, p: Id, a: Answer)
    requires Inv(db)
    ensures Finish(db, Admit(db, AskProvision(p)), a) == Called(db, AskProvision(p), a)
  {
    if Provisions(db, p) {
      if Reserve(db, p, None, a.clone) != db && a.clone.Some? {
        SpareEnds(db, p, a.clone.value, a);
      } else {
        LastWrite(db, Inserting(p, None, false), a);
        ProvisionWithoutBuild(db, p, None, a.clone, a.build);
      }
    }
  }

  lemma NoGapConnect(db: Db, user: string, groups: seq<string>, p: Id, a: Answer)
    requires Inv(db) && (p in db.pools ==> db.pools[p].kind == Persistent)
    ensures (AdmitConnect(db, user, groups, p).Some? ==> WorkOk(AdmitConnect(db, user, groups, p).value))
    ensures Finish(db, AdmitConnect(db, user, groups, p), a) == Called(db, AskConnect(user, groups, p), a)
  {
    var w := AdmitConnect(db, user, groups, p);
    if w.Some? {
      if w.value.Inserting? {
        FirstConnectEnds(db, p, user, a);
      } else {
        LastWrite(db, w.value, a);
        FoundIsOpened(db, First(db, DedicatedRows(db, p, user)), user, a);
      }
    }
  }

  lemma FoundIsOpened(db: Db, d: Id, user: string, a: Answer)
    requires d in db.desktops
    ensures Write(db, WorkOn(db, d, user), a) == OpenSession(db, d, user, a.ticket).0
  {
  }

  lemma OpeningEnds(db: Db, d: Id, user: string, a: Answer)
    requires d in db.desktops
    ensures var built := WriteBuild(db, d, true, a.build);
            Finish(db, Some(Building(d, true, Some(user))), a)
            == if a.build.Built? then OpenSession(built, d, user, a.ticket).0 else built
  {
    var build := Building(d, true, Some(user));
    if a.build.Built? {
      GoesOn(db, build, a);
      LastWrite(Write(db, build, a), Reconnecting(d, user, false), a);
    } else {
      LastWrite(db, build, a);
    }
  }

  lemma FirstConnectEnds(db: Db, p: Id, user: string, a: Answer)
    requires Inv(db) && Provisions(db, p) && db.pools[p].kind == Persistent
    ensures var (provisioned, reply) := Provision(db, p, Some(user), BuildOf(a.clone, a.build));
            Finish(db, Some(Inserting(p, Some(user), true)), a)
            == if reply.Done? then OpenSession(provisioned, db.nextId, user, a.ticket).0 else provisioned
  {
    var w := Inserting(p, Some(user), true);
    if Reserve(db, p, Some(user), a.clone) != db && a.clone.Some? {
      GoesOn(db, w, a);
      BuildEnds(db, p, Some(user), a.clone.value, a.build);
      OpeningEnds(Write(db, w, a), db.nextId, user, a);
    } else {
      LastWrite(db, w, a);
      ProvisionWithoutBuild(db, p, Some(user), a.clone, a.build);
    }
  }

  lemma CycleFails(db: Db, d: Id, clears: bool, a: Answer)
    requires d in db.desktops
    ensures Finish(db, Some(Failing(d, db.desktops[d], clears)), a)
         == db.(desktops := db.desktops[d := Failed(db.desktops[d], clears)])
  {
    LastWrite(db, Failing(d, db.desktops[d], clears), a);
    LateAtOnce(db, d, Failed(db.desktops[d], clears));
  }

  /** A cycle goes on from the row as it enters it. */
  lemma CycleEnters(db: Db, d: Id, status: DesktopStatus, follow: Follow, a: Answer)
    requires d in db.desktops && (follow.RefreshCycle? || follow.RemovalCycle?)
    ensures var next := if follow.RemovalCycle? then Removing(d) else Refreshing(d, follow.floating, follow.running);
            Finish(db, Some(Closing(d, db.desktops[d], status, db.desktops[d].power, follow)), a)
            == Finish(Entered(db, d, status), Some(next), a)
  {
    var row := db.desktops[d];
    LateAtOnce(db, d, Closed(row, status, row.power));
    GoesOn(db, Closing(d, row, status, row.power, follow), a);
  }

  lemma RefreshEnds(db: Db, d: Id, a: Answer)
    requires Refresh(db, d, CycleDone).1 == Done
    ensures var row := db.desktops[d];
            var cycle := Refreshing(d, row.assignment == Some(Floating), row.power == Running);
            Finish(Entered(db, d, Provisioning), Some(cycle), a) == Refresh(db, d, a.cycle).0
  {
    var row := db.desktops[d];
    var db1 := Entered(db, d, Provisioning);
    var cycle := Refreshing(d, row.assignment == Some(Floating), row.power == Running);
    if a.cycle.CycleDone? {
      LastWrite(db1, cycle, a);
      assert Write(db1, cycle, a).desktops == Refresh(db, d, a.cycle).0.desktops;
    } else {
      GoesOn(db1, cycle, a);
      CycleFails(db1, d, true, a);
      assert db1.desktops[d := Failed(db1.desktops[d], true)] == Refresh(db, d, a.cycle).0.desktops;
    }
  }

  lemma NoGapRefresh(db: Db, d: Id, a: Answer)
    ensures Finish(db, AdmitRefresh(db, d), a) == Refresh(db, d, a.cycle).0
  {
    if AdmitRefresh(db, d).Some? {
      CycleEnters(db, d, Provisioning, AdmitRefresh(db, d).value.follow, a);
      RefreshEnds(db, d, a);
    }
  }

  lemma RemovalEnds(db: Db, d: Id, a: Answer)
    requires DeleteOnLogoff(db, d, CycleDone).1 == Done
    ensures Finish(Entered(db, d, Deleting), Some(Removing(d)), a) == DeleteOnLogoff(db, d, a.cycle).0
  {
    var db1 := Entered(db, d, Deleting);
    if a.cycle.CycleDone? {
      LastWrite(db1, Removing(d), a);
      assert Write(db1, Removing(d), a).desktops == DeleteOnLogoff(db, d, a.cycle).0.desktops;
    } else {
      GoesOn(db1, Removing(d), a);
      CycleFails(db1, d, false, a);
      assert db1.desktops[d := Failed(db1.desktops[d], false)] == DeleteOnLogoff(db, d, a.cycle).0.desktops;
    }
  }

  lemma NoGapRemoval(db: Db, d: Id, a: Answer)
    ensures Finish(db, AdmitRemoval(db, d), a) == DeleteOnLogoff(db, d, a.cycle).0
  {
    if AdmitRemoval(db, d).Some? {
      CycleEnters(db, d, Deleting, RemovalCycle, a);
      RemovalEnds(db, d, a);
    }
  }

  /** A late write of a row is the difference between the row read and the row as the call would have left it then. */
  lemma WriteIsTheDifference(was: Db, req: Request, db: Db, a: Answer)
    requires Inv(was) && (req.AskAssign? || req.AskUnassign? || req.AskPower? || req.AskDoom?)
    requires Admit(was, req).Some? && req.d in db.desktops && db.desktops[req.d].pool in db.pools
    requires db.desktops[req.d].pool == was.desktops[req.d].pool
    requires db.pools[db.desktops[req.d].pool].kind == was.pools[was.desktops[req.d].pool].kind
    ensures req.d in was.desktops && req.d in Called(was, req, a).desktops
    ensures Write(db, Admit(was, req).value, a)
         == Late(db, req.d, was.desktops[req.d], Called(was, req, a).desktops[req.d])
  {
    match req
    case AskAssign(d, user) => AssignIsTheDifference(was, d, user, db, a);
    case AskUnassign(d) => TaskIsTheDifference(was, req, db, a);
    case AskPower(d, _) => TaskIsTheDifference(was, req, db, a);
    case AskDoom(d, _) => TaskIsTheDifference(was, req, db, a);
  }

  lemma TaskIsTheDifference(was: Db, req: Request, db: Db, a: Answer)
    requires Inv(was) && (req.AskUnassign? || req.AskPower? || req.AskDoom?)
    requires Admit(was, req).Some? && req.d in db.desktops && db.desktops[req.d].pool in db.pools
    ensures req.d in was.desktops && req.d in Called(was, req, a).desktops
    ensures Rewritten(db, db.desktops[req.d], Admit(was, req).value, a)
         == Merged(db.desktops[req.d], was.desktops[req.d], Called(was, req, a).desktops[req.d])
  {
    assert RowOk(was, was.desktops[req.d]);
  }

  /** So is the end of a refresh that succeeds. */
  lemma RefreshIsTheDifference(was: Db, d: Id, db: Db)
    requires Inv(was) && Refresh(was, d, CycleDone).1 == Done
    ensures var row := was.desktops[d];
            WriteRefresh(db, d, row.assignment == Some(Floating), row.power == Running)
            == Late(db, d, Entered(was, d, Provisioning).desktops[d], Refresh(was, d, CycleDone).0.desktops[d])
  {
    assert RowOk(was, was.desktops[d]);
    if d in db.desktops {
      var row := was.desktops[d];
      var read, end := Entered(was, d, Provisioning).desktops[d], Refresh(was, d, CycleDone).0.desktops[d];
      assert WriteRefresh(db, d, row.assignment == Some(Floating), row.power == Running).desktops[d]
          == Merged(db.desktops[d], read, end);
    }
  }

  lemma AssignIsTheDifference(was: Db, d: Id, user: string, db: Db, a: Answer)
    requires Inv(was) && Assign(was, d, user).1 == Done && d in db.desktops && db.desktops[d].pool in db.pools
    requires db.desktops[d].pool == was.desktops[d].pool
    requires db.pools[db.desktops[d].pool].kind == was.pools[was.desktops[d].pool].kind
    ensures Rewritten(db, db.desktops[d], Assigning(d, user, Seen(was.desktops[d])), a)
         == Merged(db.desktops[d], was.desktops[d], Assign(was, d, user).0.desktops[d])
  {
    assert RowOk(was, was.desktops[d]);
  }

  // ── What late writes do, in columns ───────────────────────────────

  /** A call whose row is gone by its next step is over, with nothing written; a rebuild between its legs is not. */
  lemma GoneRowEnds(db: Db, w: Work, a: Answer)
    requires match w
             case Assigning(d, _, _) => d !in db.desktops
             case Unassigning(d, _) => d !in db.desktops
             case Powering(d, _) => d !in db.desktops
             case Dooming(d, _, _) => d !in db.desktops
             case Polling(d, _) => d !in db.desktops
             case Closing(d, _, _, _, _) => d !in db.desktops
             case Dropping(d) => d !in db.desktops
             case Reconnecting(d, _, _) => d !in db.desktops
             case Building(d, _, _) => d !in db.desktops
             case Resetting(d, _, _) => d !in db.desktops
             case Refreshing(d, _, _) => d !in db.desktops
             case Removing(d) => d !in db.desktops
             case Failing(d, _, _) => d !in db.desktops
             case _ => false
    ensures Write(db, w, a) == db && Continued(db, w, a) == None
  {
  }

  /** A rebuild or destroy takes the row over whatever it holds by then. */
  lemma LateDoom(db: Db, d: Id, rebuild: bool, wasDeleting: bool, a: Answer)
    requires d in db.desktops && db.desktops[d].pool in db.pools
    ensures var now := Write(db, Dooming(d, rebuild, wasDeleting), a);
            && Effects.OnlyRow(db, now, d)
            && var row, row' := db.desktops[d], now.desktops[d];
               && row'.upid == Some(a.upid)
               && row'.task == (if rebuild then Some(RebuildTask) else Some(DestroyTask))
               && (row'.status == if wasDeleting then row.status else Deleting)
               && row'.power == row.power && Effects.SameUser(row, row')
  {
  }

  /** A value is written if it is given and is not the one read. */
  predicate Differs<T(==)>(given: Option<T>, seen: T, now: T, after: T) {
    after == if given == None || given == Some(seen) then now else given.value
  }

  /** An update of a pool leaves what others have made of the fields it does not give, or gives as it read them. */
  lemma LateUpdate(db: Db, p: Id, patch: PoolPatch, seen: Pool, a: Answer)
    requires p in db.pools
    ensures var now := Write(db, Updating(p, patch, seen), a);
            && Effects.OnlyPool(db, now, p)
            && var pool, pool' := db.pools[p], now.pools[p];
               && Differs(patch.minSpare, seen.minSpare, pool.minSpare, pool'.minSpare)
               && Differs(patch.maxSize, seen.maxSize, pool.maxSize, pool'.maxSize)
               && Differs(patch.deleteOnLogoff, seen.deleteOnLogoff, pool.deleteOnLogoff, pool'.deleteOnLogoff)
               && Differs(patch.refreshOnLogoff, seen.refreshOnLogoff, pool.refreshOnLogoff, pool'.refreshOnLogoff)
               && pool'.status == pool.status && pool'.lo == pool.lo && pool'.hi == pool.hi
  {
  }

  /**
   * A destroy of a cascade that has begun, on its row as it is by then: removed, or in error unless it was read
   * so, or left; all but a removal count as failed, which keeps the pool row.
   */
  lemma LateDestroy(db: Db, p: Id, todo: set<Id>, doing: map<Id, bool>, failed: bool, a: Answer)
    requires a.at in doing && a.at in db.desktops
    ensures var d := a.at;
            var w := Cascading(p, todo, doing, failed);
            var now, next := Write(db, w, a), Continued(db, w, a);
            match (if d in a.fates then a.fates[d] else Crashed)
            case Refused =>
              && next == Some(Cascading(p, todo - {d}, doing - {d}, true))
              && (if doing[d] then now == db
                  else Effects.OnlyRow(db, now, d) && now.desktops[d] == db.desktops[d].(status := Error))
            case Crashed => next == Some(Cascading(p, todo - {d}, doing - {d}, true)) && now == db
            case _ => next == Some(Cascading(p, todo - {d}, doing - {d}, failed)) && Effects.RowsGone(db, now, {d})
  {
  }
}

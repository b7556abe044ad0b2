/**
 * VMID allocation at lock and commit granularity: connects and warm spares as interleaved transactions.
 *
 * A first connect of a user to a persistent pool takes the (user, pool) lock, looks its desktop up,
 * takes the pool lock, reads the lowest free VMID among committed rows, inserts, and commits; a warm
 * spare starts at the pool lock. Both locks last until commit or rollback.
 */
module Allocation {
  import opened Entities

  datatype Lock = UserLock(user: string, pool: Id) | PoolLock(pool: Id)

  /** `Replacing` is a rebuild that found its row gone: it provisions another, without the user's lock. */
  datatype Wish = ForUser(user: string) | Replacing(user: string) | Spare

  datatype Phase =
    | WantsUser
    | Looks
    | Found
    | WantsPool
    | Reads
    | Picked(vmid: int)
    | Inserted(vmid: int)

  datatype Txn = Txn(pool: Id, wish: Wish, phase: Phase)

  datatype Range = Range(lo: int, hi: int, persistent: bool)

  /** A committed desktop row. */
  datatype Row = Row(pool: Id, vmid: int, user: Option<string>, deleting: bool)

  /**
   * A manual assignment that has read its row and passed its checks, without a lock: whether the row had no
   * user then (the columns are written only if so), and whether it was available (the status too).
   */
  datatype Check = Check(row: Id, user: string, free: bool, spare: bool)

  /**
   * A rebuild between its commits: it has kept the row's user and cleared the task, and then, in a new
   * transaction, read the row again. It writes the user back only if it then read another.
   */
  datatype Leg =
    | Kept(row: Id, pool: Id, user: Option<string>)
    | Reread(row: Id, user: Option<string>, readUser: Option<string>, readDeleting: bool)

  datatype State = State(
    pools: map<Id, Range>, rows: map<Id, Row>, txns: map<Id, Txn>, checks: map<Id, Check>, legs: map<Id, Leg>,
    held: map<Lock, Id>, nextId: Id)

  const EMPTY := State(map[], map[], map[], map[], map[], map[], 0)

  // ── Steps ─────────────────────────────────────────────────────────

  /**
   * `Advance` is a transaction's next own step; `Rollback` is any failure of it. The others are whole
   * calls: a cascade or task that drops a row or its pool, a task that fails or any other late write of a row's
   * status over `deleting`, which revives it, and the admin's handlers. A manual assignment reads at
   * `CheckAssign` and writes, on whatever is there by then, at `WriteAssign`. A rebuild whose destroy is done
   * clears its task and keeps the user at `KeepUser`, reads the row again at `ReadBack`, and commits at
   * `WriteBack`.
   */
  datatype Action =
    | Begin(pool: Id, wish: Wish)
    | Advance(t: Id)
    | Rollback(t: Id)
    | DeleteRow(r: Id)
    | MarkDeleting(r: Id)
    | Revive(r: Id)
    | CheckAssign(r: Id, user: string, spare: bool)
    | WriteAssign(c: Id)
    | DropAssign(c: Id)
    | KeepUser(r: Id)
    | ReadBack(k: Id)
    | WriteBack(k: Id)
    | DropLeg(k: Id)
    | Unassign(r: Id)
    | CreatePool(range: Range)
    | RemovePool(p: Id)

  predicate Meets(a: Range, b: Range) {
    !(a.hi < b.lo || a.lo > b.hi)
  }

  function Used(s: State, p: Id): set<int>
    requires p in s.pools
  {
    set r | r in s.rows && s.rows[r].pool == p && s.pools[p].lo <= s.rows[r].vmid <= s.pools[p].hi :: s.rows[r].vmid
  }

  /** The rows a connect finds for its user. */
  predicate Serves(row: Row, p: Id, user: string) {
    row.pool == p && row.user == Some(user) && !row.deleting
  }

  /** The lock a transaction's next step has to take. */
  function Wanted(txn: Txn): Option<Lock> {
    match txn.phase
    case WantsUser => if txn.wish.ForUser? then Some(UserLock(txn.wish.user, txn.pool)) else None
    case WantsPool => Some(PoolLock(txn.pool))
    case _ => None
  }

  predicate Blocked(s: State, t: Id)
    requires t in s.txns
  {
    Wanted(s.txns[t]).Some? && Wanted(s.txns[t]).value in s.held
  }

  predicate Enabled(s: State, a: Action) {
    match a
    case Begin(p, wish) => p in s.pools && (wish.ForUser? ==> s.pools[p].persistent) && !wish.Replacing?
    case Advance(t) => t in s.txns && !Blocked(s, t)
    case Rollback(t) => t in s.txns
    case DeleteRow(r) => r in s.rows
    case MarkDeleting(r) => r in s.rows
    case Revive(r) => r in s.rows && s.rows[r].deleting
    case CheckAssign(r, user, spare) =>
      && r in s.rows && (s.rows[r].user.None? || s.rows[r].user == Some(user))
      && (spare ==> s.rows[r].user.None? && !s.rows[r].deleting)
      && !exists e :: e in s.rows && e != r && s.rows[e].pool == s.rows[r].pool && s.rows[e].user == Some(user)
    case WriteAssign(c) => c in s.checks
    case DropAssign(c) => c in s.checks
    case KeepUser(r) => r in s.rows
    case ReadBack(k) => k in s.legs && s.legs[k].Kept? && s.legs[k].pool in s.pools
    case WriteBack(k) => k in s.legs && s.legs[k].Reread?
    case DropLeg(k) => k in s.legs
    case Unassign(r) => r in s.rows
    case CreatePool(range) => range.lo < range.hi && !exists p :: p in s.pools && Meets(s.pools[p], range)
    case RemovePool(p) =>
      && p in s.pools && (forall r | r in s.rows :: s.rows[r].pool != p)
      && (forall t | t in s.txns :: s.txns[t].pool == p ==> !s.txns[t].phase.Inserted?)
  }

  function Move(s: State, t: Id, phase: Phase): State
    requires t in s.txns
  {
    s.(txns := s.txns[t := s.txns[t].(phase := phase)])
  }

  function Take(s: State, t: Id, phase: Phase): State
    requires t in s.txns && Wanted(s.txns[t]).Some?
  {
    Move(s, t, phase).(held := s.held[Wanted(s.txns[t]).value := t])
  }

  /** Commit or rollback: the transaction's locks are released. */
  function End(s: State, t: Id): State {
    s.(txns := s.txns - {t}, held := map l | l in s.held && s.held[l] != t :: s.held[l])
  }

  /** The phase that follows, or none when the transaction ends. */
  function Onward(s: State, txn: Txn): Option<Phase> {
    match txn.phase
    case WantsUser => Some(if txn.wish.ForUser? then Looks else WantsPool)
    case Looks =>
      Some(if txn.wish.ForUser? && exists r :: r in s.rows && Serves(s.rows[r], txn.pool, txn.wish.user)
           then Found else WantsPool)
    case WantsPool => Some(Reads)
    case Reads =>
      if txn.pool !in s.pools then None
      else
        (match LowestFree(Used(s, txn.pool), s.pools[txn.pool].lo, s.pools[txn.pool].hi)
         case None => None
         case Some(v) => Some(Picked(v)))
    case Picked(v) => if txn.pool !in s.pools then None else Some(Inserted(v))
    case _ => None
  }

  function OwnerOf(wish: Wish): Option<string> {
    if wish.Spare? then None else Some(wish.user)
  }

  /** The insert becomes visible with its commit. */
  function Published(s: State, txn: Txn): State
    requires txn.phase.Inserted?
  {
    var row := Row(txn.pool, txn.phase.vmid, OwnerOf(txn.wish), false);
    s.(rows := s.rows[s.nextId := row], nextId := s.nextId + 1)
  }

  function Forward(s: State, t: Id): State
    requires t in s.txns && !Blocked(s, t)
  {
    var txn := s.txns[t];
    if txn.phase.Inserted? then End(Published(s, txn), t)
    else
      match Onward(s, txn)
      case None => End(s, t)
      case Some(phase) => if Wanted(txn).Some? then Take(s, t, phase) else Move(s, t, phase)
  }

  function Write(s: State, r: Id, row: Row): State {
    s.(rows := s.rows[r := row])
  }

  function Given(row: Row, k: Check): Row {
    if k.free then row.(user := Some(k.user), deleting := row.deleting && !k.spare) else row
  }

  /** The write of an assignment; it fails when the row is gone. */
  function Assigned(s: State, k: Check): State {
    if k.row in s.rows then Write(s, k.row, Given(s.rows[k.row], k)) else s
  }

  /** What the second leg commits: the columns in which it differs from the row it read. */
  function Backed(row: Row, k: Leg): Row
    requires k.Reread?
  {
    row.(user := if k.user != k.readUser then k.user else row.user, deleting := row.deleting && !k.readDeleting)
  }

  function Restored(s: State, k: Leg): State
    requires k.Reread?
  {
    if k.row in s.rows then Write(s, k.row, Backed(s.rows[k.row], k)) else s
  }

  function KeptFor(s: State, r: Id): Option<string>
    requires r in s.rows
  {
    if s.rows[r].pool in s.pools && s.pools[s.rows[r].pool].persistent then s.rows[r].user else None
  }

  /** The second leg reads its row; if it is gone, it provisions one. */
  function ReadAgain(s: State, k: Id): State
    requires k in s.legs && s.legs[k].Kept?
  {
    var leg := s.legs[k];
    if leg.row in s.rows then
      s.(legs := s.legs[k := Reread(leg.row, leg.user, s.rows[leg.row].user, s.rows[leg.row].deleting)])
    else
      var wish := if leg.user.Some? then Replacing(leg.user.value) else Spare;
      s.(legs := s.legs - {k}, txns := s.txns[s.nextId := Txn(leg.pool, wish, WantsPool)], nextId := s.nextId + 1)
  }

  function Next(s: State, a: Action): State
    requires Enabled(s, a)
  {
    match a
    case Begin(p, wish) =>
      s.(txns := s.txns[s.nextId := Txn(p, wish, if wish.ForUser? then WantsUser else WantsPool)],
         nextId := s.nextId + 1)
    case Advance(t) => Forward(s, t)
    case Rollback(t) => End(s, t)
    case DeleteRow(r) => s.(rows := s.rows - {r})
    case MarkDeleting(r) => Write(s, r, s.rows[r].(deleting := true))
    case Revive(r) => Write(s, r, s.rows[r].(deleting := false))
    case CheckAssign(r, user, spare) =>
      s.(checks := s.checks[s.nextId := Check(r, user, s.rows[r].user.None?, spare)], nextId := s.nextId + 1)
    case WriteAssign(c) => Assigned(s, s.checks[c]).(checks := s.checks - {c})
    case DropAssign(c) => s.(checks := s.checks - {c})
    case KeepUser(r) =>
      Write(s, r, s.rows[r].(deleting := false)).(
        legs := s.legs[s.nextId := Kept(r, s.rows[r].pool, KeptFor(s, r))], nextId := s.nextId + 1)
    case ReadBack(k) => ReadAgain(s, k)
    case WriteBack(k) => Restored(s, s.legs[k]).(legs := s.legs - {k})
    case DropLeg(k) => s.(legs := s.legs - {k})
    case Unassign(r) => Write(s, r, s.rows[r].(user := None))
    case CreatePool(range) => s.(pools := s.pools[s.nextId := range], nextId := s.nextId + 1)
    case RemovePool(p) => s.(pools := s.pools - {p})
  }

  /** A run; steps that cannot happen are passed over. */
  function Execute(s: State, run: seq<Action>): State
    decreases |run|
  {
    if run == [] then s else Execute(if Enabled(s, run[0]) then Next(s, run[0]) else s, run[1..])
  }

  /**
   * Columns that a call leaves as it read them are not written, so what others have made of them stays: an
   * assignment to the row's own user, and the user a rebuild had kept when its second leg reads the same one.
   */
  lemma UnchangedColumnsStay(s: State, r: Id, user: string, kept: Option<string>, now: Row)
    requires r in s.rows
    ensures Enabled(s, CheckAssign(r, user, false)) ==>
              var check := Next(s, CheckAssign(r, user, false)).checks[s.nextId];
              if s.rows[r].user == None
              then Given(now, check).user == Some(user) && Given(now, check).deleting == now.deleting
              else Given(now, check) == now
    ensures var leg := Reread(r, kept, s.rows[r].user, s.rows[r].deleting);
            && Backed(now, leg).user == (if kept == s.rows[r].user then now.user else kept)
            && (!s.rows[r].deleting ==> Backed(now, leg).deleting == now.deleting)
  {
  }

  // ── Invariant ─────────────────────────────────────────────────────

  ghost predicate PoolsApart(s: State) {
    && (forall p | p in s.pools :: p < s.nextId)
    && (forall p, q {:trigger s.pools[p], s.pools[q]} | p in s.pools && q in s.pools && p != q ::
          !Meets(s.pools[p], s.pools[q]))
  }

  predicate Within(s: State, p: Id, vmid: int) {
    p in s.pools && s.pools[p].lo <= vmid <= s.pools[p].hi
  }

  ghost predicate RowsSafe(s: State) {
    && (forall r | r in s.rows :: r < s.nextId && Within(s, s.rows[r].pool, s.rows[r].vmid))
    && (forall r, q {:trigger s.rows[r], s.rows[q]} | r in s.rows && q in s.rows && r != q ::
          s.rows[r].vmid != s.rows[q].vmid)
  }

  predicate HasUserLock(txn: Txn) {
    txn.wish.ForUser? && !txn.phase.WantsUser?
  }

  predicate HasPoolLock(txn: Txn) {
    txn.phase.Reads? || txn.phase.Picked? || txn.phase.Inserted?
  }

  /** The locks a transaction has in its phase. */
  predicate Owns(txn: Txn, l: Lock) {
    match l
    case UserLock(user, p) => HasUserLock(txn) && txn.wish.user == user && txn.pool == p
    case PoolLock(p) => HasPoolLock(txn) && txn.pool == p
  }

  ghost predicate LocksMatch(s: State) {
    && (forall l | l in s.held :: s.held[l] in s.txns && Owns(s.txns[s.held[l]], l))
    && (forall t, l {:trigger Owns(s.txns[t], l)} | t in s.txns && Owns(s.txns[t], l) :: l in s.held && s.held[l] == t)
  }

  /** A VMID a transaction picked is its own: in its pool's range, and no committed row has it. */
  ghost predicate PickSafe(s: State, txn: Txn) {
    && (txn.phase.WantsUser? || txn.phase.Looks? ==> !txn.wish.Replacing?)
    && (txn.phase.Picked? && txn.pool in s.pools ==>
          Within(s, txn.pool, txn.phase.vmid) && forall r | r in s.rows :: s.rows[r].vmid != txn.phase.vmid)
    && (txn.phase.Inserted? ==>
          Within(s, txn.pool, txn.phase.vmid) && forall r | r in s.rows :: s.rows[r].vmid != txn.phase.vmid)
  }

  ghost predicate TxnsSafe(s: State) {
    forall t | t in s.txns :: t < s.nextId && s.txns[t].pool < s.nextId && PickSafe(s, s.txns[t])
  }

  ghost predicate Inv(s: State) {
    PoolsApart(s) && RowsSafe(s) && LocksMatch(s) && TxnsSafe(s)
  }

  lemma MoveKeeps(s: State, t: Id, phase: Phase)
    requires Inv(s) && t in s.txns && PickSafe(s, s.txns[t].(phase := phase))
    requires forall l :: Owns(s.txns[t].(phase := phase), l) <==> Owns(s.txns[t], l)
    ensures Inv(Move(s, t, phase))
  {
    var s' := Move(s, t, phase);
    forall u | u in s'.txns
      ensures u < s'.nextId && s'.txns[u].pool < s'.nextId && PickSafe(s', s'.txns[u])
    {
      assert PickSafe(s, s'.txns[u]);
    }
    forall u, l | u in s'.txns && Owns(s'.txns[u], l)
      ensures l in s'.held && s'.held[l] == u
    {
      assert Owns(s.txns[u], l);
    }
  }

  lemma TakeKeeps(s: State, t: Id, phase: Phase)
    requires Inv(s) && t in s.txns && Wanted(s.txns[t]).Some? && !Blocked(s, t)
    requires !phase.Picked? && !phase.Inserted? && !phase.WantsUser? && (phase.Looks? ==> s.txns[t].wish.ForUser?)
    requires forall l :: Owns(s.txns[t].(phase := phase), l)
                         <==> Owns(s.txns[t], l) || l == Wanted(s.txns[t]).value
    ensures Inv(Take(s, t, phase))
  {
    var s' := Take(s, t, phase);
    forall u | u in s'.txns
      ensures u < s'.nextId && s'.txns[u].pool < s'.nextId && PickSafe(s', s'.txns[u])
    {
      assert u != t ==> PickSafe(s, s.txns[u]);
    }
    forall u, l | u in s'.txns && Owns(s'.txns[u], l)
      ensures l in s'.held && s'.held[l] == u
    {
      assert u != t ==> Owns(s.txns[u], l);
    }
  }

  lemma EndKeeps(s: State, t: Id)
    requires Inv(s) && t in s.txns
    ensures Inv(End(s, t))
  {
    var s' := End(s, t);
    forall u | u in s'.txns
      ensures u < s'.nextId && s'.txns[u].pool < s'.nextId && PickSafe(s', s'.txns[u])
    {
      assert PickSafe(s, s.txns[u]);
    }
    forall u, l | u in s'.txns && Owns(s'.txns[u], l)
      ensures l in s'.held && s'.held[l] == u
    {
      assert Owns(s.txns[u], l);
    }
  }

  /** The lowest free VMID of the pool is free everywhere: ranges are apart, rows are in their own. */
  lemma PickKeeps(s: State, t: Id, v: int)
    requires Inv(s) && t in s.txns && s.txns[t].phase.Reads? && s.txns[t].pool in s.pools
    requires LowestFree(Used(s, s.txns[t].pool), s.pools[s.txns[t].pool].lo, s.pools[s.txns[t].pool].hi) == Some(v)
    ensures Inv(Move(s, t, Picked(v)))
  {
    var p := s.txns[t].pool;
    forall r | r in s.rows
      ensures s.rows[r].vmid != v
    {
      assert Within(s, s.rows[r].pool, s.rows[r].vmid);
      if s.rows[r].pool == p {
        assert s.rows[r].vmid in Used(s, p);
      } else {
        assert !Meets(s.pools[p], s.pools[s.rows[r].pool]);
      }
    }
    MoveKeeps(s, t, Picked(v));
  }

  /**
   * What the pool lock buys: the VMID about to be inserted clashes with no committed row and with no
   * row another transaction has inserted, so the unique constraint never fires.
   */
  lemma InsertNeverCollides(s: State, t: Id, u: Id)
    requires Inv(s) && t in s.txns && (s.txns[t].phase.Picked? || s.txns[t].phase.Inserted?)
    requires s.txns[t].pool in s.pools
    requires u in s.txns && u != t && s.txns[u].phase.Inserted?
    ensures s.txns[u].phase.vmid != s.txns[t].phase.vmid
    ensures forall r | r in s.rows :: s.rows[r].vmid != s.txns[t].phase.vmid
  {
    assert PickSafe(s, s.txns[t]) && PickSafe(s, s.txns[u]);
    if s.txns[t].pool == s.txns[u].pool {
      assert Owns(s.txns[t], PoolLock(s.txns[t].pool)) && Owns(s.txns[u], PoolLock(s.txns[t].pool));
      assert false;
    } else {
      assert !Meets(s.pools[s.txns[t].pool], s.pools[s.txns[u].pool]);
    }
  }

  lemma PublishKeeps(s: State, t: Id, user: Option<string>)
    requires Inv(s) && t in s.txns && s.txns[t].phase.Inserted?
    ensures Inv(End(s.(rows := s.rows[s.nextId := Row(s.txns[t].pool, s.txns[t].phase.vmid, user, false)],
                       nextId := s.nextId + 1), t))
  {
    var v := s.txns[t].phase.vmid;
    var ended := End(s, t);
    EndKeeps(s, t);
    assert PickSafe(s, s.txns[t]);
    var s' := ended.(rows := ended.rows[s.nextId := Row(s.txns[t].pool, v, user, false)], nextId := s.nextId + 1);
    forall u | u in s'.txns
      ensures u < s'.nextId && s'.txns[u].pool < s'.nextId && PickSafe(s', s'.txns[u])
    {
      assert PickSafe(s, s.txns[u]);
      if s.txns[u].phase.Inserted? || (s.txns[u].phase.Picked? && s.txns[u].pool in s.pools) {
        InsertNeverCollides(s, u, t);
      }
    }
    assert LocksMatch(s');
    assert s' == End(s.(rows := s.rows[s.nextId := Row(s.txns[t].pool, v, user, false)], nextId := s.nextId + 1), t);
  }

  lemma ReadKeeps(s: State, t: Id)
    requires Inv(s) && t in s.txns && s.txns[t].phase.Reads?
    ensures Inv(Forward(s, t))
  {
    var p := s.txns[t].pool;
    var free := if p in s.pools then LowestFree(Used(s, p), s.pools[p].lo, s.pools[p].hi) else None;
    if free.Some? {
      PickKeeps(s, t, free.value);
      assert Forward(s, t) == Move(s, t, Picked(free.value));
    } else {
      EndKeeps(s, t);
      assert Forward(s, t) == End(s, t);
    }
  }

  lemma InsertKeeps(s: State, t: Id)
    requires Inv(s) && t in s.txns && s.txns[t].phase.Picked?
    ensures Inv(Forward(s, t))
  {
    assert PickSafe(s, s.txns[t]);
    if s.txns[t].pool in s.pools {
      MoveKeeps(s, t, Inserted(s.txns[t].phase.vmid));
    } else {
      EndKeeps(s, t);
    }
  }

  lemma CommitKeeps(s: State, t: Id)
    requires Inv(s) && t in s.txns && s.txns[t].phase.Inserted?
    ensures Inv(Forward(s, t))
  {
    var user := OwnerOf(s.txns[t].wish);
    PublishKeeps(s, t, user);
    assert Forward(s, t)
        == End(s.(rows := s.rows[s.nextId := Row(s.txns[t].pool, s.txns[t].phase.vmid, user, false)],
                  nextId := s.nextId + 1), t);
  }

  lemma StartKeeps(s: State, t: Id)
    requires Inv(s) && t in s.txns && (s.txns[t].phase.WantsUser? || s.txns[t].phase.Looks?) && !Blocked(s, t)
    ensures Inv(Forward(s, t))
  {
    var txn := s.txns[t];
    if txn.phase.WantsUser? && txn.wish.ForUser? {
      TakeKeeps(s, t, Looks);
    } else if Forward(s, t).txns[t].phase.Found? {
      MoveKeeps(s, t, Found);
    } else {
      MoveKeeps(s, t, WantsPool);
    }
  }

  lemma ForwardKeeps(s: State, t: Id)
    requires Inv(s) && t in s.txns && !Blocked(s, t)
    ensures Inv(Forward(s, t))
  {
    match s.txns[t].phase
    case Found => EndKeeps(s, t);
    case WantsPool => TakeKeeps(s, t, Reads);
    case Reads => ReadKeeps(s, t);
    case Picked(_) => InsertKeeps(s, t);
    case Inserted(_) => CommitKeeps(s, t);
    case _ => StartKeeps(s, t);
  }

  /** Rows may go, or change user or deleting flag, without effect on VMIDs or locks. */
  lemma RowsKeep(s: State, rows: map<Id, Row>)
    requires Inv(s) && rows.Keys <= s.rows.Keys
    requires forall r | r in rows :: rows[r].pool == s.rows[r].pool && rows[r].vmid == s.rows[r].vmid
    ensures Inv(s.(rows := rows))
  {
    var s' := s.(rows := rows);
    forall r, q | r in rows && q in rows && r != q
      ensures rows[r].vmid != rows[q].vmid
    {
      assert s.rows[r].vmid != s.rows[q].vmid;
    }
    forall t | t in s'.txns
      ensures PickSafe(s', s'.txns[t])
    {
      assert PickSafe(s, s.txns[t]);
    }
  }

  lemma NewTxnKeeps(s: State, txn: Txn)
    requires Inv(s) && txn.pool in s.pools && if txn.wish.ForUser? then txn.phase.WantsUser? else txn.phase.WantsPool?
    ensures Inv(s.(txns := s.txns[s.nextId := txn], nextId := s.nextId + 1))
  {
    var s' := s.(txns := s.txns[s.nextId := txn], nextId := s.nextId + 1);
    forall t | t in s'.txns
      ensures t < s'.nextId && s'.txns[t].pool < s'.nextId && PickSafe(s', s'.txns[t])
    {
      assert t in s.txns ==> PickSafe(s, s.txns[t]);
    }
    forall t, l | t in s'.txns && Owns(s'.txns[t], l)
      ensures l in s'.held && s'.held[l] == t
    {
      assert t in s.txns && Owns(s.txns[t], l);
    }
  }

  lemma BeginKeeps(s: State, p: Id, wish: Wish)
    requires Inv(s) && Enabled(s, Begin(p, wish))
    ensures Inv(Next(s, Begin(p, wish)))
  {
    NewTxnKeeps(s, Txn(p, wish, if wish.ForUser? then WantsUser else WantsPool));
  }

  lemma CreateKeeps(s: State, range: Range)
    requires Inv(s) && Enabled(s, CreatePool(range))
    ensures Inv(Next(s, CreatePool(range)))
  {
    PoolsKeep(s, Next(s, CreatePool(range)));
  }

  lemma RemoveKeeps(s: State, p: Id)
    requires Inv(s) && Enabled(s, RemovePool(p))
    ensures Inv(Next(s, RemovePool(p)))
  {
    PoolsKeep(s, Next(s, RemovePool(p)));
  }

  /** Pools in order, the same pool or none under an old identifier, none under a row or insert taken away. */
  lemma PoolsKeep(s: State, s': State)
    requires Inv(s) && PoolsApart(s') && s'.rows == s.rows && s'.txns == s.txns && s'.held == s.held
    requires s'.nextId >= s.nextId
    requires forall p | p < s.nextId && p in s'.pools :: p in s.pools && s'.pools[p] == s.pools[p]
    requires forall r | r in s.rows :: s.rows[r].pool in s'.pools
    requires forall t | t in s.txns && s.txns[t].phase.Inserted? :: s.txns[t].pool in s'.pools
    ensures Inv(s')
  {
    forall t | t in s'.txns
      ensures t < s'.nextId && s'.txns[t].pool < s'.nextId && PickSafe(s', s'.txns[t])
    {
      assert PickSafe(s, s.txns[t]);
    }
    forall r | r in s'.rows
      ensures r < s'.nextId && Within(s', s'.rows[r].pool, s'.rows[r].vmid)
    {
      assert Within(s, s.rows[r].pool, s.rows[r].vmid);
    }
  }

  /** Assignments and rebuilds in progress have no part in it. */
  lemma AsideKeeps(s: State, s': State)
    requires Inv(s) && s'.pools == s.pools && s'.rows == s.rows && s'.txns == s.txns && s'.held == s.held
    requires s'.nextId >= s.nextId
    ensures Inv(s')
  {
    forall t | t in s'.txns
      ensures PickSafe(s', s'.txns[t])
    {
      assert PickSafe(s, s.txns[t]);
    }
    forall r | r in s'.rows
      ensures Within(s', s'.rows[r].pool, s'.rows[r].vmid)
    {
      assert Within(s, s.rows[r].pool, s.rows[r].vmid);
    }
  }

  lemma BackKeeps(s: State, k: Id)
    requires Inv(s) && k in s.legs && s.legs[k].Reread?
    ensures Inv(Next(s, WriteBack(k)))
  {
    var s1 := Restored(s, s.legs[k]);
    RowsKeep(s, s1.rows);
    assert s1 == s.(rows := s1.rows);
    AsideKeeps(s1, Next(s, WriteBack(k)));
  }

  lemma RevivedKeeps(s: State, r: Id)
    requires Inv(s) && r in s.rows
    ensures Inv(Write(s, r, s.rows[r].(deleting := false)))
  {
    var s1 := Write(s, r, s.rows[r].(deleting := false));
    RowsKeep(s, s1.rows);
    assert s1 == s.(rows := s1.rows);
  }

  lemma KeepUserKeeps(s: State, r: Id)
    requires Inv(s) && r in s.rows
    ensures Inv(Next(s, KeepUser(r)))
  {
    RevivedKeeps(s, r);
    AsideKeeps(Write(s, r, s.rows[r].(deleting := false)), Next(s, KeepUser(r)));
  }

  lemma ReadKeepsAgain(s: State, k: Id)
    requires Inv(s) && Enabled(s, ReadBack(k))
    ensures Inv(Next(s, ReadBack(k)))
  {
    var leg := s.legs[k];
    if leg.row in s.rows {
      AsideKeeps(s, Next(s, ReadBack(k)));
    } else {
      var txn := Txn(leg.pool, if leg.user.Some? then Replacing(leg.user.value) else Spare, WantsPool);
      NewTxnKeeps(s, txn);
      AsideKeeps(s.(txns := s.txns[s.nextId := txn], nextId := s.nextId + 1), Next(s, ReadBack(k)));
    }
  }

  lemma WriteKeeps(s: State, c: Id)
    requires Inv(s) && c in s.checks
    ensures Inv(Next(s, WriteAssign(c)))
  {
    var s1 := Assigned(s, s.checks[c]);
    RowsKeep(s, s1.rows);
    assert s1 == s.(rows := s1.rows);
    AsideKeeps(s1, Next(s, WriteAssign(c)));
  }

  lemma RowStepKeeps(s: State, a: Action)
    requires Inv(s) && Enabled(s, a)
    requires a.DeleteRow? || a.MarkDeleting? || a.Revive? || a.Unassign?
    ensures Inv(Next(s, a))
  {
    RowsKeep(s, Next(s, a).rows);
    assert Next(s, a) == s.(rows := Next(s, a).rows);
  }

  lemma StepKeeps(s: State, a: Action)
    requires Inv(s) && Enabled(s, a)
    ensures Inv(Next(s, a))
  {
    match a
    case Begin(p, wish) => BeginKeeps(s, p, wish);
    case Advance(t) => ForwardKeeps(s, t);
    case Rollback(t) => EndKeeps(s, t);
    case CreatePool(range) => CreateKeeps(s, range);
    case RemovePool(p) => RemoveKeeps(s, p);
    case CheckAssign(_, _, _) => AsideKeeps(s, Next(s, a));
    case WriteAssign(c) => WriteKeeps(s, c);
    case DropAssign(c) => AsideKeeps(s, Next(s, a));
    case KeepUser(r) => KeepUserKeeps(s, r);
    case ReadBack(k) => ReadKeepsAgain(s, k);
    case WriteBack(k) => BackKeeps(s, k);
    case DropLeg(k) => AsideKeeps(s, Next(s, a));
    case _ => RowStepKeeps(s, a);
  }

  lemma {:induction false} RunKeeps(s: State, run: seq<Action>)
    requires Inv(s)
    ensures Inv(Execute(s, run))
    decreases |run|
  {
    if run != [] {
      if Enabled(s, run[0]) {
        StepKeeps(s, run[0]);
      }
      RunKeeps(if Enabled(s, run[0]) then Next(s, run[0]) else s, run[1..]);
    }
  }

  /** After any interleaving: ranges apart, every row in its own pool's range, no VMID twice. */
  lemma VmidsStaySafe(run: seq<Action>)
    ensures var s := Execute(EMPTY, run);
            && (forall p, q {:trigger s.pools[p], s.pools[q]} | p in s.pools && q in s.pools && p != q ::
                  s.pools[p].hi < s.pools[q].lo || s.pools[q].hi < s.pools[p].lo)
            && (forall r | r in s.rows :: s.rows[r].pool in s.pools
                  && s.pools[s.rows[r].pool].lo <= s.rows[r].vmid <= s.pools[s.rows[r].pool].hi)
            && (forall r, q {:trigger s.rows[r], s.rows[q]} | r in s.rows && q in s.rows && r != q ::
                  s.rows[r].vmid != s.rows[q].vmid)
  {
    RunKeeps(EMPTY, run);
    var s := Execute(EMPTY, run);
    forall p, q | p in s.pools && q in s.pools && p != q
      ensures s.pools[p].hi < s.pools[q].lo || s.pools[q].hi < s.pools[p].lo
    {
      assert !Meets(s.pools[p], s.pools[q]);
    }
  }

  // ── One desktop per user ──────────────────────────────────────────

  /** Between finding no desktop and the commit of a new one. */
  predicate Pending(txn: Txn, p: Id, user: string) {
    txn.pool == p && OwnerOf(txn.wish) == Some(user)
    && (txn.phase.WantsPool? || txn.phase.Reads? || txn.phase.Picked? || txn.phase.Inserted?)
  }

  predicate IsPersistent(s: State, p: Id) {
    p in s.pools && s.pools[p].persistent
  }

  /** In a persistent pool a user has one desktop or one on its way, not two. */
  ghost predicate Sole(s: State) {
    && (forall r, q, user {:trigger Serves(s.rows[r], s.rows[r].pool, user), Serves(s.rows[q], s.rows[r].pool, user)} |
          r in s.rows && q in s.rows && r != q && IsPersistent(s, s.rows[r].pool)
          && Serves(s.rows[r], s.rows[r].pool, user) :: !Serves(s.rows[q], s.rows[r].pool, user))
    && (forall t, r, p, user {:trigger Pending(s.txns[t], p, user), Serves(s.rows[r], p, user)} |
          t in s.txns && r in s.rows && IsPersistent(s, p) && Pending(s.txns[t], p, user) ::
          !Serves(s.rows[r], p, user))
    && (forall t, u, p, user {:trigger Pending(s.txns[t], p, user), Pending(s.txns[u], p, user)} |
          t in s.txns && u in s.txns && t != u && IsPersistent(s, p) && Pending(s.txns[t], p, user) ::
          !Pending(s.txns[u], p, user))
  }

  ghost predicate PendingFor(s: State, p: Id, user: string) {
    exists t :: t in s.txns && Pending(s.txns[t], p, user)
  }

  /** The user has a desktop other than `r` in its pool, or a connect that will make one. */
  ghost predicate Supplied(s: State, r: Id, user: string)
    requires r in s.rows
  {
    || PendingFor(s, s.rows[r].pool, user)
    || exists q :: q in s.rows && q != r && Serves(s.rows[q], s.rows[r].pool, user)
  }

  /** The rows a connect of `user` would find. */
  function RowsFor(s: State, p: Id, user: string): set<Id> {
    set r | r in s.rows && Serves(s.rows[r], p, user)
  }

  ghost predicate Busy(s: State, p: Id, user: string) {
    PendingFor(s, p, user) || RowsFor(s, p, user) != {}
  }

  predicate Revives(a: Action) {
    a.Revive? || a.KeepUser?
  }

  /** A step that may give a row to a user. */
  predicate Gives(a: Action) {
    Revives(a) || a.WriteAssign? || a.WriteBack?
  }

  /** The row it is about, and what it makes of it. */
  function Target(s: State, a: Action): Id
    requires Enabled(s, a) && Gives(a)
  {
    if Revives(a) then a.r else if a.WriteAssign? then s.checks[a.c].row else s.legs[a.k].row
  }

  function GivenRow(s: State, a: Action): Row
    requires Enabled(s, a) && Gives(a) && Target(s, a) in s.rows
  {
    var row := s.rows[Target(s, a)];
    if Revives(a) then row.(deleting := false)
    else if a.WriteAssign? then Given(row, s.checks[a.c]) else Backed(row, s.legs[a.k])
  }

  /** A connect finds no row of its user while a rebuild is about to make one. */
  ghost predicate LooksPast(s: State, t: Id) {
    && t in s.txns && s.txns[t].phase.Looks? && s.txns[t].wish.ForUser? && IsPersistent(s, s.txns[t].pool)
    && RowsFor(s, s.txns[t].pool, s.txns[t].wish.user) == {} && PendingFor(s, s.txns[t].pool, s.txns[t].wish.user)
  }

  /** A rebuild replaces its row and does not look whether the user has another, or is getting one. */
  ghost predicate ReplacesBeside(s: State, k: Id) {
    && k in s.legs && s.legs[k].Kept? && s.legs[k].row !in s.rows && s.legs[k].user.Some?
    && IsPersistent(s, s.legs[k].pool) && Busy(s, s.legs[k].pool, s.legs[k].user.value)
  }

  /**
   * A row is revived, or written to a user by an assignment or a rebuild, behind the back of the user's connect:
   * of one that is pending, or of one that has committed a row since.
   */
  ghost predicate GivesBeside(s: State, a: Action) {
    && Enabled(s, a) && Gives(a) && Target(s, a) in s.rows && IsPersistent(s, s.rows[Target(s, a)].pool)
    && GivenRow(s, a).user.Some? && !GivenRow(s, a).deleting && Supplied(s, Target(s, a), GivenRow(s, a).user.value)
  }

  /** Steps that supply a user who is supplied already. */
  ghost predicate Intrudes(s: State, a: Action) {
    match a
    case Advance(t) => LooksPast(s, t)
    case ReadBack(k) => ReplacesBeside(s, k)
    case _ => GivesBeside(s, a)
  }

  /** The user lock admits one pending connect of a user to a pool. */
  lemma OnePending(s: State, t: Id, u: Id, p: Id, user: string)
    requires Inv(s) && t in s.txns && u in s.txns && Pending(s.txns[t], p, user) && Pending(s.txns[u], p, user)
    requires s.txns[t].wish.ForUser? && s.txns[u].wish.ForUser?
    ensures t == u
  {
    assert Owns(s.txns[t], UserLock(user, p)) && Owns(s.txns[u], UserLock(user, p));
  }

  lemma PublishSole(s: State, t: Id)
    requires Inv(s) && Sole(s) && t in s.txns && s.txns[t].phase.Inserted?
    ensures Sole(Forward(s, t))
  {
    var s' := Forward(s, t);
    var p, n := s.txns[t].pool, s.nextId;
    forall q, user | q in s.rows && Serves(s'.rows[n], p, user) && IsPersistent(s, p)
      ensures !Serves(s.rows[q], p, user)
    {
      assert Pending(s.txns[t], p, user);
    }
    assert forall user | Serves(s'.rows[n], p, user) :: Pending(s.txns[t], p, user);
  }

  /** A transaction may go on unless it becomes pending for a user who is supplied. */
  lemma TxnsSole(s: State, s': State, t: Id)
    requires Sole(s) && s'.pools == s.pools && s'.rows == s.rows
    requires forall u | u in s'.txns && u != t :: u in s.txns && s'.txns[u] == s.txns[u]
    requires forall p, user {:trigger Pending(s'.txns[t], p, user)} |
               t in s'.txns && Pending(s'.txns[t], p, user) && IsPersistent(s, p) ::
               (t in s.txns && Pending(s.txns[t], p, user)) || !Busy(s, p, user)
    ensures Sole(s')
  {
    forall u, r, p, user | u in s'.txns && r in s.rows && IsPersistent(s, p) && Pending(s'.txns[u], p, user)
      ensures !Serves(s.rows[r], p, user)
    {
      assert r !in RowsFor(s, p, user) ==> !Serves(s.rows[r], p, user);
    }
    forall u, v, p, user | u in s'.txns && v in s'.txns && u != v && IsPersistent(s, p) && Pending(s'.txns[u], p, user)
      ensures !Pending(s'.txns[v], p, user)
    {
      assert !PendingFor(s, p, user) ==> forall w | w in s.txns :: !Pending(s.txns[w], p, user);
    }
  }

  /** A transaction becomes pending only after it has looked and found no row of its user. */
  lemma PendsAfterLooking(s: State, t: Id, p: Id, user: string)
    requires t in s.txns && !Blocked(s, t) && !s.txns[t].phase.Inserted? && t in Forward(s, t).txns
    requires Pending(Forward(s, t).txns[t], p, user) && IsPersistent(s, p) && !LooksPast(s, t)
    requires PickSafe(s, s.txns[t])
    ensures Pending(s.txns[t], p, user) || !Busy(s, p, user)
  {
    if s.txns[t].phase.Looks? {
      assert forall r | r in s.rows :: !Serves(s.rows[r], p, user);
      assert RowsFor(s, p, user) == {};
    }
  }

  lemma ForwardLeaves(s: State, t: Id)
    requires t in s.txns && !Blocked(s, t) && !s.txns[t].phase.Inserted?
    ensures Forward(s, t).pools == s.pools && Forward(s, t).rows == s.rows
    ensures forall u | u in Forward(s, t).txns && u != t :: u in s.txns && Forward(s, t).txns[u] == s.txns[u]
  {
    match Onward(s, s.txns[t])
    case None => assert Forward(s, t) == End(s, t);
    case Some(phase) =>
      assert Forward(s, t) == if Wanted(s.txns[t]).Some? then Take(s, t, phase) else Move(s, t, phase);
  }

  lemma ForwardSole(s: State, t: Id)
    requires Inv(s) && Sole(s) && t in s.txns && !Blocked(s, t) && !LooksPast(s, t)
    ensures Sole(Forward(s, t))
  {
    if s.txns[t].phase.Inserted? {
      PublishSole(s, t);
    } else {
      var s' := Forward(s, t);
      ForwardLeaves(s, t);
      forall p, user | t in s'.txns && Pending(s'.txns[t], p, user) && IsPersistent(s, p)
        ensures Pending(s.txns[t], p, user) || !Busy(s, p, user)
      {
        PendsAfterLooking(s, t, p, user);
      }
      TxnsSole(s, s', t);
    }
  }

  /** Rows may go or change while nobody is served who was not. */
  lemma FewerSole(s: State, s': State)
    requires Sole(s) && s'.pools == s.pools && s'.txns == s.txns && s'.rows.Keys <= s.rows.Keys
    requires forall r, p, user {:trigger Serves(s'.rows[r], p, user)} |
               r in s'.rows && Serves(s'.rows[r], p, user) :: Serves(s.rows[r], p, user)
    ensures Sole(s')
  {
    forall r, q, user | r in s'.rows && q in s'.rows && r != q && IsPersistent(s', s'.rows[r].pool)
                        && Serves(s'.rows[r], s'.rows[r].pool, user)
      ensures !Serves(s'.rows[q], s'.rows[r].pool, user)
    {
      assert Serves(s.rows[r], s'.rows[r].pool, user);
    }
  }

  /** One row may be given to a user who has no other and none pending. */
  lemma GivenSole(s: State, s': State, r: Id, row: Row)
    requires Sole(s) && r in s.rows && s'.pools == s.pools && s'.txns == s.txns && s'.rows == s.rows[r := row]
    requires row.pool == s.rows[r].pool && row.user.Some?
    requires IsPersistent(s, row.pool) ==> !Supplied(s, r, row.user.value)
    ensures Sole(s')
  {
    forall a, b, user | a in s'.rows && b in s'.rows && a != b && IsPersistent(s', s'.rows[a].pool)
                        && Serves(s'.rows[a], s'.rows[a].pool, user)
      ensures !Serves(s'.rows[b], s'.rows[a].pool, user)
    {
      assert a != r ==> Serves(s.rows[a], s.rows[a].pool, user);
    }
  }

  /** A row nobody gets: it has no user, or is being deleted. */
  lemma NobodySole(s: State, s': State, r: Id, row: Row)
    requires Sole(s) && r in s.rows && s'.pools == s.pools && s'.txns == s.txns && s'.rows == s.rows[r := row]
    requires row.user.None? || row.deleting
    ensures Sole(s')
  {
    FewerSole(s, s');
  }

  lemma RowsSole(s: State, a: Action)
    requires Inv(s) && Sole(s) && Enabled(s, a) && (a.DeleteRow? || a.MarkDeleting? || a.Unassign?)
    ensures Sole(Next(s, a))
  {
    FewerSole(s, Next(s, a));
  }

  lemma GivingWrites(s: State, a: Action)
    requires Enabled(s, a) && Gives(a)
    ensures Next(s, a).pools == s.pools && Next(s, a).txns == s.txns
    ensures Next(s, a).rows
         == if Target(s, a) in s.rows then s.rows[Target(s, a) := GivenRow(s, a)] else s.rows
    ensures Target(s, a) in s.rows ==> GivenRow(s, a).pool == s.rows[Target(s, a)].pool
  {
  }

  lemma GivingSole(s: State, a: Action)
    requires Inv(s) && Sole(s) && Enabled(s, a) && Gives(a) && !GivesBeside(s, a)
    ensures Sole(Next(s, a))
  {
    GivingWrites(s, a);
    if Target(s, a) !in s.rows {
      FewerSole(s, Next(s, a));
    } else if GivenRow(s, a).user.Some? && !GivenRow(s, a).deleting {
      GivenSole(s, Next(s, a), Target(s, a), GivenRow(s, a));
    } else {
      NobodySole(s, Next(s, a), Target(s, a), GivenRow(s, a));
    }
  }

  lemma ReadSole(s: State, k: Id)
    requires Inv(s) && Sole(s) && Enabled(s, ReadBack(k)) && !ReplacesBeside(s, k)
    ensures Sole(Next(s, ReadBack(k)))
  {
    TxnsSole(s, Next(s, ReadBack(k)), s.nextId);
  }

  lemma GivingBreaks(s: State, a: Action)
    requires Inv(s) && GivesBeside(s, a)
    ensures !Sole(Next(s, a))
  {
    GivingWrites(s, a);
    var s' := Next(s, a);
    var r := Target(s, a);
    var p, user := s.rows[r].pool, GivenRow(s, a).user.value;
    assert Serves(s'.rows[r], p, user);
    if PendingFor(s, p, user) {
      var t :| t in s.txns && Pending(s.txns[t], p, user);
      assert Pending(s'.txns[t], p, user);
    } else {
      var q :| q in s.rows && q != r && Serves(s.rows[q], p, user);
      assert Serves(s'.rows[q], s'.rows[r].pool, user);
    }
  }

  /** A transaction that becomes pending beside another of the same user, or beside his row. */
  lemma PendingBreaks(s: State, s': State, t: Id, p: Id, user: string)
    requires IsPersistent(s, p) && s'.pools == s.pools && s'.rows == s.rows && Busy(s, p, user)
    requires t in s'.txns && Pending(s'.txns[t], p, user) && (t in s.txns ==> !Pending(s.txns[t], p, user))
    requires forall u | u in s.txns && u != t :: u in s'.txns && s'.txns[u] == s.txns[u]
    ensures !Sole(s')
  {
    if PendingFor(s, p, user) {
      var u :| u in s.txns && Pending(s.txns[u], p, user);
      assert Pending(s'.txns[u], p, user);
    } else {
      var r :| r in RowsFor(s, p, user);
      assert Serves(s'.rows[r], p, user);
    }
  }

  lemma LookingBreaks(s: State, t: Id)
    requires Inv(s) && Enabled(s, Advance(t)) && LooksPast(s, t)
    ensures !Sole(Next(s, Advance(t)))
  {
    var p, user := s.txns[t].pool, s.txns[t].wish.user;
    assert forall r | r in s.rows :: r !in RowsFor(s, p, user) ==> !Serves(s.rows[r], p, user);
    assert Onward(s, s.txns[t]) == Some(WantsPool);
    PendingBreaks(s, Next(s, Advance(t)), t, p, user);
  }

  lemma ReplacingBreaks(s: State, k: Id)
    requires Inv(s) && Enabled(s, ReadBack(k)) && ReplacesBeside(s, k)
    ensures !Sole(Next(s, ReadBack(k)))
  {
    PendingBreaks(s, Next(s, ReadBack(k)), s.nextId, s.legs[k].pool, s.legs[k].user.value);
  }

  lemma IntrusionBreaks(s: State, a: Action)
    requires Inv(s) && Enabled(s, a) && Intrudes(s, a)
    ensures !Sole(Next(s, a))
  {
    match a
    case Advance(t) => LookingBreaks(s, t);
    case ReadBack(k) => ReplacingBreaks(s, k);
    case _ => GivingBreaks(s, a);
  }

  /** Steps that touch no row and no transaction. */
  predicate Aside(a: Action) {
    a.CheckAssign? || a.DropAssign? || a.DropLeg?
  }

  lemma AsideSole(s: State, a: Action)
    requires Sole(s) && Enabled(s, a) && Aside(a)
    ensures Sole(Next(s, a))
  {
    TxnsSole(s, Next(s, a), s.nextId);
  }

  lemma TxnStepSole(s: State, a: Action)
    requires Inv(s) && Sole(s) && Enabled(s, a) && !Intrudes(s, a)
    requires a.Advance? || a.Begin? || a.Rollback? || a.ReadBack?
    ensures Sole(Next(s, a))
  {
    match a
    case Advance(t) => ForwardSole(s, t);
    case Begin(p, wish) => BeginSole(s, p, wish);
    case Rollback(t) => TxnsSole(s, Next(s, a), t);
    case ReadBack(k) => ReadSole(s, k);
  }

  lemma KeepsSole(s: State, a: Action)
    requires Inv(s) && Sole(s) && Enabled(s, a) && !Intrudes(s, a)
    ensures Sole(Next(s, a))
  {
    if Aside(a) {
      AsideSole(s, a);
    } else if a.Advance? || a.Begin? || a.Rollback? || a.ReadBack? {
      TxnStepSole(s, a);
    } else if Gives(a) {
      GivingSole(s, a);
    } else {
      match a
      case CreatePool(range) => CreateSole(s, range);
      case RemovePool(p) => RemoveSole(s, p);
      case _ => RowsSole(s, a);
    }
  }

  /** A step keeps the rule exactly when it does not intrude: no interleaving of connects alone breaks it. */
  lemma SoleUnlessIntruded(s: State, a: Action)
    requires Inv(s) && Sole(s) && Enabled(s, a)
    ensures Sole(Next(s, a)) <==> !Intrudes(s, a)
  {
    if Intrudes(s, a) {
      IntrusionBreaks(s, a);
    } else {
      KeepsSole(s, a);
    }
  }

  lemma RemoveSole(s: State, p: Id)
    requires Inv(s) && Sole(s) && Enabled(s, RemovePool(p))
    ensures Sole(Next(s, RemovePool(p)))
  {
  }

  lemma BeginSole(s: State, p: Id, wish: Wish)
    requires Inv(s) && Sole(s) && Enabled(s, Begin(p, wish))
    ensures Sole(Next(s, Begin(p, wish)))
  {
    TxnsSole(s, Next(s, Begin(p, wish)), s.nextId);
  }

  lemma CreateSole(s: State, range: Range)
    requires Inv(s) && Sole(s) && Enabled(s, CreatePool(range))
    ensures Sole(Next(s, CreatePool(range)))
  {
    var s' := Next(s, CreatePool(range));
    forall r | r in s.rows
      ensures s.rows[r].pool != s.nextId
    {
      assert Within(s, s.rows[r].pool, s.rows[r].vmid);
    }
  }

  /** The steps of a run that happen, happen without intruding. */
  ghost predicate Undisturbed(s: State, run: seq<Action>)
    decreases |run|
  {
    run == [] || (
      if Enabled(s, run[0]) then !Intrudes(s, run[0]) && Undisturbed(Next(s, run[0]), run[1..])
      else Undisturbed(s, run[1..]))
  }

  lemma {:induction false} SoleOverRuns(s: State, run: seq<Action>)
    requires Inv(s) && Sole(s) && Undisturbed(s, run)
    ensures Sole(Execute(s, run))
    decreases |run|
  {
    if run != [] {
      if Enabled(s, run[0]) {
        StepKeeps(s, run[0]);
        SoleUnlessIntruded(s, run[0]);
        SoleOverRuns(Next(s, run[0]), run[1..]);
      } else {
        SoleOverRuns(s, run[1..]);
      }
    }
  }

  /** However many connects of a user race, with each other and with all else, the pool keeps one desktop for him. */
  lemma OneDesktopPerUser(run: seq<Action>, p: Id, user: string)
    requires Undisturbed(EMPTY, run) && IsPersistent(Execute(EMPTY, run), p)
    ensures |RowsFor(Execute(EMPTY, run), p, user)| <= 1
  {
    SoleOverRuns(EMPTY, run);
    var rows := RowsFor(Execute(EMPTY, run), p, user);
    if rows != {} {
      var r :| r in rows;
      assert rows == {r};
    }
  }

  lemma TwoRows(s: State, p: Id, user: string, r: Id, q: Id)
    requires r in s.rows && q in s.rows && r != q && Serves(s.rows[r], p, user) && Serves(s.rows[q], p, user)
    ensures |RowsFor(s, p, user)| >= 2
  {
    var rows := RowsFor(s, p, user);
    assert rows == (rows - {r, q}) + {r, q};
  }

  lemma GivingLeavesTxns(s: State, a: Action)
    requires Enabled(s, a) && Gives(a)
    ensures Next(s, a).txns == s.txns && Next(s, a).held == s.held && Next(s, a).nextId >= s.nextId
  {
  }

  /** What an intrusion costs: the connect it overtook commits, and the user has two desktops. */
  lemma IntrusionCosts(s: State, a: Action, t: Id, user: string)
    requires Inv(s) && Enabled(s, a) && Gives(a)
    requires t in s.txns && s.txns[t].phase.Inserted? && s.txns[t].wish == ForUser(user)
    requires Target(s, a) in s.rows && Serves(Next(s, a).rows[Target(s, a)], s.txns[t].pool, user)
    ensures Enabled(Next(s, a), Advance(t))
    ensures |RowsFor(Next(Next(s, a), Advance(t)), s.txns[t].pool, user)| >= 2
  {
    var s1 := Next(s, a);
    GivingLeavesTxns(s, a);
    PublishMakesTwo(s1, t, user, Target(s, a));
  }

  lemma PublishMakesTwo(s: State, t: Id, user: string, r: Id)
    requires t in s.txns && s.txns[t].phase.Inserted? && s.txns[t].wish == ForUser(user)
    requires r in s.rows && r < s.nextId && Serves(s.rows[r], s.txns[t].pool, user)
    ensures |RowsFor(Forward(s, t), s.txns[t].pool, user)| >= 2
  {
    TwoRows(Forward(s, t), s.txns[t].pool, user, r, s.nextId);
  }

  /**
   * The other order: the connect commits first, nothing is pending any more, and an assignment checked before
   * then is still written.
   */
  lemma LateAssignmentMakesTwo(s: State, c: Id, t: Id)
    requires Inv(s) && c in s.checks && s.checks[c].free && s.checks[c].row in s.rows
    requires s.checks[c].spare || !s.rows[s.checks[c].row].deleting
    requires t in s.txns && s.txns[t].phase.Inserted?
    requires s.txns[t].pool == s.rows[s.checks[c].row].pool && s.txns[t].wish == ForUser(s.checks[c].user)
    ensures var s1 := Next(s, Advance(t));
            && Enabled(s1, WriteAssign(c))
            && (forall u | u in s1.txns && Pending(s1.txns[u], s.txns[t].pool, s.checks[c].user) ::
                  s1.txns[u].wish.Replacing?)
            && |RowsFor(Next(s1, WriteAssign(c)), s.txns[t].pool, s.checks[c].user)| >= 2
  {
    var p, user := s.txns[t].pool, s.checks[c].user;
    assert Pending(s.txns[t], p, user);
    forall u | u in s.txns && u != t && Pending(s.txns[u], p, user)
      ensures s.txns[u].wish.Replacing?
    {
      if s.txns[u].wish.ForUser? {
        OnePending(s, t, u, p, user);
      }
    }
    TwoRows(Next(Next(s, Advance(t)), WriteAssign(c)), p, user, s.checks[c].row, s.nextId);
  }

  // ── No deadlock ───────────────────────────────────────────────────

  function Holder(s: State, t: Id): Id
    requires t in s.txns && Blocked(s, t)
  {
    s.held[Wanted(s.txns[t]).value]
  }

  /** Whoever waits, waits at the end of a chain of at most two holders for a transaction that can go on. */
  function Runner(s: State, t: Id): (u: Id)
    requires Inv(s) && t in s.txns
    ensures u in s.txns && !Blocked(s, u)
  {
    if !Blocked(s, t) then t
    else
      var h := Holder(s, t);
      assert Owns(s.txns[h], Wanted(s.txns[t]).value);
      if !Blocked(s, h) then h
      else
        assert Owns(s.txns[Holder(s, h)], PoolLock(s.txns[h].pool));
        Holder(s, h)
  }

  /** Own steps a transaction may still need. */
  function StepsLeft(phase: Phase): nat {
    match phase
    case WantsUser => 6
    case Looks => 5
    case WantsPool => 4
    case Reads => 3
    case Picked(_) => 2
    case Inserted(_) => 1
    case Found => 1
  }

  function Work(txns: map<Id, Txn>): nat
    decreases |txns|
  {
    if txns == map[] then 0
    else
      var t := Latest(txns.Keys);
      StepsLeft(txns[t].phase) + Work(txns - {t})
  }

  lemma {:induction false} WorkWithout(txns: map<Id, Txn>, t: Id)
    requires t in txns
    ensures Work(txns) == StepsLeft(txns[t].phase) + Work(txns - {t})
    decreases |txns|
  {
    var l := Latest(txns.Keys);
    if l != t {
      WorkWithout(txns - {l}, t);
      WorkWithout(txns - {t}, l);
      assert txns - {l} - {t} == txns - {t} - {l};
    }
  }

  lemma OneWorks(txns: map<Id, Txn>, txns': map<Id, Txn>, t: Id)
    requires t in txns && txns'.Keys <= txns.Keys && txns' - {t} == txns - {t}
    requires t in txns' ==> StepsLeft(txns'[t].phase) < StepsLeft(txns[t].phase)
    ensures Work(txns') < Work(txns)
  {
    WorkWithout(txns, t);
    if t in txns' {
      WorkWithout(txns', t);
    } else {
      assert txns' == txns - {t};
    }
  }

  lemma ForwardWorks(s: State, t: Id)
    requires t in s.txns && !Blocked(s, t)
    ensures Work(Forward(s, t).txns) < Work(s.txns)
  {
    OneWorks(s.txns, Forward(s, t).txns, t);
  }

  lemma {:induction false} AllFinish(s: State) returns (run: seq<Action>)
    requires Inv(s)
    ensures Execute(s, run).txns == map[] && |run| <= Work(s.txns) && forall a | a in run :: a.Advance?
    decreases Work(s.txns)
  {
    if s.txns == map[] {
      run := [];
    } else {
      var t :| t in s.txns;
      var u := Runner(s, t);
      ForwardKeeps(s, u);
      ForwardWorks(s, u);
      var rest := AllFinish(Forward(s, u));
      run := [Advance(u)] + rest;
      assert run[1..] == rest;
    }
  }

  lemma {:induction false} WorkBound(txns: map<Id, Txn>)
    ensures Work(txns) <= 6 * |txns|
    decreases |txns|
  {
    if txns != map[] {
      WorkBound(txns - {Latest(txns.Keys)});
    }
  }

  /** Whatever is in flight, the transactions' own steps, at most six each, bring all of them to an end. */
  lemma NoDeadlock(run: seq<Action>)
    ensures var s := Execute(EMPTY, run);
            exists rest: seq<Action> ::
              Execute(s, rest).txns == map[] && |rest| <= 6 * |s.txns| && forall a | a in rest :: a.Advance?
  {
    RunKeeps(EMPTY, run);
    var s := Execute(EMPTY, run);
    var rest := AllFinish(s);
    WorkBound(s.txns);
  }
}

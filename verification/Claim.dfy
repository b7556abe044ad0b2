/**
 * Claiming a spare at lock and commit granularity: any number of connects to non-persistent pools, each
 * holding its (user, pool) lock and, once it has claimed a row with FOR UPDATE SKIP LOCKED, that row's lock
 * until it commits or rolls back. The other calls are in the same machine, most of them taken apart into
 * their checks and their writes; a write locks its row for a moment before its commit and waits for rows that
 * others have locked, a check does neither.
 */
module Claim {
  import opened Entities
  import opened Lifecycle
  import opened CheckThenWrite

  datatype Phase = WantsUser | Selecting | Claimed(row: Id)

  datatype Txn = Txn(user: string, pool: Id, phase: Phase)

  /**
   * A call past its check; `since` is the first identifier not yet given out at its last step, of a cascade at
   * the step that marked its pool.
   */
  datatype Handler = Handler(work: Work, since: Id)

  /** `flushed` has the rows a handler has written to and not yet committed, with that handler. */
  datatype State = State(
    db: Db, txns: map<Id, Txn>, userLocks: map<(string, Id), Id>, rowLocks: map<Id, Id>,
    handlers: map<Id, Handler>, flushed: map<Id, Id>, nextTxn: Id)

  /**
   * `Fail` is any error of a connect after its checks, the provider's above all, and `Abandon` any error of
   * another call. A logoff is the end of a session and then a refresh or a removal. `Entitle` is the one call
   * that is one step, a change of entitlements.
   */
  datatype Event =
    | Arrive(user: string, groups: seq<string>, p: Id)
    | TakeUserLock(t: Id)
    | Select(t: Id)
    | Commit(t: Id, ticket: string)
    | Fail(t: Id)
    | Check(req: Request)
    | Flush(h: Id, r: Id)
    | Finish(h: Id, answer: Answer)
    | Abandon(h: Id)
    | Entitle(entitlements: set<Entitlement>)

  /** Available rows nobody has locked: what the query with SKIP LOCKED sees. */
  function Open(s: State, p: Id): set<Id> {
    set d | d in RowsWithStatus(s.db, p, Available) && d !in s.rowLocks && d !in s.flushed
  }

  function Ours(txn: Txn): (string, Id) {
    (txn.user, txn.pool)
  }

  /** Locked by a connect, or by a handler other than the one that writes. */
  predicate LockedTo(s: State, writer: Option<Id>, r: Id) {
    r in s.rowLocks || (r in s.flushed && writer != Some(s.flushed[r]))
  }

  /** Every row locked to the writer is as it was: a write that would change one waits for its lock. */
  predicate LeavesLocked(s: State, writer: Option<Id>, db': Db) {
    forall r | r in s.db.desktops && LockedTo(s, writer, r) :: r in db'.desktops && db'.desktops[r] == s.db.desktops[r]
  }

  predicate HasClaim(s: State, t: Id) {
    t in s.txns && s.txns[t].phase.Claimed? && s.txns[t].phase.row in s.db.desktops
  }

  predicate IsSelecting(s: State, t: Id) {
    t in s.txns && s.txns[t].phase.Selecting?
  }

  /** The transaction is over and its locks are free. */
  function End(s: State, t: Id): State {
    s.(txns := s.txns - {t},
       userLocks := map k | k in s.userLocks && s.userLocks[k] != t :: s.userLocks[k],
       rowLocks := map r | r in s.rowLocks && s.rowLocks[r] != t :: s.rowLocks[r])
  }

  /** The row the query returns, the one with the lowest VMID; nothing is `PoolFull`. */
  function Selected(s: State, p: Id): Option<Id> {
    if Open(s, p) == {} then None else Some(First(s.db, Open(s, p)))
  }

  /** The claim and the new session, in the one commit that publishes both. */
  function ClaimCommitted(db: Db, r: Id, user: string, ticket: string): Db
    requires r in db.desktops
  {
    var claimed := db.desktops[r].(user := Some(user), assignment := Some(Floating));
    OpenSession(db.(desktops := db.desktops[r := claimed]), r, user, ticket).0
  }

  function SelectRow(s: State, t: Id): State
    requires IsSelecting(s, t)
  {
    match Selected(s, s.txns[t].pool)
    case None => End(s, t)
    case Some(r) => s.(txns := s.txns[t := s.txns[t].(phase := Claimed(r))], rowLocks := s.rowLocks[r := t])
  }

  function CommitClaim(s: State, t: Id, ticket: string): State
    requires HasClaim(s, t)
  {
    End(s.(db := ClaimCommitted(s.db, s.txns[t].phase.row, s.txns[t].user, ticket)), t)
  }

  /** What an event that is not a connect's makes of the database. */
  function Written(s: State, e: Event): Db {
    match e
    case Finish(h, answer) => if h in s.handlers then Write(s.db, s.handlers[h].work, answer) else s.db
    case Entitle(entitlements) => s.db.(entitlements := entitlements)
    case _ => s.db
  }

  /** The next of a handler's steps. */
  function Onward(db: Db, h: Handler, answer: Answer): Handler
    requires Continued(db, h.work, answer).Some?
  {
    var next := Continued(db, h.work, answer).value;
    Handler(next, if next.Cascading? then h.since else db.nextId)
  }

  function AfterWrite(s: State, h: Id, answer: Answer): map<Id, Handler>
    requires h in s.handlers
  {
    if Continued(s.db, s.handlers[h].work, answer).Some?
    then s.handlers[h := Onward(s.db, s.handlers[h], answer)] else s.handlers - {h}
  }

  function HandlersAfter(s: State, e: Event): map<Id, Handler> {
    match e
    case Check(req) =>
      var w := Admit(s.db, req);
      if w.Some? then s.handlers[s.nextTxn := Handler(w.value, s.db.nextId)] else s.handlers
    case Finish(h, answer) => if h in s.handlers then AfterWrite(s, h, answer) else s.handlers
    case Abandon(h) => s.handlers - {h}
    case _ => s.handlers
  }

  /** A commit or rollback ends what the handler has flushed. */
  function FlushedAfter(s: State, e: Event): map<Id, Id> {
    match e
    case Flush(h, r) => s.flushed[r := h]
    case Finish(h, _) => map r | r in s.flushed && s.flushed[r] != h :: s.flushed[r]
    case Abandon(h) => map r | r in s.flushed && s.flushed[r] != h :: s.flushed[r]
    case _ => s.flushed
  }

  predicate OfConnect(e: Event) {
    e.Arrive? || e.TakeUserLock? || e.Select? || e.Commit? || e.Fail?
  }

  /** The rows a handler's next write is about. */
  function Targets(db: Db, w: Work): set<Id> {
    match w
    case Ending(_) => {}
    case Cascading(_, _, doing, _) => doing.Keys
    case DroppingPool(_) => {}
    case DrainingPool(_) => {}
    case CreatingPool(_) => {}
    case Inserting(_, _, _) => {}
    case Updating(_, _, _) => {}
    case Listing(_) => {}
    case Sweeping(stuck) => stuck.Keys
    case _ => {w.d}
  }

  predicate Enabled(s: State, e: Event) {
    match e
    case Arrive(user, groups, p) =>
      && p in s.db.pools && s.db.pools[p].status == PoolActive && s.db.pools[p].kind == NonPersistent
      && Entitled(s.db, p, user, groups)
    case TakeUserLock(t) => t in s.txns && s.txns[t].phase.WantsUser? && Ours(s.txns[t]) !in s.userLocks
    case Select(t) => IsSelecting(s, t)
    case Commit(t, _) => HasClaim(s, t)
    case Fail(t) => t in s.txns
    case Check(_) => true
    case Flush(h, r) =>
      && h in s.handlers && r in s.db.desktops && r in Targets(s.db, s.handlers[h].work)
      && r !in s.rowLocks && r !in s.flushed
    case Finish(h, _) => h in s.handlers && LeavesLocked(s, Some(h), Written(s, e))
    case Abandon(h) => h in s.handlers
    case Entitle(_) => true
  }

  function Next(s: State, e: Event): State
    requires Enabled(s, e)
  {
    match e
    case Arrive(user, groups, p) =>
      s.(txns := s.txns[s.nextTxn := Txn(user, p, WantsUser)], nextTxn := s.nextTxn + 1)
    case TakeUserLock(t) =>
      s.(txns := s.txns[t := s.txns[t].(phase := Selecting)], userLocks := s.userLocks[Ours(s.txns[t]) := t])
    case Select(t) => SelectRow(s, t)
    case Commit(t, ticket) => CommitClaim(s, t, ticket)
    case Fail(t) => End(s, t)
    case _ =>
      s.(db := Written(s, e), handlers := HandlersAfter(s, e), flushed := FlushedAfter(s, e), nextTxn := s.nextTxn + 1)
  }

  lemma FinishWrites(s: State, h: Id, answer: Answer)
    requires Enabled(s, Finish(h, answer))
    ensures Next(s, Finish(h, answer)).db == Write(s.db, s.handlers[h].work, answer)
  {
  }

  lemma FinishEnabled(s: State, h: Id, answer: Answer)
    requires h in s.handlers
    ensures Enabled(s, Finish(h, answer)) <==> LeavesLocked(s, Some(h), Write(s.db, s.handlers[h].work, answer))
  {
  }

  function Run(s: State, events: seq<Event>): State
    decreases |events|
  {
    if events == [] then s else Run(if Enabled(s, events[0]) then Next(s, events[0]) else s, events[1..])
  }

  const EMPTY := State(EMPTY_DB, map[], map[], map[], map[], map[], 0)

  // ── Locks ─────────────────────────────────────────────────────────

  predicate TxnOk(s: State, t: Id)
    requires t in s.txns
  {
    var txn := s.txns[t];
    && t < s.nextTxn
    && (!txn.phase.WantsUser? ==> Ours(txn) in s.userLocks && s.userLocks[Ours(txn)] == t)
    && (txn.phase.Claimed? ==>
          && txn.phase.row in s.rowLocks && s.rowLocks[txn.phase.row] == t
          && txn.phase.row in RowsWithStatus(s.db, txn.pool, Available))
  }

  ghost predicate LocksOk(s: State) {
    && (forall r | r in s.rowLocks ::
          s.rowLocks[r] in s.txns && s.txns[s.rowLocks[r]].phase == Claimed(r) && r !in s.flushed)
    && (forall r | r in s.flushed :: s.flushed[r] in s.handlers)
    && (forall k | k in s.userLocks ::
          s.userLocks[k] in s.txns && Ours(s.txns[s.userLocks[k]]) == k && !s.txns[s.userLocks[k]].phase.WantsUser?)
  }

  ghost predicate InOrder(s: State) {
    LocksOk(s) && forall t | t in s.txns :: TxnOk(s, t)
  }

  lemma EndKeeps(s: State, t: Id)
    requires LocksOk(s) && forall u | u in s.txns && u != t :: TxnOk(s, u)
    ensures InOrder(End(s, t))
  {
    var s' := End(s, t);
    forall u | u in s'.txns
      ensures TxnOk(s', u)
    {
      assert TxnOk(s, u);
    }
  }

  lemma LockKeeps(s: State, t: Id, r: Id)
    requires InOrder(s) && IsSelecting(s, t) && r in Open(s, s.txns[t].pool)
    ensures InOrder(s.(txns := s.txns[t := s.txns[t].(phase := Claimed(r))], rowLocks := s.rowLocks[r := t]))
  {
    var s' := s.(txns := s.txns[t := s.txns[t].(phase := Claimed(r))], rowLocks := s.rowLocks[r := t]);
    forall u | u in s'.txns
      ensures TxnOk(s', u)
    {
      assert TxnOk(s, u);
    }
    assert LocksOk(s');
  }

  lemma SelectKeeps(s: State, t: Id)
    requires InOrder(s) && IsSelecting(s, t)
    ensures InOrder(SelectRow(s, t)) && SelectRow(s, t).db == s.db
  {
    var chosen := Selected(s, s.txns[t].pool);
    if chosen.None? {
      EndKeeps(s, t);
    } else {
      LockKeeps(s, t, chosen.value);
    }
  }

  lemma CommitKeeps(s: State, t: Id, ticket: string)
    requires InOrder(s) && HasClaim(s, t)
    ensures InOrder(CommitClaim(s, t, ticket))
  {
    var s1 := s.(db := ClaimCommitted(s.db, s.txns[t].phase.row, s.txns[t].user, ticket));
    assert TxnOk(s, t);
    forall u | u in s1.txns && u != t
      ensures TxnOk(s1, u)
    {
      assert TxnOk(s, u);
    }
    EndKeeps(s1, t);
  }

  lemma WrittenKeeps(s: State, writer: Option<Id>, db': Db, handlers: map<Id, Handler>, flushed: map<Id, Id>)
    requires InOrder(s) && LeavesLocked(s, writer, db')
    requires forall r | r in flushed :: flushed[r] in handlers && r !in s.rowLocks
    ensures InOrder(s.(db := db', handlers := handlers, flushed := flushed, nextTxn := s.nextTxn + 1))
  {
    var s' := s.(db := db', handlers := handlers, flushed := flushed, nextTxn := s.nextTxn + 1);
    forall t | t in s'.txns
      ensures TxnOk(s', t)
    {
      assert TxnOk(s, t);
    }
  }

  lemma TakeKeeps(s: State, t: Id)
    requires InOrder(s) && t in s.txns && s.txns[t].phase.WantsUser? && Ours(s.txns[t]) !in s.userLocks
    ensures InOrder(s.(txns := s.txns[t := s.txns[t].(phase := Selecting)],
                        userLocks := s.userLocks[Ours(s.txns[t]) := t]))
  {
    var s' := s.(txns := s.txns[t := s.txns[t].(phase := Selecting)], userLocks := s.userLocks[Ours(s.txns[t]) := t]);
    forall u | u in s'.txns
      ensures TxnOk(s', u)
    {
      assert TxnOk(s, u);
    }
    forall r | r in s'.rowLocks
      ensures s'.rowLocks[r] in s'.txns && s'.txns[s'.rowLocks[r]].phase == Claimed(r)
    {
      assert s.rowLocks[r] != t;
    }
  }

  lemma ArriveKeeps(s: State, user: string, p: Id)
    requires InOrder(s)
    ensures InOrder(s.(txns := s.txns[s.nextTxn := Txn(user, p, WantsUser)], nextTxn := s.nextTxn + 1))
  {
    var s' := s.(txns := s.txns[s.nextTxn := Txn(user, p, WantsUser)], nextTxn := s.nextTxn + 1);
    forall t | t in s'.txns
      ensures TxnOk(s', t)
    {
      assert t in s.txns ==> TxnOk(s, t);
    }
  }

  /** No event puts the locks out of order, whatever it does to the rest of the database. */
  lemma StepKeepsOrder(s: State, e: Event)
    requires InOrder(s) && Enabled(s, e)
    ensures InOrder(Next(s, e))
  {
    if OfConnect(e) {
      match e
      case Arrive(user, _, p) => ArriveKeeps(s, user, p);
      case TakeUserLock(t) => TakeKeeps(s, t);
      case Select(t) => SelectKeeps(s, t);
      case Commit(t, ticket) => CommitKeeps(s, t, ticket);
      case Fail(t) => EndKeeps(s, t);
    } else {
      FlushesKept(s, e);
      WrittenKeeps(s, if e.Finish? then Some(e.h) else None, Written(s, e), HandlersAfter(s, e), FlushedAfter(s, e));
    }
  }

  lemma FlushesKept(s: State, e: Event)
    requires InOrder(s) && Enabled(s, e) && !OfConnect(e)
    ensures forall r | r in FlushedAfter(s, e) :: FlushedAfter(s, e)[r] in HandlersAfter(s, e) && r !in s.rowLocks
  {
  }

  lemma {:induction false} RunKeepsOrder(s: State, events: seq<Event>)
    requires InOrder(s)
    ensures InOrder(Run(s, events))
    decreases |events|
  {
    if events != [] {
      if Enabled(s, events[0]) {
        StepKeepsOrder(s, events[0]);
        RunKeepsOrder(Next(s, events[0]), events[1..]);
      } else {
        RunKeepsOrder(s, events[1..]);
      }
    }
  }

  // ── What the locks buy ────────────────────────────────────────────

  /** After any run at all, no two connects have claimed one desktop, and a claimed one is an available row. */
  lemma ClaimsAreExclusive(events: seq<Event>, t: Id, u: Id)
    requires var s := Run(EMPTY, events);
             t in s.txns && u in s.txns && s.txns[t].phase.Claimed? && s.txns[u].phase == s.txns[t].phase
    ensures t == u
    ensures var s := Run(EMPTY, events);
            s.txns[t].phase.row in RowsWithStatus(s.db, s.txns[t].pool, Available)
  {
    RunKeepsOrder(EMPTY, events);
    var s := Run(EMPTY, events);
    assert TxnOk(s, t) && TxnOk(s, u);
  }

  /**
   * A connect is told the pool is full exactly when every available row is claimed by another connect in flight,
   * or being written by another call.
   */
  lemma PoolFullIff(s: State, t: Id)
    requires InOrder(s) && IsSelecting(s, t)
    ensures Selected(s, s.txns[t].pool) == None
            <==> forall d | d in RowsWithStatus(s.db, s.txns[t].pool, Available) ::
                   d in s.flushed || exists u :: u in s.txns && u != t && s.txns[u].phase == Claimed(d)
  {
    var p := s.txns[t].pool;
    if Open(s, p) == {} {
      forall d | d in RowsWithStatus(s.db, p, Available)
        ensures d in s.flushed || exists u :: u in s.txns && u != t && s.txns[u].phase == Claimed(d)
      {
        assert d !in Open(s, p);
        assert d in s.rowLocks ==> s.txns[s.rowLocks[d]].phase == Claimed(d);
      }
    } else {
      var d :| d in Open(s, p);
      forall u | u in s.txns && u != t
        ensures s.txns[u].phase != Claimed(d)
      {
        assert TxnOk(s, u);
      }
    }
  }

  /** What it is given otherwise: the available row with the lowest VMID among those nobody has locked. */
  lemma LowestUnclaimed(s: State, t: Id, d: Id)
    requires InOrder(s) && IsSelecting(s, t) && Selected(s, s.txns[t].pool).Some?
    requires d in RowsWithStatus(s.db, s.txns[t].pool, Available)
    requires d !in s.flushed && forall u | u in s.txns :: s.txns[u].phase != Claimed(d)
    ensures s.db.desktops[Selected(s, s.txns[t].pool).value].vmid <= s.db.desktops[d].vmid
  {
    assert d in Open(s, s.txns[t].pool);
  }

  // ── Conservation ──────────────────────────────────────────────────

  function ClaimedRows(s: State, p: Id): set<Id> {
    set d | d in RowsWithStatus(s.db, p, Available) && d in s.rowLocks
  }

  function ConnectedRows(s: State, p: Id): set<Id> {
    RowsWithStatus(s.db, p, Connected)
  }

  /** Available rows another call is about to change. */
  function FlushedRows(s: State, p: Id): set<Id> {
    set d | d in RowsWithStatus(s.db, p, Available) && d in s.flushed
  }

  /** Available, claimed, flushed and connected rows together. */
  function InService(s: State, p: Id): nat {
    |Open(s, p)| + |ClaimedRows(s, p)| + |FlushedRows(s, p)| + |ConnectedRows(s, p)|
  }

  /** Every available row is open, claimed or flushed, and only one of them. */
  lemma AvailableParts(s: State, p: Id)
    requires InOrder(s)
    ensures Open(s, p) + ClaimedRows(s, p) + FlushedRows(s, p) == RowsWithStatus(s.db, p, Available)
    ensures Open(s, p) !! ClaimedRows(s, p) && Open(s, p) + ClaimedRows(s, p) !! FlushedRows(s, p)
  {
  }

  /** What is conserved is thus the number of the pool's available and connected rows. */
  lemma InServiceExact(s: State, p: Id)
    requires InOrder(s)
    ensures InService(s, p) == |RowsWithStatus(s.db, p, Available)| + |RowsWithStatus(s.db, p, Connected)|
  {
    AvailableParts(s, p);
    SizeOfParts(Open(s, p), ClaimedRows(s, p), FlushedRows(s, p));
  }

  lemma SizeOfParts(a: set<Id>, b: set<Id>, c: set<Id>)
    requires a !! b && a + b !! c
    ensures |a + b + c| == |a| + |b| + |c|
  {
  }

  function RowOf(s: State, t: Id): Option<Id> {
    if t in s.txns && s.txns[t].phase.Claimed? then Some(s.txns[t].phase.row) else None
  }

  predicate MovesRow(from: set<Id>, to: set<Id>, from': set<Id>, to': set<Id>, r: Id) {
    r in from && r !in to && from' == from - {r} && to' == to + {r}
  }

  lemma SelectMoves(s: State, t: Id, p: Id)
    requires InOrder(s) && IsSelecting(s, t)
    ensures var s' := SelectRow(s, t);
            && ConnectedRows(s', p) == ConnectedRows(s, p) && FlushedRows(s', p) == FlushedRows(s, p)
            && (if s.txns[t].pool == p && Selected(s, p).Some?
                then MovesRow(Open(s, p), ClaimedRows(s, p), Open(s', p), ClaimedRows(s', p), Selected(s, p).value)
                else Open(s', p) == Open(s, p) && ClaimedRows(s', p) == ClaimedRows(s, p))
  {
    var s' := SelectRow(s, t);
    if Selected(s, s.txns[t].pool).None? {
      assert forall r | r in s.rowLocks :: s.rowLocks[r] != t;
      assert s'.rowLocks == s.rowLocks;
    }
  }

  lemma FailMoves(s: State, t: Id, p: Id)
    requires InOrder(s) && t in s.txns
    ensures var s' := End(s, t);
            && ConnectedRows(s', p) == ConnectedRows(s, p) && FlushedRows(s', p) == FlushedRows(s, p)
            && (if s.txns[t].pool == p && RowOf(s, t).Some?
                then MovesRow(ClaimedRows(s, p), Open(s, p), ClaimedRows(s', p), Open(s', p), RowOf(s, t).value)
                else Open(s', p) == Open(s, p) && ClaimedRows(s', p) == ClaimedRows(s, p))
  {
    assert TxnOk(s, t);
    var s' := End(s, t);
    forall r | r in s.rowLocks
      ensures r in s'.rowLocks <==> RowOf(s, t) != Some(r)
    {}
  }

  lemma ConnectingMoves(s: State, s': State, r: Id, p: Id)
    requires r in s.db.desktops && s.db.desktops[r].status == Available && r in s.rowLocks
    requires s'.db.desktops.Keys == s.db.desktops.Keys
    requires forall d | d in s.db.desktops && d != r :: s'.db.desktops[d] == s.db.desktops[d]
    requires s'.db.desktops[r].pool == s.db.desktops[r].pool && s'.db.desktops[r].status == Connected
    requires s'.rowLocks.Keys == s.rowLocks.Keys - {r} && s'.flushed == s.flushed && r !in s.flushed
    ensures Open(s', p) == Open(s, p) && FlushedRows(s', p) == FlushedRows(s, p)
    ensures if s.db.desktops[r].pool == p
            then MovesRow(ClaimedRows(s, p), ConnectedRows(s, p), ClaimedRows(s', p), ConnectedRows(s', p), r)
            else ClaimedRows(s', p) == ClaimedRows(s, p) && ConnectedRows(s', p) == ConnectedRows(s, p)
  {
  }

  lemma CommitMoves(s: State, t: Id, ticket: string, p: Id)
    requires InOrder(s) && HasClaim(s, t)
    ensures var s' := CommitClaim(s, t, ticket);
            && Open(s', p) == Open(s, p) && FlushedRows(s', p) == FlushedRows(s, p)
            && (if s.txns[t].pool == p
                then MovesRow(ClaimedRows(s, p), ConnectedRows(s, p), ClaimedRows(s', p), ConnectedRows(s', p),
                              s.txns[t].phase.row)
                else ClaimedRows(s', p) == ClaimedRows(s, p) && ConnectedRows(s', p) == ConnectedRows(s, p))
  {
    assert TxnOk(s, t);
    var s' := CommitClaim(s, t, ticket);
    forall q | q in s.rowLocks
      ensures q in s'.rowLocks <==> q != s.txns[t].phase.row
    {}
    ConnectingMoves(s, s', s.txns[t].phase.row, p);
  }

  lemma MoveConserves(from: set<Id>, to: set<Id>, from': set<Id>, to': set<Id>, r: Id)
    requires MovesRow(from, to, from', to', r)
    ensures |from'| + |to'| == |from| + |to|
  {
  }

  lemma SelectConserves(s: State, t: Id, p: Id)
    requires InOrder(s) && IsSelecting(s, t)
    ensures InService(SelectRow(s, t), p) == InService(s, p)
  {
    var s' := SelectRow(s, t);
    SelectMoves(s, t, p);
    if s.txns[t].pool == p && Selected(s, p).Some? {
      MoveConserves(Open(s, p), ClaimedRows(s, p), Open(s', p), ClaimedRows(s', p), Selected(s, p).value);
    }
  }

  lemma FailConserves(s: State, t: Id, p: Id)
    requires InOrder(s) && t in s.txns
    ensures InService(End(s, t), p) == InService(s, p)
  {
    var s' := End(s, t);
    FailMoves(s, t, p);
    if s.txns[t].pool == p && RowOf(s, t).Some? {
      MoveConserves(ClaimedRows(s, p), Open(s, p), ClaimedRows(s', p), Open(s', p), RowOf(s, t).value);
    }
  }

  lemma CommitConserves(s: State, t: Id, ticket: string, p: Id)
    requires InOrder(s) && HasClaim(s, t)
    ensures InService(CommitClaim(s, t, ticket), p) == InService(s, p)
  {
    var s' := CommitClaim(s, t, ticket);
    CommitMoves(s, t, ticket, p);
    if s.txns[t].pool == p {
      MoveConserves(ClaimedRows(s, p), ConnectedRows(s, p), ClaimedRows(s', p), ConnectedRows(s', p),
                    s.txns[t].phase.row);
    }
  }

  /** A connect moves at most one row at a time from available to claimed to connected, or back to available. */
  lemma ConnectsConserve(s: State, e: Event, p: Id)
    requires InOrder(s) && Enabled(s, e) && OfConnect(e)
    ensures InService(Next(s, e), p) == InService(s, p)
  {
    if e.Select? {
      SelectConserves(s, e.t, p);
    } else if e.Fail? {
      FailConserves(s, e.t, p);
    } else if e.Commit? {
      CommitConserves(s, e.t, e.ticket, p);
    }
  }

  lemma {:induction false} RacesConserve(s: State, events: seq<Event>, p: Id)
    requires InOrder(s) && forall e | e in events :: OfConnect(e)
    ensures InService(Run(s, events), p) == InService(s, p)
    decreases |events|
  {
    if events != [] {
      if Enabled(s, events[0]) {
        StepKeepsOrder(s, events[0]);
        ConnectsConserve(s, events[0], p);
        RacesConserve(Next(s, events[0]), events[1..], p);
      } else {
        RacesConserve(s, events[1..], p);
      }
    }
  }

  lemma LockedRowsAreAvailable(s: State, r: Id)
    requires InOrder(s) && r in s.rowLocks
    ensures r in s.db.desktops && s.db.desktops[r].status == Available
  {
    assert TxnOk(s, s.rowLocks[r]);
  }

  lemma VacatingMoves(s: State, s': State, d: Id, row: Desktop, p: Id)
    requires d in ConnectedRows(s, p) && d !in s.rowLocks && d !in s'.flushed && s'.rowLocks == s.rowLocks
    requires s'.db.desktops == s.db.desktops[d := row] && row.status == Available && row.pool == s.db.desktops[d].pool
    ensures ClaimedRows(s', p) == ClaimedRows(s, p) && d in Open(s', p)
    ensures MovesRow(ConnectedRows(s, p), RowsWithStatus(s.db, p, Available),
                     ConnectedRows(s', p), RowsWithStatus(s'.db, p, Available), d)
  {
    forall e | e != d
      ensures e in RowsWithStatus(s'.db, p, Available) <==> e in RowsWithStatus(s.db, p, Available)
      ensures e in ConnectedRows(s', p) <==> e in ConnectedRows(s, p)
    {}
    assert d in Open(s', p) && d !in ConnectedRows(s', p);
  }

  // ── Waiting ───────────────────────────────────────────────────────

  /** A connect waits for one lock only, held by a connect of the same user that has nothing to wait for. */
  lemma NoDeadlock(s: State, t: Id)
    requires InOrder(s) && t in s.txns && s.txns[t].phase.WantsUser? && Ours(s.txns[t]) in s.userLocks
    ensures var h := s.userLocks[Ours(s.txns[t])];
            && h in s.txns && s.txns[h].user == s.txns[t].user && s.txns[h].pool == s.txns[t].pool
            && (IsSelecting(s, h) || HasClaim(s, h))
  {
    assert TxnOk(s, s.userLocks[Ours(s.txns[t])]);
  }

  /** And no user has two connects past that lock in one pool. */
  lemma OneClaimPerUser(s: State, t: Id, u: Id)
    requires InOrder(s) && t in s.txns && u in s.txns && Ours(s.txns[t]) == Ours(s.txns[u])
    requires !s.txns[t].phase.WantsUser? && !s.txns[u].phase.WantsUser?
    ensures t == u
  {
    assert TxnOk(s, t) && TxnOk(s, u);
  }

  // ── A connect alone ───────────────────────────────────────────────

  lemma RunAppend(s: State, first: seq<Event>, more: seq<Event>)
    ensures Run(s, first + more) == Run(Run(s, first), more)
    decreases |first|
  {
    if first == [] {
      assert first + more == more;
    } else {
      assert (first + more)[1..] == first[1..] + more;
      RunAppend(if Enabled(s, first[0]) then Next(s, first[0]) else s, first[1..], more);
    }
  }

  /** One event at the end of a run. */
  lemma OneMore(s: State, events: seq<Event>, e: Event)
    ensures Run(s, events + [e]) == if Enabled(Run(s, events), e) then Next(Run(s, events), e) else Run(s, events)
  {
    RunAppend(s, events, [e]);
  }

  /** No connect is under way, and no write. */
  predicate IsAlone(s: State) {
    s.txns == map[] && s.userLocks == map[] && s.rowLocks == map[] && s.flushed == map[]
  }

  function ConnectEvents(t: Id, user: string, groups: seq<string>, p: Id, ticket: string): seq<Event> {
    [Arrive(user, groups, p)] + [TakeUserLock(t)] + [Select(t)] + [Commit(t, ticket)]
  }

  function Begun(s: State, user: string, p: Id, phase: Phase): State {
    s.(txns := map[s.nextTxn := Txn(user, p, phase)], nextTxn := s.nextTxn + 1,
       userLocks := if phase.WantsUser? then map[] else map[(user, p) := s.nextTxn],
       rowLocks := if phase.Claimed? then map[phase.row := s.nextTxn] else map[])
  }

  lemma SelectAlone(s: State, user: string, p: Id)
    requires IsAlone(s)
    ensures var spares := RowsWithStatus(s.db, p, Available);
            SelectRow(Begun(s, user, p, Selecting), s.nextTxn)
            == if spares == {} then s.(nextTxn := s.nextTxn + 1) else Begun(s, user, p, Claimed(First(s.db, spares)))
  {
    assert Open(Begun(s, user, p, Selecting), p) == RowsWithStatus(s.db, p, Available);
  }

  lemma CommitAlone(s: State, user: string, p: Id, r: Id, ticket: string)
    requires IsAlone(s) && r in s.db.desktops
    ensures CommitClaim(Begun(s, user, p, Claimed(r)), s.nextTxn, ticket)
         == s.(db := ClaimCommitted(s.db, r, user, ticket), nextTxn := s.nextTxn + 1)
  {
  }

  lemma TakenAlone(s: State, user: string, groups: seq<string>, p: Id)
    requires IsAlone(s) && Enabled(s, Arrive(user, groups, p))
    ensures Run(s, [Arrive(user, groups, p)] + [TakeUserLock(s.nextTxn)]) == Begun(s, user, p, Selecting)
  {
    OneMore(s, [], Arrive(user, groups, p));
    assert [] + [Arrive(user, groups, p)] == [Arrive(user, groups, p)];
    assert Next(s, Arrive(user, groups, p)) == Begun(s, user, p, WantsUser);
    OneMore(s, [Arrive(user, groups, p)], TakeUserLock(s.nextTxn));
  }

  lemma SelectedAlone(s: State, user: string, groups: seq<string>, p: Id)
    requires IsAlone(s) && Enabled(s, Arrive(user, groups, p))
    ensures var spares := RowsWithStatus(s.db, p, Available);
            Run(s, [Arrive(user, groups, p)] + [TakeUserLock(s.nextTxn)] + [Select(s.nextTxn)])
            == if spares == {} then s.(nextTxn := s.nextTxn + 1) else Begun(s, user, p, Claimed(First(s.db, spares)))
  {
    TakenAlone(s, user, groups, p);
    SelectAlone(s, user, p);
    OneMore(s, [Arrive(user, groups, p)] + [TakeUserLock(s.nextTxn)], Select(s.nextTxn));
  }

  lemma ConnectIsClaim(db: Db, user: string, groups: seq<string>, p: Id, build: Build, ticket: string)
    requires p in db.pools && db.pools[p].status == PoolActive && db.pools[p].kind == NonPersistent
    requires Entitled(db, p, user, groups)
    ensures var spares := RowsWithStatus(db, p, Available);
            Connect(db, user, groups, p, ConnectEnv(true, build, Some(ticket))).0
            == if spares == {} then db else ClaimCommitted(db, First(db, spares), user, ticket)
  {
  }

  lemma CommittedAlone(s: State, user: string, groups: seq<string>, p: Id, ticket: string)
    requires IsAlone(s) && Enabled(s, Arrive(user, groups, p))
    ensures var spares := RowsWithStatus(s.db, p, Available);
            Run(s, ConnectEvents(s.nextTxn, user, groups, p, ticket))
            == if spares == {} then s.(nextTxn := s.nextTxn + 1)
               else s.(db := ClaimCommitted(s.db, First(s.db, spares), user, ticket), nextTxn := s.nextTxn + 1)
  {
    var t := s.nextTxn;
    var spares := RowsWithStatus(s.db, p, Available);
    SelectedAlone(s, user, groups, p);
    OneMore(s, [Arrive(user, groups, p)] + [TakeUserLock(t)] + [Select(t)], Commit(t, ticket));
    if spares != {} {
      CommitAlone(s, user, p, First(s.db, spares), ticket);
    }
  }

  /** The four events of a connect nobody interferes with are the connect of the lifecycle. */
  lemma AloneIsTheCall(s: State, user: string, groups: seq<string>, p: Id, build: Build, ticket: string)
    requires IsAlone(s) && Enabled(s, Arrive(user, groups, p))
    ensures var db' := Connect(s.db, user, groups, p, ConnectEnv(true, build, Some(ticket))).0;
            Run(s, ConnectEvents(s.nextTxn, user, groups, p, ticket)) == s.(db := db', nextTxn := s.nextTxn + 1)
  {
    CommittedAlone(s, user, groups, p, ticket);
    ConnectIsClaim(s.db, user, groups, p, build, ticket);
  }
}

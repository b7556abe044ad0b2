/** Runs in which calls that race break the invariant, from the empty database or from any state of a kind. */
module RaceRuns {
  import opened Entities
  import opened Lifecycle
  import opened Invariant
  import opened CheckThenWrite
  import opened WriteSafety
  import opened Claim
  import opened Races

  lemma CommitOpens(s: State, t: Id, ticket: string)
    requires ClaimInv(s) && HasClaim(s, t)
    ensures s.txns[t].phase.row in CommitClaim(s, t, ticket).db.desktops
    ensures s.db.nextId in LiveOn(CommitClaim(s, t, ticket).db, s.txns[t].phase.row)
  {
    assert TxnOk(s, t);
  }

  lemma CommitFreesTheRow(s: State, t: Id, ticket: string)
    requires InOrder(s) && HasClaim(s, t)
    ensures s.txns[t].phase.row !in CommitClaim(s, t, ticket).rowLocks + CommitClaim(s, t, ticket).flushed
  {
    assert TxnOk(s, t);
  }

  lemma OthersUnlocked(s: State, db': Db, r: Id)
    requires r !in s.rowLocks && r !in s.flushed
    requires forall d | d in s.db.desktops && d != r :: d in db'.desktops && db'.desktops[d] == s.db.desktops[d]
    ensures forall writer :: LeavesLocked(s, writer, db')
  {
  }

  lemma DoomWaitsForNobody(s: State, h: Id, r: Id, a: Answer)
    requires h in s.handlers && s.handlers[h].work == Dooming(r, false, false) && r !in s.rowLocks + s.flushed
    ensures Enabled(s, Finish(h, a))
  {
    FinishEnabled(s, h, a);
    OthersUnlocked(s, Write(s.db, s.handlers[h].work, a), r);
  }

  /**
   * A destroy passes its guard while the desktop is a spare. A connect claims the desktop and commits while the
   * destroy is with the provider. The destroy then marks the row, waiting for nobody ...
   */
  lemma DestroyOvertakesAConnect(s: State, t: Id, ticket: string, h: Id, a: Answer)
    requires ClaimInv(s) && HasClaim(s, t) && h in s.handlers
    requires s.handlers[h].work == Dooming(s.txns[t].phase.row, false, false)
    ensures var s1 := CommitClaim(s, t, ticket);
            && Enabled(s1, Finish(h, a)) && !EventSafe(s1, Finish(h, a))
            && s.db.nextId in LiveOn(s1.db, s.txns[t].phase.row)
  {
    var r := s.txns[t].phase.row;
    CommitFreesTheRow(s, t, ticket);
    CommitOpens(s, t, ticket);
    var s1 := CommitClaim(s, t, ticket);
    DoomWaitsForNobody(s1, h, r, a);
  }

  /** ... its task's end removes the row under the session, and the session can never end. */
  lemma DestroyOrphansASession(db: Db, r: Id, sid: Id, a: Answer, b: Answer)
    requires r in db.desktops && db.desktops[r].pool in db.pools && sid in LiveOn(db, r) && b.poll == Succeeded
    ensures var db1 := Write(db, Dooming(r, false, false), a);
            var poll := Polling(r, Some(DestroyTask));
            && Admit(db1, AskPoll(r)) == Some(poll) && Continued(db1, poll, b) == Some(Dropping(r))
            && var db2 := Write(db1, Dropping(r), b);
               sid in db2.sessions && Live(db2.sessions[sid]) && EndSession(db2, sid).1 == NotFound
  {
  }

  /**
   * The deletion of a pool counts committed sessions only, so beside a claimed connect it is safe. It is the
   * connect's own commit that then is not ...
   */
  lemma DeletionPassesAClaim(s: State, t: Id, ticket: string, h: Id, a: Answer)
    requires ClaimInv(s) && HasClaim(s, t) && h in s.handlers && s.handlers[h].work == DroppingPool(s.txns[t].pool)
    requires LiveOf(s.db, s.txns[t].pool) == {}
    ensures Enabled(s, Finish(h, a)) && EventSafe(s, Finish(h, a))
    ensures var s1 := Next(s, Finish(h, a));
            HasClaim(s1, t) && !EventSafe(s1, Commit(t, ticket))
  {
    ClaimedRowsPool(s, t);
    DropWaitsForNobody(s, h, s.txns[t].pool, a);
    DropDeletes(s, h, s.txns[t].pool, a);
    CommitIntoDeleted(Next(s, Finish(h, a)), t, ticket);
  }

  lemma CommitIntoDeleted(s: State, t: Id, ticket: string)
    requires HasClaim(s, t) && PoolIsDeleting(s.db, s.db.desktops[s.txns[t].phase.row])
    ensures !EventSafe(s, Commit(t, ticket))
  {
  }

  lemma DropDeletes(s: State, h: Id, p: Id, a: Answer)
    requires Enabled(s, Finish(h, a)) && s.handlers[h].work == DroppingPool(p) && p in s.db.pools
    ensures var db' := Next(s, Finish(h, a)).db;
            db'.desktops == s.db.desktops && p in db'.pools && db'.pools[p].status == PoolDeleting
  {
    FinishWrites(s, h, a);
  }

  lemma DropWaitsForNobody(s: State, h: Id, p: Id, a: Answer)
    requires h in s.handlers && s.handlers[h].work == DroppingPool(p)
    ensures Enabled(s, Finish(h, a)) && Next(s, Finish(h, a)).txns == s.txns
  {
    FinishEnabled(s, h, a);
    assert MovePool(s.db, p, PoolDeleting).desktops == s.db.desktops;
  }

  lemma ClaimedRowsPool(s: State, t: Id)
    requires ClaimInv(s) && HasClaim(s, t)
    ensures s.db.desktops[s.txns[t].phase.row].pool == s.txns[t].pool && s.txns[t].pool in s.db.pools
  {
    assert TxnOk(s, t) && RowOk(s.db, s.db.desktops[s.txns[t].phase.row]);
  }

  /** ... and the cascade destroys its desktop, so that the session can never end. */
  lemma DeletionOrphansAConnect(db: Db, r: Id, user: string, ticket: string)
    requires r in db.desktops && db.desktops[r].pool in db.pools
    requires db.pools[db.desktops[r].pool].status == PoolDeleting
    ensures var db1 := ClaimCommitted(db, r, user, ticket);
            var db2 := Cascade(db1, db.desktops[r].pool, true, map[r := Destroyed]);
            && !Inv(db1) && db.nextId in db2.sessions && Live(db2.sessions[db.nextId])
            && EndSession(db2, db.nextId).1 == NotFound
  {
    var db1 := ClaimCommitted(db, r, user, ticket);
    assert !SessionOk(db1, db1.sessions[db.nextId]);
    assert r in RowsOf(db1, db.desktops[r].pool);
  }

  /**
   * A spare can be assigned while it is still built. The build's end knows nothing of it and makes the desktop
   * available, with its user: the pool then offers it to everybody.
   */
  lemma BuildForgetsAnAssignment(db: Db, d: Id, upid: string, user: string)
    requires Inv(db) && d in db.desktops && Assign(db, d, user).1 == Reply.Done
    requires var row := db.desktops[d];
             row == CloneWindow(db.pools[row.pool], row.pool, row.vmid, None, upid)
    ensures var db1 := Assign(db, d, user).0;
            var db2 := WriteBuild(db1, d, false, Built);
            && !BuildSafe(db1.desktops[d], false, Built) && !Inv(db2)
            && db2.desktops[d].user == Some(user) && d in RowsWithStatus(db2, db.desktops[d].pool, Available)
  {
    AssignKeeps(db, d, user);
    BuildSafeIff(Assign(db, d, user).0, d, false, Built);
  }

  /**
   * A rebuild keeps its user across two transactions. Unassigned in between and assigned anew, under a session
   * of its new user, the row goes back to the old one.
   */
  lemma WriteBackTakesTheDesktop(db: Db, d: Id, owner: string, sid: Id, read: Desktop, upid: string)
    requires Inv(db) && d in db.desktops && ReadOk(db, d, read)
    requires read.pool in db.pools && db.pools[read.pool].kind == Persistent
    requires read.user.None? && sid in LiveOn(db, d) && db.sessions[sid].user != owner
    ensures var db' := WriteReset(db, d, Some(owner), read, Some(upid));
            && db'.desktops[d].user == Some(owner) && sid in LiveOn(db', d) && !Inv(db')
  {
    LiveMeansHosted(db, d);
    ResetSafeIff(db, d, Some(owner), read, Some(upid));
  }

  /** A state in which no connect is under way. */
  function Quiet(db: Db, handlers: map<Id, Handler>, n: Id): State {
    State(db, map[], map[], map[], handlers, map[], n)
  }

  ghost predicate Reaches(s: State, s': State) {
    exists events: seq<Event> :: Run(s, events) == s'
  }

  lemma ReachesOn(a: State, b: State, c: State)
    requires Reaches(a, b) && Reaches(b, c)
    ensures Reaches(a, c)
  {
    var first: seq<Event> :| Run(a, first) == b;
    var more: seq<Event> :| Run(b, more) == c;
    RunAppend(a, first, more);
  }

  lemma ByEvent(db: Db, handlers: map<Id, Handler>, n: Id, e: Event)
    requires e.Check? || (e.Finish? && e.h in handlers) || e.Entitle?
    ensures var s := Quiet(db, handlers, n);
            Reaches(s, Quiet(Written(s, e), HandlersAfter(s, e), n + 1))
  {
    var s := Quiet(db, handlers, n);
    assert Run(s, [e]) == Run(Next(s, e), []);
  }

  lemma ByConnect(db: Db, handlers: map<Id, Handler>, n: Id, user: string, p: Id)
    requires Enabled(Quiet(db, handlers, n), Arrive(user, [], p))
    ensures var db' := Connect(db, user, [], p, ConnectEnv(true, Built, Some("t"))).0;
            Reaches(Quiet(db, handlers, n), Quiet(db', handlers, n + 1))
  {
    AloneIsTheCall(Quiet(db, handlers, n), user, [], p, Built, "t");
  }

  const LAB := Pool("lab", NonPersistent, PoolActive, 0, 2, 100, 101, false, false)
  const ANY := Answer("", Succeeded, Some("u"), Built, CycleDone, "t", 0, map[])
  const USERS := {Entitlement(0, UserPrincipal("ann")), Entitlement(0, UserPrincipal("bob"))}
  const SPARE := Desktop(0, 100, Available, None, None, Running, None, None)
  const ANNS := Desktop(0, 100, Assigned, Some("ann"), Some(Floating), Running, None, None)
  const UNASSIGN := Handler(Unassigning(1, true), 2)

  function Rows(row: Desktop): Db {
    Db(map[0 := LAB], map[1 := row], map[], USERS, 2)
  }

  const CREATING := Handler(CreatingPool(LAB), 0)
  const ASSIGNING := Handler(Assigning(1, "ann", SpareRow), 2)
  const EMPTY_LAB := Db(map[0 := LAB], map[], map[], {}, 1)

  lemma LabIsCreated()
    ensures Reaches(EMPTY, Quiet(EMPTY_LAB, map[], 2))
  {
    ByEvent(EMPTY_DB, map[], 0, Check(AskCreatePool(LAB, {})));
    assert HandlersAfter(EMPTY, Check(AskCreatePool(LAB, {}))) == map[0 := CREATING];
    ByEvent(EMPTY_DB, map[0 := CREATING], 1, Finish(0, ANY));
    assert Write(EMPTY_DB, CREATING.work, ANY) == EMPTY_LAB;
    ReachesOn(EMPTY, Quiet(EMPTY_DB, map[0 := CREATING], 1), Quiet(EMPTY_LAB, map[], 2));
  }

  const ENTITLED := EMPTY_LAB.(entitlements := USERS)

  lemma LabIsEntitled()
    ensures Reaches(Quiet(EMPTY_LAB, map[], 2), Quiet(ENTITLED, map[], 3))
  {
    ByEvent(EMPTY_LAB, map[], 2, Entitle(USERS));
  }

  const CLONING := CloneWindow(LAB, 0, 100, None, "u")
  const INSERTING := Handler(Inserting(0, None, false), 1)
  const BUILDING := Handler(Building(1, false, None), 1)

  lemma SpareIsAskedFor()
    ensures Reaches(Quiet(ENTITLED, map[], 3), Quiet(ENTITLED, map[3 := INSERTING], 4))
  {
    assert Admit(ENTITLED, AskProvision(0)) == Some(INSERTING.work);
    ByEvent(ENTITLED, map[], 3, Check(AskProvision(0)));
  }

  lemma LabReserves()
    ensures Reserve(ENTITLED, 0, None, Some("u")) == Rows(CLONING)
    ensures Continued(ENTITLED, INSERTING.work, ANY) == Some(BUILDING.work)
  {
    assert UsedVmids(ENTITLED, 0) == {};
    assert Reserve(ENTITLED, 0, None, Some("u")) == Rows(CLONING);
    assert 1 in Rows(CLONING).desktops && 1 !in ENTITLED.desktops;
  }

  lemma SpareIsReserved()
    ensures Reaches(Quiet(ENTITLED, map[3 := INSERTING], 4), Quiet(Rows(CLONING), map[3 := BUILDING], 5))
  {
    LabReserves();
    ByEvent(ENTITLED, map[3 := INSERTING], 4, Finish(3, ANY));
  }

  lemma LabHasSpare()
    ensures Reaches(Quiet(Rows(CLONING), map[3 := BUILDING], 5), Quiet(Rows(SPARE), map[], 6))
  {
    assert Write(Rows(CLONING), BUILDING.work, ANY) == Rows(SPARE);
    ByEvent(Rows(CLONING), map[3 := BUILDING], 5, Finish(3, ANY));
  }

  lemma SpareIsProvisioned()
    ensures Reaches(Quiet(EMPTY_LAB, map[], 2), Quiet(Rows(SPARE), map[], 6))
  {
    var start := Quiet(EMPTY_LAB, map[], 2);
    LabIsEntitled();
    SpareIsAskedFor();
    SpareIsReserved();
    LabHasSpare();
    ReachesOn(start, Quiet(ENTITLED, map[], 3), Quiet(ENTITLED, map[3 := INSERTING], 4));
    ReachesOn(start, Quiet(ENTITLED, map[3 := INSERTING], 4), Quiet(Rows(CLONING), map[3 := BUILDING], 5));
    ReachesOn(start, Quiet(Rows(CLONING), map[3 := BUILDING], 5), Quiet(Rows(SPARE), map[], 6));
  }

  lemma AssignmentIsChecked()
    ensures Reaches(Quiet(Rows(SPARE), map[], 6), Quiet(Rows(SPARE), map[6 := ASSIGNING], 7))
  {
    assert Assign(Rows(SPARE), 1, "ann").1 == Reply.Done;
    ByEvent(Rows(SPARE), map[], 6, Check(AskAssign(1, "ann")));
  }

  lemma AssignmentIsWritten()
    ensures Reaches(Quiet(Rows(SPARE), map[6 := ASSIGNING], 7), Quiet(Rows(ANNS), map[], 8))
  {
    ByEvent(Rows(SPARE), map[6 := ASSIGNING], 7, Finish(6, ANY));
    assert Write(Rows(SPARE), ASSIGNING.work, ANY) == Rows(ANNS);
  }

  lemma SpareIsAssigned()
    ensures Reaches(Quiet(Rows(SPARE), map[], 6), Quiet(Rows(ANNS), map[], 8))
  {
    AssignmentIsChecked();
    AssignmentIsWritten();
    ReachesOn(Quiet(Rows(SPARE), map[], 6), Quiet(Rows(SPARE), map[6 := ASSIGNING], 7), Quiet(Rows(ANNS), map[], 8));
  }

  /** Two unassignments of one desktop pass their guards ... */
  lemma TwoUnassignments()
    ensures Reaches(Quiet(Rows(ANNS), map[], 8), Quiet(Rows(ANNS), map[8 := UNASSIGN, 9 := UNASSIGN], 10))
  {
    assert Unassign(Rows(ANNS), 1).1 == Reply.Done;
    ByEvent(Rows(ANNS), map[], 8, Check(AskUnassign(1)));
    ByEvent(Rows(ANNS), map[8 := UNASSIGN], 9, Check(AskUnassign(1)));
    ReachesOn(Quiet(Rows(ANNS), map[], 8), Quiet(Rows(ANNS), map[8 := UNASSIGN], 9),
              Quiet(Rows(ANNS), map[8 := UNASSIGN, 9 := UNASSIGN], 10));
  }

  /** ... and the first writes. */
  lemma FirstUnassigned()
    ensures Reaches(Quiet(Rows(ANNS), map[8 := UNASSIGN, 9 := UNASSIGN], 10),
                    Quiet(Rows(SPARE), map[9 := UNASSIGN], 11))
  {
    ByEvent(Rows(ANNS), map[8 := UNASSIGN, 9 := UNASSIGN], 10, Finish(8, ANY));
    assert Write(Rows(ANNS), UNASSIGN.work, ANY) == Rows(SPARE);
  }

  function OpenedBy(user: string): Session {
    Session(Some(1), user, SessionActive, Some("t"))
  }

  function HeldBy(user: string): Desktop {
    Desktop(0, 100, Connected, Some(user), Some(Floating), Running, None, None)
  }

  const ANN_ON := Db(map[0 := LAB], map[1 := HeldBy("ann")], map[2 := OpenedBy("ann")], USERS, 3)
  const BOTH_ON :=
    Db(map[0 := LAB], map[1 := HeldBy("bob")], map[2 := OpenedBy("ann"), 3 := OpenedBy("bob")], USERS, 4)

  lemma ConnectsTo(db: Db, user: string)
    requires db.pools == map[0 := LAB] && db.desktops == map[1 := SPARE] && db.entitlements == USERS
    requires user == "ann" || user == "bob"
    ensures Enabled(Quiet(db, map[], 0), Arrive(user, [], 0))
    ensures Connect(db, user, [], 0, ConnectEnv(true, Built, Some("t"))).0
         == db.(desktops := map[1 := HeldBy(user)], sessions := db.sessions[db.nextId := OpenedBy(user)],
                nextId := db.nextId + 1)
  {
    assert RowsWithStatus(db, 0, Available) == {1};
    assert Entitlement(0, UserPrincipal(user)) in USERS;
  }

  lemma AnnConnects()
    ensures Reaches(Quiet(Rows(SPARE), map[9 := UNASSIGN], 11), Quiet(ANN_ON, map[9 := UNASSIGN], 12))
  {
    ConnectsTo(Rows(SPARE), "ann");
    ByConnect(Rows(SPARE), map[9 := UNASSIGN], 11, "ann", 0);
  }

  lemma SecondUnassigned()
    ensures Reaches(Quiet(ANN_ON, map[9 := UNASSIGN], 12), Quiet(ANN_ON.(desktops := map[1 := SPARE]), map[], 13))
  {
    ByEvent(ANN_ON, map[9 := UNASSIGN], 12, Finish(9, ANY));
    assert Write(ANN_ON, UNASSIGN.work, ANY) == ANN_ON.(desktops := map[1 := SPARE]);
  }

  lemma BobConnects()
    ensures Reaches(Quiet(ANN_ON.(desktops := map[1 := SPARE]), map[], 13), Quiet(BOTH_ON, map[], 14))
  {
    ConnectsTo(ANN_ON.(desktops := map[1 := SPARE]), "bob");
    ByConnect(ANN_ON.(desktops := map[1 := SPARE]), map[], 13, "bob", 0);
  }

  lemma TheSpareIsThere()
    ensures Reaches(EMPTY, Quiet(Rows(SPARE), map[], 6))
  {
    LabIsCreated();
    SpareIsProvisioned();
    ReachesOn(EMPTY, Quiet(EMPTY_LAB, map[], 2), Quiet(Rows(SPARE), map[], 6));
  }

  lemma BothAreUnassigning()
    ensures Reaches(EMPTY, Quiet(Rows(SPARE), map[9 := UNASSIGN], 11))
  {
    var hers := Quiet(Rows(ANNS), map[], 8);
    TheSpareIsThere();
    SpareIsAssigned();
    ReachesOn(EMPTY, Quiet(Rows(SPARE), map[], 6), hers);
    TwoUnassignments();
    FirstUnassigned();
    ReachesOn(EMPTY, hers, Quiet(Rows(ANNS), map[8 := UNASSIGN, 9 := UNASSIGN], 10));
    ReachesOn(EMPTY, Quiet(Rows(ANNS), map[8 := UNASSIGN, 9 := UNASSIGN], 10),
              Quiet(Rows(SPARE), map[9 := UNASSIGN], 11));
  }

  /**
   * Without safety exclusivity is lost: two unassignments are checked, one writes, ann connects, the other
   * writes and sets her desktop free, and bob connects to it too.
   */
  lemma TwoSessionsOnOneDesktop()
    ensures exists events: seq<Event> ::
              var db := Run(EMPTY, events).db;
              && 2 in db.sessions && 3 in db.sessions && Live(db.sessions[2]) && Live(db.sessions[3])
              && db.sessions[2].user != db.sessions[3].user
              && db.sessions[2].desktop == db.sessions[3].desktop == Some(1)
              && 1 in db.desktops && 0 in db.pools && db.desktops[1].pool == 0 && db.pools[0].kind == NonPersistent
  {
    BothAreUnassigning();
    AnnConnects();
    SecondUnassigned();
    BobConnects();
    ReachesOn(EMPTY, Quiet(Rows(SPARE), map[9 := UNASSIGN], 11), Quiet(ANN_ON, map[9 := UNASSIGN], 12));
    ReachesOn(EMPTY, Quiet(ANN_ON, map[9 := UNASSIGN], 12), Quiet(ANN_ON.(desktops := map[1 := SPARE]), map[], 13));
    ReachesOn(EMPTY, Quiet(ANN_ON.(desktops := map[1 := SPARE]), map[], 13), Quiet(BOTH_ON, map[], 14));
    var events: seq<Event> :| Run(EMPTY, events) == Quiet(BOTH_ON, map[], 14);
    assert Run(EMPTY, events).db == BOTH_ON;
  }

  const DOOMING := Handler(Dooming(1, false, false), 2)
  const POLLING := Handler(Polling(1, Some(DestroyTask)), 3)
  const DOOMED := HeldBy("ann").(status := Deleting, upid := Some(""), task := Some(DestroyTask))
  const ANN_DOOMED := ANN_ON.(desktops := map[1 := DOOMED])
  const ANN_STRANDED := ANN_ON.(desktops := map[], sessions := map[2 := OpenedBy("ann").(desktop := None)])

  lemma AnnConnectsDuringADestroy()
    ensures Reaches(Quiet(Rows(SPARE), map[], 6), Quiet(ANN_ON, map[6 := DOOMING], 8))
  {
    assert GuardedOn(Rows(SPARE), 1) == {};
    ByEvent(Rows(SPARE), map[], 6, Check(AskDoom(1, false)));
    ConnectsTo(Rows(SPARE), "ann");
    ByConnect(Rows(SPARE), map[6 := DOOMING], 7, "ann", 0);
    ReachesOn(Quiet(Rows(SPARE), map[], 6), Quiet(Rows(SPARE), map[6 := DOOMING], 7),
              Quiet(ANN_ON, map[6 := DOOMING], 8));
  }

  lemma TheDestroyIsWritten()
    ensures Reaches(Quiet(ANN_ON, map[6 := DOOMING], 8), Quiet(ANN_DOOMED, map[], 9))
  {
    ByEvent(ANN_ON, map[6 := DOOMING], 8, Finish(6, ANY));
    assert Write(ANN_ON, DOOMING.work, ANY) == ANN_DOOMED;
  }

  lemma TheTaskIsPolled()
    ensures Reaches(Quiet(ANN_DOOMED, map[], 9), Quiet(ANN_DOOMED, map[9 := POLLING], 10))
  {
    ByEvent(ANN_DOOMED, map[], 9, Check(AskPoll(1)));
  }

  const DROPPING := Handler(Dropping(1), 3)

  lemma TheTaskIsOver()
    ensures Reaches(Quiet(ANN_DOOMED, map[9 := POLLING], 10), Quiet(ANN_DOOMED, map[9 := DROPPING], 11))
  {
    ByEvent(ANN_DOOMED, map[9 := POLLING], 10, Finish(9, ANY));
    assert Continued(ANN_DOOMED, POLLING.work, ANY) == Some(DROPPING.work);
  }

  lemma TheRowIsRemoved()
    ensures Reaches(Quiet(ANN_DOOMED, map[9 := DROPPING], 11), Quiet(ANN_STRANDED, map[], 12))
  {
    ByEvent(ANN_DOOMED, map[9 := DROPPING], 11, Finish(9, ANY));
    assert Write(ANN_DOOMED, DROPPING.work, ANY) == ANN_STRANDED;
  }

  lemma TheDestroyRuns()
    ensures Reaches(Quiet(Rows(SPARE), map[], 6), Quiet(ANN_STRANDED, map[], 12))
  {
    var start := Quiet(Rows(SPARE), map[], 6);
    AnnConnectsDuringADestroy();
    TheDestroyIsWritten();
    TheTaskIsPolled();
    TheTaskIsOver();
    TheRowIsRemoved();
    ReachesOn(start, Quiet(ANN_ON, map[6 := DOOMING], 8), Quiet(ANN_DOOMED, map[], 9));
    ReachesOn(start, Quiet(ANN_DOOMED, map[], 9), Quiet(ANN_DOOMED, map[9 := POLLING], 10));
    ReachesOn(start, Quiet(ANN_DOOMED, map[9 := POLLING], 10), Quiet(ANN_DOOMED, map[9 := DROPPING], 11));
    ReachesOn(start, Quiet(ANN_DOOMED, map[9 := DROPPING], 11), Quiet(ANN_STRANDED, map[], 12));
  }

  /**
   * And no pool has to be deleted for a session to lose its desktop: a destroy passes its guard on a spare, ann
   * connects to it, the destroy is written, and the poll of its task removes the row.
   */
  lemma DestroyedUnderASession()
    ensures exists events: seq<Event> ::
              var db := Run(EMPTY, events).db;
              && 2 in db.sessions && Live(db.sessions[2]) && db.desktops == map[] && db.pools == map[0 := LAB]
              && EndSession(db, 2).1 == NotFound
  {
    TheSpareIsThere();
    TheDestroyRuns();
    ReachesOn(EMPTY, Quiet(Rows(SPARE), map[], 6), Quiet(ANN_STRANDED, map[], 12));
    var events: seq<Event> :| Run(EMPTY, events) == Quiet(ANN_STRANDED, map[], 12);
    assert Run(EMPTY, events).db == ANN_STRANDED;
  }
}

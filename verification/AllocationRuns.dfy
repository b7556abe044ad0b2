/** A run of the allocation machine, with nothing but a rebuild and an unassignment beside a connect, to two rows. */
module AllocationRuns {
  import opened Entities
  import opened Allocation

  /** No task brings a row back and no assignment is written. */
  predicate Plain(run: seq<Action>) {
    forall a | a in run :: !a.Revive? && !a.WriteAssign?
  }

  ghost predicate Reaches(s: State, s': State) {
    exists run: seq<Action> :: Plain(run) && Execute(s, run) == s'
  }

  lemma {:induction false} ExecuteAppend(s: State, first: seq<Action>, more: seq<Action>)
    ensures Execute(s, first + more) == Execute(Execute(s, first), more)
    decreases |first|
  {
    if first == [] {
      assert first + more == more;
    } else {
      assert (first + more)[1..] == first[1..] + more;
      ExecuteAppend(if Enabled(s, first[0]) then Next(s, first[0]) else s, first[1..], more);
    }
  }

  lemma ReachesOn(a: State, b: State, c: State)
    requires Reaches(a, b) && Reaches(b, c)
    ensures Reaches(a, c)
  {
    var first: seq<Action> :| Plain(first) && Execute(a, first) == b;
    var more: seq<Action> :| Plain(more) && Execute(b, more) == c;
    ExecuteAppend(a, first, more);
    assert Plain(first + more);
  }

  lemma By(s: State, a: Action)
    requires Enabled(s, a) && !a.Revive? && !a.WriteAssign?
    ensures Reaches(s, Next(s, a))
  {
    assert Execute(s, [a]) == Execute(Next(s, a), []);
    assert Plain([a]);
  }

  /** A connect alone in the machine, in a phase of its own. */
  function Alone(s: State, p: Id, user: string, phase: Phase, held: map<Lock, Id>): State {
    s.(txns := map[s.nextId := Txn(p, ForUser(user), phase)], held := held, nextId := s.nextId + 1)
  }

  lemma ByStep(s: State, a: Action, s': State)
    requires Enabled(s, a) && !a.Revive? && !a.WriteAssign? && Next(s, a) == s'
    ensures Reaches(s, s')
  {
    By(s, a);
  }

  /** Nobody else is about, and the user has no row. */
  predicate Ready(s: State, p: Id, user: string) {
    s.txns == map[] && s.held == map[] && IsPersistent(s, p) && RowsFor(s, p, user) == {}
  }

  function UserHeld(s: State, p: Id, user: string): map<Lock, Id> {
    map[UserLock(user, p) := s.nextId]
  }

  function BothHeld(s: State, p: Id, user: string): map<Lock, Id> {
    map[UserLock(user, p) := s.nextId, PoolLock(p) := s.nextId]
  }

  lemma Begins(s: State, p: Id, user: string)
    requires Ready(s, p, user)
    ensures Reaches(s, Alone(s, p, user, WantsUser, map[]))
  {
    ByStep(s, Begin(p, ForUser(user)), Alone(s, p, user, WantsUser, map[]));
  }

  lemma TakesItsLock(s: State, p: Id, user: string)
    requires Ready(s, p, user)
    ensures Reaches(Alone(s, p, user, WantsUser, map[]), Alone(s, p, user, Looks, UserHeld(s, p, user)))
  {
    ByStep(Alone(s, p, user, WantsUser, map[]), Advance(s.nextId), Alone(s, p, user, Looks, UserHeld(s, p, user)));
  }

  lemma FindsNothing(s: State, p: Id, user: string)
    requires Ready(s, p, user)
    ensures var held := UserHeld(s, p, user);
            Reaches(Alone(s, p, user, Looks, held), Alone(s, p, user, WantsPool, held))
  {
    var held := UserHeld(s, p, user);
    assert forall r | r in s.rows :: r !in RowsFor(s, p, user) ==> !Serves(s.rows[r], p, user);
    ByStep(Alone(s, p, user, Looks, held), Advance(s.nextId), Alone(s, p, user, WantsPool, held));
  }

  lemma TakesThePool(s: State, p: Id, user: string)
    requires Ready(s, p, user)
    ensures Reaches(Alone(s, p, user, WantsPool, UserHeld(s, p, user)), Alone(s, p, user, Reads, BothHeld(s, p, user)))
  {
    ByStep(Alone(s, p, user, WantsPool, UserHeld(s, p, user)), Advance(s.nextId),
           Alone(s, p, user, Reads, BothHeld(s, p, user)));
  }

  lemma Picks(s: State, p: Id, user: string, vmid: int)
    requires Ready(s, p, user) && LowestFree(Used(s, p), s.pools[p].lo, s.pools[p].hi) == Some(vmid)
    ensures var held := BothHeld(s, p, user);
            Reaches(Alone(s, p, user, Reads, held), Alone(s, p, user, Picked(vmid), held))
  {
    var held := BothHeld(s, p, user);
    assert Used(Alone(s, p, user, Reads, held), p) == Used(s, p);
    ByStep(Alone(s, p, user, Reads, held), Advance(s.nextId), Alone(s, p, user, Picked(vmid), held));
  }

  lemma Inserts(s: State, p: Id, user: string, vmid: int)
    requires Ready(s, p, user)
    ensures var held := BothHeld(s, p, user);
            Reaches(Alone(s, p, user, Picked(vmid), held), Alone(s, p, user, Inserted(vmid), held))
  {
    var held := BothHeld(s, p, user);
    ByStep(Alone(s, p, user, Picked(vmid), held), Advance(s.nextId), Alone(s, p, user, Inserted(vmid), held));
  }

  function Served(s: State, p: Id, user: string, vmid: int): State {
    s.(rows := s.rows[s.nextId + 1 := Row(p, vmid, Some(user), false)], nextId := s.nextId + 2)
  }

  lemma Commits(s: State, p: Id, user: string, vmid: int)
    requires Ready(s, p, user)
    ensures Reaches(Alone(s, p, user, Inserted(vmid), BothHeld(s, p, user)), Served(s, p, user, vmid))
  {
    var s6 := Alone(s, p, user, Inserted(vmid), BothHeld(s, p, user));
    assert Next(s6, Advance(s.nextId)).txns == map[] && Next(s6, Advance(s.nextId)).held == map[];
    ByStep(s6, Advance(s.nextId), Served(s, p, user, vmid));
  }

  lemma InFourSteps(a: State, b: State, c: State, d: State, e: State)
    requires Reaches(a, b) && Reaches(b, c) && Reaches(c, d) && Reaches(d, e)
    ensures Reaches(a, e)
  {
    ReachesOn(a, b, c);
    ReachesOn(a, c, d);
    ReachesOn(a, d, e);
  }

  /** A connect with nobody else about makes its user's row in the lowest free VMID. */
  lemma ConnectAlone(s: State, p: Id, user: string, vmid: int)
    requires Ready(s, p, user) && LowestFree(Used(s, p), s.pools[p].lo, s.pools[p].hi) == Some(vmid)
    ensures Reaches(s, Served(s, p, user, vmid))
  {
    ConnectLocks(s, p, user);
    ConnectInserts(s, p, user, vmid);
    ReachesOn(s, Alone(s, p, user, Reads, BothHeld(s, p, user)), Served(s, p, user, vmid));
  }

  lemma ConnectLocks(s: State, p: Id, user: string)
    requires Ready(s, p, user)
    ensures Reaches(s, Alone(s, p, user, Reads, BothHeld(s, p, user)))
  {
    Begins(s, p, user);
    TakesItsLock(s, p, user);
    FindsNothing(s, p, user);
    TakesThePool(s, p, user);
    InFourSteps(s, Alone(s, p, user, WantsUser, map[]), Alone(s, p, user, Looks, UserHeld(s, p, user)),
                Alone(s, p, user, WantsPool, UserHeld(s, p, user)), Alone(s, p, user, Reads, BothHeld(s, p, user)));
  }

  lemma ConnectInserts(s: State, p: Id, user: string, vmid: int)
    requires Ready(s, p, user) && LowestFree(Used(s, p), s.pools[p].lo, s.pools[p].hi) == Some(vmid)
    ensures Reaches(Alone(s, p, user, Reads, BothHeld(s, p, user)), Served(s, p, user, vmid))
  {
    var held := BothHeld(s, p, user);
    Picks(s, p, user, vmid);
    Inserts(s, p, user, vmid);
    Commits(s, p, user, vmid);
    ReachesOn(Alone(s, p, user, Reads, held), Alone(s, p, user, Picked(vmid), held),
              Alone(s, p, user, Inserted(vmid), held));
    ReachesOn(Alone(s, p, user, Reads, held), Alone(s, p, user, Inserted(vmid), held), Served(s, p, user, vmid));
  }

  const LAB := Range(100, 101, true)

  /** One pool, row 2 as given, `more` rows beside it, and what there is of a rebuild of row 2. */
  function Lab(user: Option<string>, deleting: bool, more: map<Id, Row>, legs: map<Id, Leg>, nextId: Id): State {
    State(map[0 := LAB], map[2 := Row(0, 100, user, deleting)] + more, map[], map[], legs, map[], nextId)
  }

  const OPEN := State(map[0 := LAB], map[], map[], map[], map[], map[], 1)
  const HERS := Lab(Some("alice"), false, map[], map[], 3)

  lemma AliceHasARow()
    ensures Reaches(EMPTY, HERS)
  {
    ByStep(EMPTY, CreatePool(LAB), OPEN);
    assert Used(OPEN, 0) == {};
    ConnectAlone(OPEN, 0, "alice", 100);
    assert Served(OPEN, 0, "alice", 100).rows == HERS.rows;
    ReachesOn(EMPTY, OPEN, HERS);
  }

  const KEPT := Kept(2, 0, Some("alice"))
  const REREAD := Reread(2, Some("alice"), None, false)
  const DELETING := Lab(Some("alice"), true, map[], map[], 3)
  const CLEARED := Lab(Some("alice"), false, map[], map[3 := KEPT], 4)
  const NOBODYS := Lab(None, false, map[], map[3 := KEPT], 4)
  const READ := Lab(None, false, map[], map[3 := REREAD], 4)

  lemma HerRowIsCleared()
    ensures Reaches(HERS, CLEARED)
  {
    assert Next(HERS, MarkDeleting(2)).rows == DELETING.rows;
    ByStep(HERS, MarkDeleting(2), DELETING);
    assert Next(DELETING, KeepUser(2)).rows == CLEARED.rows;
    ByStep(DELETING, KeepUser(2), CLEARED);
    ReachesOn(HERS, DELETING, CLEARED);
  }

  lemma HerRowIsReadAgain()
    ensures Reaches(CLEARED, READ)
  {
    assert Next(CLEARED, Unassign(2)).rows == NOBODYS.rows;
    ByStep(CLEARED, Unassign(2), NOBODYS);
    ByStep(NOBODYS, ReadBack(3), READ);
    ReachesOn(CLEARED, NOBODYS, READ);
  }

  const SECOND := map[5 := Row(0, 101, Some("alice"), false)]
  const CONNECTED := Lab(None, false, SECOND, map[3 := REREAD], 6)
  const TWICE := Lab(Some("alice"), false, SECOND, map[], 6)

  lemma SheConnects()
    ensures Reaches(READ, CONNECTED)
  {
    assert READ.rows == map[2 := Row(0, 100, None, false)];
    assert READ.rows[2].vmid in Used(READ, 0);
    assert Used(READ, 0) == {100};
    assert LowestFree({100}, 101, 101) == Some(101);
    ConnectAlone(READ, 0, "alice", 101);
    assert Served(READ, 0, "alice", 101).rows == CONNECTED.rows;
  }

  lemma SheIsWrittenBack()
    ensures Reaches(CONNECTED, TWICE)
  {
    assert Next(CONNECTED, WriteBack(3)).rows == TWICE.rows;
    ByStep(CONNECTED, WriteBack(3), TWICE);
  }

  /**
   * Her row is rebuilt, and unassigned between the two transactions of its end; she connects and gets another,
   * and the rebuild writes her back. No revival and no assignment is needed for two rows.
   */
  lemma KeptUserMakesTwo()
    ensures exists run: seq<Action> :: Plain(run) && |RowsFor(Execute(EMPTY, run), 0, "alice")| >= 2
  {
    AliceHasARow();
    HerRowIsCleared();
    HerRowIsReadAgain();
    SheConnects();
    SheIsWrittenBack();
    InFourSteps(HERS, CLEARED, READ, CONNECTED, TWICE);
    ReachesOn(EMPTY, HERS, TWICE);
    TwoRows(TWICE, 0, "alice", 2, 5);
  }
}

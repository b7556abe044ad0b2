/**
 * Leader election of one worker among any number of brokers, by a session-level advisory lock.
 *
 * Time is the number of events. A broker draws a connection from its pool, a new one or one it returned, and
 * tries the lock on it; while it leads it sends a heartbeat before every tick. The lock goes with as many
 * unlocks as it was granted, or with the death of the connection, which the broker notices at its next
 * heartbeat only. Returning the connection does not end its session.
 */
module Leader {
  import opened Entities

  datatype Phase = Outside | Waiting(conn: Id) | Ticking(conn: Id, index: nat)

  /** One execution of the worker's `tick`. */
  datatype Tick = Tick(broker: Id, conn: Id, start: nat, end: Option<nat>)

  /**
   * `holder` is the server's lock table: the connection that has the lock, and how often it was granted.
   * `owners` has the broker of every connection opened so far, in its hands or back in its pool; `died` has
   * the time of death of those that are gone.
   */
  datatype State = State(
    now: nat, phases: map<Id, Phase>, holder: Option<Id>, holds: nat, died: map<Id, nat>, ticks: seq<Tick>,
    owners: seq<Id>)

  const EMPTY := State(0, map[], None, 0, map[], [], [])

  /**
   * `TryAcquire` uses a new connection or one drawn from the pool, where a dead one is never handed out.
   * `Beat` is a heartbeat and, when it is answered, the start of the tick. `EndTick` is its return or its
   * exception alike. `Leave` is a cancellation or an escaped exception, after which the broker tries to
   * unlock: `unlocked` says whether that reached the server. Its connection returns to the pool.
   */
  datatype Event =
    | TryAcquire(b: Id, drawn: Option<Id>)
    | Beat(b: Id)
    | EndTick(b: Id)
    | Leave(b: Id, unlocked: bool)
    | Die(conn: Id)

  function PhaseOf(s: State, b: Id): Phase {
    if b in s.phases then s.phases[b] else Outside
  }

  function Ended(s: State, phase: Phase): seq<Tick> {
    if phase.Ticking? && phase.index < |s.ticks|
    then s.ticks[phase.index := s.ticks[phase.index].(end := Some(s.now))]
    else s.ticks
  }

  predicate Pooled(s: State, b: Id, c: Id) {
    c < |s.owners| && s.owners[c] == b && c !in s.died
  }

  /** `pg_try_advisory_lock`: granted when nobody has the lock, and once more to the session that has it. */
  function Try(s: State, b: Id, c: Id): State {
    if s.holder in {None, Some(c)}
    then s.(phases := s.phases[b := Waiting(c)], holder := Some(c), holds := s.holds + 1)
    else s
  }

  /** `pg_advisory_unlock` takes back one grant. */
  function Unlock(s: State, c: Id): State {
    if s.holder != Some(c) then s
    else if s.holds <= 1 then s.(holder := None, holds := 0)
    else s.(holds := s.holds - 1)
  }

  function Happens(s: State, e: Event): State {
    match e
    case TryAcquire(b, drawn) =>
      if !PhaseOf(s, b).Outside? then s
      else
        (match drawn
         case None => Try(s.(owners := s.owners + [b]), b, |s.owners|)
         case Some(c) => if Pooled(s, b, c) then Try(s, b, c) else s)
    case Beat(b) =>
      var phase := PhaseOf(s, b);
      if !phase.Waiting? then s
      else if phase.conn in s.died then s.(phases := s.phases[b := Outside])
      else s.(phases := s.phases[b := Ticking(phase.conn, |s.ticks|)],
              ticks := s.ticks + [Tick(b, phase.conn, s.now, None)])
    case EndTick(b) =>
      var phase := PhaseOf(s, b);
      if !phase.Ticking? then s else s.(phases := s.phases[b := Waiting(phase.conn)], ticks := Ended(s, phase))
    case Leave(b, unlocked) =>
      var phase := PhaseOf(s, b);
      if phase.Outside? then s
      else
        var out := s.(phases := s.phases[b := Outside], ticks := Ended(s, phase));
        if unlocked then Unlock(out, phase.conn) else out
    case Die(c) =>
      if c >= |s.owners| || c in s.died then s
      else
        var gone := s.(died := s.died[c := s.now]);
        if s.holder == Some(c) then gone.(holder := None, holds := 0) else gone
  }

  function Next(s: State, e: Event): State {
    Happens(s, e).(now := s.now + 1)
  }

  // ── Invariant ─────────────────────────────────────────────────────

  /** A broker that leads does so on its own connection; a ticking one is in a tick that has not ended. */
  ghost predicate PhasesOk(s: State) {
    && (forall b | b in s.phases && !s.phases[b].Outside? ::
          s.phases[b].conn < |s.owners| && s.owners[s.phases[b].conn] == b)
    && (forall b | b in s.phases && s.phases[b].Ticking? ::
          && s.phases[b].index < |s.ticks|
          && s.ticks[s.phases[b].index].broker == b && s.ticks[s.phases[b].index].conn == s.phases[b].conn
          && s.ticks[s.phases[b].index].end.None?)
  }

  /** A broker that believes it leads, on a connection that lives, has the lock. */
  ghost predicate LockOk(s: State) {
    && (forall b | b in s.phases && !s.phases[b].Outside? ::
          s.phases[b].conn in s.died || s.holder == Some(s.phases[b].conn))
    && (s.holder.Some? ==> s.holder.value < |s.owners| && s.holder.value !in s.died)
    && (s.holder.Some? <==> s.holds > 0)
    && (forall c | c in s.died :: s.died[c] < s.now && c < |s.owners|)
  }

  /** A tick starts before its connection dies; one that has not ended is its broker's current one. */
  ghost predicate TickOk(s: State, i: nat)
    requires i < |s.ticks|
  {
    var t := s.ticks[i];
    && t.start < s.now && t.conn < |s.owners|
    && (t.conn in s.died ==> t.start < s.died[t.conn])
    && (t.end.Some? ==> t.end.value < s.now)
    && (t.end.None? ==> PhaseOf(s, t.broker) == Ticking(t.conn, i))
  }

  predicate Overlap(t: Tick, u: Tick) {
    t.start < u.start && (t.end.None? || u.start < t.end.value)
  }

  /** The first of two overlapping ticks lost its connection while it ran and before the second started. */
  ghost predicate Excused(s: State, i: nat, j: nat)
    requires i < |s.ticks| && j < |s.ticks|
  {
    Overlap(s.ticks[i], s.ticks[j]) ==>
      && s.ticks[i].conn in s.died
      && s.ticks[i].start < s.died[s.ticks[i].conn] < s.ticks[j].start
  }

  ghost predicate Inv(s: State) {
    && PhasesOk(s) && LockOk(s)
    && (forall i | 0 <= i < |s.ticks| :: TickOk(s, i))
    && (forall i, j | 0 <= i < |s.ticks| && 0 <= j < |s.ticks| :: Excused(s, i, j))
  }

  /** Every unfinished tick of another broker has lost its connection by the time a tick starts. */
  lemma BeatKeeps(s: State, b: Id)
    requires Inv(s) && PhaseOf(s, b).Waiting? && PhaseOf(s, b).conn !in s.died
    ensures Inv(Next(s, Beat(b)))
  {
    var s' := Next(s, Beat(b));
    var n := |s.ticks|;
    forall i | 0 <= i < |s'.ticks|
      ensures TickOk(s', i)
    {
      assert i < n ==> TickOk(s, i);
    }
    forall i, j | 0 <= i < |s'.ticks| && 0 <= j < |s'.ticks|
      ensures Excused(s', i, j)
    {
      if i < n && j < n {
        assert Excused(s, i, j);
      } else if i < n {
        assert TickOk(s, i);
      } else if j < n {
        assert TickOk(s, j);
      }
    }
  }

  lemma EndKeeps(s: State, s': State, b: Id)
    requires Inv(s) && b in s.phases && !s.phases[b].Outside?
    requires s'.now == s.now + 1 && s'.died == s.died && s'.owners == s.owners && LockOk(s')
    requires s'.ticks == Ended(s, s.phases[b])
    requires s'.phases in {s.phases[b := Waiting(s.phases[b].conn)], s.phases[b := Outside]}
    ensures Inv(s')
  {
    forall i | 0 <= i < |s'.ticks|
      ensures TickOk(s', i)
    {
      assert TickOk(s, i);
    }
    forall i, j | 0 <= i < |s'.ticks| && 0 <= j < |s'.ticks|
      ensures Excused(s', i, j)
    {
      assert Excused(s, i, j) && TickOk(s, i) && TickOk(s, j);
    }
  }

  lemma SameTicksKeep(s: State, s': State)
    requires Inv(s) && PhasesOk(s') && LockOk(s') && s'.now == s.now + 1 && s'.ticks == s.ticks
    requires s.owners <= s'.owners
    requires forall c | c in s.died :: c in s'.died && s'.died[c] == s.died[c]
    requires forall c | c in s'.died && c !in s.died :: s'.died[c] == s.now
    requires forall b | b in s.phases && s.phases[b].Ticking? :: b in s'.phases && s'.phases[b] == s.phases[b]
    ensures Inv(s')
  {
    forall i | 0 <= i < |s'.ticks|
      ensures TickOk(s', i)
    {
      assert TickOk(s, i);
    }
    forall i, j | 0 <= i < |s'.ticks| && 0 <= j < |s'.ticks|
      ensures Excused(s', i, j)
    {
      assert Excused(s, i, j);
    }
  }

  lemma TryKeeps(s: State, drawn: State, b: Id, c: Id)
    requires Inv(s) && PhaseOf(s, b).Outside? && Pooled(drawn, b, c)
    requires drawn in {s, s.(owners := s.owners + [b])}
    ensures Inv(Try(drawn, b, c).(now := s.now + 1))
  {
    var s' := Try(drawn, b, c).(now := s.now + 1);
    assert PhasesOk(s');
    SameTicksKeep(s, s');
  }

  lemma AcquireKeeps(s: State, b: Id, drawn: Option<Id>)
    requires Inv(s)
    ensures Inv(Next(s, TryAcquire(b, drawn)))
  {
    if PhaseOf(s, b).Outside? {
      match drawn
      case None => TryKeeps(s, s.(owners := s.owners + [b]), b, |s.owners|);
      case Some(c) =>
        if Pooled(s, b, c) {
          TryKeeps(s, s, b, c);
        } else {
          IdleKeeps(s);
        }
    } else {
      IdleKeeps(s);
    }
  }

  lemma DieKeeps(s: State, c: Id)
    requires Inv(s)
    ensures Inv(Next(s, Die(c)))
  {
    SameTicksKeep(s, Next(s, Die(c)));
  }

  lemma IdleKeeps(s: State)
    requires Inv(s)
    ensures Inv(s.(now := s.now + 1))
  {
    SameTicksKeep(s, s.(now := s.now + 1));
  }

  lemma StepKeeps(s: State, e: Event)
    requires Inv(s)
    ensures Inv(Next(s, e))
  {
    IdleKeeps(s);
    match e
    case TryAcquire(b, drawn) => AcquireKeeps(s, b, drawn);
    case Die(c) => DieKeeps(s, c);
    case Beat(b) =>
      if PhaseOf(s, b).Waiting? {
        if PhaseOf(s, b).conn in s.died {
          EndKeeps(s, Next(s, e), b);
        } else {
          BeatKeeps(s, b);
        }
      }
    case EndTick(b) =>
      if PhaseOf(s, b).Ticking? {
        EndKeeps(s, Next(s, e), b);
      }
    case Leave(b, _) =>
      if !PhaseOf(s, b).Outside? {
        EndKeeps(s, Next(s, e), b);
      }
  }

  /** The state after a run. */
  function After(run: seq<Event>): State {
    if run == [] then EMPTY else Next(After(run[..|run| - 1]), run[|run| - 1])
  }

  lemma {:induction false} AfterInv(run: seq<Event>)
    ensures Inv(After(run)) && After(run).now == |run|
  {
    if run != [] {
      AfterInv(run[..|run| - 1]);
      StepKeeps(After(run[..|run| - 1]), run[|run| - 1]);
    }
  }

  // ── Safety ────────────────────────────────────────────────────────

  /** Two brokers never both lead on connections that live. */
  lemma OneLeader(run: seq<Event>, b: Id, c: Id)
    requires !PhaseOf(After(run), b).Outside? && PhaseOf(After(run), b).conn !in After(run).died
    requires !PhaseOf(After(run), c).Outside? && PhaseOf(After(run), c).conn !in After(run).died
    ensures b == c && After(run).holder == Some(PhaseOf(After(run), b).conn)
  {
    AfterInv(run);
  }

  /** A step adds at most one tick, which its broker starts holding the lock, and ends others at most. */
  predicate Grows(s: State, s': State) {
    && |s.ticks| <= |s'.ticks| <= |s.ticks| + 1
    && (forall i | 0 <= i < |s.ticks| ::
          && s'.ticks[i].broker == s.ticks[i].broker && s'.ticks[i].conn == s.ticks[i].conn
          && s'.ticks[i].start == s.ticks[i].start
          && (s'.ticks[i].end == s.ticks[i].end || (s.ticks[i].end.None? && s'.ticks[i].end == Some(s.now))))
    && (|s'.ticks| == |s.ticks| + 1 ==>
          var t := s'.ticks[|s.ticks|];
          t.start == s.now && s.holder == Some(t.conn) && PhaseOf(s, t.broker) == Waiting(t.conn))
  }

  lemma StepGrows(s: State, e: Event)
    requires Inv(s)
    ensures Grows(s, Next(s, e))
  {
  }

  lemma LastStepGrows(run: seq<Event>)
    requires run != []
    ensures Grows(After(run[..|run| - 1]), After(run)) && After(run[..|run| - 1]).now == |run| - 1
  {
    AfterInv(run[..|run| - 1]);
    StepGrows(After(run[..|run| - 1]), run[|run| - 1]);
  }

  /** When a tick starts, the lock is held by its broker's connection. */
  lemma {:induction false} TicksStartHolding(run: seq<Event>, i: nat)
    requires i < |After(run).ticks|
    ensures var t := After(run).ticks[i];
            && t.start < |run|
            && After(run[..t.start]).holder == Some(t.conn)
            && PhaseOf(After(run[..t.start]), t.broker) == Waiting(t.conn)
    decreases |run|
  {
    var before := run[..|run| - 1];
    LastStepGrows(run);
    var start := After(run).ticks[i].start;
    if i < |After(before).ticks| {
      TicksStartHolding(before, i);
      assert run[..start] == before[..start];
    } else {
      assert run[..start] == before;
    }
  }

  lemma OneTickMore(s: State, s': State, i: nat, j: nat)
    requires Inv(s) && Grows(s, s') && i < |s'.ticks| && j < |s'.ticks| && s'.ticks[i].broker == s'.ticks[j].broker
    requires i < |s.ticks| && j < |s.ticks| ==> !Overlap(s.ticks[i], s.ticks[j])
    ensures !Overlap(s'.ticks[i], s'.ticks[j])
  {
    assert i < |s.ticks| ==> TickOk(s, i);
    assert j < |s.ticks| ==> TickOk(s, j);
  }

  lemma {:induction false} OneBrokerOneTick(run: seq<Event>, i: nat, j: nat)
    requires i < |After(run).ticks| && j < |After(run).ticks|
    requires After(run).ticks[i].broker == After(run).ticks[j].broker
    ensures !Overlap(After(run).ticks[i], After(run).ticks[j])
    decreases |run|
  {
    var before := run[..|run| - 1];
    LastStepGrows(run);
    AfterInv(before);
    if i < |After(before).ticks| && j < |After(before).ticks| {
      OneBrokerOneTick(before, i, j);
    }
    OneTickMore(After(before), After(run), i, j);
  }

  /**
   * Ticks of one worker overlap only when the earlier broker's connection died during its own tick and
   * before the later one started; ticks of one broker never overlap.
   */
  lemma OverlapOnlyAfterDeath(run: seq<Event>, i: nat, j: nat)
    requires i < |After(run).ticks| && j < |After(run).ticks|
    requires Overlap(After(run).ticks[i], After(run).ticks[j])
    ensures var s := After(run);
            && s.ticks[i].broker != s.ticks[j].broker && s.ticks[i].conn in s.died
            && s.ticks[i].start < s.died[s.ticks[i].conn] < s.ticks[j].start
  {
    AfterInv(run);
    assert Excused(After(run), i, j);
    if After(run).ticks[i].broker == After(run).ticks[j].broker {
      OneBrokerOneTick(run, i, j);
    }
  }

  /** A broker that lost its connection runs no further tick on it. */
  lemma NoTickAfterDeath(run: seq<Event>, i: nat)
    requires i < |After(run).ticks| && After(run).ticks[i].conn in After(run).died
    ensures After(run).ticks[i].start < After(run).died[After(run).ticks[i].conn]
  {
    AfterInv(run);
    assert TickOk(After(run), i);
  }

  // ── What can happen ───────────────────────────────────────────────

  lemma OneMore(run: seq<Event>, e: Event)
    ensures After(run + [e]) == Next(After(run), e)
  {
    assert (run + [e])[..|run|] == run;
  }

  /** The overlap is real: the connection dies during a tick, the other broker takes over and ticks at once. */
  lemma OverlapHappens()
    ensures var s := After([TryAcquire(0, None), Beat(0), Die(0), TryAcquire(1, None), Beat(1)]);
            |s.ticks| == 2 && s.ticks[0].broker == 0 && s.ticks[1].broker == 1 && Overlap(s.ticks[0], s.ticks[1])
  {
    var r1 := [TryAcquire(0, None)];
    var r2 := r1 + [Beat(0)];
    var r3 := r2 + [Die(0)];
    var r4 := r3 + [TryAcquire(1, None)];
    assert [] + r1 == r1;
    OneMore([], TryAcquire(0, None));
    OneMore(r1, Beat(0));
    OneMore(r2, Die(0));
    assert After(r3) == State(3, map[0 := Ticking(0, 0)], None, 0, map[0 := 2], [Tick(0, 0, 1, None)], [0]);
    OneMore(r3, TryAcquire(1, None));
    OneMore(r4, Beat(1));
    assert r4 + [Beat(1)] == [TryAcquire(0, None), Beat(0), Die(0), TryAcquire(1, None), Beat(1)];
  }

  /** A try succeeds exactly on a connection at hand while the lock is free, or on the very one that has it. */
  lemma AcquiresIff(s: State, b: Id, drawn: Option<Id>)
    requires Inv(s) && PhaseOf(s, b).Outside?
    ensures PhaseOf(Next(s, TryAcquire(b, drawn)), b).Waiting?
            <==> if s.holder.None? then drawn.Some? ==> Pooled(s, b, drawn.value)
                 else drawn == s.holder && s.owners[s.holder.value] == b
    ensures PhaseOf(Next(s, TryAcquire(b, drawn)), b).Waiting? ==>
              Next(s, TryAcquire(b, drawn)).holder == Some(PhaseOf(Next(s, TryAcquire(b, drawn)), b).conn)
  {
  }

  // ── Lost unlocks ──────────────────────────────────────────────────

  /** The lock's connection is in nobody's hands: its broker left it locked in the pool. */
  ghost predicate Leaked(s: State) {
    s.holder.Some? && forall b | b in s.phases && !s.phases[b].Outside? :: s.phases[b].conn != s.holder.value
  }

  /** A leave leaks the lock unless its unlock reaches the server and takes back the only grant. */
  lemma LostUnlockLeaks(s: State, b: Id, unlocked: bool)
    requires Inv(s) && !PhaseOf(s, b).Outside? && PhaseOf(s, b).conn !in s.died
    ensures Leaked(Next(s, Leave(b, unlocked))) <==> !(unlocked && s.holds == 1)
  {
  }

  function Unlocked(s: State, c: Id, n: nat): State
    decreases n
  {
    if n == 0 then s else Unlocked(Unlock(s, c), c, n - 1)
  }

  /** Unlocks of a session that has not got the lock count for nothing. */
  lemma {:induction false} OthersUnlockNothing(s: State, c: Id, n: nat)
    requires s.holder != Some(c)
    ensures Unlocked(s, c, n) == s
    decreases n
  {
    if n > 0 {
      OthersUnlockNothing(s, c, n - 1);
    }
  }

  /** A session that was granted the lock several times gives it up with as many unlocks, and not before. */
  lemma {:induction false} GrantsAreGivenBack(s: State, c: Id, n: nat)
    requires s.holder == Some(c) && 1 <= s.holds
    ensures var s' := Unlocked(s, c, n);
            if n < s.holds then s'.holder == Some(c) && s'.holds == s.holds - n else s'.holder == None && s'.holds == 0
    decreases n
  {
    if n > 0 {
      if s.holds > 1 {
        GrantsAreGivenBack(Unlock(s, c), c, n - 1);
      } else {
        OthersUnlockNothing(Unlock(s, c), c, n - 1);
      }
    }
  }

  lemma LeakedHasNoTick(s: State, e: Event)
    requires Inv(s) && Leaked(s)
    ensures |Next(s, e).ticks| == |s.ticks|
  {
    StepGrows(s, e);
  }

  /** A leaked lock stays leaked until its connection dies or its own broker draws it again; till then nobody ticks. */
  lemma LeakedUntilDrawn(s: State, e: Event)
    requires Inv(s) && Leaked(s)
    ensures var c := s.holder.value;
            Leaked(Next(s, e))
            <==> !(e == Die(c) || (e == TryAcquire(s.owners[c], Some(c)) && PhaseOf(s, s.owners[c]).Outside?))
  {
    var c := s.holder.value;
    var o := s.owners[c];
    if e == TryAcquire(o, Some(c)) && PhaseOf(s, o).Outside? {
      assert Next(s, e).phases[o] == Waiting(c);
    }
  }

  /** More grants than its broker, when it leads, will take back. */
  ghost predicate Stuck(s: State, c: Id) {
    && s.holder == Some(c) && c < |s.owners|
    && (PhaseOf(s, s.owners[c]).Outside? || PhaseOf(s, s.owners[c]).conn != c || s.holds > 1)
  }

  lemma LeakedIsStuck(s: State)
    requires Inv(s) && Leaked(s)
    ensures Stuck(s, s.holder.value)
  {
  }

  lemma StuckStays(s: State, e: Event, c: Id)
    requires Inv(s) && Stuck(s, c) && e != Die(c)
    ensures Stuck(Next(s, e), c) && s.owners <= Next(s, e).owners
  {
    match e
    case TryAcquire(b, drawn) =>
    case Leave(b, _) =>
      if !PhaseOf(s, b).Outside? && PhaseOf(s, b).conn == c {
        assert b == s.owners[c];
      }
    case _ =>
  }

  lemma StuckTicks(s: State, e: Event, c: Id)
    requires Inv(s) && Stuck(s, c)
    ensures forall i | |s.ticks| <= i < |Next(s, e).ticks| ::
              Next(s, e).ticks[i].conn == c && Next(s, e).ticks[i].broker == s.owners[c]
  {
    StepGrows(s, e);
  }

  /**
   * Once leaked, the lock is lost to all other brokers until its connection dies: whatever happens else, and
   * however often its own broker leads on that connection and unlocks, every tick from then on is this broker's.
   */
  lemma {:induction false} LeakedServesOneBroker(run: seq<Event>, rest: seq<Event>)
    requires Leaked(After(run)) && Die(After(run).holder.value) !in rest
    ensures var s, s' := After(run), After(run + rest);
            && s.holder.value < |s.owners| && s.owners <= s'.owners
            && s'.holder == s.holder && |s.ticks| <= |s'.ticks|
            && Stuck(s', s.holder.value)
            && (forall i | |s.ticks| <= i < |s'.ticks| ::
                  s'.ticks[i].conn == s.holder.value && s'.ticks[i].broker == s.owners[s.holder.value])
    decreases |rest|
  {
    AfterInv(run);
    if rest == [] {
      assert run + rest == run;
      AfterInv(run);
      LeakedIsStuck(After(run));
    } else {
      var before := rest[..|rest| - 1];
      var e := rest[|rest| - 1];
      LeakedServesOneBroker(run, before);
      AfterInv(run + before);
      assert run + rest == run + before + [e];
      OneMore(run + before, e);
      StuckStays(After(run + before), e, After(run).holder.value);
      StuckTicks(After(run + before), e, After(run).holder.value);
      StepGrows(After(run + before), e);
    }
  }

  /** It does lead again without a death, and one unlock that arrives is not enough any more. */
  lemma LeadsAgainOnTheLeakedLock()
    ensures var s := After([TryAcquire(0, None), Leave(0, false), TryAcquire(0, Some(0)), Beat(0), Leave(0, true)]);
            s.died == map[] && |s.ticks| == 1 && s.ticks[0].broker == 0 && Leaked(s)
  {
    var r1 := [TryAcquire(0, None)];
    var r2 := r1 + [Leave(0, false)];
    var r3 := r2 + [TryAcquire(0, Some(0))];
    var r4 := r3 + [Beat(0)];
    assert [] + r1 == r1;
    OneMore([], TryAcquire(0, None));
    OneMore(r1, Leave(0, false));
    OneMore(r2, TryAcquire(0, Some(0)));
    assert After(r3) == State(3, map[0 := Waiting(0)], Some(0), 2, map[], [], [0]);
    OneMore(r3, Beat(0));
    OneMore(r4, Leave(0, true));
    assert r4 + [Leave(0, true)]
        == [TryAcquire(0, None), Leave(0, false), TryAcquire(0, Some(0)), Beat(0), Leave(0, true)];
  }
}

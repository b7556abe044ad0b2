/** The session monitor's logoff debounce: streaks kept in memory, refined to each desktop's history of polls. */
module Debounce {
  import opened Entities

  const LOGOFF_STREAK_THRESHOLD := 3
  const NETWORK_POLL_EVERY_N_TICKS := 4

  /** What one tick finds on a monitored desktop. */
  datatype Sighting =
    | NoProvider
    | PollCrashed
    | VmMissing
    | VmNotRunning
    | NoLiveSession
    | AgentUnreachable
    | UsersSeen
    | EmptyButNotActive
    | EmptyAndActive

  /** What it means for the streak. */
  datatype Effect = Counts | Resets | Neutral

  function EffectOf(s: Sighting): Effect {
    match s
    case EmptyAndActive => Counts
    case VmMissing => Resets
    case VmNotRunning => Resets
    case UsersSeen => Resets
    case _ => Neutral
  }

  type Row = (Id, Sighting)

  predicate OneRowEach(rows: seq<Row>) {
    forall i, j | 0 <= i < j < |rows| :: rows[i].0 != rows[j].0
  }

  function Observed(rows: seq<Row>): set<Id> {
    set i | 0 <= i < |rows| :: rows[i].0
  }

  /** A desktop that is not among the rows has left the monitored states: its streak is dropped. */
  function EffectOn(rows: seq<Row>, d: Id): Effect {
    if rows == [] then Resets
    else if rows[|rows| - 1].0 == d then EffectOf(rows[|rows| - 1].1)
    else EffectOn(rows[..|rows| - 1], d)
  }

  function Streak(streaks: map<Id, nat>, d: Id): nat {
    if d in streaks then streaks[d] else 0
  }

  function NextStreak(streak: nat, e: Effect): nat {
    match e
    case Resets => 0
    case Neutral => streak
    case Counts => if streak + 1 < LOGOFF_STREAK_THRESHOLD then streak + 1 else 0
  }

  /** A counted empty poll that completes the threshold. */
  predicate Due(streak: nat, s: Sighting) {
    s == EmptyAndActive && streak + 1 >= LOGOFF_STREAK_THRESHOLD
  }

  /** The map after a tick: the desktops seen whose streak is not zero. */
  function AfterTick(streaks: map<Id, nat>, rows: seq<Row>): map<Id, nat> {
    map d | d in Observed(rows) && NextStreak(Streak(streaks, d), EffectOn(rows, d)) > 0 ::
      NextStreak(Streak(streaks, d), EffectOn(rows, d))
  }

  /** The desktops whose logoff a tick dispatches. */
  function Dispatches(streaks: map<Id, nat>, rows: seq<Row>): set<Id> {
    set d | d in Observed(rows) && EffectOn(rows, d) == Counts
            && Streak(streaks, d) + 1 >= LOGOFF_STREAK_THRESHOLD
  }

  lemma {:induction false} EffectOnRow(rows: seq<Row>, i: nat)
    requires OneRowEach(rows) && i < |rows|
    ensures EffectOn(rows, rows[i].0) == EffectOf(rows[i].1)
  {
    if i < |rows| - 1 {
      EffectOnRow(rows[..|rows| - 1], i);
    }
  }

  lemma {:induction false} EffectOnAbsent(rows: seq<Row>, d: Id)
    requires d !in Observed(rows)
    ensures EffectOn(rows, d) == Resets
  {
    if rows != [] {
      assert rows[|rows| - 1].0 in Observed(rows);
      forall e | e in Observed(rows[..|rows| - 1])
        ensures e in Observed(rows)
      {
        var i :| 0 <= i < |rows| - 1 && rows[..|rows| - 1][i].0 == e;
        assert rows[i].0 == e;
      }
      EffectOnAbsent(rows[..|rows| - 1], d);
    }
  }

  class SessionMonitor {
    var emptyStreaks: map<Id, nat>
    var tickCount: nat

    /** What every tick leaves: a streak is stored only while it counts, below the threshold. */
    predicate Valid()
      reads this
    {
      && (forall d | d in emptyStreaks :: 0 < emptyStreaks[d] < LOGOFF_STREAK_THRESHOLD)
      && tickCount < NETWORK_POLL_EVERY_N_TICKS
    }

    constructor ()
      ensures Valid() && emptyStreaks == map[]
    {
      emptyStreaks, tickCount := map[], 0;
    }

    /** One desktop of a tick, up to the decision to dispatch. */
    method ProcessDesktop(d: Id, s: Sighting) returns (logoff: bool)
      modifies this`emptyStreaks
      ensures forall e | e != d :: e in emptyStreaks <==> e in old(emptyStreaks)
      ensures forall e | e != d && e in emptyStreaks :: emptyStreaks[e] == old(emptyStreaks)[e]
      ensures Streak(emptyStreaks, d) == NextStreak(Streak(old(emptyStreaks), d), EffectOf(s))
      ensures d in emptyStreaks && EffectOf(s) != Neutral ==> emptyStreaks[d] > 0
      ensures EffectOf(s) == Neutral ==> emptyStreaks == old(emptyStreaks)
      ensures logoff <==> Due(Streak(old(emptyStreaks), d), s)
      ensures s in {UsersSeen, VmMissing, VmNotRunning} ==> d !in emptyStreaks
      ensures s !in {EmptyAndActive, UsersSeen, VmMissing, VmNotRunning} ==> emptyStreaks == old(emptyStreaks)
      ensures s == EmptyAndActive ==>
                var streak := 1 + if d in old(emptyStreaks) then old(emptyStreaks)[d] else 0;
                if logoff then streak >= 3 && d !in emptyStreaks
                else streak < 3 && d in emptyStreaks && emptyStreaks[d] == streak
    {
      match s
      case NoProvider => return false;
      case PollCrashed => return false;
      case VmMissing => emptyStreaks := emptyStreaks - {d}; return false;
      case VmNotRunning => emptyStreaks := emptyStreaks - {d}; return false;
      case NoLiveSession => return false;
      case AgentUnreachable => return false;
      case UsersSeen => emptyStreaks := emptyStreaks - {d}; return false;
      case EmptyButNotActive => return false;
      case EmptyAndActive =>
        emptyStreaks := emptyStreaks[d := Streak(emptyStreaks, d) + 1];
        if emptyStreaks[d] < LOGOFF_STREAK_THRESHOLD {
          return false;
        }
        emptyStreaks := emptyStreaks - {d};
        return true;
    }

    /** Streaks of desktops that left the monitored states are dropped. */
    method DropUnobserved(observed: set<Id>)
      modifies this`emptyStreaks
      ensures emptyStreaks == old(emptyStreaks) - (old(emptyStreaks).Keys - observed)
    {
      ghost var was := emptyStreaks;
      var keys := emptyStreaks.Keys;
      while keys != {}
        invariant keys <= was.Keys
        invariant emptyStreaks == was - (was.Keys - observed - keys)
      {
        var d :| d in keys;
        if d !in observed {
          emptyStreaks := emptyStreaks - {d};
        }
        keys := keys - {d};
      }
    }

    /** The loop over the rows; the rows still ahead are untouched. */
    method ProcessRows(rows: seq<Row>) returns (dispatched: seq<Id>)
      requires OneRowEach(rows)
      requires forall d | d in emptyStreaks :: d in Observed(rows) && 0 < emptyStreaks[d] < LOGOFF_STREAK_THRESHOLD
      modifies this`emptyStreaks
      ensures forall d | d in emptyStreaks :: d in Observed(rows) && 0 < emptyStreaks[d] < LOGOFF_STREAK_THRESHOLD
      ensures forall i | 0 <= i < |rows| ::
                Streak(emptyStreaks, rows[i].0) == NextStreak(Streak(old(emptyStreaks), rows[i].0), EffectOf(rows[i].1))
      ensures forall d | d in dispatched :: d in Observed(rows)
      ensures forall i | 0 <= i < |rows| ::
                rows[i].0 in dispatched <==> Due(Streak(old(emptyStreaks), rows[i].0), rows[i].1)
      ensures forall i, j | 0 <= i < j < |dispatched| :: dispatched[i] != dispatched[j]
    {
      ghost var was := emptyStreaks;
      dispatched := [];
      for n := 0 to |rows|
        invariant forall d | d in emptyStreaks :: d in Observed(rows) && 0 < emptyStreaks[d] < LOGOFF_STREAK_THRESHOLD
        invariant forall i | 0 <= i < n ::
                    Streak(emptyStreaks, rows[i].0) == NextStreak(Streak(was, rows[i].0), EffectOf(rows[i].1))
        invariant forall i | n <= i < |rows| :: Streak(emptyStreaks, rows[i].0) == Streak(was, rows[i].0)
        invariant forall i | n <= i < |rows| :: rows[i].0 !in dispatched
        invariant forall d | d in dispatched :: d in Observed(rows)
        invariant forall i | 0 <= i < n :: rows[i].0 in dispatched <==> Due(Streak(was, rows[i].0), rows[i].1)
        invariant forall i, j | 0 <= i < j < |dispatched| :: dispatched[i] != dispatched[j]
      {
        assert rows[n].0 in Observed(rows);
        assert forall i | 0 <= i < |rows| && i != n :: rows[i].0 != rows[n].0;
        var logoff := ProcessDesktop(rows[n].0, rows[n].1);
        if logoff {
          dispatched := dispatched + [rows[n].0];
        }
      }
    }

    /** Streaks of desktops no longer monitored go first; then every row is processed. */
    method Tick(rows: seq<Row>) returns (dispatched: seq<Id>, pollNetwork: bool)
      requires Valid() && OneRowEach(rows)
      modifies this
      ensures Valid() && emptyStreaks == AfterTick(old(emptyStreaks), rows)
      ensures forall d :: d in dispatched <==> d in Dispatches(old(emptyStreaks), rows)
      ensures forall i, j | 0 <= i < j < |dispatched| :: dispatched[i] != dispatched[j]
      ensures tickCount == (old(tickCount) + 1) % 4 && (pollNetwork <==> tickCount == 0)
    {
      tickCount := (tickCount + 1) % NETWORK_POLL_EVERY_N_TICKS;
      pollNetwork := tickCount == 0;
      ghost var was := emptyStreaks;
      DropUnobserved(Observed(rows));
      dispatched := ProcessRows(rows);
      forall i | 0 <= i < |rows|
        ensures EffectOn(rows, rows[i].0) == EffectOf(rows[i].1)
      {
        EffectOnRow(rows, i);
      }
      assert emptyStreaks == AfterTick(was, rows);
    }
  }

  // ── Runs ──────────────────────────────────────────────────────────

  function Run(streaks: map<Id, nat>, ticks: seq<seq<Row>>): map<Id, nat> {
    if ticks == [] then streaks else AfterTick(Run(streaks, ticks[..|ticks| - 1]), ticks[|ticks| - 1])
  }

  /** One desktop's history: the effect of each tick on it. */
  function History(ticks: seq<seq<Row>>, d: Id): seq<Effect> {
    if ticks == [] then [] else History(ticks[..|ticks| - 1], d) + [EffectOn(ticks[|ticks| - 1], d)]
  }

  /** Counted polls since the last reset. */
  function Counted(history: seq<Effect>): nat {
    if history == [] then 0
    else
      match history[|history| - 1]
      case Resets => 0
      case Neutral => Counted(history[..|history| - 1])
      case Counts => Counted(history[..|history| - 1]) + 1
  }

  lemma TickRefines(streaks: map<Id, nat>, rows: seq<Row>, d: Id)
    ensures Streak(AfterTick(streaks, rows), d) == NextStreak(Streak(streaks, d), EffectOn(rows, d))
  {
    if d !in Observed(rows) {
      EffectOnAbsent(rows, d);
    }
  }

  /** The streak in memory is the count of the history, modulo the threshold. */
  lemma {:induction false} StreakRefinesHistory(ticks: seq<seq<Row>>, d: Id)
    ensures Streak(Run(map[], ticks), d) == Counted(History(ticks, d)) % LOGOFF_STREAK_THRESHOLD
  {
    if ticks != [] {
      var before, last := ticks[..|ticks| - 1], ticks[|ticks| - 1];
      StreakRefinesHistory(before, d);
      TickRefines(Run(map[], before), last, d);
      assert History(ticks, d)[..|History(ticks, d)| - 1] == History(before, d);
    }
  }

  /**
   * After any run of ticks, the last one dispatches a desktop's logoff exactly when it is a counted
   * empty poll and the counted polls since the last reset are a positive multiple of three; and the
   * map holds streaks of one or two for observed desktops only.
   */
  lemma DispatchExactly(ticks: seq<seq<Row>>, d: Id)
    requires ticks != []
    ensures var before, last := ticks[..|ticks| - 1], ticks[|ticks| - 1];
            d in Dispatches(Run(map[], before), last)
            <==> EffectOn(last, d) == Counts && Counted(History(ticks, d)) > 0
                 && Counted(History(ticks, d)) % LOGOFF_STREAK_THRESHOLD == 0
    ensures d in Run(map[], ticks) ==>
              d in Observed(ticks[|ticks| - 1]) && Run(map[], ticks)[d] in {1, 2}
  {
    var before, last := ticks[..|ticks| - 1], ticks[|ticks| - 1];
    StreakRefinesHistory(before, d);
    StreakRefinesHistory(ticks, d);
    assert History(ticks, d)[..|History(ticks, d)| - 1] == History(before, d);
    if d !in Observed(last) {
      EffectOnAbsent(last, d);
    }
  }

  /** A tick after which earlier empty polls of the desktop count no more: users, no VM running, or not monitored. */
  predicate EndsStreak(rows: seq<Row>, d: Id) {
    (d, UsersSeen) in rows || (d, VmMissing) in rows || (d, VmNotRunning) in rows || forall r | r in rows :: r.0 != d
  }

  predicate StillCounts(ticks: seq<seq<Row>>, d: Id, i: nat) {
    i < |ticks| && (d, EmptyAndActive) in ticks[i] && forall k | i < k < |ticks| :: !EndsStreak(ticks[k], d)
  }

  /** The ticks that found the desktop empty with an active session, since the last that ended a streak. */
  function EmptyTicks(ticks: seq<seq<Row>>, d: Id): set<nat> {
    set i: nat | i < |ticks| && StillCounts(ticks, d, i)
  }

  lemma {:induction false} FoundAs(rows: seq<Row>, d: Id)
    requires OneRowEach(rows)
    ensures EffectOn(rows, d) == Counts <==> (d, EmptyAndActive) in rows
    ensures EffectOn(rows, d) == Resets <==> EndsStreak(rows, d)
    ensures EndsStreak(rows, d) ==> (d, EmptyAndActive) !in rows
  {
    if d in Observed(rows) {
      var i: nat :| i < |rows| && rows[i].0 == d;
      EffectOnRow(rows, i);
      assert rows[i] == (d, rows[i].1) && rows[i] in rows;
      forall s | (d, s) in rows
        ensures s == rows[i].1
      {
        var j: nat :| j < |rows| && rows[j] == (d, s);
        assert i == j;
      }
    } else {
      EffectOnAbsent(rows, d);
      assert forall j | 0 <= j < |rows| :: rows[j].0 in Observed(rows);
    }
  }

  lemma OneMoreTick(before: seq<seq<Row>>, last: seq<Row>, d: Id)
    requires OneRowEach(last)
    ensures var now := EmptyTicks(before + [last], d);
            match EffectOn(last, d)
            case Counts => now == EmptyTicks(before, d) + {|before|}
            case Resets => now == {}
            case Neutral => now == EmptyTicks(before, d)
  {
    FoundAs(last, d);
    var ticks := before + [last];
    forall i: nat
      ensures i < |before| ==> (StillCounts(ticks, d, i) <==> StillCounts(before, d, i) && !EndsStreak(last, d))
      ensures i == |before| ==> (StillCounts(ticks, d, i) <==> (d, EmptyAndActive) in last)
    {
      assert ticks[|before|] == last;
      assert forall k | 0 <= k < |before| :: ticks[k] == before[k];
      if i < |before| && StillCounts(ticks, d, i) {
        assert !EndsStreak(ticks[|before|], d);
        assert forall k | i < k < |before| :: !EndsStreak(ticks[k], d);
      }
    }
  }

  lemma {:induction false} CountedIsEmptyTicks(ticks: seq<seq<Row>>, d: Id)
    requires forall rows | rows in ticks :: OneRowEach(rows)
    ensures Counted(History(ticks, d)) == |EmptyTicks(ticks, d)|
  {
    if ticks == [] {
      assert EmptyTicks(ticks, d) == {};
    } else {
      var before, last := ticks[..|ticks| - 1], ticks[|ticks| - 1];
      assert ticks == before + [last];
      CountedIsEmptyTicks(before, d);
      OneMoreTick(before, last, d);
      assert History(ticks, d)[..|History(ticks, d)| - 1] == History(before, d);
      assert |before| !in EmptyTicks(before, d);
    }
  }

  /**
   * In terms of what the ticks find: the last tick of a run dispatches a desktop's logoff exactly when it finds
   * the desktop empty with an active session, and it is every third such tick since users were seen, the VM was
   * missing or stopped, or the desktop was not monitored.
   */
  lemma DispatchesEveryThird(ticks: seq<seq<Row>>, d: Id)
    requires ticks != [] && forall rows | rows in ticks :: OneRowEach(rows)
    ensures var before, last := ticks[..|ticks| - 1], ticks[|ticks| - 1];
            d in Dispatches(Run(map[], before), last)
            <==> (d, EmptyAndActive) in last && |EmptyTicks(ticks, d)| % 3 == 0
  {
    DispatchExactly(ticks, d);
    CountedIsEmptyTicks(ticks, d);
    var last := ticks[|ticks| - 1];
    FoundAs(last, d);
    if (d, EmptyAndActive) in last {
      assert ticks == ticks[..|ticks| - 1] + [last];
      OneMoreTick(ticks[..|ticks| - 1], last, d);
      assert EmptyTicks(ticks, d) != {};
    }
  }

  // ── Leader handoff ────────────────────────────────────────────────

  /** Position of the first dispatch when the polls `ahead` meet a streak. */
  function FirstDispatch(streak: nat, ahead: seq<Effect>): Option<nat>
    decreases |ahead|
  {
    if ahead == [] then None
    else if ahead[0] == Counts && streak + 1 >= LOGOFF_STREAK_THRESHOLD then Some(0)
    else
      match FirstDispatch(NextStreak(streak, ahead[0]), ahead[1..])
      case Some(i) => Some(i + 1)
      case None => None
  }

  /** Losing the streak never brings the first dispatch forward. */
  lemma {:induction false} HandoffNeverEarlier(streak: nat, kept: nat, ahead: seq<Effect>)
    requires kept <= streak < LOGOFF_STREAK_THRESHOLD
    ensures FirstDispatch(kept, ahead).Some? ==>
              && FirstDispatch(streak, ahead).Some?
              && FirstDispatch(streak, ahead).value <= FirstDispatch(kept, ahead).value
    decreases |ahead|
  {
    if ahead != [] && !(ahead[0] == Counts && streak + 1 >= LOGOFF_STREAK_THRESHOLD) {
      HandoffNeverEarlier(NextStreak(streak, ahead[0]), NextStreak(kept, ahead[0]), ahead[1..]);
    }
  }

  function CountedIn(h: seq<Effect>): nat {
    if h == [] then 0 else (if h[0] == Counts then 1 else 0) + CountedIn(h[1..])
  }

  /** Without a reset the first dispatch falls on the counted poll that completes the threshold. */
  lemma {:induction false} FirstDispatchPlace(streak: nat, ahead: seq<Effect>)
    requires streak < LOGOFF_STREAK_THRESHOLD && Resets !in ahead
    ensures FirstDispatch(streak, ahead).Some? <==> streak + CountedIn(ahead) >= LOGOFF_STREAK_THRESHOLD
    ensures FirstDispatch(streak, ahead).Some? ==>
              && FirstDispatch(streak, ahead).value < |ahead|
              && CountedIn(ahead[..FirstDispatch(streak, ahead).value + 1]) == LOGOFF_STREAK_THRESHOLD - streak
    decreases |ahead|
  {
    if ahead != [] {
      if ahead[0] == Counts && streak + 1 >= LOGOFF_STREAK_THRESHOLD {
        assert ahead[..1] == [Counts] && CountedIn([Counts]) == 1;
      } else {
        FirstDispatchPlace(NextStreak(streak, ahead[0]), ahead[1..]);
        if FirstDispatch(streak, ahead).Some? {
          var i := FirstDispatch(streak, ahead).value;
          assert ahead[..i + 1][1..] == ahead[1..][..i];
        }
      }
    }
  }

  lemma StreakBelowThreshold(ticks: seq<seq<Row>>, d: Id)
    ensures Streak(Run(map[], ticks), d) < LOGOFF_STREAK_THRESHOLD
  {
    StreakRefinesHistory(ticks, d);
  }

  lemma LateByTheLost(lost: nat, ahead: seq<Effect>)
    requires lost < LOGOFF_STREAK_THRESHOLD
    requires Resets !in ahead && CountedIn(ahead) >= LOGOFF_STREAK_THRESHOLD
    ensures FirstDispatch(lost, ahead).Some? && FirstDispatch(0, ahead).Some?
    ensures FirstDispatch(lost, ahead).value <= FirstDispatch(0, ahead).value < |ahead|
    ensures CountedIn(ahead[..FirstDispatch(0, ahead).value + 1])
            == CountedIn(ahead[..FirstDispatch(lost, ahead).value + 1]) + lost
  {
    HandoffNeverEarlier(lost, 0, ahead);
    FirstDispatchPlace(lost, ahead);
    FirstDispatchPlace(0, ahead);
  }

  /**
   * A handoff after `ticks` loses the streaks. With no reset afterwards the first dispatch for a
   * desktop is late by exactly the counted polls that were lost, at most two of them.
   */
  lemma HandoffBound(ticks: seq<seq<Row>>, d: Id, ahead: seq<Effect>)
    requires Resets !in ahead && CountedIn(ahead) >= LOGOFF_STREAK_THRESHOLD
    ensures var lost := Streak(Run(map[], ticks), d);
            var on, late := FirstDispatch(lost, ahead), FirstDispatch(0, ahead);
            && lost <= 2 && on.Some? && late.Some? && on.value <= late.value < |ahead|
            && CountedIn(ahead[..late.value + 1]) == CountedIn(ahead[..on.value + 1]) + lost
  {
    var lost := Streak(Run(map[], ticks), d);
    StreakBelowThreshold(ticks, d);
    LateByTheLost(lost, ahead);
  }

  /** Streaks belong to desktops: two sessions in a row on one desktop share a count, and the second is ended early. */
  lemma StreakIsNotPerSession(d: Id)
    ensures var empty := [(d, EmptyAndActive)];
            var between := [(d, NoLiveSession)];
            d in Dispatches(Run(map[], [empty, empty, between]), empty)
  {
    var empty, between := [(d, EmptyAndActive)], [(d, NoLiveSession)];
    assert Observed(empty) == {d} && Observed(between) == {d} by {
      assert empty[0].0 == d && between[0].0 == d;
    }
    assert [empty, empty, between][..2] == [empty, empty];
    assert [empty, empty][..1] == [empty];
    var none: seq<seq<Row>> := [];
    assert [empty][..0] == none;
    TickRefines(Run(map[], none), empty, d);
    TickRefines(Run(map[], [empty]), empty, d);
    TickRefines(Run(map[], [empty, empty]), between, d);
  }
}

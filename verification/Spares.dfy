/** The warm-spare provisioner: the pool a tick picks, where runs of ticks come to rest, why the choice is best. */
module Spares {
  import opened Entities
  import opened Lifecycle
  import opened Invariant
  import opened Capacity
  import opened Store
  import opened Services

  /** Rows that count against `max_size`. */
  function CountedRows(db: Db, p: Id): set<Id> {
    set d | d in RowsOf(db, p) && db.desktops[d].status != Deleting && db.desktops[d].status != Error
  }

  /** Spares the pool lacks and may still add. */
  function Gap(db: Db, p: Id): nat
    requires p in db.pools
  {
    var gap := db.pools[p].minSpare - |RowsWithStatus(db, p, Available)|;
    var room := db.pools[p].maxSize - |CountedRows(db, p)|;
    if gap <= 0 || room <= 0 then 0 else if gap < room then gap else room
  }

  predicate HoldsSpare(db: Db, p: Id, d: Id) {
    d in db.desktops && db.desktops[d].pool == p && db.desktops[d].status == Available
  }

  /** A row that is neither being deleted nor in error takes up room. */
  predicate TakesRoom(db: Db, p: Id, d: Id) {
    d in db.desktops && db.desktops[d].pool == p && db.desktops[d].status !in {Deleting, Error}
  }

  /** The gap is the most spares that may be added without passing either limit. */
  lemma GapIsGreatest(db: Db, p: Id, n: nat)
    requires p in db.pools && n > 0
    ensures n <= Gap(db, p)
            <==> && |set d | d in db.desktops && HoldsSpare(db, p, d)| + n <= db.pools[p].minSpare
                 && |set d | d in db.desktops && TakesRoom(db, p, d)| + n <= db.pools[p].maxSize
  {
    assert (set d | d in db.desktops && HoldsSpare(db, p, d)) == RowsWithStatus(db, p, Available);
    assert (set d | d in db.desktops && TakesRoom(db, p, d)) == CountedRows(db, p);
  }

  /** A candidate list: active non-persistent pools of active clusters, each once, ordered by name. */
  predicate Candidates(db: Db, c: seq<Id>) {
    && (forall i | 0 <= i < |c| :: c[i] in db.pools && db.pools[c[i]].status == PoolActive
                                   && db.pools[c[i]].kind == NonPersistent)
    && (forall i, j | 0 <= i < j < |c| :: c[i] != c[j])
  }

  function Gaps(db: Db, c: seq<Id>): seq<nat>
    requires Candidates(db, c)
  {
    seq(|c|, i requires 0 <= i < |c| => Gap(db, c[i]))
  }

  // ── Vectors of gaps ───────────────────────────────────────────────

  function Sum(g: seq<nat>): nat {
    if g == [] then 0 else g[0] + Sum(g[1..])
  }

  /** `i` is the first place of the greatest gap, and that gap is not zero. */
  predicate IsNeediest(g: seq<nat>, i: nat) {
    && i < |g| && g[i] > 0
    && (forall j | 0 <= j < |g| :: g[j] <= g[i])
    && (forall j | 0 <= j < i :: g[j] < g[i])
  }

  function Neediest(g: seq<nat>): (i: Option<nat>)
    ensures i.Some? ==> IsNeediest(g, i.value)
    ensures i.None? ==> forall j | 0 <= j < |g| :: g[j] == 0
  {
    if g == [] then None
    else
      var last := |g| - 1;
      match Neediest(g[..last])
      case None => if g[last] > 0 then Some(last) else None
      case Some(i) => if g[last] > g[i] then Some(last) else Some(i)
  }

  lemma NeediestIsUnique(g: seq<nat>, i: nat)
    requires IsNeediest(g, i)
    ensures Neediest(g) == Some(i)
  {
    assert Neediest(g).Some?;
    var j := Neediest(g).value;
    assert g[i] <= g[j] && g[j] <= g[i];
  }

  /** The neediest stays where it is unless the next gap is greater, and then it is that one. */
  lemma NeediestSoFar(g: seq<nat>, n: nat, at: nat)
    requires n < |g| && IsNeediest(g[..n], at)
    ensures IsNeediest(g[..n + 1], if g[n] > g[at] then n else at)
  {
    assert g[..n + 1] == g[..n] + [g[n]];
  }

  lemma FirstNeedy(g: seq<nat>, n: nat)
    requires n < |g| && g[n] > 0 && forall j | 0 <= j < n :: g[j] == 0
    ensures IsNeediest(g[..n + 1], n)
  {
  }

  function Most(g: seq<nat>): nat {
    if Neediest(g).Some? then g[Neediest(g).value] else 0
  }

  // ── The choice ────────────────────────────────────────────────────

  /** `_pick_neediest_pool`: the first candidate with the largest gap, or nothing when no gap is left. */
  method PickNeediestPool(db: AsyncSession, c: seq<Id>) returns (best: Option<Id>)
    requires Candidates(db.State(), c)
    ensures best == match Neediest(Gaps(db.State(), c)) case Some(i) => Some(c[i]) case None => None
  {
    best := None;
    var bestGap := 0;
    ghost var at := 0;
    ghost var g := Gaps(db.State(), c);
    for n := 0 to |c|
      invariant best.None? ==> bestGap == 0 && forall j | 0 <= j < n :: g[j] == 0
      invariant best.Some? ==> at < n && best.value == c[at] && bestGap == g[at] && IsNeediest(g[..n], at)
    {
      var pool := db.pools[c[n]];
      var available := |RowsWithStatus(db.State(), c[n], Available)|;
      var total := |CountedRows(db.State(), c[n])|;
      var gap, room := pool.minSpare - available, pool.maxSize - total;
      assert g[n] == if gap <= 0 || room <= 0 then 0 else if gap < room then gap else room;
      if best.Some? {
        NeediestSoFar(g, n, at);
      } else if g[n] > 0 {
        FirstNeedy(g, n);
      }
      if gap <= 0 || room <= 0 {
        continue;
      }
      var actionable := if gap < room then gap else room;
      if actionable > bestGap {
        bestGap := actionable;
        best := Some(c[n]);
        at := n;
      }
    }
    assert g[..|c|] == g;
    if best.Some? {
      NeediestIsUnique(g, at);
    } else {
      assert Neediest(g).None?;
    }
  }

  /** The pool a tick works on. */
  function Chosen(db: Db, c: seq<Id>): Option<Id>
    requires Candidates(db, c)
  {
    match Neediest(Gaps(db, c))
    case Some(i) => Some(c[i])
    case None => None
  }

  /** One tick; `served` are the pools whose cluster has a provider on this broker. */
  function TickOnce(db: Db, c: seq<Id>, served: set<Id>, build: Build): Db
    requires Candidates(db, c)
  {
    match Chosen(db, c)
    case None => db
    case Some(p) => if p in served then ProvisionSpare(db, p, build).0 else db
  }

  method Tick(db: AsyncSession, c: seq<Id>, served: set<Id>, clone: Option<string>, build: Build)
    requires db.Clean() && Candidates(db.State(), c)
    modifies db
    ensures db.Clean() && db.State() == TickOnce(old(db.State()), c, served, BuildOf(clone, build))
  {
    var best := PickNeediestPool(db, c);
    if best.None? || best.value !in served {
      return;
    }
    var reply, d := ProvisionDesktop(db, best.value, None, None, clone, build);
  }

  // ── What one tick does ────────────────────────────────────────────

  function Less(gap: nat): nat {
    if gap == 0 then 0 else gap - 1
  }

  function Inserted(db: Db, row: Desktop): Db {
    db.(desktops := db.desktops[db.nextId := row], nextId := db.nextId + 1)
  }

  lemma RowSets(db: Db, q: Id, row: Desktop)
    requires Inv(db) && row.status in {Available, Error}
    ensures db.nextId !in RowsOf(db, q)
    ensures var added := if q == row.pool then {db.nextId} else {};
            var spare := if row.status == Available then added else {};
            && RowsOf(Inserted(db, row), q) == RowsOf(db, q) + added
            && RowsWithStatus(Inserted(db, row), q, Available) == RowsWithStatus(db, q, Available) + spare
            && CountedRows(Inserted(db, row), q) == CountedRows(db, q) + spare
  {
    assert db.nextId !in db.desktops;
    var db', added := Inserted(db, row), if q == row.pool then {db.nextId} else {};
    var spare := if row.status == Available then added else {};
    assert RowsOf(db', q) == RowsOf(db, q) + added;
    assert RowsWithStatus(db', q, Available) == RowsWithStatus(db, q, Available) + spare;
    assert CountedRows(db', q) == CountedRows(db, q) + spare;
  }

  lemma RowSizes(db: Db, q: Id, row: Desktop)
    requires Inv(db) && row.status in {Available, Error}
    ensures var more := if q == row.pool then 1 else 0;
            var spare := if row.status == Available then more else 0;
            && |RowsOf(Inserted(db, row), q)| == |RowsOf(db, q)| + more
            && |RowsWithStatus(Inserted(db, row), q, Available)| == |RowsWithStatus(db, q, Available)| + spare
            && |CountedRows(Inserted(db, row), q)| == |CountedRows(db, q)| + spare
  {
    RowSets(db, q, row);
    assert RowsWithStatus(db, q, Available) <= RowsOf(db, q) && CountedRows(db, q) <= RowsOf(db, q);
  }

  /** A new row in a pool: a built one fills a gap, a failed one does not, no other pool is affected. */
  lemma RowEffect(db: Db, q: Id, row: Desktop)
    requires Inv(db) && q in db.pools && row.status in {Available, Error}
    ensures Gap(Inserted(db, row), q)
         == if q == row.pool && row.status == Available then Less(Gap(db, q)) else Gap(db, q)
    ensures FreeSlots(Inserted(db, row), q) == if q == row.pool then FreeSlots(db, q) - 1 else FreeSlots(db, q)
  {
    RowSizes(db, q, row);
  }

  /** Where a tick changes nothing. */
  predicate Resting(db: Db, c: seq<Id>, served: set<Id>)
    requires Candidates(db, c)
  {
    match Chosen(db, c)
    case None => true
    case Some(p) => p !in served || FreeSlots(db, p) <= 0
  }

  lemma SumUpdate(g: seq<nat>, i: nat, v: nat)
    requires i < |g|
    ensures Sum(g[i := v]) == Sum(g) - g[i] + v
  {
    if i == 0 {
      assert g[0 := v][1..] == g[1..];
    } else {
      SumUpdate(g[1..], i - 1, v);
      assert g[i := v][1..] == g[1..][i - 1 := v];
    }
  }

  lemma {:induction false} SumZero(g: seq<nat>)
    ensures Sum(g) == 0 <==> Neediest(g) == None
    ensures Sum(g) == 0 <==> forall j | 0 <= j < |g| :: g[j] == 0
  {
    if g != [] {
      SumZero(g[1..]);
      assert forall j | 1 <= j < |g| :: g[j] == g[1..][j - 1];
    }
  }

  /** VMIDs the candidates have left. */
  function FreeOf(db: Db, c: seq<Id>): seq<int>
    requires Candidates(db, c)
  {
    seq(|c|, i requires 0 <= i < |c| => FreeSlots(db, c[i]))
  }

  function Total(s: seq<int>): int {
    if s == [] then 0 else s[0] + Total(s[1..])
  }

  lemma TotalUpdate(s: seq<int>, i: nat, v: int)
    requires i < |s|
    ensures Total(s[i := v]) == Total(s) - s[i] + v
  {
    if i == 0 {
      assert s[0 := v][1..] == s[1..];
    } else {
      TotalUpdate(s[1..], i - 1, v);
      assert s[i := v][1..] == s[1..][i - 1 := v];
    }
  }

  lemma ActiveTick(db: Db, c: seq<Id>, served: set<Id>, build: Build) returns (row: Desktop)
    requires Inv(db) && Candidates(db, c) && !Resting(db, c, served)
    ensures TickOnce(db, c, served, build) == Inserted(db, row) && Inv(Inserted(db, row))
    ensures row.pool == c[Neediest(Gaps(db, c)).value] && row.status == if build.Built? then Available else Error
  {
    var p := c[Neediest(Gaps(db, c)).value];
    OneSpare(db, p, build);
    SpareKeeps(db, p, build);
    row := BuiltRow(db.pools[p], p, FreeVmids(UsedVmids(db, p), db.pools[p].lo, db.pools[p].hi)[0], None, build);
  }

  lemma RowEffects(db: Db, c: seq<Id>, row: Desktop, i: nat)
    requires Inv(db) && Candidates(db, c) && i < |c| && row.pool == c[i] && row.status in {Available, Error}
    ensures Candidates(Inserted(db, row), c)
    ensures Gaps(Inserted(db, row), c)
         == if row.status == Available then Gaps(db, c)[i := Less(Gaps(db, c)[i])] else Gaps(db, c)
    ensures FreeOf(Inserted(db, row), c) == FreeOf(db, c)[i := FreeOf(db, c)[i] - 1]
  {
    forall j | 0 <= j < |c|
      ensures Gap(Inserted(db, row), c[j])
           == if j == i && row.status == Available then Less(Gap(db, c[j])) else Gap(db, c[j])
      ensures FreeSlots(Inserted(db, row), c[j]) == if j == i then FreeSlots(db, c[j]) - 1 else FreeSlots(db, c[j])
    {
      RowEffect(db, c[j], row);
    }
  }

  /** A tick that is not at rest spends one VMID, and fills one gap, that of the chosen pool, if the build succeeds. */
  lemma TickEffect(db: Db, c: seq<Id>, served: set<Id>, build: Build) returns (i: nat)
    requires Inv(db) && Candidates(db, c) && !Resting(db, c, served)
    ensures Neediest(Gaps(db, c)) == Some(i) && i < |c| && Gaps(db, c)[i] > 0
    ensures var db' := TickOnce(db, c, served, build);
            && Inv(db') && Candidates(db', c) && db'.nextId == db.nextId + 1
            && Gaps(db', c) == (if build.Built? then Gaps(db, c)[i := Gaps(db, c)[i] - 1] else Gaps(db, c))
            && FreeOf(db', c) == FreeOf(db, c)[i := FreeOf(db, c)[i] - 1]
  {
    i := Neediest(Gaps(db, c)).value;
    var row := ActiveTick(db, c, served, build);
    RowEffects(db, c, row, i);
  }

  /** A tick changes the database exactly when it is not at rest. */
  lemma RestIsExact(db: Db, c: seq<Id>, served: set<Id>, build: Build)
    requires Inv(db) && Candidates(db, c)
    ensures TickOnce(db, c, served, build) == db <==> Resting(db, c, served)
  {
    if Resting(db, c, served) {
      if Chosen(db, c).Some? {
        var p := Chosen(db, c).value;
        SlotsAreFreeVmids(db, p);
        AllocationTakesFirst(UsedVmids(db, p), db.pools[p].lo, db.pools[p].hi);
      }
    } else {
      var i := TickEffect(db, c, served, build);
    }
  }

  /** Each success lowers the sum of the gaps by exactly one, and the worker idles exactly when the sum is zero. */
  lemma SuccessFillsOneGap(db: Db, c: seq<Id>, served: set<Id>)
    requires Inv(db) && Candidates(db, c)
    ensures Chosen(db, c) == None <==> Sum(Gaps(db, c)) == 0
    ensures !Resting(db, c, served) ==>
              && Candidates(TickOnce(db, c, served, Built), c)
              && Sum(Gaps(TickOnce(db, c, served, Built), c)) == Sum(Gaps(db, c)) - 1
  {
    SumZero(Gaps(db, c));
    if !Resting(db, c, served) {
      var i := TickEffect(db, c, served, Built);
      SumUpdate(Gaps(db, c), i, Gaps(db, c)[i] - 1);
    }
  }

  // ── Runs of ticks ─────────────────────────────────────────────────

  lemma TickSpends(db: Db, c: seq<Id>, served: set<Id>, build: Build)
    requires Inv(db) && Candidates(db, c) && !Resting(db, c, served)
    ensures var db' := TickOnce(db, c, served, build);
            && Inv(db') && Candidates(db', c) && db'.nextId == db.nextId + 1
            && Total(FreeOf(db', c)) == Total(FreeOf(db, c)) - 1
  {
    var i := TickEffect(db, c, served, build);
    TotalUpdate(FreeOf(db, c), i, FreeOf(db, c)[i] - 1);
  }

  lemma TickKeeps(db: Db, c: seq<Id>, served: set<Id>, build: Build)
    requires Inv(db) && Candidates(db, c)
    ensures var db' := TickOnce(db, c, served, build);
            && Inv(db') && Candidates(db', c)
            && (if Resting(db, c, served) then db' == db
                else db'.nextId == db.nextId + 1 && Total(FreeOf(db', c)) == Total(FreeOf(db, c)) - 1)
  {
    if Resting(db, c, served) {
      RestIsExact(db, c, served, build);
    } else {
      TickSpends(db, c, served, build);
    }
  }

  /** A run of ticks, one build outcome each. */
  function Ticks(db: Db, c: seq<Id>, served: set<Id>, builds: seq<Build>): (db': Db)
    requires Inv(db) && Candidates(db, c)
    ensures Inv(db') && Candidates(db', c)
    decreases |builds|
  {
    if builds == [] then db
    else
      TickKeeps(db, c, served, builds[0]);
      Ticks(TickOnce(db, c, served, builds[0]), c, served, builds[1..])
  }

  lemma {:induction false} FreeIsCounted(db: Db, c: seq<Id>, n: nat)
    requires Inv(db) && Candidates(db, c) && n <= |c|
    ensures Total(FreeOf(db, c)[n..]) >= 0
    ensures forall i | n <= i < |c| :: FreeOf(db, c)[i] <= Total(FreeOf(db, c)[n..])
    decreases |c| - n
  {
    if n < |c| {
      FreeIsCounted(db, c, n + 1);
      SlotsAreFreeVmids(db, c[n]);
      assert FreeOf(db, c)[n..][1..] == FreeOf(db, c)[n + 1..];
    }
  }

  /**
   * Whatever the builds do, the ticks that provision number at most the free VMIDs of the candidates; a
   * run that long has come to rest, and then stays there.
   */
  lemma {:induction false} RunsComeToRest(db: Db, c: seq<Id>, served: set<Id>, builds: seq<Build>)
    requires Inv(db) && Candidates(db, c)
    ensures var db' := Ticks(db, c, served, builds);
            && db'.nextId - db.nextId <= Total(FreeOf(db, c))
            && (|builds| >= Total(FreeOf(db, c)) ==> Resting(db', c, served))
            && (Resting(db, c, served) ==> db' == db)
    decreases |builds|
  {
    FreeIsCounted(db, c, 0);
    assert FreeOf(db, c)[0..] == FreeOf(db, c);
    if builds == [] {
      if !Resting(db, c, served) && Total(FreeOf(db, c)) <= 0 {
        var i := Neediest(Gaps(db, c)).value;
        assert FreeOf(db, c)[i] <= 0;
      }
    } else {
      TickKeeps(db, c, served, builds[0]);
      RunsComeToRest(TickOnce(db, c, served, builds[0]), c, served, builds[1..]);
    }
  }

  /** The price of picking one pool a tick: a chosen pool that cannot be served starves all the others. */
  lemma ChosenPoolStarvesOthers(db: Db, c: seq<Id>, served: set<Id>, builds: seq<Build>, p: Id, q: Id)
    requires Inv(db) && Candidates(db, c) && Chosen(db, c) == Some(p) && (p !in served || FreeSlots(db, p) == 0)
    requires q in c && q in served && Gap(db, q) > 0 && FreeSlots(db, q) > 0
    ensures Ticks(db, c, served, builds) == db
  {
    RunsComeToRest(db, c, served, builds);
  }

  /**
   * Failed rows count neither as spares nor against `max_size`: a chosen pool whose builds fail is tried until
   * its whole range is used up, its gap as wide as before.
   */
  lemma {:induction false} FailuresUseUpTheRange(db: Db, c: seq<Id>, served: set<Id>, builds: seq<Build>, p: Id)
    requires Inv(db) && Candidates(db, c) && Chosen(db, c) == Some(p) && p in served
    requires |builds| == FreeSlots(db, p) && forall b | b in builds :: b.BuildFailed?
    ensures var db' := Ticks(db, c, served, builds);
            && p in db'.pools && FreeSlots(db', p) == 0 && Gap(db', p) == Gap(db, p) > 0
            && db'.nextId == db.nextId + |builds|
    decreases |builds|
  {
    if builds != [] {
      var i := TickEffect(db, c, served, builds[0]);
      var db1 := TickOnce(db, c, served, builds[0]);
      assert Gaps(db1, c)[i] == Gap(db1, p) && Gaps(db, c)[i] == Gap(db, p);
      assert FreeOf(db1, c)[i] == FreeSlots(db1, p) && FreeOf(db, c)[i] == FreeSlots(db, p);
      FailuresUseUpTheRange(db1, c, served, builds[1..], p);
    }
  }

  // ── The greedy choice is best ─────────────────────────────────────

  /** What is above `m`, in all. */
  function Excess(g: seq<nat>, m: nat): nat {
    if g == [] then 0 else (if g[0] > m then g[0] - m else 0) + Excess(g[1..], m)
  }

  lemma {:induction false} ExcessUpdate(g: seq<nat>, i: nat, m: nat)
    requires i < |g| && g[i] > 0
    ensures Excess(g[i := g[i] - 1], m) == if g[i] > m then Excess(g, m) - 1 else Excess(g, m)
  {
    if i == 0 {
      assert g[0 := g[0] - 1][1..] == g[1..];
    } else {
      ExcessUpdate(g[1..], i - 1, m);
      assert g[i := g[i] - 1][1..] == g[1..][i - 1 := g[i] - 1];
    }
  }

  lemma {:induction false} ExcessPositive(g: seq<nat>, m: nat)
    ensures Excess(g, m) > 0 <==> exists i :: 0 <= i < |g| && g[i] > m
  {
    if g != [] {
      ExcessPositive(g[1..], m);
      if i :| 0 <= i < |g[1..]| && g[1..][i] > m {
        assert g[i + 1] > m;
      }
      if i :| 0 <= i < |g| && g[i] > m {
        assert i == 0 || g[1..][i - 1] > m;
      }
    }
  }

  lemma MostAbove(g: seq<nat>, m: nat)
    ensures Most(g) > m <==> Excess(g, m) > 0
  {
    ExcessPositive(g, m);
  }

  /** One provisioning in the place `i`. */
  function Fill(g: seq<nat>, i: nat): seq<nat>
    requires i < |g|
  {
    g[i := Less(g[i])]
  }

  /** A schedule of provisionings: the place of each. */
  function FillAll(g: seq<nat>, schedule: seq<nat>): (r: seq<nat>)
    requires forall k | 0 <= k < |schedule| :: schedule[k] < |g|
    ensures |r| == |g|
    decreases |schedule|
  {
    if schedule == [] then g else FillAll(Fill(g, schedule[0]), schedule[1..])
  }

  function GreedyStep(g: seq<nat>): seq<nat> {
    if Neediest(g).Some? then Fill(g, Neediest(g).value) else g
  }

  function Greedy(g: seq<nat>, n: nat): seq<nat>
    decreases n
  {
    if n == 0 then g else Greedy(GreedyStep(g), n - 1)
  }

  lemma {:induction false} ScheduleLowersExcess(g: seq<nat>, schedule: seq<nat>, m: nat)
    requires forall k | 0 <= k < |schedule| :: schedule[k] < |g|
    ensures Excess(FillAll(g, schedule), m) + |schedule| >= Excess(g, m)
    decreases |schedule|
  {
    if schedule != [] {
      if g[schedule[0]] > 0 {
        ExcessUpdate(g, schedule[0], m);
      } else {
        assert Fill(g, schedule[0]) == g;
      }
      ScheduleLowersExcess(Fill(g, schedule[0]), schedule[1..], m);
    }
  }

  lemma {:induction false} GreedyNeverRises(g: seq<nat>, n: nat)
    ensures Most(Greedy(g, n)) <= Most(g)
    decreases n
  {
    if n > 0 {
      GreedyNeverRises(GreedyStep(g), n - 1);
    }
  }

  /** As long as something is left above `m`, every greedy step takes from it. */
  lemma {:induction false} GreedyLowersExcess(g: seq<nat>, n: nat, m: nat)
    requires Most(Greedy(g, n)) > m
    ensures Excess(Greedy(g, n), m) + n == Excess(g, m)
    decreases n
  {
    if n > 0 {
      GreedyNeverRises(g, n);
      ExcessUpdate(g, Neediest(g).value, m);
      GreedyLowersExcess(GreedyStep(g), n - 1, m);
    }
  }

  lemma MostFollowsExcess(a: seq<nat>, b: seq<nat>)
    requires forall m: nat | Most(a) > m :: Excess(b, m) > 0
    ensures Most(a) <= Most(b)
  {
    if Most(a) > 0 {
      MostAbove(b, Most(a) - 1);
    }
  }

  /** No schedule of as many provisionings leaves a smaller greatest gap. */
  lemma GreedyIsMinMax(g: seq<nat>, schedule: seq<nat>)
    requires forall k | 0 <= k < |schedule| :: schedule[k] < |g|
    ensures Most(Greedy(g, |schedule|)) <= Most(FillAll(g, schedule))
  {
    forall m: nat | Most(Greedy(g, |schedule|)) > m
      ensures Excess(FillAll(g, schedule), m) > 0
    {
      GreedyLowersExcess(g, |schedule|, m);
      ScheduleLowersExcess(g, schedule, m);
      MostAbove(Greedy(g, |schedule|), m);
    }
    MostFollowsExcess(Greedy(g, |schedule|), FillAll(g, schedule));
  }

  function Successes(n: nat): seq<Build> {
    seq(n, _ => Built)
  }

  /** No tick of `n` meets a chosen pool without provider or VMID. */
  predicate Unobstructed(db: Db, c: seq<Id>, served: set<Id>, n: nat)
    requires Inv(db) && Candidates(db, c)
    decreases n
  {
    n == 0 || (
      (Resting(db, c, served) ==> Chosen(db, c) == None)
      && (TickKeeps(db, c, served, Built); Unobstructed(TickOnce(db, c, served, Built), c, served, n - 1)))
  }

  /** The ticks are the greedy algorithm on the gaps. */
  lemma {:induction false} TicksAreGreedy(db: Db, c: seq<Id>, served: set<Id>, n: nat)
    requires Inv(db) && Candidates(db, c) && Unobstructed(db, c, served, n)
    ensures Gaps(Ticks(db, c, served, Successes(n)), c) == Greedy(Gaps(db, c), n)
    decreases n
  {
    if n > 0 {
      TickKeeps(db, c, served, Built);
      if !Resting(db, c, served) {
        var i := TickEffect(db, c, served, Built);
      }
      TicksAreGreedy(TickOnce(db, c, served, Built), c, served, n - 1);
      assert Successes(n)[1..] == Successes(n - 1);
    }
  }

  /** `n` unobstructed successful ticks leave the smallest greatest gap `n` provisionings can leave. */
  lemma TicksAreMinMax(db: Db, c: seq<Id>, served: set<Id>, schedule: seq<nat>)
    requires Inv(db) && Candidates(db, c) && Unobstructed(db, c, served, |schedule|)
    requires forall k | 0 <= k < |schedule| :: schedule[k] < |c|
    ensures Most(Gaps(Ticks(db, c, served, Successes(|schedule|)), c)) <= Most(FillAll(Gaps(db, c), schedule))
  {
    TicksAreGreedy(db, c, served, |schedule|);
    GreedyIsMinMax(Gaps(db, c), schedule);
  }
}

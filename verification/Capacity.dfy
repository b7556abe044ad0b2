/** The capacity an operator is shown, and why it is exact: as many allocations succeed as slots are shown free. */
module Capacity {
  import opened Entities
  import opened Lifecycle
  import opened Invariant
  import opened Store

  const STATUSES := {Provisioning, Available, Assigned, Connected, Disconnected, Error, Deleting, Maintenance}

  lemma InStatuses(st: DesktopStatus)
    ensures st in STATUSES
  {
  }

  /** The result of counting a pool's rows grouped by status: one entry for each status some row has. */
  ghost predicate IsGroupedCount(db: Db, p: Id, groups: seq<(DesktopStatus, nat)>) {
    && (forall i, j | 0 <= i < j < |groups| :: groups[i].0 != groups[j].0)
    && (forall i | 0 <= i < |groups| :: groups[i].1 == |RowsWithStatus(db, p, groups[i].0)|)
    && (forall d | d in RowsOf(db, p) :: exists i :: 0 <= i < |groups| && groups[i].0 == db.desktops[d].status)
  }

  /** The rows whose status is among the first `n` groups. */
  ghost function RowsInGroups(db: Db, p: Id, groups: seq<(DesktopStatus, nat)>, n: nat): set<Id>
    requires n <= |groups|
  {
    set d | d in RowsOf(db, p) && exists i :: 0 <= i < n && groups[i].0 == db.desktops[d].status
  }

  lemma OneMoreGroup(db: Db, p: Id, groups: seq<(DesktopStatus, nat)>, n: nat)
    requires n < |groups| && IsGroupedCount(db, p, groups)
    ensures |RowsInGroups(db, p, groups, n + 1)| == |RowsInGroups(db, p, groups, n)| + groups[n].1
  {
    var before, rows := RowsInGroups(db, p, groups, n), RowsWithStatus(db, p, groups[n].0);
    assert RowsInGroups(db, p, groups, n + 1) == before + rows;
    assert before !! rows;
  }

  function SumTo(groups: seq<(DesktopStatus, nat)>, n: nat): nat
    requires n <= |groups|
  {
    if n == 0 then 0 else SumTo(groups, n - 1) + groups[n - 1].1
  }

  lemma {:induction false} SumToIsRows(db: Db, p: Id, groups: seq<(DesktopStatus, nat)>, n: nat)
    requires n <= |groups| && IsGroupedCount(db, p, groups)
    ensures SumTo(groups, n) == |RowsInGroups(db, p, groups, n)|
  {
    if n == 0 {
      assert RowsInGroups(db, p, groups, 0) == {};
    } else {
      SumToIsRows(db, p, groups, n - 1);
      OneMoreGroup(db, p, groups, n - 1);
    }
  }

  lemma AllGroups(db: Db, p: Id, groups: seq<(DesktopStatus, nat)>)
    requires IsGroupedCount(db, p, groups)
    ensures RowsInGroups(db, p, groups, |groups|) == RowsOf(db, p)
    ensures forall st | (forall i | 0 <= i < |groups| :: groups[i].0 != st) :: RowsWithStatus(db, p, st) == {}
  {
    forall st, d | (forall i | 0 <= i < |groups| :: groups[i].0 != st) && d in RowsOf(db, p)
      ensures d !in RowsWithStatus(db, p, st)
    {
      assert exists i :: 0 <= i < |groups| && groups[i].0 == db.desktops[d].status;
    }
  }

  /** What the counting loop has recorded for a status after `n` groups. */
  function Recorded(groups: seq<(DesktopStatus, nat)>, n: nat, st: DesktopStatus): nat
    requires n <= |groups|
  {
    if n == 0 then 0 else if groups[n - 1].0 == st then groups[n - 1].1 else Recorded(groups, n - 1, st)
  }

  lemma {:induction false} RecordedCount(db: Db, p: Id, groups: seq<(DesktopStatus, nat)>, n: nat, st: DesktopStatus)
    requires n <= |groups| && IsGroupedCount(db, p, groups)
    ensures if exists i :: 0 <= i < n && groups[i].0 == st
            then Recorded(groups, n, st) == |RowsWithStatus(db, p, st)|
            else Recorded(groups, n, st) == 0
  {
    if n > 0 && groups[n - 1].0 != st {
      RecordedCount(db, p, groups, n - 1, st);
    }
  }

  lemma AllRecorded(db: Db, p: Id, groups: seq<(DesktopStatus, nat)>)
    requires IsGroupedCount(db, p, groups)
    ensures SumTo(groups, |groups|) == |RowsOf(db, p)|
    ensures forall st :: Recorded(groups, |groups|, st) == |RowsWithStatus(db, p, st)|
  {
    AllGroups(db, p, groups);
    SumToIsRows(db, p, groups, |groups|);
    forall st
      ensures Recorded(groups, |groups|, st) == |RowsWithStatus(db, p, st)|
    {
      RecordedCount(db, p, groups, |groups|, st);
    }
  }

  /** `_compute_capacity`: `groups` is the grouped count query's result. */
  method ComputeCapacity(db: AsyncSession, p: Id, groups: seq<(DesktopStatus, nat)>)
    returns (counts: map<DesktopStatus, nat>, total: nat, free: int)
    requires p in db.pools && IsGroupedCount(db.State(), p, groups)
    ensures counts.Keys == STATUSES && forall st | st in counts :: counts[st] == |RowsWithStatus(db.State(), p, st)|
    ensures total == |RowsOf(db.State(), p)|
    ensures free == FreeSlots(db.State(), p)
  {
    counts := map st | st in STATUSES :: 0;
    total := 0;
    for n := 0 to |groups|
      invariant counts.Keys == STATUSES && forall st | st in counts :: counts[st] == Recorded(groups, n, st)
      invariant total == SumTo(groups, n)
    {
      InStatuses(groups[n].0);
      counts := counts[groups[n].0 := groups[n].1];
      total := total + groups[n].1;
    }
    AllRecorded(db.State(), p, groups);
    free := db.pools[p].hi - db.pools[p].lo + 1 - total;
  }

  function FreeSlots(db: Db, p: Id): int
    requires p in db.pools
  {
    db.pools[p].hi - db.pools[p].lo + 1 - |RowsOf(db, p)|
  }

  function SumOfCounts(db: Db, p: Id, statuses: seq<DesktopStatus>): nat {
    if statuses == [] then 0 else |RowsWithStatus(db, p, statuses[0])| + SumOfCounts(db, p, statuses[1..])
  }

  function RowsWithin(db: Db, p: Id, statuses: seq<DesktopStatus>): set<Id> {
    set d | d in RowsOf(db, p) && db.desktops[d].status in statuses
  }

  lemma {:induction false} SumOfCountsExact(db: Db, p: Id, statuses: seq<DesktopStatus>)
    requires forall i, j | 0 <= i < j < |statuses| :: statuses[i] != statuses[j]
    ensures SumOfCounts(db, p, statuses) == |RowsWithin(db, p, statuses)|
  {
    if statuses == [] {
      assert RowsWithin(db, p, statuses) == {};
    } else {
      var head, rest := RowsWithStatus(db, p, statuses[0]), RowsWithin(db, p, statuses[1..]);
      SumOfCountsExact(db, p, statuses[1..]);
      assert statuses == [statuses[0]] + statuses[1..];
      assert RowsWithin(db, p, statuses) == head + rest;
      assert head !! rest;
    }
  }

  /** The per-status counts add up to the total. */
  lemma StatusesPartition(db: Db, p: Id)
    ensures |RowsOf(db, p)|
         == SumOfCounts(db, p, [Provisioning, Available, Assigned, Connected, Disconnected, Error, Deleting,
                                Maintenance])
  {
    var all := [Provisioning, Available, Assigned, Connected, Disconnected, Error, Deleting, Maintenance];
    SumOfCountsExact(db, p, all);
    forall d | d in RowsOf(db, p)
      ensures db.desktops[d].status in all
    {
      assert all[0] == Provisioning && all[1] == Available && all[2] == Assigned && all[3] == Connected
             && all[4] == Disconnected && all[5] == Error && all[6] == Deleting && all[7] == Maintenance;
    }
    assert RowsWithin(db, p, all) == RowsOf(db, p);
  }

  // ── Free VMIDs ────────────────────────────────────────────────────

  /** The free VMIDs of a range, in increasing order. */
  function FreeVmids(used: set<int>, lo: int, hi: int): seq<int>
    decreases hi - lo
  {
    if lo > hi then []
    else if lo in used then FreeVmids(used, lo + 1, hi)
    else [lo] + FreeVmids(used, lo + 1, hi)
  }

  lemma {:induction false} FreeVmidsExact(used: set<int>, lo: int, hi: int)
    ensures forall v :: v in FreeVmids(used, lo, hi) <==> lo <= v <= hi && v !in used
    decreases hi - lo
  {
    if lo <= hi {
      FreeVmidsExact(used, lo + 1, hi);
    }
  }

  lemma {:induction false} FreeVmidsIncrease(used: set<int>, lo: int, hi: int, i: nat, j: nat)
    requires i < j < |FreeVmids(used, lo, hi)|
    ensures FreeVmids(used, lo, hi)[i] < FreeVmids(used, lo, hi)[j]
    decreases hi - lo
  {
    if lo in used {
      FreeVmidsIncrease(used, lo + 1, hi, i, j);
    } else if i > 0 {
      FreeVmidsIncrease(used, lo + 1, hi, i - 1, j - 1);
    } else {
      FreeVmidsExact(used, lo + 1, hi);
      assert FreeVmids(used, lo, hi)[j] in FreeVmids(used, lo + 1, hi);
    }
  }

  lemma {:induction false} FreeVmidsCount(used: set<int>, lo: int, hi: int)
    requires lo <= hi + 1 && forall v | v in used :: lo <= v <= hi
    ensures |FreeVmids(used, lo, hi)| == hi - lo + 1 - |used|
    decreases hi - lo
  {
    if lo <= hi {
      FreeVmidsCount(used - {lo}, lo + 1, hi);
      FreeVmidsFrame(used, used - {lo}, lo + 1, hi);
    } else {
      assert used == {};
    }
  }

  lemma {:induction false} FreeVmidsFrame(used: set<int>, other: set<int>, lo: int, hi: int)
    requires forall v | lo <= v <= hi :: v in used <==> v in other
    ensures FreeVmids(used, lo, hi) == FreeVmids(other, lo, hi)
    decreases hi - lo
  {
    if lo <= hi {
      FreeVmidsFrame(used, other, lo + 1, hi);
    }
  }

  /** Allocation takes the first free VMID and leaves the others, in their order. */
  lemma {:induction false} AllocationTakesFirst(used: set<int>, lo: int, hi: int)
    ensures var free := FreeVmids(used, lo, hi);
            if free == [] then LowestFree(used, lo, hi) == None
            else LowestFree(used, lo, hi) == Some(free[0]) && FreeVmids(used + {free[0]}, lo, hi) == free[1..]
    decreases hi - lo
  {
    if lo <= hi {
      if lo in used {
        AllocationTakesFirst(used, lo + 1, hi);
      } else {
        FreeVmidsFrame(used, used + {lo}, lo + 1, hi);
      }
    }
  }

  // ── Capacity is exact ─────────────────────────────────────────────

  lemma {:induction false} VmidsCount(db: Db, rows: set<Id>)
    requires rows <= db.desktops.Keys
    requires forall d, e | d in rows && e in rows && d != e :: db.desktops[d].vmid != db.desktops[e].vmid
    ensures |set d | d in rows :: db.desktops[d].vmid| == |rows|
    decreases |rows|
  {
    if rows != {} {
      var d :| d in rows;
      VmidsCount(db, rows - {d});
      assert (set e | e in rows :: db.desktops[e].vmid)
          == (set e | e in rows - {d} :: db.desktops[e].vmid) + {db.desktops[d].vmid};
    }
  }

  /** Each row holds one VMID of its pool's range, so the slots shown free are the free VMIDs of the range. */
  lemma SlotsAreFreeVmids(db: Db, p: Id)
    requires Inv(db) && p in db.pools
    ensures FreeSlots(db, p) == |FreeVmids(UsedVmids(db, p), db.pools[p].lo, db.pools[p].hi)|
    ensures FreeSlots(db, p) >= 0
  {
    forall d, e | d in RowsOf(db, p) && e in RowsOf(db, p) && d != e
      ensures db.desktops[d].vmid != db.desktops[e].vmid
    {
      assert Distinct(db.desktops[d], db.desktops[e]);
    }
    VmidsCount(db, RowsOf(db, p));
    assert UsedVmids(db, p) == set d | d in RowsOf(db, p) :: db.desktops[d].vmid by {
      assert forall d | d in RowsOf(db, p) :: RowOk(db, db.desktops[d]);
    }
    FreeVmidsCount(UsedVmids(db, p), db.pools[p].lo, db.pools[p].hi);
  }

  function ProvisionAll(db: Db, p: Id, builds: seq<Build>): Db
    decreases |builds|
  {
    if builds == [] then db else ProvisionAll(ProvisionSpare(db, p, builds[0]).0, p, builds[1..])
  }

  /** One provisioning of an active pool with a free slot: the first free VMID, whatever becomes of the build. */
  lemma OneSpare(db: Db, p: Id, build: Build)
    requires Inv(db) && p in db.pools && db.pools[p].status == PoolActive && FreeSlots(db, p) > 0
    ensures var free := FreeVmids(UsedVmids(db, p), db.pools[p].lo, db.pools[p].hi);
            && free != []
            && ProvisionSpare(db, p, build).0
               == db.(desktops := db.desktops[db.nextId := BuiltRow(db.pools[p], p, free[0], None, build)],
                      nextId := db.nextId + 1)
  {
    SlotsAreFreeVmids(db, p);
    AllocationTakesFirst(UsedVmids(db, p), db.pools[p].lo, db.pools[p].hi);
  }

  lemma InsertedRows(db: Db, p: Id, row: Desktop)
    requires Inv(db) && row.pool == p
    ensures RowsOf(db.(desktops := db.desktops[db.nextId := row], nextId := db.nextId + 1), p)
         == RowsOf(db, p) + {db.nextId}
    ensures db.nextId !in RowsOf(db, p)
  {
  }

  lemma InsertedVmid(db: Db, p: Id, row: Desktop)
    requires Inv(db) && p in db.pools && row.pool == p && db.pools[p].lo <= row.vmid <= db.pools[p].hi
    ensures UsedVmids(db.(desktops := db.desktops[db.nextId := row], nextId := db.nextId + 1), p)
         == UsedVmids(db, p) + {row.vmid}
  {
    var db' := db.(desktops := db.desktops[db.nextId := row], nextId := db.nextId + 1);
    InsertedRows(db, p, row);
    forall v | v in UsedVmids(db, p)
      ensures v in UsedVmids(db', p)
    {
      var d :| d in RowsOf(db, p) && db.desktops[d].vmid == v;
      assert d in RowsOf(db', p) && db'.desktops[d] == db.desktops[d];
    }
    assert db.nextId in RowsOf(db', p);
    forall v | v in UsedVmids(db', p)
      ensures v in UsedVmids(db, p) + {row.vmid}
    {
      var d :| d in RowsOf(db', p) && db'.desktops[d].vmid == v;
      assert d == db.nextId || d in RowsOf(db, p);
    }
  }

  lemma OneSlotLess(db: Db, p: Id, build: Build)
    requires Inv(db) && p in db.pools && db.pools[p].status == PoolActive && FreeSlots(db, p) > 0
    ensures var free := FreeVmids(UsedVmids(db, p), db.pools[p].lo, db.pools[p].hi);
            var db1 := ProvisionSpare(db, p, build).0;
            && Inv(db1) && db1.pools == db.pools && db1.nextId == db.nextId + 1 && free != []
            && FreeSlots(db1, p) == FreeSlots(db, p) - 1
            && FreeVmids(UsedVmids(db1, p), db.pools[p].lo, db.pools[p].hi) == free[1..]
            && HasVmid(db1, db.nextId, free[0])
            && (forall d | d in db.desktops :: d in db1.desktops && db1.desktops[d] == db.desktops[d])
  {
    var lo, hi, used := db.pools[p].lo, db.pools[p].hi, UsedVmids(db, p);
    OneSpare(db, p, build);
    SpareKeeps(db, p, build);
    AllocationTakesFirst(used, lo, hi);
    FreeVmidsExact(used, lo, hi);
    var row := BuiltRow(db.pools[p], p, FreeVmids(used, lo, hi)[0], None, build);
    InsertedRows(db, p, row);
    InsertedVmid(db, p, row);
  }

  lemma {:induction false} ProvisionAllFrame(db: Db, p: Id, builds: seq<Build>, d: Id, vmid: int)
    requires HasVmid(db, d, vmid) && d < db.nextId
    ensures HasVmid(ProvisionAll(db, p, builds), d, vmid)
    decreases |builds|
  {
    if builds != [] {
      ProvisionAllFrame(ProvisionSpare(db, p, builds[0]).0, p, builds[1..], d, vmid);
    }
  }

  /**
   * With `n` slots shown free in an active pool, the next `n` provisionings get the free VMIDs in
   * increasing order, whether their builds succeed or fail ...
   */
  lemma {:induction false} FreeSlotsAreFilledInOrder(db: Db, p: Id, builds: seq<Build>, i: nat)
    requires Inv(db) && p in db.pools && db.pools[p].status == PoolActive
    requires i < |builds| == FreeSlots(db, p)
    ensures var free := FreeVmids(UsedVmids(db, p), db.pools[p].lo, db.pools[p].hi);
            |free| == |builds| && HasVmid(ProvisionAll(db, p, builds), db.nextId + i, free[i])
    decreases |builds|
  {
    var db1 := ProvisionSpare(db, p, builds[0]).0;
    SlotsAreFreeVmids(db, p);
    OneSlotLess(db, p, builds[0]);
    if i == 0 {
      ProvisionAllFrame(db1, p, builds[1..], db.nextId, db1.desktops[db.nextId].vmid);
    } else {
      FreeSlotsAreFilledInOrder(db1, p, builds[1..], i - 1);
    }
  }

  /** ... and the one after them finds the range exhausted. */
  lemma {:induction false} ThenExhausted(db: Db, p: Id, builds: seq<Build>, build: Build)
    requires Inv(db) && p in db.pools && db.pools[p].status == PoolActive && |builds| == FreeSlots(db, p)
    ensures ProvisionSpare(ProvisionAll(db, p, builds), p, build).1 == RangeExhausted
    decreases |builds|
  {
    if builds == [] {
      SlotsAreFreeVmids(db, p);
      AllocationTakesFirst(UsedVmids(db, p), db.pools[p].lo, db.pools[p].hi);
    } else {
      OneSlotLess(db, p, builds[0]);
      ThenExhausted(ProvisionSpare(db, p, builds[0]).0, p, builds[1..], build);
    }
  }

  predicate HasVmid(db: Db, d: Id, vmid: int) {
    d in db.desktops && db.desktops[d].vmid == vmid
  }
}

/** `validate_pool_range`: what it rejects, and the colliding VMIDs it names. */
module PoolRange {
  import opened Entities
  import opened Lifecycle
  import opened Store

  /** A VM the provider lists; references without an integer VMID are passed over. */
  datatype LiveVm = LiveVm(vmid: int) | UnreadableVm

  /** `source` says whether other pools or live VMs own the colliding VMIDs. */
  datatype Source = FromDb | FromProxmox

  datatype Verdict = Clear | RangeConflict(conflicts: seq<int>, source: Source)

  predicate Between(v: int, lo: int, hi: int) {
    lo <= v <= hi
  }

  /** Another pool's range meets the proposed one; an update does not count the pool itself. */
  predicate Rival(db: Db, p: Id, start: int, end: int, exclude: Option<Id>) {
    p in db.pools && Some(p) != exclude && Meets(db.pools[p], start, end)
  }

  function Others(db: Db, exclude: Option<Id>): set<Id> {
    set p | p in db.pools && Some(p) != exclude
  }

  function Rivals(db: Db, start: int, end: int, exclude: Option<Id>): set<Id> {
    set p | p in db.pools && Rival(db, p, start, end, exclude)
  }

  /** `v` is in the range of one of `ps`. */
  predicate OwnedBy(db: Db, ps: set<Id>, v: int) {
    exists p :: p in ps && p in db.pools && Between(v, db.pools[p].lo, db.pools[p].hi)
  }

  function LiveVmids(live: seq<LiveVm>): set<int> {
    set vm | vm in live && vm.LiveVm? :: vm.vmid
  }

  /** `sorted` on a set of VMIDs of `lo..hi`. */
  function Sorted(s: set<int>, lo: int, hi: int): seq<int>
    decreases hi - lo
  {
    if lo > hi then [] else (if lo in s then [lo] else []) + Sorted(s, lo + 1, hi)
  }

  predicate Increasing(s: seq<int>) {
    forall i, j | 0 <= i < j < |s| :: s[i] < s[j]
  }

  lemma PrependKeepsOrder(v: int, rest: seq<int>)
    requires Increasing(rest) && forall w | w in rest :: v < w
    ensures Increasing([v] + rest)
  {
    assert forall i | 0 <= i < |rest| :: rest[i] in rest;
  }

  lemma {:induction false} SortedExact(s: set<int>, lo: int, hi: int)
    ensures forall v :: v in Sorted(s, lo, hi) <==> v in s && lo <= v <= hi
    ensures Increasing(Sorted(s, lo, hi))
    decreases hi - lo
  {
    if lo <= hi {
      SortedExact(s, lo + 1, hi);
      var rest := Sorted(s, lo + 1, hi);
      PrependKeepsOrder(lo, rest);
      assert Sorted(s, lo, hi) == if lo in s then [lo] + rest else rest;
    }
  }

  method DbConflicts(db: AsyncSession, start: int, end: int, exclude: Option<Id>)
    returns (found: bool, conflicts: set<int>)
    ensures found <==> exists p :: Rival(db.State(), p, start, end, exclude)
    ensures forall v :: v in conflicts
                        <==> start <= v <= end && OwnedBy(db.State(), Rivals(db.State(), start, end, exclude), v)
  {
    ghost var rivals := Rivals(db.State(), start, end, exclude);
    var rows := Rivals(db.State(), start, end, exclude);
    found, conflicts := rows != {}, {};
    assert forall p :: Rival(db.State(), p, start, end, exclude) <==> p in rivals;
    while rows != {}
      invariant rows <= rivals
      invariant forall v :: v in conflicts <==> start <= v <= end && OwnedBy(db.State(), rivals - rows, v)
    {
      var p :| p in rows;
      var lo := if db.pools[p].lo > start then db.pools[p].lo else start;
      var hi := if db.pools[p].hi < end then db.pools[p].hi else end;
      conflicts := conflicts + set v: int | lo <= v <= hi && Between(v, lo, hi);
      forall v
        ensures OwnedBy(db.State(), rivals - (rows - {p}), v)
                <==> OwnedBy(db.State(), rivals - rows, v) || Between(v, db.pools[p].lo, db.pools[p].hi)
      {
        assert rivals - (rows - {p}) == rivals - rows + {p};
      }
      rows := rows - {p};
    }
    assert rivals - rows == rivals;
  }

  method ProxmoxConflicts(live: seq<LiveVm>, start: int, end: int) returns (hits: seq<int>)
    ensures forall v :: v in hits <==> start <= v <= end && v in LiveVmids(live)
    ensures forall v :: v in hits <==> start <= v <= end && LiveVm(v) in live
  {
    hits := [];
    for i := 0 to |live|
      invariant forall v :: v in hits <==> v in LiveVmids(live[..i]) && start <= v <= end
    {
      assert live[..i + 1] == live[..i] + [live[i]];
      if live[i].LiveVm? && start <= live[i].vmid <= end {
        hits := hits + [live[i].vmid];
      }
    }
    assert live[..|live|] == live;
  }

  /**
   * Rejected exactly when another pool's range meets the proposal or a live VM lies in it; a clash with
   * a pool is reported first. The conflicts are the colliding VMIDs, each once, in increasing order.
   */
  method ValidatePoolRange(db: AsyncSession, start: int, end: int, exclude: Option<Id>, live: seq<LiveVm>)
    returns (verdict: Verdict)
    ensures verdict.RangeConflict? && verdict.source == FromDb
            <==> exists p :: Rival(db.State(), p, start, end, exclude)
    ensures verdict.RangeConflict?
            <==> || (exists v | v in LiveVmids(live) :: start <= v <= end)
                 || (exists p :: Rival(db.State(), p, start, end, exclude))
    ensures verdict.RangeConflict? ==>
              && Increasing(verdict.conflicts)
              && forall v :: v in verdict.conflicts <==>
                   (start <= v <= end
                    && if verdict.source == FromProxmox then v in LiveVmids(live)
                       else OwnedBy(db.State(), Rivals(db.State(), start, end, exclude), v))
  {
    var found, owned := DbConflicts(db, start, end, exclude);
    if found {
      SortedExact(owned, start, end);
      return RangeConflict(Sorted(owned, start, end), FromDb);
    }
    var hits := ProxmoxConflicts(live, start, end);
    if hits != [] {
      var distinct := set v | v in hits;
      SortedExact(distinct, start, end);
      var v := hits[0];
      assert v in hits;
      assert v in LiveVmids(live);
      return RangeConflict(Sorted(distinct, start, end), FromProxmox);
    }
    return Clear;
  }

  /** For ranges that are not empty, meeting is sharing a VMID: the test rejects no more and no less. */
  lemma MeetingIsSharing(db: Db, start: int, end: int, exclude: Option<Id>)
    requires start <= end && forall p | p in db.pools :: db.pools[p].lo <= db.pools[p].hi
    ensures (exists p :: Rival(db, p, start, end, exclude))
            <==> exists v :: Between(v, start, end) && OwnedBy(db, Others(db, exclude), v)
  {
    var others := Others(db, exclude);
    if p :| Rival(db, p, start, end, exclude) {
      var v := if db.pools[p].lo > start then db.pools[p].lo else start;
      assert p in others && Between(v, start, end) && Between(v, db.pools[p].lo, db.pools[p].hi);
    }
    if v :| Between(v, start, end) && OwnedBy(db, others, v) {
      var p :| p in others && p in db.pools && Between(v, db.pools[p].lo, db.pools[p].hi);
      assert Rival(db, p, start, end, exclude);
    }
  }
}

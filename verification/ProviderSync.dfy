/**
 * The broker's providers, one per cluster, reconciled with the cluster rows by the health checker, replaced by
 * rotations and dropped by deletions, while rows are written at any time.
 */
module ProviderSync {
  import opened Entities

  /** What becomes of the provider a rotation builds. */
  datatype Attempt = NotBuilt | Unreachable | Answers

  datatype Reply = Done | NotFound | Conflict | Invalid | ProviderFailed | CommitFailed

  /** A cluster's row: its `updated_at`, and the version of its connection settings. */
  datatype Row = Row(updatedAt: nat, config: nat)

  /** `config` names the version of the settings it was built from. */
  datatype Provider = Provider(serial: nat, config: nat)

  /** `closed` has every provider `close` was called on. */
  datatype Registry = Registry(
    providers: map<Id, Provider>, constructedAt: map<Id, nat>, closed: set<Provider>, next: nat)

  predicate Shared(r: Registry, c: Id, e: Id) {
    c in r.providers && e in r.providers && c != e && r.providers[c] == r.providers[e]
  }

  predicate InService(r: Registry, c: Id)
    requires c in r.providers
  {
    r.providers[c].serial < r.next && r.providers[c] !in r.closed
  }

  /** No provider serves two clusters, and none in service is closed. */
  ghost predicate Sound(r: Registry) {
    && (forall c | c in r.providers :: InService(r, c))
    && (forall c, e :: !Shared(r, c, e))
    && (forall p | p in r.closed :: p.serial < r.next)
  }

  /** The stamp is missing or older than the row. */
  predicate Due(constructedAt: map<Id, nat>, c: Id, updatedAt: nat) {
    c !in constructedAt || updatedAt > constructedAt[c]
  }

  /** `rows` are the clusters to serve. */
  function DueOf(r: Registry, rows: map<Id, Row>): set<Id> {
    set c | c in rows && Due(r.constructedAt, c, rows[c].updatedAt)
  }

  function GoneOf(r: Registry, rows: map<Id, Row>): set<Id> {
    set c | c in r.providers && c !in rows
  }

  function ProvidersOf(providers: map<Id, Provider>, ids: set<Id>): set<Provider> {
    set c | c in ids && c in providers :: providers[c]
  }

  /** An up-to-date cluster keeps its provider and its stamp. */
  predicate Untouched(r: Registry, r': Registry, c: Id) {
    && (c in r'.providers <==> c in r.providers) && (c in r.providers ==> r'.providers[c] == r.providers[c])
    && (c in r'.constructedAt <==> c in r.constructedAt)
    && (c in r.constructedAt ==> r'.constructedAt[c] == r.constructedAt[c])
  }

  /**
   * A due cluster has a new provider, built from the row, and a new stamp; or it has none, when the
   * construction failed. `built` has the clusters whose construction succeeds, with the time of the stamp.
   */
  predicate Rebuilt(r: Registry, r': Registry, rows: map<Id, Row>, built: map<Id, nat>, c: Id) {
    if c in rows && c in built then
      && c in r'.providers && r'.providers[c].config == rows[c].config && r'.providers[c].serial >= r.next
      && c in r'.constructedAt && r'.constructedAt[c] == built[c]
    else
      && c !in r'.providers && (c in r'.constructedAt <==> c in r.constructedAt)
      && (c in r.constructedAt ==> r'.constructedAt[c] == r.constructedAt[c])
  }

  predicate Removed(r': Registry, c: Id) {
    c !in r'.providers && c !in r'.constructedAt
  }

  /**
   * What a reconciliation leaves: old providers that are up to date, new ones for the due clusters that
   * could be built, and nothing else; exactly what was taken out has been closed.
   */
  ghost predicate SyncedTo(r: Registry, r': Registry, rows: map<Id, Row>, built: map<Id, nat>) {
    var due, gone := DueOf(r, rows), GoneOf(r, rows);
    && (forall c {:trigger Rebuilt(r, r', rows, built, c)} | c in due :: Rebuilt(r, r', rows, built, c))
    && (forall c {:trigger Removed(r', c)} | c in gone :: Removed(r', c))
    && (forall c {:trigger Untouched(r, r', c)} | c !in due && c !in gone :: Untouched(r, r', c))
    && r'.closed == r.closed + ProvidersOf(r.providers, gone + due)
  }

  lemma ProvidersOfPlus(providers: map<Id, Provider>, ids: set<Id>, c: Id)
    ensures ProvidersOf(providers, ids + {c})
         == ProvidersOf(providers, ids) + if c in providers then {providers[c]} else {}
  {
  }

  /** A cluster not handled yet still has a provider nobody has closed. */
  lemma NotYetClosed(r: Registry, handled: set<Id>, c: Id)
    requires Sound(r) && c in r.providers && c !in handled
    ensures r.providers[c] !in r.closed + ProvidersOf(r.providers, handled)
  {
    assert InService(r, c);
    forall e | e in handled && e in r.providers
      ensures r.providers[e] != r.providers[c]
    {
      assert !Shared(r, c, e);
    }
  }

  lemma SoundAfter(r: Registry, r': Registry, handled: set<Id>)
    requires Sound(r) && r.next <= r'.next && r'.closed == r.closed + ProvidersOf(r.providers, handled)
    requires forall c | c in r'.providers && r'.providers[c].serial < r.next ::
               c in r.providers && c !in handled && r'.providers[c] == r.providers[c]
    requires forall c | c in r'.providers :: r'.providers[c].serial < r'.next
    requires forall c, e | c in r'.providers && e in r'.providers && c != e && r'.providers[c].serial >= r.next ::
               r'.providers[c] != r'.providers[e]
    ensures Sound(r')
  {
    forall p | p in r'.closed
      ensures p.serial < r.next
    {
      if p !in r.closed {
        var c :| c in handled && c in r.providers && r.providers[c] == p;
        assert InService(r, c);
      }
    }
    forall c | c in r'.providers
      ensures InService(r', c)
    {
      if r'.providers[c].serial < r.next {
        NotYetClosed(r, handled, c);
      }
    }
    forall c, e
      ensures !Shared(r', c, e)
    {
      assert !Shared(r, c, e);
    }
  }

  lemma UnionAssociates(a: set<Provider>, b: set<Provider>, c: set<Provider>)
    ensures (a + b) + c == a + (b + c)
  {
  }

  /** The provider is taken out and closed. */
  function Popped(r: Registry, c: Id): Registry {
    r.(providers := r.providers - {c}, closed := r.closed + ProvidersOf(r.providers, {c}))
  }

  /** A provider of the given settings is put in, whatever is there. */
  function Stored(r: Registry, c: Id, config: nat): Registry {
    r.(providers := r.providers[c := Provider(r.next, config)], next := r.next + 1)
  }

  function Stamped(r: Registry, c: Id, stamp: nat): Registry {
    r.(constructedAt := r.constructedAt[c := stamp])
  }

  function Reconstructed(r: Registry, c: Id, config: nat, stamp: Option<nat>): Registry {
    match stamp
    case None => Popped(r, c)
    case Some(t) => Stamped(Stored(Popped(r, c), c, config), c, t)
  }

  /** The provider is taken out and left open. */
  function Taken(r: Registry, c: Id): Registry {
    r.(providers := r.providers - {c})
  }

  lemma PoppedSound(r: Registry, c: Id)
    requires Sound(r)
    ensures Sound(Popped(r, c))
  {
    SoundAfter(r, Popped(r, c), {c});
  }

  lemma StoredSound(r: Registry, c: Id, config: nat)
    requires Sound(r)
    ensures Sound(Stored(r, c, config))
  {
    var r' := Stored(r, c, config);
    forall d | d in r'.providers
      ensures InService(r', d)
    {
      assert d != c ==> InService(r, d);
    }
    forall d, e
      ensures !Shared(r', d, e)
    {
      assert !Shared(r, d, e);
      assert d in r.providers ==> InService(r, d);
      assert e in r.providers ==> InService(r, e);
    }
  }

  /** A provider is built, does not answer and is closed again. */
  function Discarded(r: Registry, config: nat): Registry {
    r.(closed := r.closed + {Provider(r.next, config)}, next := r.next + 1)
  }

  lemma DiscardedSound(r: Registry, config: nat)
    requires Sound(r)
    ensures Sound(Discarded(r, config)) && Provider(r.next, config) !in r.closed
  {
    var r' := Discarded(r, config);
    forall d | d in r'.providers
      ensures InService(r', d)
    {
      assert InService(r, d);
    }
    forall d, e
      ensures !Shared(r', d, e)
    {
      assert !Shared(r, d, e);
    }
  }

  lemma StampedSound(r: Registry, c: Id, stamp: nat)
    requires Sound(r)
    ensures Sound(Stamped(r, c, stamp))
  {
    forall d | d in r.providers
      ensures InService(Stamped(r, c, stamp), d)
    {
      assert InService(r, d);
    }
    forall d, e
      ensures !Shared(Stamped(r, c, stamp), d, e)
    {
      assert !Shared(r, d, e);
    }
  }

  /** The due clusters `seen` have been handled, the others not. */
  ghost predicate BuiltSoFar(r: Registry, r': Registry, rows: map<Id, Row>, built: map<Id, nat>, seen: set<Id>) {
    && r.next <= r'.next
    && (forall c {:trigger Rebuilt(r, r', rows, built, c)} | c in seen :: Rebuilt(r, r', rows, built, c))
    && (forall c {:trigger Untouched(r, r', c)} | c !in seen :: Untouched(r, r', c))
    && r'.closed == r.closed + ProvidersOf(r.providers, seen)
  }

  function StampOf(built: map<Id, nat>, c: Id): Option<nat> {
    if c in built then Some(built[c]) else None
  }

  lemma BuildOneMore(r: Registry, r1: Registry, rows: map<Id, Row>, built: map<Id, nat>, seen: set<Id>, c: Id)
    requires BuiltSoFar(r, r1, rows, built, seen) && c in rows && c !in seen
    ensures BuiltSoFar(r, Reconstructed(r1, c, rows[c].config, StampOf(built, c)), rows, built, seen + {c})
  {
    var r2 := Reconstructed(r1, c, rows[c].config, StampOf(built, c));
    assert Untouched(r, r1, c);
    ProvidersOfPlus(r.providers, seen, c);
    forall e | e in seen + {c}
      ensures Rebuilt(r, r2, rows, built, e)
    {
      assert e in seen ==> Rebuilt(r, r1, rows, built, e);
    }
    forall e | e !in seen + {c}
      ensures Untouched(r, r2, e)
    {
      assert Untouched(r, r1, e);
    }
  }

  function Dropped(r: Registry, gone: set<Id>): Registry {
    r.(providers := r.providers - gone, constructedAt := r.constructedAt - gone,
       closed := r.closed + ProvidersOf(r.providers, gone))
  }

  lemma BothSteps(r: Registry, r1: Registry, r2: Registry, rows: map<Id, Row>, built: map<Id, nat>)
    requires r1 == Dropped(r, GoneOf(r, rows)) && BuiltSoFar(r1, r2, rows, built, DueOf(r1, rows))
    ensures SyncedTo(r, r2, rows, built)
  {
    var gone, due := GoneOf(r, rows), DueOf(r, rows);
    assert DueOf(r1, rows) == due;
    assert ProvidersOf(r.providers, gone + due) == ProvidersOf(r.providers, gone) + ProvidersOf(r1.providers, due);
    UnionAssociates(r.closed, ProvidersOf(r.providers, gone), ProvidersOf(r1.providers, due));
    forall c | c in due
      ensures Rebuilt(r, r2, rows, built, c)
    {
      assert Rebuilt(r1, r2, rows, built, c);
    }
    forall c | c !in due
      ensures if c in gone then Removed(r2, c) else Untouched(r, r2, c)
    {
      assert Untouched(r1, r2, c);
    }
  }

  class AppState {
    var providers: map<Id, Provider>
    var constructedAt: map<Id, nat>
    var closed: set<Provider>
    var next: nat

    constructor ()
      ensures State() == Registry(map[], map[], {}, 0) && Sound(State())
    {
      providers, constructedAt, closed, next := map[], map[], {}, 0;
    }

    function State(): Registry
      reads this
    {
      Registry(providers, constructedAt, closed, next)
    }

    /** `close` on a provider; the precondition is that nobody has closed it before. */
    method Close(p: Provider)
      requires p !in closed
      modifies this`closed
      ensures closed == old(closed) + {p}
    {
      closed := closed + {p};
    }

    /** Takes a cluster's provider out and closes it. */
    method CloseProvider(c: Id)
      requires c in providers && providers[c] !in closed
      modifies this`providers, this`closed
      ensures providers == old(providers) - {c} && closed == old(closed) + {old(providers)[c]}
    {
      var removed := providers[c];
      providers := providers - {c};
      Close(removed);
    }

    method DropDeleted(rows: map<Id, Row>)
      requires Sound(State())
      modifies this`providers, this`constructedAt, this`closed
      ensures Sound(State())
      ensures providers == old(providers) - GoneOf(old(State()), rows)
      ensures constructedAt == old(constructedAt) - GoneOf(old(State()), rows)
      ensures closed == old(closed) + ProvidersOf(old(providers), GoneOf(old(State()), rows))
    {
      ghost var was := State();
      var keys := providers.Keys;
      ghost var dropped: set<Id> := {};
      while keys != {}
        invariant keys <= was.providers.Keys
        invariant dropped == GoneOf(was, rows) - keys
        invariant providers == was.providers - dropped && constructedAt == was.constructedAt - dropped
        invariant closed == was.closed + ProvidersOf(was.providers, dropped)
      {
        var stale :| stale in keys;
        if stale !in rows {
          NotYetClosed(was, dropped, stale);
          CloseProvider(stale);
          constructedAt := constructedAt - {stale};
          ProvidersOfPlus(was.providers, dropped, stale);
          dropped := dropped + {stale};
        }
        keys := keys - {stale};
      }
      SoundAfter(was, State(), dropped);
    }

    /** Closes the provider of a due cluster and builds another; a failed construction leaves none. */
    method Reconstruct(c: Id, config: nat, stamp: Option<nat>)
      requires Sound(State())
      modifies this
      ensures Sound(State()) && State() == Reconstructed(old(State()), c, config, stamp)
    {
      ghost var was := State();
      PoppedSound(was, c);
      if c in providers {
        assert InService(was, c);
        CloseProvider(c);
      }
      assert State() == Popped(was, c);
      if stamp.Some? {
        StoredSound(State(), c, config);
        StampedSound(Stored(State(), c, config), c, stamp.value);
        providers, next := providers[c := Provider(next, config)], next + 1;
        constructedAt := constructedAt[c := stamp.value];
      }
    }

    method BuildDue(rows: map<Id, Row>, built: map<Id, nat>)
      requires Sound(State())
      modifies this
      ensures Sound(State()) && BuiltSoFar(old(State()), State(), rows, built, DueOf(old(State()), rows))
    {
      ghost var was := State();
      var todo := rows.Keys;
      ghost var seen: set<Id> := {};
      while todo != {}
        invariant todo <= rows.Keys && Sound(State())
        invariant seen == DueOf(was, rows) - todo
        invariant BuiltSoFar(was, State(), rows, built, seen)
      {
        var c :| c in todo;
        ghost var now := State();
        assert Untouched(was, now, c);
        if c !in constructedAt || rows[c].updatedAt > constructedAt[c] {
          Reconstruct(c, rows[c].config, StampOf(built, c));
          BuildOneMore(was, now, rows, built, seen, c);
          seen := seen + {c};
        }
        todo := todo - {c};
      }
      assert seen == DueOf(was, rows);
    }

    /** `_sync_providers`. */
    method SyncProviders(rows: map<Id, Row>, built: map<Id, nat>)
      requires Sound(State())
      modifies this
      ensures Sound(State()) && SyncedTo(old(State()), State(), rows, built)
    {
      ghost var was := State();
      DropDeleted(rows);
      ghost var dropped := State();
      BuildDue(rows, built);
      BothSteps(was, dropped, State(), rows, built);
    }

    /**
     * An update of a cluster. The row is committed first. If connection settings changed, a provider is built
     * from it and pinged, and takes the old one's place if it answers; the stamp stays.
     */
    method RotateCredentials(c: Id, known: bool, changed: bool, config: nat, attempt: Attempt) returns (reply: Reply)
      requires Sound(State())
      modifies this
      ensures Sound(State())
      ensures reply == if !known then NotFound else if !changed || attempt.Answers? then Done
                       else if attempt.NotBuilt? then Invalid else ProviderFailed
      ensures State() == if !known || !changed || attempt.NotBuilt? then old(State())
                         else if attempt.Unreachable? then Discarded(old(State()), config)
                         else Stored(Popped(old(State()), c), c, config)
    {
      if !known {
        return NotFound;
      }
      if !changed {
        return Done;
      }
      if attempt.NotBuilt? {
        return Invalid;
      }
      ghost var was := State();
      var built := Provider(next, config);
      next := next + 1;
      if attempt.Unreachable? {
        DiscardedSound(was, config);
        Close(built);
        return ProviderFailed;
      }
      PoppedSound(was, c);
      StoredSound(Popped(was, c), c, config);
      var replaced := if c in providers then Some(providers[c]) else None;
      if replaced.Some? {
        assert InService(was, c);
        Close(replaced.value);
      }
      providers := providers[c := built];
      assert State() == Stored(Popped(was, c), c, config);
      return Done;
    }

    /** A cluster's deletion: refused while anything uses it; its provider is popped first, closed after the commit. */
    method DeleteCluster(c: Id, known: bool, pools: nat, templates: nat, commits: bool) returns (reply: Reply)
      requires Sound(State())
      modifies this
      ensures Sound(State())
      ensures reply == if !known then NotFound else if pools > 0 || templates > 0 then Conflict
                       else if commits then Done else CommitFailed
      ensures State() == if reply == Done then Popped(old(State()), c)
                         else if reply == CommitFailed then Taken(old(State()), c) else old(State())
    {
      if !known {
        return NotFound;
      }
      if pools > 0 || templates > 0 {
        return Conflict;
      }
      ghost var was := State();
      if c in providers {
        NotYetClosed(was, {}, c);
        var popped := providers[c];
        providers := providers - {c};
        if commits {
          Close(popped);
        }
      }
      SoundAfter(was, State(), if commits then {c} else {});
      assert State() == if commits then Popped(was, c) else Taken(was, c);
      return if commits then Done else CommitFailed;
    }
  }

  // ── Freshness ─────────────────────────────────────────────────────

  /** The provider is there and has the current settings. */
  predicate IsCurrent(r: Registry, c: Id, config: nat) {
    c in r.providers && r.providers[c].config == config
  }

  /** A stamp not older than the row vouches for a current provider. */
  predicate FreshAt(r: Registry, rows: map<Id, Row>, c: Id) {
    c in rows && !Due(r.constructedAt, c, rows[c].updatedAt) ==> IsCurrent(r, c, rows[c].config)
  }

  ghost predicate Fresh(r: Registry, rows: map<Id, Row>) {
    forall c {:trigger FreshAt(r, rows, c)} :: FreshAt(r, rows, c)
  }

  /** What a reconciliation that has read `loaded` does to a cluster whose row is `rows[c]` by the end. */
  predicate SyncSafe(r: Registry, loaded: map<Id, Row>, rows: map<Id, Row>, built: map<Id, nat>, c: Id) {
    c in rows && c in DueOf(r, loaded) ==>
      if c in built then rows[c].config == loaded[c].config || rows[c].updatedAt > built[c]
      else Due(r.constructedAt, c, rows[c].updatedAt)
  }

  /**
   * A reconciliation keeps freshness exactly when the settings of no cluster it built changed between load and
   * stamp, unless its row is newer than the stamp, and no cluster it failed to build has stopped being due.
   */
  lemma FreshIff(r: Registry, r': Registry, loaded: map<Id, Row>, rows: map<Id, Row>, built: map<Id, nat>)
    requires SyncedTo(r, r', loaded, built) && Fresh(r, rows)
    ensures Fresh(r', rows)
            <==> forall c {:trigger SyncSafe(r, loaded, rows, built, c)} :: SyncSafe(r, loaded, rows, built, c)
  {
    forall c
      ensures FreshAt(r', rows, c) <==> SyncSafe(r, loaded, rows, built, c)
    {
      FreshAtIff(r, r', loaded, rows, built, c);
    }
  }

  lemma FreshAtIff(
    r: Registry, r': Registry, loaded: map<Id, Row>, rows: map<Id, Row>, built: map<Id, nat>, c: Id)
    requires SyncedTo(r, r', loaded, built) && Fresh(r, rows)
    ensures FreshAt(r', rows, c) <==> SyncSafe(r, loaded, rows, built, c)
  {
    assert FreshAt(r, rows, c);
    if c in DueOf(r, loaded) {
      assert Rebuilt(r, r', loaded, built, c);
    } else if c in GoneOf(r, loaded) {
      assert Removed(r', c);
    } else {
      assert Untouched(r, r', c);
    }
  }

  /** A deletion that pops the provider and does not commit keeps freshness exactly when the cluster is due, or gone. */
  lemma UncommittedDeletionFreshIff(r: Registry, rows: map<Id, Row>, c: Id)
    requires Fresh(r, rows)
    ensures Fresh(Taken(r, c), rows) <==> c !in rows || Due(r.constructedAt, c, rows[c].updatedAt)
  {
    assert forall e :: e != c ==> (FreshAt(Taken(r, c), rows, e) <==> FreshAt(r, rows, e));
    assert FreshAt(Taken(r, c), rows, c) <==> c !in rows || Due(r.constructedAt, c, rows[c].updatedAt);
  }

  lemma CommittedDeletionStaysFresh(r: Registry, rows: map<Id, Row>, c: Id)
    requires Fresh(r, rows)
    ensures Fresh(Popped(r, c), rows - {c})
  {
    assert forall e :: e != c ==> (FreshAt(Popped(r, c), rows - {c}, e) <==> FreshAt(r, rows, e));
  }

  /** A rotation's new provider is right exactly when its settings are still the row's, or the cluster is due anyway. */
  lemma RotationFreshIff(r: Registry, rows: map<Id, Row>, c: Id, config: nat)
    requires Fresh(r, rows)
    ensures Fresh(Stored(Popped(r, c), c, config), rows)
            <==> c in rows ==> Due(r.constructedAt, c, rows[c].updatedAt) || rows[c].config == config
  {
    var r' := Stored(Popped(r, c), c, config);
    assert forall e :: e != c ==> (FreshAt(r', rows, e) <==> FreshAt(r, rows, e));
    assert FreshAt(r', rows, c)
        <==> (c in rows ==> Due(r.constructedAt, c, rows[c].updatedAt) || rows[c].config == config);
  }

  /**
   * A second run on unchanged rows does nothing, whatever could be built then, exactly when the first built
   * every due cluster and stamped it no earlier than the row.
   */
  lemma SecondRunIdleIff(r: Registry, r1: Registry, rows: map<Id, Row>, built: map<Id, nat>)
    requires SyncedTo(r, r1, rows, built)
    ensures (DueOf(r1, rows) == {} && GoneOf(r1, rows) == {})
            <==> forall c | c in DueOf(r, rows) :: c in built && built[c] >= rows[c].updatedAt
  {
    forall c | c !in rows
      ensures c !in r1.providers
    {
      assert if c in GoneOf(r, rows) then Removed(r1, c) else Untouched(r, r1, c);
    }
    forall c | c in rows
      ensures c in DueOf(r1, rows) <==> c in DueOf(r, rows) && !(c in built && built[c] >= rows[c].updatedAt)
    {
      if c in DueOf(r, rows) {
        assert Rebuilt(r, r1, rows, built, c);
      } else {
        assert Untouched(r, r1, c);
      }
    }
    if c :| c in DueOf(r, rows) && !(c in built && built[c] >= rows[c].updatedAt) {
      assert c in DueOf(r1, rows);
    }
  }

  lemma NothingDueIsNothingDone(r: Registry, r': Registry, rows: map<Id, Row>, built: map<Id, nat>)
    requires SyncedTo(r, r', rows, built) && DueOf(r, rows) == {} && GoneOf(r, rows) == {}
    ensures r'.providers == r.providers && r'.constructedAt == r.constructedAt && r'.closed == r.closed
  {
    forall c
      ensures c in r'.providers <==> c in r.providers
      ensures c in r'.constructedAt <==> c in r.constructedAt
      ensures Untouched(r, r', c)
    {
      assert Untouched(r, r', c);
    }
    assert GoneOf(r, rows) + DueOf(r, rows) == {};
    assert r'.providers == r.providers;
    assert r'.constructedAt == r.constructedAt;
    assert r.closed + ProvidersOf(r.providers, {}) == r.closed;
  }

  // ── Runs ──────────────────────────────────────────────────────────

  /**
   * Registry and rows over time. `configs` has the settings' version of every cluster, served or not; `loaded`
   * is what the reconciliation under way, or the last one, has read; `building` is the cluster it builds for.
   * `dropping` has the providers that deletions under way have popped, `served` all that were ever in service.
   */
  datatype World = World(
    reg: Registry, rows: map<Id, Row>, configs: map<Id, nat>, loaded: map<Id, Row>, building: Option<Id>,
    dropping: set<Provider>, served: set<Provider>, now: nat)

  const EMPTY := World(Registry(map[], map[], {}, 0), map[], map[], map[], None, {}, {}, 0)

  /**
   * `Write` is a commit on a cluster's row: a registration, an edit, a status flip, maintenance, a deletion.
   * Its `updated_at` is the start of its transaction. A reconciliation is a `Load`, a `Drop`, and a `PopDue`
   * and a `Store` for each due cluster; the stamp is the time of the `Store`. A deletion is a `PopDeleted`,
   * followed by a `Write` and a `CloseDeleted` if it commits, and a `LoseDeleted` if it does not; a rotation is
   * a `Write`, followed by a `Swap` if the new provider answers.
   */
  datatype Event =
    | Write(c: Id, started: nat, settings: bool, served: bool)
    | Load
    | Drop
    | PopDue(c: Id)
    | Store(ok: bool)
    | Swap(c: Id, config: nat)
    | PopDeleted(c: Id)
    | CloseDeleted(p: Provider)
    | LoseDeleted(p: Provider)

  function ConfigAfter(w: World, c: Id, settings: bool): nat {
    if settings || c !in w.configs then w.now else w.configs[c]
  }

  predicate Pops(w: World, c: Id) {
    w.building.None? && c in w.loaded && Due(w.reg.constructedAt, c, w.loaded[c].updatedAt)
  }

  /** A new provider comes into service. */
  function Served(w: World, c: Id, config: nat): World {
    w.(reg := Stored(w.reg, c, config), served := w.served + {Provider(w.reg.next, config)})
  }

  /** Events that cannot happen leave the world as it is. */
  function Happens(w: World, e: Event): World {
    match e
    case Write(c, started, settings, served) =>
      if started > w.now then w
      else
        var config := ConfigAfter(w, c, settings);
        w.(configs := w.configs[c := config],
           rows := if served then w.rows[c := Row(started, config)] else w.rows - {c})
    case Load => if w.building.Some? then w else w.(loaded := w.rows)
    case Drop => if w.building.Some? then w else w.(reg := Dropped(w.reg, GoneOf(w.reg, w.loaded)))
    case PopDue(c) => if Pops(w, c) then w.(reg := Popped(w.reg, c), building := Some(c)) else w
    case Store(ok) =>
      if w.building.None? || w.building.value !in w.loaded then w
      else
        var c := w.building.value;
        var done := w.(building := None);
        if ok then Served(done.(reg := Stamped(w.reg, c, w.now)), c, w.loaded[c].config) else done
    case Swap(c, config) => Served(w.(reg := Popped(w.reg, c)), c, config)
    case PopDeleted(c) => w.(reg := Taken(w.reg, c), dropping := w.dropping + ProvidersOf(w.reg.providers, {c}))
    case CloseDeleted(p) =>
      if p in w.dropping then w.(reg := w.reg.(closed := w.reg.closed + {p}), dropping := w.dropping - {p}) else w
    case LoseDeleted(p) => w.(dropping := w.dropping - {p})
  }

  function Next(w: World, e: Event): World {
    Happens(w, e).(now := w.now + 1)
  }

  function After(run: seq<Event>): World {
    if run == [] then EMPTY else Next(After(run[..|run| - 1]), run[|run| - 1])
  }

  /** Rows and stamps are from the past; the cluster being built for was read. */
  ghost predicate WorldOk(w: World) {
    && (forall c | c in w.rows :: w.rows[c].updatedAt < w.now)
    && (forall c | c in w.reg.constructedAt :: w.reg.constructedAt[c] < w.now)
    && (w.building.Some? ==> w.building.value in w.loaded)
  }

  lemma StepOk(w: World, e: Event)
    requires WorldOk(w)
    ensures WorldOk(Next(w, e))
  {
  }

  lemma {:induction false} AfterOk(run: seq<Event>)
    ensures WorldOk(After(run))
  {
    if run != [] {
      AfterOk(run[..|run| - 1]);
      StepOk(After(run[..|run| - 1]), run[|run| - 1]);
    }
  }

  lemma OneMore(run: seq<Event>, e: Event)
    ensures After(run + [e]) == Next(After(run), e)
  {
    assert (run + [e])[..|run|] == run;
  }

  /** A commit that leaves the settings alone, a status flip say, leaves their version; an edit gives a new one. */
  lemma VersionsFollowEdits(w: World, c: Id, started: nat, settings: bool)
    requires c in w.configs && started <= w.now
    ensures var w' := Next(w, Write(c, started, settings, true));
            && c in w'.rows && w'.rows[c].updatedAt == started && w'.configs.Keys == w.configs.Keys
            && (forall d | d in w.configs && d != c :: w'.configs[d] == w.configs[d])
            && w'.rows[c].config == w'.configs[c] == (if settings then w.now else w.configs[c])
  {
  }

  predicate DueNow(w: World, c: Id) {
    c in w.rows ==> Due(w.reg.constructedAt, c, w.rows[c].updatedAt)
  }

  /** What an event decides about a cluster's freshness: nothing, or the outcome. */
  function Verdict(w: World, e: Event, c: Id): Option<bool> {
    match e
    case Write(d, started, settings, served) =>
      if d != c || started > w.now then None
      else
        Some(served ==> Due(w.reg.constructedAt, c, started) || IsCurrent(w.reg, c, ConfigAfter(w, c, settings)))
    case Load => None
    case Drop => if w.building.None? && c in GoneOf(w.reg, w.loaded) then Some(true) else None
    case PopDue(d) => if d == c && Pops(w, c) then Some(DueNow(w, c)) else None
    case Store(ok) =>
      if ok && w.building == Some(c) && c in w.loaded
      then Some(c in w.rows ==> w.loaded[c].config == w.rows[c].config) else None
    case Swap(d, config) => if d == c then Some(DueNow(w, c) || w.rows[c].config == config) else None
    case PopDeleted(d) => if d == c then Some(DueNow(w, c)) else None
    case _ => None
  }

  /**
   * Each kind of event, with what it takes for the outcome to be fresh: a write has to start after the stamp, or
   * leave the provider's settings; a build or a swap has to have the row's settings, a pop has to find it due.
   */
  lemma VerdictIsExact(w: World, e: Event, c: Id)
    requires WorldOk(w)
    ensures var verdict := Verdict(w, e, c);
            FreshAt(Next(w, e).reg, Next(w, e).rows, c)
            <==> if verdict.Some? then verdict.value else FreshAt(w.reg, w.rows, c)
  {
  }

  /** The last event that decided about the cluster decided for it. */
  function DecidedFresh(run: seq<Event>, c: Id): bool {
    run == []
    || (var before := run[..|run| - 1];
        var verdict := Verdict(After(before), run[|run| - 1], c);
        if verdict.Some? then verdict.value else DecidedFresh(before, c))
  }

  /** After any sequence of writes, reconciliations, rotations and deletions. */
  lemma {:induction false} FreshnessOverRuns(run: seq<Event>, c: Id)
    ensures FreshAt(After(run).reg, After(run).rows, c) <==> DecidedFresh(run, c)
  {
    if run != [] {
      var before := run[..|run| - 1];
      FreshnessOverRuns(before, c);
      AfterOk(before);
      VerdictIsExact(After(before), run[|run| - 1], c);
    }
  }

  /** A stamp vouches for a provider that is not there or not current, and no reconciliation under way will look. */
  predicate Stranded(w: World, c: Id) {
    && !FreshAt(w.reg, w.rows, c)
    && w.building != Some(c) && c in w.loaded && !Due(w.reg.constructedAt, c, w.loaded[c].updatedAt)
  }

  lemma StaysStranded(w: World, e: Event, c: Id)
    requires WorldOk(w) && Stranded(w, c) && !((e.Write? || e.Swap?) && e.c == c)
    ensures Stranded(Next(w, e), c)
  {
    VerdictIsExact(w, e, c);
  }

  lemma StrandedOnce(run: seq<Event>, e: Event, c: Id)
    requires Stranded(After(run), c) && !((e.Write? || e.Swap?) && e.c == c)
    ensures Stranded(After(run + [e]), c)
  {
    AfterOk(run);
    StaysStranded(After(run), e, c);
    OneMore(run, e);
  }

  /** However many reconciliations follow: only a write of the row or a swap of its provider can heal it. */
  lemma {:induction false} StrandedUntilWritten(run: seq<Event>, rest: seq<Event>, c: Id)
    requires Stranded(After(run), c)
    requires forall e | e in rest :: !((e.Write? || e.Swap?) && e.c == c)
    ensures Stranded(After(run + rest), c)
    decreases |rest|
  {
    if rest == [] {
      assert run + rest == run;
    } else {
      var e := rest[0];
      assert e in rest;
      StrandedOnce(run, e, c);
      StrandedUntilWritten(run + [e], rest[1..], c);
      assert run + [e] + rest[1..] == run + rest;
    }
  }

  /** Such a cluster: registered, built for, and its deletion failed after the pop. */
  lemma FailedDeletionStrands()
    ensures Stranded(After([Write(0, 0, true, true), Load, PopDue(0), Store(true), PopDeleted(0)]), 0)
  {
    var r1 := [Write(0, 0, true, true)];
    var r2 := r1 + [Load];
    var r3 := r2 + [PopDue(0)];
    var r4 := r3 + [Store(true)];
    var rows := map[0 := Row(0, 0)];
    assert [] + r1 == r1;
    OneMore([], Write(0, 0, true, true));
    OneMore(r1, Load);
    assert After(r2) == World(Registry(map[], map[], {}, 0), rows, map[0 := 0], rows, None, {}, {}, 2);
    OneMore(r2, PopDue(0));
    assert Pops(After(r2), 0);
    assert After(r3).reg.constructedAt == map[] && After(r3).building == Some(0) && After(r3).now == 3;
    OneMore(r3, Store(true));
    assert After(r4).reg.constructedAt == map[0 := 3] && After(r4).building == None;
    OneMore(r4, PopDeleted(0));
    assert r4 + [PopDeleted(0)] == [Write(0, 0, true, true), Load, PopDue(0), Store(true), PopDeleted(0)];
  }

  // ── Leaks ─────────────────────────────────────────────────────────

  function InUse(r: Registry): set<Provider> {
    ProvidersOf(r.providers, r.providers.Keys)
  }

  /** Out of service, not closed, and in nobody's hands. */
  function Leaked(w: World): set<Provider> {
    w.served - w.reg.closed - InUse(w.reg) - w.dropping
  }

  /** No provider is in two of the places a provider can be in. */
  ghost predicate Accounted(w: World) {
    && Sound(w.reg) && (forall p | p in w.served :: p.serial < w.reg.next)
    && InUse(w.reg) <= w.served && w.reg.closed <= w.served && w.dropping <= w.served
    && w.dropping !! InUse(w.reg) && w.dropping !! w.reg.closed
  }

  lemma InUseIsOpen(r: Registry, p: Provider)
    requires Sound(r) && p in InUse(r)
    ensures p !in r.closed && p.serial < r.next
  {
    var c :| c in r.providers && r.providers[c] == p;
    assert InService(r, c);
  }

  /** Taking providers out leaves the others, since none serves two clusters. */
  lemma WithoutUse(r: Registry, r': Registry, ids: set<Id>)
    requires Sound(r) && r'.providers == r.providers - ids
    ensures InUse(r') == InUse(r) - ProvidersOf(r.providers, ids)
    ensures ProvidersOf(r.providers, ids) <= InUse(r)
  {
    forall c | c in r.providers && c !in ids
      ensures r.providers[c] !in ProvidersOf(r.providers, ids)
    {
      forall e | e in ids && e in r.providers
        ensures r.providers[e] != r.providers[c]
      {
        assert !Shared(r, c, e);
      }
    }
    forall p | p in InUse(r) && p !in ProvidersOf(r.providers, ids)
      ensures p in InUse(r')
    {
      var c :| c in r.providers && r.providers[c] == p;
      assert c in r'.providers;
    }
  }

  lemma StoredUse(r: Registry, c: Id, config: nat)
    requires Sound(r)
    ensures InUse(Stored(r, c, config)) == InUse(r) - ProvidersOf(r.providers, {c}) + {Provider(r.next, config)}
  {
    var r' := Stored(r, c, config);
    WithoutUse(r, Taken(r, c), {c});
    assert r'.providers.Keys == Taken(r, c).providers.Keys + {c};
    forall p | p in InUse(r')
      ensures p in InUse(Taken(r, c)) + {Provider(r.next, config)}
    {
      var d :| d in r'.providers && r'.providers[d] == p;
      assert d != c ==> d in Taken(r, c).providers;
    }
    forall p | p in InUse(Taken(r, c))
      ensures p in InUse(r')
    {
      var d :| d in Taken(r, c).providers && r.providers[d] == p;
      assert d in r'.providers;
    }
    assert c in r'.providers && r'.providers[c] == Provider(r.next, config);
  }

  /** What an event loses: a provider swapped in while a reconciliation built, or popped by a deletion that failed. */
  function LeaksAt(w: World, e: Event): set<Provider> {
    match e
    case Store(ok) =>
      if ok && w.building.Some? && w.building.value in w.loaded
      then ProvidersOf(w.reg.providers, {w.building.value}) else {}
    case LoseDeleted(p) => if p in w.dropping then {p} else {}
    case _ => {}
  }

  lemma ServedAccounted(w: World, c: Id, config: nat)
    requires Accounted(w)
    ensures Accounted(Served(w, c, config))
    ensures Leaked(Served(w, c, config)) == Leaked(w) + ProvidersOf(w.reg.providers, {c})
  {
    var p := Provider(w.reg.next, config);
    StoredSound(w.reg, c, config);
    StoredUse(w.reg, c, config);
    assert ProvidersOf(w.reg.providers, {c}) <= InUse(w.reg);
    assert p !in w.served;
    forall q | q in ProvidersOf(w.reg.providers, {c})
      ensures q in w.served && q !in w.reg.closed && q !in w.dropping
    {
      InUseIsOpen(w.reg, q);
    }
  }

  lemma PoppedAccounted(w: World, ids: set<Id>, r: Registry)
    requires Accounted(w) && Sound(r) && r.next == w.reg.next && r.providers == w.reg.providers - ids
    requires r.closed == w.reg.closed + ProvidersOf(w.reg.providers, ids)
    ensures Accounted(w.(reg := r)) && Leaked(w.(reg := r)) == Leaked(w)
  {
    WithoutUse(w.reg, r, ids);
  }

  lemma TakenAccounted(w: World, c: Id)
    requires Accounted(w)
    ensures Accounted(Happens(w, PopDeleted(c))) && Leaked(Happens(w, PopDeleted(c))) == Leaked(w)
  {
    WithoutUse(w.reg, Taken(w.reg, c), {c});
    SoundAfter(w.reg, Taken(w.reg, c), {});
    forall q | q in ProvidersOf(w.reg.providers, {c})
      ensures q !in w.reg.closed
    {
      InUseIsOpen(w.reg, q);
    }
  }

  lemma DroppingAccounted(w: World, e: Event)
    requires Accounted(w) && (e.CloseDeleted? || e.LoseDeleted?)
    ensures Accounted(Happens(w, e)) && Leaked(Happens(w, e)) == Leaked(w) + LeaksAt(w, e)
  {
    assert InUse(Happens(w, e).reg) == InUse(w.reg);
    if e.CloseDeleted? && e.p in w.dropping {
      ClosedSound(w.reg, e.p);
    }
  }

  lemma ClosedSound(r: Registry, p: Provider)
    requires Sound(r) && p !in InUse(r) && p.serial < r.next
    ensures Sound(r.(closed := r.closed + {p}))
  {
    var r' := r.(closed := r.closed + {p});
    forall c | c in r'.providers
      ensures InService(r', c)
    {
      assert InService(r, c) && r.providers[c] in InUse(r);
    }
    forall c, d
      ensures !Shared(r', c, d)
    {
      assert !Shared(r, c, d);
    }
  }

  lemma StampedAccounted(w: World, c: Id, stamp: nat)
    requires Accounted(w)
    ensures Accounted(w.(reg := Stamped(w.reg, c, stamp))) && Leaked(w.(reg := Stamped(w.reg, c, stamp))) == Leaked(w)
  {
    StampedSound(w.reg, c, stamp);
    assert InUse(Stamped(w.reg, c, stamp)) == InUse(w.reg);
  }

  lemma StoreAccounted(w: World, ok: bool)
    requires Accounted(w)
    ensures Accounted(Happens(w, Store(ok))) && Leaked(Happens(w, Store(ok))) == Leaked(w) + LeaksAt(w, Store(ok))
  {
    if ok && w.building.Some? && w.building.value in w.loaded {
      var c := w.building.value;
      var done := w.(building := None);
      StampedAccounted(done, c, w.now);
      ServedAccounted(done.(reg := Stamped(w.reg, c, w.now)), c, w.loaded[c].config);
    }
  }

  lemma SwapAccounted(w: World, c: Id, config: nat)
    requires Accounted(w)
    ensures Accounted(Happens(w, Swap(c, config))) && Leaked(Happens(w, Swap(c, config))) == Leaked(w)
  {
    var popped := w.(reg := Popped(w.reg, c));
    PoppedSound(w.reg, c);
    PoppedAccounted(w, {c}, Popped(w.reg, c));
    ServedAccounted(popped, c, config);
    assert ProvidersOf(popped.reg.providers, {c}) == {};
  }

  lemma DropAccounted(w: World)
    requires Accounted(w)
    ensures Accounted(Happens(w, Drop)) && Leaked(Happens(w, Drop)) == Leaked(w)
  {
    var gone := GoneOf(w.reg, w.loaded);
    SoundAfter(w.reg, Dropped(w.reg, gone), gone);
    PoppedAccounted(w, gone, Dropped(w.reg, gone));
  }

  lemma StepLeaks(w: World, e: Event)
    requires Accounted(w)
    ensures Accounted(Next(w, e)) && Leaked(Next(w, e)) == Leaked(w) + LeaksAt(w, e)
  {
    match e
    case Drop => DropAccounted(w);
    case PopDue(c) =>
      PoppedSound(w.reg, c);
      PoppedAccounted(w, {c}, Popped(w.reg, c));
    case Store(ok) => StoreAccounted(w, ok);
    case Swap(c, config) => SwapAccounted(w, c, config);
    case PopDeleted(c) => TakenAccounted(w, c);
    case CloseDeleted(_) => DroppingAccounted(w, e);
    case LoseDeleted(_) => DroppingAccounted(w, e);
    case _ =>
  }

  function LeakedBy(run: seq<Event>): set<Provider> {
    if run == [] then {}
    else LeakedBy(run[..|run| - 1]) + LeaksAt(After(run[..|run| - 1]), run[|run| - 1])
  }

  /**
   * Over every run, every provider ever in service is in service still, closed, in the hands of a deletion, or
   * lost to exactly one of the two kinds of event that lose one; and it is in one of these places only.
   */
  lemma {:induction false} LeaksOverRuns(run: seq<Event>)
    ensures Accounted(After(run)) && Leaked(After(run)) == LeakedBy(run)
  {
    if run != [] {
      LeaksOverRuns(run[..|run| - 1]);
      StepLeaks(After(run[..|run| - 1]), run[|run| - 1]);
    }
  }
}

/**
 * The lifecycle invariant under every interleaving of connects, of checks and late writes, and of whole
 * calls: for each event the exact condition under which it survives, and runs in which it does not.
 */
module Races {
  import opened Entities
  import opened Lifecycle
  import opened Invariant
  import opened CheckThenWrite
  import opened WriteSafety
  import opened Claim
  import opened LateHistory

  // ── The invariant, event by event ─────────────────────────────────

  /** When the check passed nobody was live on the row; whoever is now has come since. */
  predicate CameSince(db: Db, h: Handler) {
    match h.work
    case Assigning(d, _, saw) => saw.OwnRow? || forall s | s in LiveOn(db, d) :: s >= h.since
    case Unassigning(d, _) => forall s | s in LiveOn(db, d) :: s >= h.since
    case Dooming(d, _, _) => forall s | s in LiveOn(db, d) :: s >= h.since
    case Removing(d) => forall s | s in LiveOn(db, d) :: s >= h.since
    case Resetting(d, _, read) => read.user.Some? || forall s | s in LiveOn(db, d) :: s >= h.since
    case Listing(p) => forall s | s in LiveOf(db, p) :: s >= h.since
    case Cascading(p, _, _, _) => forall s | s in LiveOf(db, p) :: s >= h.since
    case _ => true
  }

  /** The rows and pools a work is about have been there; the rows of a cascade are its pool's. */
  predicate WorkKnown(db: Db, w: Work) {
    match w
    case Inserting(p, _, _) => p < db.nextId
    case Restarting(d, p, _) => d < db.nextId && p < db.nextId
    case Resetting(d, _, read) => d < db.nextId && read.pool < db.nextId
    case Vacating(s, d, read) => s < db.nextId && d < db.nextId && read.pool < db.nextId
    case Closing(d, read, status, _, follow) =>
      && d < db.nextId && read.pool < db.nextId
      && (follow.RemovalCycle? ==> status == Deleting && read.status != Deleting)
    case Failing(d, read, _) => d < db.nextId && read.pool < db.nextId
    case Updating(p, _, _) => p < db.nextId
    case Listing(p) => p < db.nextId
    case Cascading(p, todo, doing, _) =>
      p < db.nextId
      && forall d | d in todo + doing.Keys :: d < db.nextId && (d in db.desktops ==> db.desktops[d].pool == p)
    case _ => true
  }

  ghost predicate HandlerOk(s: State, h: Id)
    requires h in s.handlers
  {
    var handler := s.handlers[h];
    && handler.since <= s.db.nextId && CameSince(s.db, handler)
    && WorkOk(handler.work) && WorkKnown(s.db, handler.work) && WorkSound(s.db, handler.work)
  }

  predicate PoolKnown(db: Db, p: Id) {
    p < db.nextId && (p in db.pools ==> db.pools[p].kind == NonPersistent)
  }

  ghost predicate ClaimInv(s: State) {
    && Inv(s.db) && InOrder(s)
    && (forall t | t in s.txns :: PoolKnown(s.db, s.txns[t].pool))
    && (forall h | h in s.handlers :: HandlerOk(s, h))
  }

  /**
   * What could be checked just before: a connect commits unless its pool is being deleted by now, and a late
   * write harms nobody. All other events are safe.
   */
  predicate EventSafe(s: State, e: Event) {
    match e
    case Commit(t, _) => HasClaim(s, t) ==> !PoolIsDeleting(s.db, s.db.desktops[s.txns[t].phase.row])
    case Finish(h, answer) => h in s.handlers ==> Safe(s.db, s.handlers[h].work, answer)
    case _ => true
  }

  lemma CommitSafeIff(s: State, t: Id, ticket: string)
    requires ClaimInv(s) && HasClaim(s, t)
    ensures Inv(CommitClaim(s, t, ticket).db) <==> !PoolIsDeleting(s.db, s.db.desktops[s.txns[t].phase.row])
  {
    var r, user := s.txns[t].phase.row, s.txns[t].user;
    assert TxnOk(s, t) && PoolKnown(s.db, s.txns[t].pool) && RowOk(s.db, s.db.desktops[r]);
    if PoolIsDeleting(s.db, s.db.desktops[r]) {
      var db' := ClaimCommitted(s.db, r, user, ticket);
      assert !SessionOk(db', db'.sessions[s.db.nextId]);
    } else {
      ClaimKeeps(s.db, r, user, ticket);
    }
  }

  lemma EntitlingKeeps(db: Db, entitlements: set<Entitlement>)
    requires Inv(db)
    ensures Inv(db.(entitlements := entitlements)) && Forward(db, db.(entitlements := entitlements))
  {
    StepKeeps(db, DoEntitle(entitlements));
    assert Step(db, DoEntitle(entitlements)) == db.(entitlements := entitlements);
  }

  /** The lifecycle invariant survives an event exactly when the event is safe. */
  lemma StepKeepsIff(s: State, e: Event)
    requires ClaimInv(s) && Enabled(s, e)
    ensures Inv(Next(s, e).db) <==> EventSafe(s, e)
  {
    match e
    case Commit(t, ticket) => CommitSafeIff(s, t, ticket);
    case Finish(h, answer) => FinishKeepsIff(s, h, answer);
    case Entitle(entitlements) => EntitlingKeeps(s.db, entitlements);
    case _ => OthersLeaveRows(s, e);
  }

  lemma OthersLeaveRows(s: State, e: Event)
    requires Enabled(s, e) && !e.Commit? && !e.Finish? && !e.Entitle?
    ensures Next(s, e).db == s.db
  {
  }

  lemma EventIsForward(s: State, e: Event)
    requires ClaimInv(s) && Enabled(s, e)
    ensures Forward(s.db, Next(s, e).db)
  {
    match e
    case Finish(h, answer) =>
      assert HandlerOk(s, h);
      WriteIsForward(s.db, s.handlers[h].work, answer);
    case Entitle(entitlements) => EntitlingKeeps(s.db, entitlements);
    case _ => ConnectIsForward(s, e);
  }

  lemma ConnectIsForward(s: State, e: Event)
    requires ClaimInv(s) && Enabled(s, e) && !e.Finish? && !e.Entitle?
    ensures Forward(s.db, Next(s, e).db)
  {
    if e.Commit? {
      assert TxnOk(s, e.t);
      ClaimIsForward(s.db, s.txns[e.t].phase.row, s.txns[e.t].user, e.ticket);
    } else {
      assert Next(s, e).db == s.db;
    }
  }

  lemma LiveOnWas(db: Db, db': Db, d: Id, s: Id)
    requires Inv(db) && Forward(db, db') && s in LiveOn(db', d)
    ensures s in LiveOn(db, d) || s >= db.nextId
  {
  }

  lemma LiveOfWas(db: Db, db': Db, p: Id, s: Id)
    requires Inv(db) && Forward(db, db') && s in LiveOf(db', p)
    ensures s in LiveOf(db, p) || s >= db.nextId
  {
    if s in db.sessions {
      assert SessionOk(db, db.sessions[s]);
    }
  }

  lemma StillSince(db: Db, db': Db, h: Handler)
    requires Inv(db) && Forward(db, db') && h.since <= db.nextId && CameSince(db, h)
    ensures CameSince(db', h)
  {
    forall d, s | s in LiveOn(db', d)
      ensures s in LiveOn(db, d) || s >= h.since
    {
      LiveOnWas(db, db', d, s);
    }
    forall p, s | s in LiveOf(db', p)
      ensures s in LiveOf(db, p) || s >= h.since
    {
      LiveOfWas(db, db', p, s);
    }
  }

  lemma StillKnown(db: Db, db': Db, w: Work)
    requires Forward(db, db') && WorkKnown(db, w) && WorkSound(db, w)
    ensures WorkKnown(db', w) && WorkSound(db', w)
  {
  }

  lemma DeletingIsEmpty(db: Db, p: Id)
    requires Inv(db) && p in db.pools && db.pools[p].status == PoolDeleting
    ensures LiveOf(db, p) == {}
  {
    forall s | s in db.sessions
      ensures s !in LiveOf(db, p)
    {
      assert SessionOk(db, db.sessions[s]);
    }
  }

  lemma RowAdmittedAlone(db: Db, req: Request)
    requires Inv(db) && (req.AskAssign? || req.AskUnassign? || req.AskDoom?) && Admit(db, req).Some?
    ensures CameSince(db, Handler(Admit(db, req).value, db.nextId))
  {
    GuardIsExact(db, req.d);
    LiveMeansHosted(db, req.d);
  }

  /** Nobody is live on a row whose check has just passed. */
  lemma AdmittedAlone(db: Db, req: Request)
    requires Inv(db) && Admit(db, req).Some?
    ensures CameSince(db, Handler(Admit(db, req).value, db.nextId))
  {
    match req
    case AskAssign(_, _) => RowAdmittedAlone(db, req);
    case AskUnassign(_) => RowAdmittedAlone(db, req);
    case AskDoom(_, _) => RowAdmittedAlone(db, req);
    case AskDeletePool(p) => if db.pools[p].status == PoolDeleting { DeletingIsEmpty(db, p); }
    case _ =>
  }

  predicate AsksOfRow(req: Request) {
    req.AskRefresh? || req.AskRemoval?
  }

  predicate AsksOfPool(req: Request) {
    req.AskConnect? || req.AskProvision? || req.AskDeletePool? || req.AskUpdate? || req.AskCreatePool?
  }

  lemma RowAdmittedFit(db: Db, req: Request)
    requires Inv(db) && Admit(db, req).Some? && AsksOfRow(req)
    ensures Fit(db, Admit(db, req).value)
  {
    ReadFit(db, req.d);
  }

  lemma PoolAdmittedFit(db: Db, req: Request)
    requires Inv(db) && Admit(db, req).Some? && AsksOfPool(req)
    ensures Fit(db, Admit(db, req).value)
  {
  }

  lemma OtherAdmittedFit(db: Db, req: Request)
    requires Admit(db, req).Some? && !AsksOfRow(req) && !AsksOfPool(req)
    ensures Fit(db, Admit(db, req).value)
  {
  }

  lemma AdmittedFit(db: Db, req: Request)
    requires Inv(db) && Admit(db, req).Some?
    ensures WorkOk(Admit(db, req).value) && Fit(db, Admit(db, req).value)
  {
    AdmitOk(db, req);
    if AsksOfRow(req) {
      RowAdmittedFit(db, req);
    } else if AsksOfPool(req) {
      PoolAdmittedFit(db, req);
    } else {
      OtherAdmittedFit(db, req);
    }
  }

  lemma TxnsKnown(db: Db, db': Db, p: Id)
    requires PoolKnown(db, p) && Forward(db, db')
    ensures PoolKnown(db', p)
  {
  }

  /** The second leg of a rebuild reads a row on which nobody can be live if it has no user. */
  lemma LegSince(db: Db, h: Handler, a: Answer)
    requires Inv(db) && h.work.Restarting? && Continued(db, h.work, a).Some?
    ensures CameSince(Write(db, h.work, a), Onward(db, h, a))
  {
    if h.work.d in db.desktops {
      LiveMeansHosted(db, h.work.d);
    }
  }

  lemma ListingSince(db: Db, h: Handler, a: Answer)
    requires h.work.DroppingPool? && Safe(db, h.work, a) && Continued(db, h.work, a).Some?
    ensures CameSince(Write(db, h.work, a), Onward(db, h, a))
  {
    assert LiveOf(MovePool(db, h.work.p, PoolDeleting), h.work.p) == LiveOf(db, h.work.p);
  }

  lemma CascadeSince(db: Db, h: Handler, a: Answer)
    requires Inv(db) && (h.work.Cascading? || h.work.Listing?) && h.since <= db.nextId && CameSince(db, h)
    requires Continued(db, h.work, a).Some?
    ensures CameSince(Write(db, h.work, a), Onward(db, h, a))
  {
    if h.work.Cascading? {
      CascadeIsForward(db, h.work.p, h.work.todo, h.work.doing, h.work.failed, a);
      StillSince(db, Write(db, h.work, a), h);
    }
  }

  /** A row marked for its removal has nobody live on it. */
  lemma CloseSince(db: Db, h: Handler, a: Answer)
    requires Inv(db) && h.work.Closing? && Safe(db, h.work, a) && Continued(db, h.work, a).Some?
    requires h.work.follow.RemovalCycle? ==> h.work.status == Deleting && h.work.read.status != Deleting
    ensures CameSince(Write(db, h.work, a), Onward(db, h, a))
  {
    if h.work.follow.RemovalCycle? {
      assert LiveOn(Write(db, h.work, a), h.work.d) == LiveOn(db, h.work.d);
    }
  }

  lemma OthersSince(db: Db, h: Handler, a: Answer)
    requires Continued(db, h.work, a).Some? && !h.work.Restarting? && !h.work.DroppingPool? && !h.work.Cascading?
    requires !h.work.Closing? && !h.work.Listing?
    ensures CameSince(Write(db, h.work, a), Onward(db, h, a))
  {
  }

  lemma ContinuedSince(db: Db, h: Handler, a: Answer)
    requires Inv(db) && h.since <= db.nextId && CameSince(db, h) && Safe(db, h.work, a)
    requires WorkKnown(db, h.work) && Continued(db, h.work, a).Some?
    ensures CameSince(Write(db, h.work, a), Onward(db, h, a))
  {
    if h.work.Restarting? {
      LegSince(db, h, a);
    } else if h.work.DroppingPool? {
      ListingSince(db, h, a);
    } else if h.work.Closing? {
      CloseSince(db, h, a);
    } else if h.work.Cascading? || h.work.Listing? {
      CascadeSince(db, h, a);
    } else {
      OthersSince(db, h, a);
    }
  }

  predicate Fit(db: Db, w: Work) {
    WorkKnown(db, w) && WorkSound(db, w)
  }

  lemma CascadeFit(db: Db, w: Work, a: Answer)
    requires w.Cascading? && WorkOk(w) && Fit(db, w) && Continued(db, w, a).Some?
    ensures Fit(db, Continued(db, w, a).value)
  {
    var d := Picked(w.todo, w.doing, a.at);
    var next := Continued(db, w, a).value;
    assert next.todo + next.doing.Keys <= w.todo + w.doing.Keys;
  }

  lemma LegFit(db: Db, w: Work, a: Answer)
    requires Inv(db) && w.Restarting? && Fit(db, w) && Continued(db, w, a).Some?
    ensures Fit(db, Continued(db, w, a).value)
  {
    if w.d in db.desktops {
      assert RowOk(db, db.desktops[w.d]);
    }
  }

  lemma ReadFit(db: Db, d: Id)
    requires Inv(db) && d in db.desktops
    ensures ReadOk(db, d, db.desktops[d]) && d < db.nextId && db.desktops[d].pool < db.nextId
  {
    assert RowOk(db, db.desktops[d]);
  }

  lemma PollFit(db: Db, w: Work, a: Answer)
    requires Inv(db) && w.Polling? && Continued(db, w, a).Some?
    ensures Fit(db, Continued(db, w, a).value)
  {
    ReadFit(db, w.d);
  }

  lemma FailFit(db: Db, w: Work, a: Answer)
    requires Inv(db) && (w.Refreshing? || w.Removing?) && Continued(db, w, a).Some?
    ensures Fit(db, Continued(db, w, a).value)
  {
    ReadFit(db, w.d);
  }

  lemma CloseFit(db: Db, w: Work, a: Answer)
    requires Inv(db) && w.Closing? && Fit(db, w) && Continued(db, w, a).Some?
    ensures Fit(db, Continued(db, w, a).value)
  {
    assert RowOk(db, db.desktops[w.d]);
  }

  lemma EndFit(db: Db, w: Work, a: Answer)
    requires Inv(db) && w.Ending? && Continued(db, w, a).Some?
    ensures Fit(db, Continued(db, w, a).value)
  {
    ReadFit(db, db.sessions[w.s].desktop.value);
  }

  lemma OthersFit(db: Db, w: Work, a: Answer)
    requires Inv(db) && Fit(db, w) && Continued(db, w, a).Some?
    requires !w.Polling? && !w.Restarting? && !w.Cascading? && !w.Refreshing? && !w.Removing? && !w.Closing?
    requires !w.Ending?
    ensures Fit(db, Continued(db, w, a).value)
  {
  }

  lemma ContinuedFit(db: Db, w: Work, a: Answer)
    requires Inv(db) && WorkOk(w) && Fit(db, w) && Continued(db, w, a).Some?
    ensures Fit(db, Continued(db, w, a).value)
  {
    if w.Polling? {
      PollFit(db, w, a);
    } else if w.Refreshing? || w.Removing? {
      FailFit(db, w, a);
    } else if w.Closing? {
      CloseFit(db, w, a);
    } else if w.Ending? {
      EndFit(db, w, a);
    } else if w.Restarting? {
      LegFit(db, w, a);
    } else if w.Cascading? {
      CascadeFit(db, w, a);
    } else {
      OthersFit(db, w, a);
    }
  }

  /** What a handler goes on with is in order too. */
  lemma ContinuedOk(s: State, h: Id, answer: Answer)
    requires ClaimInv(s) && Enabled(s, Finish(h, answer)) && EventSafe(s, Finish(h, answer))
    requires h in Next(s, Finish(h, answer)).handlers
    ensures HandlerOk(Next(s, Finish(h, answer)), h)
  {
    assert HandlerOk(s, h);
    var w := s.handlers[h].work;
    WriteIsForward(s.db, w, answer);
    ContinuedFit(s.db, w, answer);
    ContinuedCloser(s.db, w, answer);
    StillKnown(s.db, Write(s.db, w, answer), Continued(s.db, w, answer).value);
    ContinuedSince(s.db, s.handlers[h], answer);
    FinishWrites(s, h, answer);
  }

  lemma UntouchedOk(s: State, e: Event, h: Id)
    requires ClaimInv(s) && Enabled(s, e) && h in s.handlers && h in Next(s, e).handlers
    requires Next(s, e).handlers[h] == s.handlers[h]
    ensures HandlerOk(Next(s, e), h)
  {
    EventIsForward(s, e);
    assert HandlerOk(s, h);
    StillSince(s.db, Next(s, e).db, s.handlers[h]);
    StillKnown(s.db, Next(s, e).db, s.handlers[h].work);
  }

  lemma CheckedOk(s: State, req: Request)
    requires ClaimInv(s) && Enabled(s, Check(req)) && Admit(s.db, req).Some?
    ensures HandlerOk(Next(s, Check(req)), s.nextTxn)
  {
    AdmittedAlone(s.db, req);
    AdmittedFit(s.db, req);
  }

  /** A handler is as it was, or has just gone on, or has just been admitted. */
  lemma HandlersCome(s: State, e: Event, h: Id)
    requires Enabled(s, e) && h in Next(s, e).handlers
    ensures || (h in s.handlers && Next(s, e).handlers[h] == s.handlers[h])
            || (e.Finish? && h == e.h)
            || (e.Check? && h == s.nextTxn && Admit(s.db, e.req).Some?)
  {
  }

  lemma HandlersKept(s: State, e: Event, h: Id)
    requires ClaimInv(s) && Enabled(s, e) && EventSafe(s, e) && h in Next(s, e).handlers
    ensures HandlerOk(Next(s, e), h)
  {
    HandlersCome(s, e, h);
    if h in s.handlers && Next(s, e).handlers[h] == s.handlers[h] {
      UntouchedOk(s, e, h);
    } else if e.Finish? {
      ContinuedOk(s, h, e.answer);
    } else {
      CheckedOk(s, e.req);
    }
  }

  lemma StepKeepsClaims(s: State, e: Event)
    requires ClaimInv(s) && Enabled(s, e) && EventSafe(s, e)
    ensures ClaimInv(Next(s, e))
  {
    StepKeepsIff(s, e);
    StepKeepsOrder(s, e);
    TxnsKept(s, e);
    forall h | h in Next(s, e).handlers
      ensures HandlerOk(Next(s, e), h)
    {
      HandlersKept(s, e, h);
    }
  }

  /** A connect under way stays in its pool; a new one has found it active. */
  lemma TxnsArrive(s: State, e: Event, t: Id)
    requires Enabled(s, e) && t in Next(s, e).txns
    ensures if t in s.txns && !(e.Arrive? && t == s.nextTxn) then Next(s, e).txns[t].pool == s.txns[t].pool
            else e.Arrive? && Next(s, e).txns[t].pool == e.p && Next(s, e).db == s.db
  {
  }

  lemma TxnsKept(s: State, e: Event)
    requires ClaimInv(s) && Enabled(s, e)
    ensures forall t | t in Next(s, e).txns :: PoolKnown(Next(s, e).db, Next(s, e).txns[t].pool)
  {
    EventIsForward(s, e);
    forall t | t in Next(s, e).txns
      ensures PoolKnown(Next(s, e).db, Next(s, e).txns[t].pool)
    {
      TxnsArrive(s, e, t);
      if t in s.txns {
        TxnsKnown(s.db, Next(s, e).db, s.txns[t].pool);
      }
    }
  }

  /** Every event of the run that happens is safe when it happens. */
  ghost predicate SafeRun(s: State, events: seq<Event>)
    decreases |events|
  {
    events == [] || (
      if Enabled(s, events[0]) then EventSafe(s, events[0]) && SafeRun(Next(s, events[0]), events[1..])
      else SafeRun(s, events[1..]))
  }

  lemma {:induction false} RunKeepsClaims(s: State, events: seq<Event>)
    requires ClaimInv(s) && SafeRun(s, events)
    ensures ClaimInv(Run(s, events))
    decreases |events|
  {
    if events != [] {
      if Enabled(s, events[0]) {
        StepKeepsClaims(s, events[0]);
        RunKeepsClaims(Next(s, events[0]), events[1..]);
      } else {
        RunKeepsClaims(s, events[1..]);
      }
    }
  }

  // ── Who is harmed ─────────────────────────────────────────────────

  /** The invariant after a late write, by the handler's own facts. */
  lemma FinishKeepsIff(s: State, h: Id, answer: Answer)
    requires ClaimInv(s) && Enabled(s, Finish(h, answer))
    ensures Inv(s.db) && CameSince(s.db, s.handlers[h]) && WorkKnown(s.db, s.handlers[h].work)
    ensures WorkSound(s.db, s.handlers[h].work)
    ensures Inv(Next(s, Finish(h, answer)).db) <==> Safe(s.db, s.handlers[h].work, answer)
  {
    assert HandlerOk(s, h);
    FinishWrites(s, h, answer);
    WriteSafeIff(s.db, s.handlers[h].work, answer);
  }

  /** Some session opened since is live on the row, of somebody other than `user` if that is given. */
  predicate Latecomer(db: Db, d: Id, since: Id, user: Option<string>) {
    exists sid :: sid in LiveOn(db, d) && sid >= since && Some(db.sessions[sid].user) != user
  }

  lemma RemoversHarmLatecomers(db: Db, h: Handler, a: Answer)
    requires Inv(db) && CameSince(db, h)
    requires (h.work.Dooming? || h.work.Unassigning? || (h.work.Removing? && a.cycle.CycleDone?))
             && h.work.d in db.desktops
    requires h.work.Dooming? ==> !h.work.wasDeleting
    requires h.work.Unassigning? ==> !Doomed(db.desktops[h.work.d])
    ensures Safe(db, h.work, a) <==> !Latecomer(db, h.work.d, h.since, None)
  {
    if sid :| sid in LiveOn(db, h.work.d) {
      assert Some(db.sessions[sid].user) != None;
    }
  }

  /**
   * A destroy, a rebuild, an unassignment or the end of a removal is safe exactly when no session opened on the
   * row since its check is still live.
   */
  lemma OnlyLatecomersAreHarmed(s: State, h: Id, answer: Answer)
    requires ClaimInv(s) && Enabled(s, Finish(h, answer))
    requires var w := s.handlers[h].work;
             && (w.Dooming? || w.Unassigning? || (w.Removing? && answer.cycle.CycleDone?)) && w.d in s.db.desktops
             && (w.Dooming? ==> !w.wasDeleting) && (w.Unassigning? ==> !Doomed(s.db.desktops[w.d]))
    ensures var w, since := s.handlers[h].work, s.handlers[h].since;
            Inv(Next(s, Finish(h, answer)).db) <==> !Latecomer(s.db, w.d, since, None)
  {
    FinishKeepsIff(s, h, answer);
    RemoversHarmLatecomers(s.db, s.handlers[h], answer);
  }

  /** The assignment of a spare is safe exactly when nobody else has opened a session on it since its check. */
  lemma AssignmentHarmsOthersOnly(s: State, h: Id, answer: Answer)
    requires ClaimInv(s) && Enabled(s, Finish(h, answer))
    requires var w := s.handlers[h].work;
             w.Assigning? && w.saw == SpareRow && w.d in s.db.desktops && !Doomed(s.db.desktops[w.d])
    ensures var w, since := s.handlers[h].work, s.handlers[h].since;
            Inv(Next(s, Finish(h, answer)).db) <==> !Latecomer(s.db, w.d, since, Some(w.user))
  {
    FinishKeepsIff(s, h, answer);
  }

  lemma RazesHarmLatecomers(db: Db, h: Handler, d: Id, a: Answer)
    requires Inv(db) && CameSince(db, h) && WorkKnown(db, h.work) && h.work.Cascading?
    requires d in h.work.doing && d in db.desktops && d == Picked(h.work.todo, h.work.doing, a.at) && Razed(a.fates, d)
    ensures Safe(db, h.work, a) <==> !Latecomer(db, d, h.since, None)
  {
    forall sid | sid in LiveOn(db, d)
      ensures sid >= h.since && Some(db.sessions[sid].user) != None
    {
      assert d in h.work.todo + h.work.doing.Keys;
      assert sid in LiveOf(db, h.work.p);
    }
  }

  /** A cascade's destroy is safe exactly when no session opened since the pool was marked is live on the row. */
  lemma CascadeHarmsLatecomersOnly(s: State, h: Id, answer: Answer, d: Id)
    requires ClaimInv(s) && Enabled(s, Finish(h, answer)) && s.handlers[h].work.Cascading?
    requires var w := s.handlers[h].work;
             d in w.doing && d == Picked(w.todo, w.doing, answer.at)
    requires d in s.db.desktops && Razed(answer.fates, d)
    ensures Inv(Next(s, Finish(h, answer)).db) <==> !Latecomer(s.db, d, s.handlers[h].since, None)
  {
    FinishKeepsIff(s, h, answer);
    RazesHarmLatecomers(s.db, s.handlers[h], d, answer);
  }

  lemma WriteBackHarmsLatecomers(db: Db, h: Handler, a: Answer)
    requires Inv(db) && CameSince(db, h) && h.work.Resetting? && h.work.d in db.desktops
    requires h.work.owner.Some? && h.work.read.user.None? && h.work.read.status == Provisioning && a.clone.Some?
    requires db.desktops[h.work.d].status != Available
    ensures Safe(db, h.work, a) <==> !Latecomer(db, h.work.d, h.since, h.work.owner)
  {
  }

  /**
   * A rebuild's write-back over a row its second leg read unassigned is safe exactly when nobody but the kept
   * user has opened a session on the row since that read.
   */
  lemma WriteBackHarmsOthersOnly(s: State, h: Id, answer: Answer)
    requires ClaimInv(s) && Enabled(s, Finish(h, answer)) && s.handlers[h].work.Resetting?
    requires var w := s.handlers[h].work;
             && w.owner.Some? && w.read.user.None? && w.read.status == Provisioning && answer.clone.Some?
             && w.d in s.db.desktops && s.db.desktops[w.d].status != Available
    ensures var w, since := s.handlers[h].work, s.handlers[h].since;
            Inv(Next(s, Finish(h, answer)).db) <==> !Latecomer(s.db, w.d, since, w.owner)
  {
    FinishKeepsIff(s, h, answer);
    WriteBackHarmsLatecomers(s.db, s.handlers[h], answer);
  }

  // ── Safe runs ─────────────────────────────────────────────────────

  /** In a safe run nobody is connected to a claimed desktop. */
  lemma ClaimedIsIdle(events: seq<Event>, t: Id)
    requires SafeRun(EMPTY, events)
    requires var s := Run(EMPTY, events);
             t in s.txns && s.txns[t].phase.Claimed?
    ensures LiveOn(Run(EMPTY, events).db, Run(EMPTY, events).txns[t].phase.row) == {}
  {
    RunKeepsClaims(EMPTY, events);
    var s := Run(EMPTY, events);
    assert TxnOk(s, t);
    SpareIsIdle(s.db, s.txns[t].phase.row);
  }

  /** And the sessions of one non-persistent desktop are never live together. */
  lemma CommitsAreExclusive(events: seq<Event>, a: Id, b: Id)
    requires SafeRun(EMPTY, events)
    requires var db := Run(EMPTY, events).db;
             a in db.sessions && b in db.sessions && Live(db.sessions[a]) && Live(db.sessions[b])
             && db.sessions[a].desktop == db.sessions[b].desktop
    ensures var db := Run(EMPTY, events).db;
            var d := db.sessions[a].desktop;
            d.Some? && d.value in db.desktops && db.desktops[d.value].pool in db.pools
            && (db.pools[db.desktops[d.value].pool].kind == NonPersistent ==> a == b)
  {
    RunKeepsClaims(EMPTY, events);
    var db := Run(EMPTY, events).db;
    assert SessionOk(db, db.sessions[a]);
    assert a != b ==> !Clash(db, a, b);
  }

  /**
   * The end of a session on a connected desktop it holds floating waits for no connect, only for another write of
   * that row, and makes the desktop available again.
   */
  lemma EndReturnsTheRow(s: State, h: Id, answer: Answer, p: Id)
    requires ClaimInv(s) && h in s.handlers && s.handlers[h].work.Vacating?
    requires var w := s.handlers[h].work;
             w.s in s.db.sessions && w.read.assignment == Some(Floating) && w.d in ConnectedRows(s, p)
    ensures var d := s.handlers[h].work.d;
            Enabled(s, Finish(h, answer)) <==> (d in s.flushed ==> s.flushed[d] == h)
    ensures Enabled(s, Finish(h, answer)) ==>
              var s', d := Next(s, Finish(h, answer)), s.handlers[h].work.d;
              && ClaimedRows(s', p) == ClaimedRows(s, p) && d in Open(s', p)
              && MovesRow(ConnectedRows(s, p), RowsWithStatus(s.db, p, Available),
                          ConnectedRows(s', p), RowsWithStatus(s'.db, p, Available), d)
  {
    var w := s.handlers[h].work;
    EndWaits(s, h, answer, p);
    if Enabled(s, Finish(h, answer)) {
      FinishWrites(s, h, answer);
      FinishUnlocks(s, h, answer, w.d);
      VacatingMoves(s, Next(s, Finish(h, answer)), w.d, Merged(s.db.desktops[w.d], w.read, Vacated(w.read)), p);
    }
  }

  lemma FinishUnlocks(s: State, h: Id, answer: Answer, d: Id)
    requires Enabled(s, Finish(h, answer)) && (d in s.flushed ==> s.flushed[d] == h)
    ensures d !in Next(s, Finish(h, answer)).flushed && Next(s, Finish(h, answer)).rowLocks == s.rowLocks
  {
  }

  /** The write of one row waits for that row's lock only. */
  lemma OneRowWaits(s: State, writer: Option<Id>, d: Id, row: Desktop, db': Db)
    requires d in s.db.desktops && row != s.db.desktops[d] && db'.desktops == s.db.desktops[d := row]
    ensures LeavesLocked(s, writer, db') <==> !LockedTo(s, writer, d)
  {
    assert db'.desktops[d] != s.db.desktops[d];
  }

  lemma EndWaits(s: State, h: Id, answer: Answer, p: Id)
    requires ClaimInv(s) && h in s.handlers && s.handlers[h].work.Vacating?
    requires var w := s.handlers[h].work;
             w.s in s.db.sessions && w.read.assignment == Some(Floating) && w.d in ConnectedRows(s, p)
    ensures var w := s.handlers[h].work;
            && w.d !in s.rowLocks && Merged(s.db.desktops[w.d], w.read, Vacated(w.read)).status == Available
            && (Enabled(s, Finish(h, answer)) <==> (w.d in s.flushed ==> s.flushed[w.d] == h))
  {
    var w := s.handlers[h].work;
    assert HandlerOk(s, h);
    if w.d in s.rowLocks {
      LockedRowsAreAvailable(s, w.d);
    }
    FinishEnabled(s, h, answer);
    OneRowWaits(s, Some(h), w.d, Merged(s.db.desktops[w.d], w.read, Vacated(w.read)), Write(s.db, w, answer));
  }
}

/**
 * Refresh-token rotation: interleaved refreshes and logouts on token rows, the methods that serve them, and
 * the cookie that carries a token.
 *
 * A refresh locks its row from the lookup to its commit; a logout looks without a lock and waits for the
 * lock when it writes. Secrets are numbers minted in increasing order, a hash is a constructor around one.
 */
module RefreshToken {
  import opened Entities

  /** A day, in seconds. */
  const REFRESH_TOKEN_TTL := 86400

  datatype Hash = Hash(secret: nat)

  datatype Row = Row(hash: Hash, expiresAt: nat, revoked: bool)

  /** A refresh waits for the row's lock or, verified, has it; a logout has seen the row unrevoked. */
  datatype Txn = Refreshing(row: Id, secret: nat, verified: bool) | LoggingOut(row: Id)

  /** What a run has made durable, in order. */
  datatype Entry = Issued(row: Id, secret: nat) | Accepted(row: Id, secret: nat) | Revoked(row: Id)

  datatype State = State(
    rows: map<Id, Row>, txns: map<Id, Txn>, locks: map<Id, Id>, now: nat, nextSecret: nat, nextId: Id,
    log: seq<Entry>)

  /** A table at rest. */
  function Idle(rows: map<Id, Row>, now: nat, nextSecret: nat, nextId: Id): State {
    State(rows, map[], map[], now, nextSecret, nextId, [])
  }

  /**
   * `Rotate`, `UserGone` and `Outage` are what the directory lookup of a verified refresh leads to; a crash
   * is an `Outage` too. `Pass` lets time pass.
   */
  datatype Event =
    | Login
    | BeginRefresh(row: Id, secret: nat)
    | Verify(t: Id)
    | Rotate(t: Id)
    | UserGone(t: Id)
    | Outage(t: Id)
    | BeginLogout(row: Id)
    | WriteLogout(t: Id)
    | Pass(ticks: nat)

  predicate Usable(row: Row, secret: nat, now: nat) {
    !row.revoked && row.expiresAt >= now && row.hash == Hash(secret)
  }

  function Close(s: State, t: Id): State {
    s.(txns := s.txns - {t}, locks := map r | r in s.locks && s.locks[r] != t :: s.locks[r])
  }

  predicate HasLock(s: State, t: Id) {
    t in s.txns && s.txns[t].Refreshing? && s.txns[t].verified && s.txns[t].row in s.rows
  }

  /** The step an event makes; one that cannot happen, or has to wait, changes nothing. */
  function Next(s: State, e: Event): State {
    match e
    case Login =>
      s.(rows := s.rows[s.nextId := Row(Hash(s.nextSecret), s.now + REFRESH_TOKEN_TTL, false)],
         nextId := s.nextId + 1, nextSecret := s.nextSecret + 1, log := s.log + [Issued(s.nextId, s.nextSecret)])
    case BeginRefresh(r, secret) =>
      s.(txns := s.txns[s.nextId := Refreshing(r, secret, false)], nextId := s.nextId + 1)
    case Verify(t) =>
      if t !in s.txns || !s.txns[t].Refreshing? || s.txns[t].row in s.locks then s
      else
        var txn := s.txns[t];
        if txn.row !in s.rows || !Usable(s.rows[txn.row], txn.secret, s.now) then Close(s, t)
        else s.(txns := s.txns[t := txn.(verified := true)], locks := s.locks[txn.row := t])
    case Rotate(t) =>
      if !HasLock(s, t) then s
      else
        var r := s.txns[t].row;
        Close(s.(rows := s.rows[r := s.rows[r].(hash := Hash(s.nextSecret), expiresAt := s.now + REFRESH_TOKEN_TTL)],
                 nextSecret := s.nextSecret + 1,
                 log := s.log + [Accepted(r, s.txns[t].secret), Issued(r, s.nextSecret)]), t)
    case UserGone(t) =>
      if !HasLock(s, t) then s
      else
        var r := s.txns[t].row;
        Close(s.(rows := s.rows[r := s.rows[r].(revoked := true)], log := s.log + [Revoked(r)]), t)
    case Outage(t) => Close(s, t)
    case BeginLogout(r) =>
      if r !in s.rows || s.rows[r].revoked then s
      else s.(txns := s.txns[s.nextId := LoggingOut(r)], nextId := s.nextId + 1)
    case WriteLogout(t) =>
      if t !in s.txns || !s.txns[t].LoggingOut? || s.txns[t].row in s.locks then s
      else
        var r := s.txns[t].row;
        if r !in s.rows then Close(s, t)
        else Close(s.(rows := s.rows[r := s.rows[r].(revoked := true)], log := s.log + [Revoked(r)]), t)
    case Pass(ticks) => s.(now := s.now + ticks)
  }

  function Run(s: State, events: seq<Event>): State {
    if events == [] then s else Next(Run(s, events[..|events| - 1]), events[|events| - 1])
  }

  const EMPTY := Idle(map[], 0, 0, 0)

  // ── What a log may say ────────────────────────────────────────────

  /** The secret issued last for a row. */
  function LastIssued(log: seq<Entry>, r: Id): Option<nat> {
    if log == [] then None
    else if log[|log| - 1].Issued? && log[|log| - 1].row == r then Some(log[|log| - 1].secret)
    else LastIssued(log[..|log| - 1], r)
  }

  predicate RevokedIn(log: seq<Entry>, r: Id) {
    Revoked(r) in log
  }

  predicate AcceptedIn(log: seq<Entry>, r: Id, secret: nat) {
    Accepted(r, secret) in log
  }

  /**
   * Every acceptance is of the secret issued last, of a row not revoked before, and of a secret never
   * accepted before.
   */
  ghost predicate Orderly(log: seq<Entry>) {
    forall i | 0 <= i < |log| && log[i].Accepted? ::
      && LastIssued(log[..i], log[i].row) == Some(log[i].secret)
      && !RevokedIn(log[..i], log[i].row)
      && !AcceptedIn(log[..i], log[i].row, log[i].secret)
  }

  // ── Invariant ─────────────────────────────────────────────────────

  /** A row shows what the log says of it; its secret has not been accepted yet. */
  ghost predicate RowOk(s: State, r: Id)
    requires r in s.rows
  {
    && r < s.nextId && s.rows[r].hash.secret < s.nextSecret
    && LastIssued(s.log, r) == Some(s.rows[r].hash.secret)
    && (s.rows[r].revoked <==> RevokedIn(s.log, r))
    && !AcceptedIn(s.log, r, s.rows[r].hash.secret)
  }

  /** Between verification and commit the row stays as it was verified. */
  ghost predicate TxnOk(s: State, t: Id)
    requires t in s.txns
  {
    && t < s.nextId
    && (s.txns[t].Refreshing? && s.txns[t].verified ==>
          var r := s.txns[t].row;
          && r in s.locks && s.locks[r] == t && r in s.rows
          && !s.rows[r].revoked && s.rows[r].hash == Hash(s.txns[t].secret))
  }

  /** Entries name rows and secrets that have been handed out. */
  predicate EntriesOk(s: State) {
    forall i | 0 <= i < |s.log| ::
      s.log[i].row < s.nextId && (!s.log[i].Revoked? ==> s.log[i].secret < s.nextSecret)
  }

  ghost predicate Inv(s: State) {
    && Orderly(s.log)
    && EntriesOk(s)
    && (forall r | r in s.rows :: RowOk(s, r))
    && (forall t | t in s.txns :: TxnOk(s, t))
    && (forall r | r in s.locks ::
          s.locks[r] in s.txns && s.txns[s.locks[r]].Refreshing? && s.txns[s.locks[r]].verified
          && s.txns[s.locks[r]].row == r)
  }

  lemma LogPlus(log: seq<Entry>, e: Entry, r: Id)
    ensures LastIssued(log + [e], r) == if e.Issued? && e.row == r then Some(e.secret) else LastIssued(log, r)
    ensures RevokedIn(log + [e], r) <==> RevokedIn(log, r) || e == Revoked(r)
    ensures forall secret ::
              AcceptedIn(log + [e], r, secret) <==> AcceptedIn(log, r, secret) || e == Accepted(r, secret)
  {
    assert (log + [e])[..|log|] == log;
  }

  lemma OrderlyPlus(log: seq<Entry>, e: Entry)
    requires Orderly(log)
    requires e.Accepted? ==>
               && LastIssued(log, e.row) == Some(e.secret) && !RevokedIn(log, e.row)
               && !AcceptedIn(log, e.row, e.secret)
    ensures Orderly(log + [e])
  {
    forall i | 0 <= i < |log + [e]| && (log + [e])[i].Accepted?
      ensures LastIssued((log + [e])[..i], (log + [e])[i].row) == Some((log + [e])[i].secret)
      ensures !RevokedIn((log + [e])[..i], (log + [e])[i].row)
      ensures !AcceptedIn((log + [e])[..i], (log + [e])[i].row, (log + [e])[i].secret)
    {
      assert (log + [e])[..i] == log[..i];
    }
  }

  /** Ending a transaction, whatever was written before, needs the others to be in order only. */
  lemma CloseKeeps(s: State, t: Id)
    requires Orderly(s.log)
    requires EntriesOk(s)
    requires forall r | r in s.rows :: RowOk(s, r)
    requires forall u | u in s.txns && u != t :: TxnOk(s, u)
    requires forall r | r in s.locks ::
               s.locks[r] in s.txns && s.txns[s.locks[r]].Refreshing? && s.txns[s.locks[r]].verified
               && s.txns[s.locks[r]].row == r
    ensures Inv(Close(s, t))
  {
    var s' := Close(s, t);
    forall r | r in s'.rows
      ensures RowOk(s', r)
    {
      assert RowOk(s, r);
    }
    forall u | u in s'.txns
      ensures TxnOk(s', u)
    {
      assert TxnOk(s, u);
    }
  }

  lemma LoginKeeps(s: State)
    requires Inv(s)
    ensures Inv(Next(s, Login))
  {
    var s' := Next(s, Login);
    var e := Issued(s.nextId, s.nextSecret);
    OrderlyPlus(s.log, e);
    forall r | r in s'.rows
      ensures RowOk(s', r)
    {
      LogPlus(s.log, e, r);
      if r != s.nextId {
        assert RowOk(s, r);
      }
    }
    forall t | t in s'.txns
      ensures TxnOk(s', t)
    {
      assert TxnOk(s, t);
    }
  }

  lemma BeginKeeps(s: State, txn: Txn)
    requires Inv(s) && (txn.Refreshing? ==> !txn.verified)
    ensures Inv(s.(txns := s.txns[s.nextId := txn], nextId := s.nextId + 1))
  {
    var s' := s.(txns := s.txns[s.nextId := txn], nextId := s.nextId + 1);
    forall r | r in s'.rows
      ensures RowOk(s', r)
    {
      assert RowOk(s, r);
    }
    forall t | t in s'.txns
      ensures TxnOk(s', t)
    {
      assert t != s.nextId ==> TxnOk(s, t);
    }
    forall r | r in s'.locks
      ensures s'.locks[r] in s'.txns && s'.txns[s'.locks[r]] == s.txns[s.locks[r]]
    {
      assert TxnOk(s, s.locks[r]);
    }
  }

  lemma VerifyKeeps(s: State, t: Id)
    requires Inv(s)
    ensures Inv(Next(s, Verify(t)))
  {
    if t in s.txns && s.txns[t].Refreshing? && s.txns[t].row !in s.locks {
      CloseKeeps(s, t);
      var s' := Next(s, Verify(t));
      if t in s'.txns {
        forall r | r in s'.rows
          ensures RowOk(s', r)
        {
          assert RowOk(s, r);
        }
        forall u | u in s'.txns
          ensures TxnOk(s', u)
        {
          assert TxnOk(s, u);
        }
      }
    }
  }

  /** One row rewritten under its lock, or with nobody holding it. */
  lemma WriteKeeps(s: State, t: Id, r: Id, row: Row, entries: seq<Entry>, nextSecret: nat)
    requires Inv(s) && t in s.txns && r in s.rows && (r in s.locks ==> s.locks[r] == t)
    requires var s1 := s.(rows := s.rows[r := row], log := s.log + entries, nextSecret := nextSecret);
             && Orderly(s1.log) && RowOk(s1, r) && s.nextSecret <= nextSecret
             && (forall e | e in entries :: e.row == r && (!e.Revoked? ==> e.secret < nextSecret))
             && (forall q | q != r :: LastIssued(s1.log, q) == LastIssued(s.log, q))
    ensures Inv(Close(s.(rows := s.rows[r := row], log := s.log + entries, nextSecret := nextSecret), t))
  {
    var s1 := s.(rows := s.rows[r := row], log := s.log + entries, nextSecret := nextSecret);
    forall q | q in s1.rows
      ensures RowOk(s1, q)
    {
      if q != r {
        assert RowOk(s, q);
      }
    }
    forall u | u in s1.txns && u != t
      ensures TxnOk(s1, u)
    {
      assert TxnOk(s, u);
    }
    CloseKeeps(s1, t);
  }

  /** The two entries of a rotation. */
  lemma RotationLogged(log: seq<Entry>, r: Id, secret: nat, minted: nat)
    requires Orderly(log) && LastIssued(log, r) == Some(secret) && !RevokedIn(log, r) && !AcceptedIn(log, r, secret)
    requires minted != secret && !AcceptedIn(log, r, minted)
    ensures var log' := log + [Accepted(r, secret), Issued(r, minted)];
            && Orderly(log') && !RevokedIn(log', r) && !AcceptedIn(log', r, minted)
            && forall q :: LastIssued(log', q) == if q == r then Some(minted) else LastIssued(log, q)
  {
    var a, b := Accepted(r, secret), Issued(r, minted);
    OrderlyPlus(log, a);
    OrderlyPlus(log + [a], b);
    assert log + [a] + [b] == log + [a, b];
    forall q
      ensures LastIssued(log + [a, b], q) == if q == r then Some(minted) else LastIssued(log, q)
    {
      LogPlus(log, a, q);
      LogPlus(log + [a], b, q);
    }
  }

  lemma RotateKeeps(s: State, t: Id)
    requires Inv(s) && HasLock(s, t)
    ensures Inv(Next(s, Rotate(t)))
  {
    var r, secret := s.txns[t].row, s.txns[t].secret;
    assert TxnOk(s, t) && RowOk(s, r);
    RotationLogged(s.log, r, secret, s.nextSecret);
    var row := s.rows[r].(hash := Hash(s.nextSecret), expiresAt := s.now + REFRESH_TOKEN_TTL);
    var entries := [Accepted(r, secret), Issued(r, s.nextSecret)];
    assert forall e | e in entries :: e.row == r && !e.Revoked? && e.secret <= s.nextSecret;
    WriteKeeps(s, t, r, row, entries, s.nextSecret + 1);
  }

  lemma RevokeKeeps(s: State, t: Id, r: Id)
    requires Inv(s) && t in s.txns && r in s.rows && (r in s.locks ==> s.locks[r] == t)
    ensures Inv(Close(s.(rows := s.rows[r := s.rows[r].(revoked := true)], log := s.log + [Revoked(r)]), t))
  {
    OrderlyPlus(s.log, Revoked(r));
    assert RowOk(s, r);
    forall q
      ensures LastIssued(s.log + [Revoked(r)], q) == LastIssued(s.log, q)
    {
      LogPlus(s.log, Revoked(r), q);
    }
    LogPlus(s.log, Revoked(r), r);
    WriteKeeps(s, t, r, s.rows[r].(revoked := true), [Revoked(r)], s.nextSecret);
  }

  lemma StepKeeps(s: State, e: Event)
    requires Inv(s)
    ensures Inv(Next(s, e))
  {
    match e
    case Login => LoginKeeps(s);
    case BeginRefresh(r, secret) => BeginKeeps(s, Refreshing(r, secret, false));
    case Verify(t) => VerifyKeeps(s, t);
    case Rotate(t) => if HasLock(s, t) { RotateKeeps(s, t); }
    case UserGone(t) =>
      if HasLock(s, t) {
        assert TxnOk(s, t);
        RevokeKeeps(s, t, s.txns[t].row);
      }
    case Outage(t) => CloseKeeps(s, t);
    case BeginLogout(r) => BeginKeeps(s, LoggingOut(r));
    case WriteLogout(t) =>
      CloseKeeps(s, t);
      if t in s.txns && s.txns[t].LoggingOut? && s.txns[t].row in s.rows && s.txns[t].row !in s.locks {
        RevokeKeeps(s, t, s.txns[t].row);
      }
    case Pass(ticks) => PassKeeps(s, ticks);
  }

  lemma PassKeeps(s: State, ticks: nat)
    requires Inv(s)
    ensures Inv(Next(s, Pass(ticks)))
  {
    var s' := Next(s, Pass(ticks));
    forall r | r in s'.rows
      ensures RowOk(s', r)
    {
      assert RowOk(s, r);
    }
    forall t | t in s'.txns
      ensures TxnOk(s', t)
    {
      assert TxnOk(s, t);
    }
  }

  lemma {:induction false} RunKeeps(events: seq<Event>)
    ensures Inv(Run(EMPTY, events))
  {
    if events != [] {
      RunKeeps(events[..|events| - 1]);
      StepKeeps(Run(EMPTY, events[..|events| - 1]), events[|events| - 1]);
    }
  }

  // ── Guarantees over runs ──────────────────────────────────────────

  /** In any interleaving only the secret issued last is accepted, and never after the row was revoked. */
  lemma OnlyTheLatestSecret(events: seq<Event>, i: nat)
    requires i < |Run(EMPTY, events).log| && Run(EMPTY, events).log[i].Accepted?
    ensures var log := Run(EMPTY, events).log;
            && LastIssued(log[..i], log[i].row) == Some(log[i].secret)
            && forall j | 0 <= j < i :: log[j] != Revoked(log[i].row)
  {
    RunKeeps(events);
    var log := Run(EMPTY, events).log;
    forall j | 0 <= j < i
      ensures log[j] != Revoked(log[i].row)
    {
      assert log[j] in log[..i];
    }
  }

  lemma EarlierDiffers(log: seq<Entry>, i: nat, j: nat)
    requires Orderly(log) && i < j < |log| && log[j].Accepted?
    ensures log[i] != log[j]
  {
    assert log[..j][i] == log[i];
  }

  /** Of any refreshes presenting one secret of a row, at most one succeeds. */
  lemma AcceptedOnce(events: seq<Event>, i: nat, j: nat)
    requires i < |Run(EMPTY, events).log| && j < |Run(EMPTY, events).log|
    requires Run(EMPTY, events).log[i].Accepted? && Run(EMPTY, events).log[i] == Run(EMPTY, events).log[j]
    ensures i == j
  {
    RunKeeps(events);
    var log := Run(EMPTY, events).log;
    if i < j {
      EarlierDiffers(log, i, j);
    } else if j < i {
      EarlierDiffers(log, j, i);
    }
  }

  /** Revocation is permanent, and so is expiry once no verified refresh is left in flight. */
  ghost predicate Dead(s: State, r: Id) {
    r in s.rows && (s.rows[r].revoked || (s.rows[r].expiresAt < s.now && r !in s.locks))
  }

  lemma DeadStaysDead(s: State, e: Event, r: Id)
    requires Inv(s) && Dead(s, r)
    ensures Dead(Next(s, e), r)
    ensures forall secret :: AcceptedIn(Next(s, e).log, r, secret) <==> AcceptedIn(s.log, r, secret)
  {
    assert RowOk(s, r);
    if e.Rotate? && HasLock(s, e.t) {
      assert TxnOk(s, e.t);
      assert s.txns[e.t].row != r;
    }
  }

  /** An outage of the directory leaves the row as it was: the same secret, presented again in time, is good. */
  lemma OutageLeavesTheRow(s: State, t: Id)
    requires Inv(s) && HasLock(s, t)
    ensures var r, secret := s.txns[t].row, s.txns[t].secret;
            var s1 := Next(s, Outage(t));
            && s1.rows == s.rows && s1.log == s.log && r !in s1.locks
            && (s.rows[r].expiresAt >= s.now ==>
                  HasLock(Next(Next(s1, BeginRefresh(r, secret)), Verify(s.nextId)), s.nextId))
  {
    assert TxnOk(s, t);
    var s1 := Next(s, Outage(t));
    var r := s.txns[t].row;
    assert r !in s1.locks;
  }

  /** A token is good for a day from its login or its last rotation, to the second. */
  lemma GoodForADay(s: State, t: Id, ticks: nat)
    requires Inv(s)
    ensures var s1 := Next(Next(s, Login), Pass(ticks));
            s.nextId in s1.rows && (Usable(s1.rows[s.nextId], s.nextSecret, s1.now) <==> ticks <= 86400)
    ensures HasLock(s, t) ==>
              var r := s.txns[t].row;
              var s1 := Next(Next(s, Rotate(t)), Pass(ticks));
              r in s1.rows && (Usable(s1.rows[r], s.nextSecret, s1.now) <==> ticks <= 86400)
  {
    if HasLock(s, t) {
      assert TxnOk(s, t);
    }
  }

  /** When its user is gone, a token is dead for good. */
  lemma UserGoneKills(s: State, t: Id, e: Event)
    requires Inv(s) && HasLock(s, t)
    ensures var r := s.txns[t].row;
            var s1 := Next(s, UserGone(t));
            && Inv(s1) && s1.rows == s.rows[r := s.rows[r].(revoked := true)] && r !in s1.locks
            && Next(s1, e).rows.Keys >= s.rows.Keys && Next(s1, e).rows[r].revoked
  {
    assert TxnOk(s, t);
    StepKeeps(s, UserGone(t));
    var r := s.txns[t].row;
    var s1 := Next(s, UserGone(t));
    assert Dead(s1, r) && RowOk(s1, r);
    if e.Rotate? && HasLock(s1, e.t) {
      assert TxnOk(s1, e.t);
    }
  }

  // ── The handlers ──────────────────────────────────────────────────

  datatype Lookup = UserFound | NoSuchUser | ServiceDown

  datatype Reply = Unauthorized | Unavailable | Refreshed(secret: nat)

  /** The three events of a refresh nobody interferes with. */
  function Served(s: State, r: Id, secret: nat, lookup: Lookup): State {
    var t := s.nextId;
    var verified := Next(Next(s, BeginRefresh(r, secret)), Verify(t));
    match lookup
    case UserFound => Next(verified, Rotate(t))
    case NoSuchUser => Next(verified, UserGone(t))
    case ServiceDown => Next(verified, Outage(t))
  }

  /** The cookie's row is there, unrevoked and unexpired, and its hash is of the cookie's secret. */
  predicate Good(rows: map<Id, Row>, cookie: (Id, nat), now: nat) {
    && cookie.0 in rows && !rows[cookie.0].revoked && now <= rows[cookie.0].expiresAt
    && rows[cookie.0].hash.secret == cookie.1
  }

  class AuthTokens {
    var rows: map<Id, Row>
    var now: nat
    var nextSecret: nat
    var nextId: Id

    function Table(): State
      reads this
    {
      Idle(rows, now, nextSecret, nextId)
    }

    method RevokeToken(r: Id)
      modifies this`rows
      ensures rows == if r in old(rows) then old(rows)[r := old(rows)[r].(revoked := true)] else old(rows)
    {
      if r in rows && !rows[r].revoked {
        rows := rows[r := rows[r].(revoked := true)];
      }
    }

    /** `cookie` is the parsed cookie, nothing when it is missing or malformed. */
    method Refresh(cookie: Option<(Id, nat)>, lookup: Lookup) returns (reply: Reply)
      modifies this`rows, this`nextSecret
      ensures cookie.None? ==> reply == Unauthorized && rows == old(rows)
      ensures cookie.Some? ==>
                rows == Served(old(Table()), cookie.value.0, cookie.value.1, lookup).rows
      ensures reply.Refreshed? <==>
                && cookie.Some? && lookup == UserFound && cookie.value.0 in old(rows)
                && Usable(old(rows)[cookie.value.0], cookie.value.1, now)
      ensures reply.Refreshed? ==> Usable(rows[cookie.value.0], reply.secret, now) && reply.secret == old(nextSecret)
      ensures reply == Unavailable ==> rows == old(rows)
      ensures reply == Unavailable <==> lookup == ServiceDown && cookie.Some? && Good(old(rows), cookie.value, now)
      ensures !(cookie.Some? && Good(old(rows), cookie.value, now)) ==> reply == Unauthorized && rows == old(rows)
      ensures cookie.Some? && Good(old(rows), cookie.value, now) ==>
                && rows.Keys == old(rows).Keys
                && (forall q | q in rows && q != cookie.value.0 :: rows[q] == old(rows)[q])
                && var row, row' := old(rows)[cookie.value.0], rows[cookie.value.0];
                   match lookup
                   case UserFound =>
                     reply == Refreshed(old(nextSecret)) && row' == Row(Hash(old(nextSecret)), now + 86400, false)
                   case NoSuchUser => reply == Unauthorized && row' == row.(revoked := true)
                   case ServiceDown => row' == row
    {
      if cookie.None? {
        return Unauthorized;
      }
      var (r, secret) := cookie.value;
      if r !in rows || rows[r].revoked || rows[r].expiresAt < now {
        return Unauthorized;
      }
      if rows[r].hash != Hash(secret) {
        return Unauthorized;
      }
      if lookup == NoSuchUser {
        RevokeToken(r);
        return Unauthorized;
      }
      if lookup == ServiceDown {
        return Unavailable;
      }
      reply := Refreshed(nextSecret);
      rows := rows[r := rows[r].(hash := Hash(nextSecret))];
      rows := rows[r := rows[r].(expiresAt := now + REFRESH_TOKEN_TTL)];
      nextSecret := nextSecret + 1;
      assert rows == old(rows)[r := rows[r]];
    }

    /** Always succeeds; the secret is not looked at. */
    method Logout(cookie: Option<(Id, nat)>)
      modifies this`rows
      ensures cookie.None? ==> rows == old(rows)
      ensures cookie.Some? ==>
                var t := old(nextId);
                rows == Next(Next(old(Table()), BeginLogout(cookie.value.0)), WriteLogout(t)).rows
      ensures cookie.Some? && cookie.value.0 in rows ==>
                rows == old(rows)[cookie.value.0 := old(rows)[cookie.value.0].(revoked := true)]
    {
      if cookie.Some? {
        var (r, _) := cookie.value;
        if r in rows && !rows[r].revoked {
          rows := rows[r := rows[r].(revoked := true)];
        }
      }
    }
  }

  // ── The cookie ────────────────────────────────────────────────────

  function MakeCookie<U>(render: U -> string, id: U, secret: string): string {
    render(id) + "." + secret
  }

  /** Position of the first dot, or the length. */
  function FirstDot(value: string): (n: nat)
    ensures n <= |value| && (forall i | 0 <= i < n :: value[i] != '.') && (n < |value| ==> value[n] == '.')
  {
    if value == "" || value[0] == '.' then 0 else 1 + FirstDot(value[1..])
  }

  /** `parse` reads a UUID. */
  function ParseCookie<U>(parse: string -> Option<U>, value: string): Option<(U, string)> {
    var n := FirstDot(value);
    if n == |value| || value[n + 1..] == "" then None
    else
      match parse(value[..n])
      case None => None
      case Some(id) => Some((id, value[n + 1..]))
  }

  /** A cookie reads back as what it was made from, even if the secret should contain dots. */
  lemma CookieRoundTrip<U>(render: U -> string, parse: string -> Option<U>, id: U, secret: string)
    requires parse(render(id)) == Some(id) && '.' !in render(id) && secret != ""
    ensures ParseCookie(parse, MakeCookie(render, id, secret)) == Some((id, secret))
  {
    var value := MakeCookie(render, id, secret);
    var n := FirstDot(value);
    assert value[|render(id)|] == '.';
    assert forall i | 0 <= i < |render(id)| :: value[i] == render(id)[i];
    assert value[..n] == render(id) && value[n + 1..] == secret;
  }

  /** Exactly the values of the form identifier, dot, secret are read, the identifier without a dot. */
  lemma ParsesExactly<U>(parse: string -> Option<U>, value: string, id: U, secret: string)
    ensures ParseCookie(parse, value) == Some((id, secret))
            <==> secret != "" && exists text :: value == text + "." + secret && '.' !in text && parse(text) == Some(id)
  {
    var n := FirstDot(value);
    if ParseCookie(parse, value) == Some((id, secret)) {
      assert value == value[..n] + "." + secret && '.' !in value[..n];
    }
    if secret != "" && exists text :: value == text + "." + secret && '.' !in text && parse(text) == Some(id) {
      var text :| value == text + "." + secret && '.' !in text && parse(text) == Some(id);
      CookieRoundTrip((_: U) => text, parse, id, secret);
    }
  }
}

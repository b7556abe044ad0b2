/** The Proxmox client's retry loop, and the second one `destroy_vm` puts around it. */
module Retry {
  import opened Entities

  /** A body as received; `NotJson` fails to parse. `text` is what error messages are made of. */
  datatype Body = Empty | Json(data: string) | NotJson(text: string)

  /** What the n-th request sent is met with. */
  datatype Response = TimedOut | NetworkDown | Http(status: int, body: Body, text: string)

  type Replies = nat -> Response

  datatype Outcome =
    | Data(data: Option<string>)
    | AuthError
    | NotFoundError
    | LockError
    | TimeoutError
    | ApiError(status: int)
    | Exhausted

  function Lower(c: char): char {
    if 'A' <= c <= 'Z' then c - 'A' + 'a' else c
  }

  predicate StartsWithLock(s: string) {
    |s| >= 4 && Lower(s[0]) == 'l' && Lower(s[1]) == 'o' && Lower(s[2]) == 'c' && Lower(s[3]) == 'k'
  }

  /** "lock" occurs in the text, in any case. */
  predicate LooksLikeLockError(text: string) {
    text != "" && (StartsWithLock(text) || LooksLikeLockError(text[1..]))
  }

  /** The word stands at `i`, each letter in either case. */
  predicate LockAt(text: string, i: nat) {
    && i + 4 <= |text|
    && text[i] in {'l', 'L'} && text[i + 1] in {'o', 'O'} && text[i + 2] in {'c', 'C'} && text[i + 3] in {'k', 'K'}
  }

  lemma {:induction false} LockAnywhere(text: string)
    ensures LooksLikeLockError(text) <==> exists i :: LockAt(text, i)
  {
    if text != "" {
      LockAnywhere(text[1..]);
      forall i: nat | LockAt(text[1..], i)
        ensures LockAt(text, i + 1)
      {
        assert text[1..][i] == text[i + 1];
      }
      forall i: nat | LockAt(text, i) && i > 0
        ensures LockAt(text[1..], i - 1)
      {
        assert text[1..][i - 1] == text[i];
      }
      assert LockAt(text, 0) <==> StartsWithLock(text);
    }
  }

  /** Timeouts, network errors and 5xx are tried again. */
  predicate Retryable(r: Response) {
    r.TimedOut? || r.NetworkDown? || r.status >= 500
  }

  /** What a response means when it is the last one looked at. */
  function Meaning(r: Response): Outcome {
    match r
    case TimedOut => TimeoutError
    case NetworkDown => ApiError(0)
    case Http(status, body, text) =>
      if 200 <= status < 300 then
        (match body
         case Empty => Data(None)
         case Json(data) => Data(Some(data))
         case NotJson(_) => ApiError(status))
      else if status == 401 || status == 403 then AuthError
      else if status == 404 then NotFoundError
      else if status >= 500 && LooksLikeLockError(text) then LockError
      else ApiError(status)
  }

  function Pow2(n: nat): nat {
    if n == 0 then 1 else 2 * Pow2(n - 1)
  }

  /** What the caller is told of the last response. */
  ghost predicate Reported(last: Response, outcome: Outcome) {
    && (last == TimedOut ==> outcome == TimeoutError)
    && (last == NetworkDown ==> outcome == ApiError(0))
    && (last.Http? && 200 <= last.status < 300 ==>
          outcome == if last.body == Empty then Data(None)
                     else if last.body.Json? then Data(Some(last.body.data)) else ApiError(last.status))
    && (last.Http? && last.status in {401, 403} ==> outcome == AuthError)
    && (last.Http? && last.status == 404 ==> outcome == NotFoundError)
    && (last.Http? && last.status >= 500 ==>
          outcome == if exists i :: LockAt(last.text, i) then LockError else ApiError(last.status))
    && (last.Http? && last.status < 500 && last.status !in {401, 403, 404} && !(200 <= last.status < 300) ==>
          outcome == ApiError(last.status))
  }

  lemma MeaningIsReported(last: Response)
    ensures Reported(last, Meaning(last))
  {
    if last.Http? {
      LockAnywhere(last.text);
    }
  }

  /** Requests sent: up to the first response that is not retryable, `n` at most. */
  function Sent(replies: Replies, from: nat, n: nat): (k: nat)
    requires n >= 1
    ensures 1 <= k <= n
    decreases n
  {
    if n == 1 || !Retryable(replies(from)) then 1 else 1 + Sent(replies, from + 1, n - 1)
  }

  /**
   * All responses but the last were timeouts, network failures or of a status of 500 and more; the last is of
   * a lower status, or was the last allowed.
   */
  predicate StopsAfter(replies: Replies, from: nat, n: nat, k: nat) {
    && 1 <= k <= n
    && (forall i | from <= i < from + k - 1 :: replies(i).Http? ==> replies(i).status >= 500)
    && (k < n ==> replies(from + k - 1).Http? && replies(from + k - 1).status < 500)
  }

  /** Total sleep after `k` requests of one call. */
  function Slept(backoff: real, k: nat): real
    requires k >= 1
  {
    backoff * (Pow2(k - 1) as real - 1.0)
  }

  /** That leaves no choice: the requests sent are the one number it holds of. */
  lemma {:induction false} SentExactly(replies: Replies, from: nat, n: nat, k: nat)
    requires n >= 1
    ensures Sent(replies, from, n) == k <==> StopsAfter(replies, from, n, k)
    decreases n
  {
    if n > 1 && Retryable(replies(from)) {
      if k >= 1 {
        SentExactly(replies, from + 1, n - 1, k - 1);
      }
      assert StopsAfter(replies, from, n, k) <==> k >= 1 && StopsAfter(replies, from + 1, n - 1, k - 1);
    }
  }

  /** `parse_body` of a 2xx response. */
  method ParseBody(status: int, body: Body) returns (outcome: Outcome)
    requires 200 <= status < 300
    ensures outcome == Meaning(Http(status, body, ""))
    ensures match body
            case Empty => outcome == Data(None)
            case Json(data) => outcome == Data(Some(data))
            case NotJson(_) => outcome == ApiError(status)
  {
    match body
    case Empty => return Data(None);
    case Json(data) => return Data(Some(data));
    case NotJson(_) => return ApiError(status);
  }

  /**
   * `_request`. The call sends `Sent` requests, its outcome is what the last response means, and it sleeps
   * backoff * (2^(sent-1) - 1) in all. Only a call that may not try at all runs off the end of its loop.
   */
  method Request(replies: Replies, from: nat, maxRetries: int, backoff: real)
    returns (outcome: Outcome, sent: nat, slept: real)
    ensures maxRetries >= 1 ==>
              && sent == Sent(replies, from, maxRetries)
              && outcome == Meaning(replies(from + sent - 1))
              && slept == Slept(backoff, sent)
    ensures maxRetries <= 0 ==> outcome == Exhausted && sent == 0 && slept == 0.0
    ensures outcome == Exhausted <==> maxRetries <= 0
    ensures maxRetries >= 1 ==> 1 <= sent <= maxRetries
    ensures forall i | from <= i < from + sent - 1 ::
              replies(i) == TimedOut || replies(i) == NetworkDown || replies(i).status >= 500
    ensures 0 < sent < maxRetries ==> var last := replies(from + sent - 1); last.Http? && last.status < 500
    ensures maxRetries >= 1 ==> Reported(replies(from + sent - 1), outcome)
  {
    sent, slept := 0, 0.0;
    while sent < maxRetries
      invariant sent == 0 || sent < maxRetries
      invariant forall i | from <= i < from + sent :: Retryable(replies(i))
      invariant slept == backoff * (Pow2(sent) as real - 1.0)
    {
      var resp := replies(from + sent);
      var attempt := sent;
      sent := sent + 1;
      if Retryable(resp) && attempt < maxRetries - 1 {
        slept := slept + backoff * (Pow2(attempt) as real);
        continue;
      }
      SentExactly(replies, from, maxRetries, sent);
      MeaningIsReported(resp);
      match resp
      case TimedOut => return TimeoutError, sent, slept;
      case NetworkDown => return ApiError(0), sent, slept;
      case Http(status, body, text) =>
        if 200 <= status < 300 {
          outcome := ParseBody(status, body);
          return;
        }
        if status == 401 || status == 403 {
          return AuthError, sent, slept;
        }
        if status == 404 {
          return NotFoundError, sent, slept;
        }
        if status >= 500 && LooksLikeLockError(text) {
          return LockError, sent, slept;
        }
        return ApiError(status), sent, slept;
    }
    outcome := Exhausted;
  }

  // ── destroy_vm ────────────────────────────────────────────────────

  const MAX_RETRIES := 3
  const RETRY_BACKOFF := 2.0
  const DESTROY_ATTEMPTS := 3
  const DESTROY_BACKOFF := 5.0

  /** Sleep after an attempt that met the lock. */
  function Pause(attempt: nat): real {
    DESTROY_BACKOFF * (Pow2(attempt) as real)
  }

  datatype Call = Call(outcome: Outcome, sent: nat, slept: real)

  /** What a client call is, started when `from` requests have been sent. */
  type Calls = nat -> Call

  function CallsOn(replies: Replies): Calls {
    (from: nat) =>
      var sent := Sent(replies, from, MAX_RETRIES);
      Call(Meaning(replies(from + sent - 1)), sent, Slept(RETRY_BACKOFF, sent))
  }

  /** Those are the calls `_request` makes with its defaults. */
  method DefaultRequest(replies: Replies, from: nat) returns (call: Call)
    ensures call == CallsOn(replies)(from)
  {
    var outcome, sent, slept := Request(replies, from, MAX_RETRIES, RETRY_BACKOFF);
    return Call(outcome, sent, slept);
  }

  /** The attempts from the given one on, after `sent` requests and some sleep: a lock error alone leads to another. */
  function Destruction(calls: Calls, attempt: nat, sent: nat, slept: real): Call
    requires attempt < DESTROY_ATTEMPTS
    decreases DESTROY_ATTEMPTS - attempt
  {
    var call := calls(sent);
    if call.outcome == LockError && attempt < DESTROY_ATTEMPTS - 1
    then Destruction(calls, attempt + 1, sent + call.sent, slept + call.slept + Pause(attempt))
    else Call(call.outcome, sent + call.sent, slept + call.slept)
  }

  /** The loop of `destroy_vm` around its client's calls. */
  method DestroyVm(calls: Calls) returns (outcome: Outcome, sent: nat, slept: real)
    ensures Call(outcome, sent, slept) == Destruction(calls, 0, 0, 0.0)
    ensures var first := calls(0);
            var second := calls(first.sent);
            var third := calls(first.sent + second.sent);
            Call(outcome, sent, slept) ==
              if first.outcome != LockError then first
              else if second.outcome != LockError
              then Call(second.outcome, first.sent + second.sent, first.slept + 5.0 + second.slept)
              else Call(third.outcome, first.sent + second.sent + third.sent,
                        first.slept + 5.0 + second.slept + 10.0 + third.slept)
  {
    outcome, sent, slept := Exhausted, 0, 0.0;
    ghost var whole := Destruction(calls, 0, 0, 0.0);
    for attempt := 0 to DESTROY_ATTEMPTS
      invariant if attempt < DESTROY_ATTEMPTS then whole == Destruction(calls, attempt, sent, slept)
                else whole == Call(outcome, sent, slept)
    {
      var call := calls(sent);
      outcome, sent, slept := call.outcome, sent + call.sent, slept + call.slept;
      if outcome != LockError {
        return;
      }
      if attempt < DESTROY_ATTEMPTS - 1 {
        slept := slept + Pause(attempt);
      }
    }
  }

  lemma SleepOf(k: nat)
    requires 1 <= k <= 3
    ensures Slept(RETRY_BACKOFF, k) == if k == 1 then 0.0 else if k == 2 then 2.0 else 6.0
  {
    assert Pow2(0) == 1 && Pow2(1) == 2 && Pow2(2) == 4;
  }

  lemma PauseOf()
    ensures Pause(0) == 5.0 && Pause(1) == 10.0
  {
    assert Pow2(0) == 1 && Pow2(1) == 2;
  }

  /** Three requests and six seconds a call, and the pauses; the whole ends as its last call does. */
  lemma {:induction false} DestructionBound(calls: Calls, attempt: nat, sent: nat, slept: real) returns (last: nat)
    requires attempt < DESTROY_ATTEMPTS
    requires forall at :: Bounded(calls, at)
    ensures var call := Destruction(calls, attempt, sent, slept);
            && sent + 1 <= call.sent <= sent + 3 * (DESTROY_ATTEMPTS - attempt)
            && slept <= call.slept <= slept + (if attempt == 0 then 33.0 else if attempt == 1 then 22.0 else 6.0)
            && call.outcome == calls(last).outcome && call.sent == last + calls(last).sent
    decreases DESTROY_ATTEMPTS - attempt
  {
    PauseOf();
    var call := calls(sent);
    assert Bounded(calls, sent);
    if call.outcome == LockError && attempt < DESTROY_ATTEMPTS - 1 {
      last := DestructionBound(calls, attempt + 1, sent + call.sent, slept + call.slept + Pause(attempt));
    } else {
      last := sent;
    }
  }

  predicate Bounded(calls: Calls, at: nat) {
    1 <= calls(at).sent <= 3 && 0.0 <= calls(at).slept <= 6.0
  }

  /** The outcome of a call is decided by its last response. */
  predicate Decided(calls: Calls, replies: Replies, at: nat) {
    calls(at).sent >= 1 && calls(at).outcome == Meaning(replies(at + calls(at).sent - 1))
  }

  lemma CallsAreBounded(replies: Replies, from: nat)
    ensures Bounded(CallsOn(replies), from) && Decided(CallsOn(replies), replies, from)
  {
    SleepOf(Sent(replies, from, MAX_RETRIES));
  }

  lemma WholeIsBounded(calls: Calls, replies: Replies)
    requires forall at :: Bounded(calls, at)
    requires forall at :: Decided(calls, replies, at)
    ensures var call := Destruction(calls, 0, 0, 0.0);
            1 <= call.sent <= 9 && 0.0 <= call.slept <= 33.0 && call.outcome == Meaning(replies(call.sent - 1))
  {
    var last := DestructionBound(calls, 0, 0, 0.0);
    assert Decided(calls, replies, last);
  }

  lemma AllBounded(replies: Replies)
    ensures forall from :: Bounded(CallsOn(replies), from)
    ensures forall from :: Decided(CallsOn(replies), replies, from)
  {
    forall from: nat
      ensures Bounded(CallsOn(replies), from) && Decided(CallsOn(replies), replies, from)
    {
      CallsAreBounded(replies, from);
    }
  }

  /** Nine requests and 33 seconds of sleep at most, and the last response decides. */
  lemma DestroyIsBounded(replies: Replies)
    ensures var call := Destruction(CallsOn(replies), 0, 0, 0.0);
            1 <= call.sent <= 9 && 0.0 <= call.slept <= 33.0 && call.outcome == Meaning(replies(call.sent - 1))
  {
    AllBounded(replies);
    WholeIsBounded(CallsOn(replies), replies);
  }

  /** The bound is reached by a VM that stays locked. */
  lemma DestroyBoundIsReached(replies: Replies)
    requires forall i: nat :: Meaning(replies(i)) == LockError
    ensures Destruction(CallsOn(replies), 0, 0, 0.0) == Call(LockError, 9, 33.0)
  {
    var calls := CallsOn(replies);
    forall from: nat
      ensures calls(from) == Call(LockError, 3, 6.0)
    {
      assert Meaning(replies(from)) == LockError && Meaning(replies(from + 1)) == LockError;
      SentExactly(replies, from, MAX_RETRIES, 3);
      SleepOf(3);
    }
    PauseOf();
    assert Destruction(calls, 2, 6, 27.0) == Call(LockError, 9, 33.0);
    assert Destruction(calls, 1, 3, 11.0) == Call(LockError, 9, 33.0);
  }
}

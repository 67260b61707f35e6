/**
  `pollForTokenWithProgress` of client/vscode/src/sso/connectionBuilder.ts: the token polling of
  sections 3.2 and 3.5 of RFC 8628, with the interval and expiry that `startDeviceAuthorization` derives
  from the server's answer.  Times are integers in milliseconds.
 */
module DevicePolling {
  import opened Wrappers

  const BACKOFF_DELAY := 5000

  datatype Reply<+T> = Granted(token: T) | SlowDown | AuthorizationPending | OtherError(error: string)

  /** One token request: its reply, how long it took, and how late the sleep after it woke up. */
  datatype Request<+T> = Request(reply: Reply<T>, took: nat, late: nat)

  datatype Outcome<+T> = Token(token: T) | Threw(error: string) | TimedOut | UserCancelled

  /** What `startDeviceAuthorization` returned, and when the user cancels, if ever. */
  datatype Authorization = Authorization(expiresAt: int, interval: Option<int>, cancelAt: Option<int>)

  datatype State = State(now: int, interval: int)

  /** A server interval of 0 counts as none, and then the poller uses its own default. */
  function Authorize(now: int, expiresIn: int, serverInterval: Option<nat>, cancelAt: Option<int>): Authorization {
    Authorization(
      expiresIn * 1000 + now,
      if serverInterval.Some? && serverInterval.value != 0 then Some(serverInterval.value * 1000) else None,
      cancelAt)
  }

  function FirstInterval(a: Authorization): int {
    if a.interval.Some? then a.interval.value else BACKOFF_DELAY
  }

  predicate Cancelled(a: Authorization, now: int) {
    a.cancelAt.Some? && a.cancelAt.value <= now
  }

  /** The loop guard: another request is made. */
  predicate Continues(a: Authorization, s: State) {
    a.expiresAt - s.now > s.interval && !Cancelled(a, s.now)
  }

  predicate Retried<T>(r: Reply<T>) {
    r.SlowDown? || r.AuthorizationPending?
  }

  function Wait<T>(s: State, r: Request<T>): State {
    var interval := if r.reply.SlowDown? then s.interval + BACKOFF_DELAY else s.interval;
    State(s.now + r.took + interval + r.late, interval)
  }

  // ---------------------------------------------------------------- runs

  /** The clock and the interval when the guard is evaluated for request `n`. */
  function At<T>(a: Authorization, start: int, fn: nat -> Request<T>, n: nat): State {
    if n == 0 then State(start, FirstInterval(a)) else Wait(At(a, start, fn, n - 1), fn(n - 1))
  }

  /** Request `n` is made. */
  ghost predicate Made<T>(a: Authorization, start: int, fn: nat -> Request<T>, n: nat) {
    && Continues(a, At(a, start, fn, n))
    && (n > 0 ==> Made(a, start, fn, n - 1) && Retried(fn(n - 1).reply))
  }

  function SlowDowns<T>(fn: nat -> Request<T>, n: nat): nat {
    if n == 0 then 0 else SlowDowns(fn, n - 1) + (if fn(n - 1).reply.SlowDown? then 1 else 0)
  }

  /** Sum of the `n` waits that precede request `n`, each the first interval plus 5 s per slow_down. */
  function Waits<T>(first: int, fn: nat -> Request<T>, n: nat): int {
    if n == 0 then 0 else Waits(first, fn, n - 1) + first + BACKOFF_DELAY * SlowDowns(fn, n)
  }

  /** Section 3.5: every wait is the first interval plus five seconds for each slow_down so far, and the
      next request comes exactly that long after the last one was answered, or as late as the sleep was. */
  lemma {:induction false} IntervalCountsSlowDowns<T>(a: Authorization, start: int, fn: nat -> Request<T>, n: nat)
    ensures At(a, start, fn, n).interval == FirstInterval(a) + 5000 * SlowDowns(fn, n)
    ensures At(a, start, fn, n).now >= start + Waits(FirstInterval(a), fn, n)
    ensures n == 0 ==> At(a, start, fn, n).now == start && SlowDowns(fn, n) == 0
    ensures n > 0 ==>
      && SlowDowns(fn, n) == SlowDowns(fn, n - 1) + (if fn(n - 1).reply == SlowDown then 1 else 0)
      && At(a, start, fn, n).now ==
           At(a, start, fn, n - 1).now + fn(n - 1).took + FirstInterval(a) + 5000 * SlowDowns(fn, n) + fn(n - 1).late
  {
    if n > 0 {
      IntervalCountsSlowDowns(a, start, fn, n - 1);
    }
  }

  /** Exactly when a request is made: the one before it was answered with slow_down or
      authorization_pending, more than the current interval is left, and the user has not cancelled. */
  lemma RequestMadeIff<T>(a: Authorization, start: int, fn: nat -> Request<T>, n: nat)
    ensures Made(a, start, fn, n) <==>
      && (n > 0 ==> Made(a, start, fn, n - 1) && fn(n - 1).reply in [SlowDown, AuthorizationPending])
      && a.expiresAt - At(a, start, fn, n).now > At(a, start, fn, n).interval
      && (a.cancelAt.Some? ==> At(a, start, fn, n).now < a.cancelAt.value)
  {
  }

  lemma {:induction false} WaitsAtLeast<T>(first: int, fn: nat -> Request<T>, n: nat)
    ensures Waits(first, fn, n) >= n * first
  {
    if n > 0 {
      WaitsAtLeast(first, fn, n - 1);
    }
  }

  /** Sections 3.2 and 3.5: a request is made only with more than the current interval left and before
      any cancellation, and the number of requests is bounded by the time there was at the start. */
  lemma RequestsFit<T>(a: Authorization, start: int, fn: nat -> Request<T>, n: nat)
    requires Made(a, start, fn, n)
    ensures var s := At(a, start, fn, n);
      && a.expiresAt - s.now > FirstInterval(a) + BACKOFF_DELAY * SlowDowns(fn, n)
      && (a.cancelAt.Some? ==> s.now < a.cancelAt.value)
    ensures Waits(FirstInterval(a), fn, n) + FirstInterval(a) + BACKOFF_DELAY * SlowDowns(fn, n) < a.expiresAt - start
    ensures (n + 1) * FirstInterval(a) < a.expiresAt - start
  {
    IntervalCountsSlowDowns(a, start, fn, n);
    WaitsAtLeast(FirstInterval(a), fn, n);
  }

  /** For every server interval that is not negative, the first interval is at least a second. */
  lemma IntervalIsPositive(now: int, expiresIn: int, serverInterval: Option<nat>, cancelAt: Option<int>)
    ensures FirstInterval(Authorize(now, expiresIn, serverInterval, cancelAt)) ==
      if serverInterval.None? || serverInterval.value == 0 then 5000 else serverInterval.value * 1000
    ensures FirstInterval(Authorize(now, expiresIn, serverInterval, cancelAt)) >= 1000
  {
  }

  lemma {:induction false} PromptPolls<T>(a: Authorization, start: int, fn: nat -> Request<T>, n: nat)
    requires FirstInterval(a) >= 0 && a.cancelAt.None?
    requires forall k: nat :: fn(k) == Request(AuthorizationPending, 0, 0)
    ensures At(a, start, fn, n) == State(start + n * FirstInterval(a), FirstInterval(a))
    ensures Made(a, start, fn, n) <==> (n + 1) * FirstInterval(a) < a.expiresAt - start
  {
    if n > 0 {
      PromptPolls(a, start, fn, n - 1);
      assert (n + 1) * FirstInterval(a) == n * FirstInterval(a) + FirstInterval(a);
    }
  }

  /** The bound of `RequestsFit` is tight: while a prompt server keeps answering authorization_pending
      and nobody cancels, request number n is made exactly if n + 1 intervals fit into what is left of the
      lifetime, which the server gives in seconds, when the login page has been opened. */
  lemma BoundIsTight<T>(
      authorizedAt: int, start: int, expiresIn: int, serverInterval: Option<nat>, fn: nat -> Request<T>, n: nat)
    requires forall k: nat :: fn(k) == Request(AuthorizationPending, 0, 0)
    ensures var first :=
        if serverInterval.None? || serverInterval.value == 0 then 5000 else serverInterval.value * 1000;
      Made(Authorize(authorizedAt, expiresIn, serverInterval, None), start, fn, n) <==>
      (start - authorizedAt) + (n + 1) * first < expiresIn * 1000
  {
    var a := Authorize(authorizedAt, expiresIn, serverInterval, None);
    IntervalIsPositive(authorizedAt, expiresIn, serverInterval, None);
    PromptPolls(a, start, fn, n);
    assert a.expiresAt - authorizedAt == expiresIn * 1000;
    hide Authorize, FirstInterval, Made;
  }

  lemma {:induction false} EarlierUncancelled<T>(a: Authorization, start: int, fn: nat -> Request<T>, k: nat, n: nat)
    requires Made(a, start, fn, n) && k <= n
    ensures Made(a, start, fn, k) && (a.cancelAt.Some? ==> At(a, start, fn, k).now < a.cancelAt.value)
  {
    if k < n {
      EarlierUncancelled(a, start, fn, k, n - 1);
    }
  }

  lemma RequestsInTime<T>(
      authorizedAt: int, start: int, expiresIn: int, serverInterval: Option<nat>, cancelAt: Option<int>,
      fn: nat -> Request<T>, requests: nat)
    requires requests > 0
    requires Made(Authorize(authorizedAt, expiresIn, serverInterval, cancelAt), start, fn, requests - 1)
    ensures var a := Authorize(authorizedAt, expiresIn, serverInterval, cancelAt);
      && (start - authorizedAt) + requests * FirstInterval(a) < expiresIn * 1000
      && (cancelAt.Some? ==> forall k: nat | k < requests :: At(a, start, fn, k).now < cancelAt.value)
  {
    var a := Authorize(authorizedAt, expiresIn, serverInterval, cancelAt);
    RequestsFit(a, start, fn, requests - 1);
    forall k: nat | k < requests ensures cancelAt.Some? ==> At(a, start, fn, k).now < cancelAt.value {
      hide At;
      EarlierUncancelled(a, start, fn, k, requests - 1);
    }
    hide Made, At, FirstInterval;
  }

  /** `authorizedAt` is when the server answered; the poll starts after the login dialog, at `start`. */
  method PollForToken<T>(
      authorizedAt: int, start: int, expiresIn: int, serverInterval: Option<nat>, cancelAt: Option<int>,
      fn: nat -> Request<T>)
    returns (out: Outcome<T>, requests: nat, finish: int)
    ensures var a := Authorize(authorizedAt, expiresIn, serverInterval, cancelAt);
      // the requests are all that the guard admits, and the poll is over with the last answer or the guard
      && (requests > 0 ==> Made(a, start, fn, requests - 1))
      && (if requests > 0 && !(fn(requests - 1).reply in [SlowDown, AuthorizationPending])
          then finish == At(a, start, fn, requests - 1).now + fn(requests - 1).took
          else !Made(a, start, fn, requests) && finish == At(a, start, fn, requests).now)
      && (requests == 0 || (start - authorizedAt) + requests * FirstInterval(a) < expiresIn * 1000)
      // no request starts once the user has cancelled
      && (cancelAt.Some? ==> forall k: nat | k < requests :: At(a, start, fn, k).now < cancelAt.value)
    ensures out == UserCancelled <==> cancelAt.Some? && cancelAt.value <= finish
    ensures out != UserCancelled ==>
      if requests == 0 then out == TimedOut
      else
        match fn(requests - 1).reply
        case Granted(token) => out == Token(token)
        case OtherError(error) => out == Threw(error)
        case _ => out == TimedOut
  {
    var a := Authorize(authorizedAt, expiresIn, serverInterval, cancelAt);
    assert a.cancelAt == cancelAt && FirstInterval(a) > 0;
    hide Authorize, FirstInterval;
    var now, interval := start, FirstInterval(a);
    var settled: Option<Outcome<T>> := None;
    requests := 0;
    while settled.None? && a.expiresAt - now > interval && !Cancelled(a, now)
      invariant interval > 0
      invariant settled.None? ==> State(now, interval) == At(a, start, fn, requests)
      invariant requests > 0 ==> Made(a, start, fn, requests - 1)
      invariant requests > 0 ==> (settled.None? <==> Retried(fn(requests - 1).reply))
      invariant settled.Some? ==>
        && requests > 0
        && settled == (match fn(requests - 1).reply
                       case Granted(token) => Some(Token(token))
                       case OtherError(error) => Some(Threw(error))
                       case _ => None)
        && now == At(a, start, fn, requests - 1).now + fn(requests - 1).took
      decreases settled.None?, a.expiresAt - now
    {
      var r := fn(requests);
      requests := requests + 1;
      now := now + r.took;
      match r.reply {
        case Granted(token) => settled := Some(Token(token));
        case OtherError(error) => settled := Some(Threw(error));
        case SlowDown => interval := interval + BACKOFF_DELAY;
        case AuthorizationPending =>
      }
      if settled.None? {
        now := now + interval + r.late;
      }
    }
    finish := now;
    out := if settled.Some? then settled.value else TimedOut;
    if Cancelled(a, finish) {
      out := UserCancelled;
    }
    if requests > 0 {
      RequestsInTime(authorizedAt, start, expiresIn, serverInterval, cancelAt, fn, requests);
    }
  }
}

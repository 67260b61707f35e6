/** `retryWithBackoff` and `defaultIsRetryable` of core/aws-lsp-core/src/util/retryUtils.ts. */
module Retry {
  import opened Wrappers

  /** `code` already stands for `error.code || error.name`. */
  datatype Error = Error(code: string, statusCode: Option<int>)

  datatype Attempt<+T> = Ok(value: T) | Fail(error: Error)

  /** `Exhausted` is the throw after the loop. */
  datatype Outcome<+T> = Returned(value: T) | Threw(error: Error) | Exhausted

  predicate DefaultIsRetryable(e: Error) {
    var clientError := e.statusCode.Some? && 400 <= e.statusCode.value < 500;
    if clientError && e.code != "ThrottlingException" then false
    else
      || e.code == "ThrottlingException"
      || e.code == "InternalServerException"
      || (e.statusCode.Some? && (e.statusCode.value == 500 || e.statusCode.value == 503))
  }

  /** The delays before calls 1 .. n - 1, when n calls are made. */
  function Delays(baseDelay: int, growing: bool, n: nat): int {
    if n <= 1 then 0 else Delays(baseDelay, growing, n - 1) + (if growing then baseDelay * (n - 1) else baseDelay)
  }

  lemma Distribute(a: int, x: int, y: int)
    ensures a * (x + y) == a * x + a * y
  {
  }

  lemma OneMoreDelay(baseDelay: int, n: int)
    ensures baseDelay * (n * (n - 1)) == baseDelay * ((n - 1) * (n - 2)) + 2 * (baseDelay * (n - 1))
  {
    var sum, last := (n - 1) * (n - 2), n - 1;
    assert n * (n - 1) == sum + (last + last) by {
      Distribute(n - 1, n - 2, 2);
    }
    Distribute(baseDelay, sum, last + last);
    Distribute(baseDelay, last, last);
  }

  /** The backoff that is called exponential is linear per attempt: the total is quadratic. */
  lemma {:induction false} DelaysClosedForm(baseDelay: int, growing: bool, n: nat)
    requires n >= 1
    ensures if growing then 2 * Delays(baseDelay, growing, n) == baseDelay * (n * (n - 1))
            else Delays(baseDelay, growing, n) == baseDelay * (n - 1)
  {
    if n > 1 {
      DelaysClosedForm(baseDelay, growing, n - 1);
      if growing {
        OneMoreDelay(baseDelay, n);
      } else {
        Distribute(baseDelay, n - 2, 1);
      }
    }
  }

  /** A retry loop with at least one attempt makes this many calls: all but the last fail retryably, and
      the last one succeeds, fails for good or is the last one allowed. */
  ghost predicate Makes<T>(fn: nat -> Attempt<T>, maxRetries: int, isRetryable: Error -> bool, calls: nat) {
    && 1 <= calls <= maxRetries
    && (forall k: nat | k < calls - 1 :: fn(k).Fail? && isRetryable(fn(k).error))
    && (fn(calls - 1).Fail? ==> calls == maxRetries || !isRetryable(fn(calls - 1).error))
  }

  method RetryWithBackoff<T>(
      fn: nat -> Attempt<T>, maxRetries: int, baseDelay: int, growing: bool, isRetryable: Error -> bool)
    returns (out: Outcome<T>, calls: nat, waited: int)
    ensures out == Exhausted <==> maxRetries <= 0
    ensures calls == 0 <==> maxRetries <= 0
    ensures maxRetries >= 1 ==>
      && Makes(fn, maxRetries, isRetryable, calls)
      && out == (match fn(calls - 1)
                 case Ok(value) => Returned(value)
                 case Fail(error) => Threw(error))
      && waited == Delays(baseDelay, growing, calls)
  {
    calls, waited := 0, 0;
    var attempt := 0;
    while attempt < maxRetries
      invariant calls == attempt
      invariant forall k: nat | k < attempt :: fn(k).Fail? && isRetryable(fn(k).error)
      invariant waited == Delays(baseDelay, growing, attempt + 1)
      invariant attempt == 0 || attempt < maxRetries
    {
      calls := attempt + 1;
      match fn(attempt) {
        case Ok(value) =>
          out := Returned(value);
          return;
        case Fail(error) =>
          if !isRetryable(error) || attempt == maxRetries - 1 {
            out := Threw(error);
            return;
          }
      }
      waited := waited + (if growing then baseDelay * (attempt + 1) else baseDelay);
      attempt := attempt + 1;
    }
    out := Exhausted;
  }

  /** Which errors the default test retries: throttling always, and otherwise an internal server error or
      status 500 or 503, unless the status is a client error's. */
  lemma RetriedByDefaultIff(e: Error)
    ensures DefaultIsRetryable(e) <==>
      || e.code == "ThrottlingException"
      || (&& (e.code == "InternalServerException" || e.statusCode in [Some(500), Some(503)])
          && !(e.statusCode.Some? && 400 <= e.statusCode.value <= 499))
  {
  }

  /** The loop under the default test.  A client error other than throttling ends it at once; it goes on
      only after throttling or a server error; and as long as calls are throttled it goes on until its
      attempts are used up. */
  lemma DefaultPolicy<T>(fn: nat -> Attempt<T>, maxRetries: int, calls: nat, throttled: nat)
    requires Makes(fn, maxRetries, DefaultIsRetryable, calls)
    requires forall k: nat | k < throttled :: fn(k).Fail? && fn(k).error.code == "ThrottlingException"
    ensures forall k: nat | k < calls && fn(k).Fail? ::
      var e := fn(k).error;
      e.statusCode.Some? && 400 <= e.statusCode.value <= 499 && e.code != "ThrottlingException" ==> k == calls - 1
    ensures forall k: nat | k < calls - 1 ::
      || fn(k).error.code in ["ThrottlingException", "InternalServerException"]
      || fn(k).error.statusCode in [Some(500), Some(503)]
    ensures calls == maxRetries || calls > throttled
  {
  }

  /** The number of calls is determined by the callee. */
  lemma CallsAreDetermined<T>(fn: nat -> Attempt<T>, maxRetries: int, isRetryable: Error -> bool, a: nat, b: nat)
    requires Makes(fn, maxRetries, isRetryable, a) && Makes(fn, maxRetries, isRetryable, b)
    ensures a == b
  {
  }
}

/**
  `waitUntil` of core/aws-lsp-core/src/util/timeoutUtils.ts: call a function, race it against the
  time that is left, and sleep between calls.

  The callee is a script `fn: nat -> Call` that says how its k-th call behaves.  Times are reals in
  milliseconds.  A call either settles after some time or never settles.
 */
module WaitUntil {
  import opened RealSeries
  import opened Wrappers

  /** What one call produced.  `Value(None)` is `undefined`; `NonError` is a throw of something that
      is not an `Error`. */
  datatype Attempt<+T, +E> = Value(v: Option<T>) | Error(e: E) | NonError(x: E)

  datatype Call<+T, +E> = Settles(after: real, result: Attempt<T, E>) | NeverSettles

  /** The winner of `Promise.race` and the time it took. */
  datatype Raced<+T, +E> = Raced(result: Attempt<T, E>, took: real)

  datatype RetryMode<!E> = Flag(on: bool) | When(test: E -> bool)

  datatype Options<!T, !E> = Options(
    timeout: real, interval: real, backoff: real,
    truthy: bool, isTruthy: T -> bool, retryOnFail: RetryMode<E>)

  /** The loop's variables; `calls` is the number of calls that were already made and retried. */
  datatype Loop<+E> = Loop(calls: nat, interval: real, elapsed: real, remaining: real, lastError: Option<E>)

  /** How the whole wait ends.  `Threw(None)` is `throw undefined`. */
  datatype Outcome<+T, +E> = Returned(v: Option<T>) | Threw(e: Option<E>) | ThrewOther(x: E)

  datatype Next<+T, +E> = Continue(state: Loop<E>) | Done(outcome: Outcome<T, E>)

  predicate ShouldRetry<T, E>(o: Options<T, E>, error: Option<E>) {
    match (o.retryOnFail, error)
    case (Flag(on), _) => on
    case (When(_), None) => true
    case (When(test), Some(e)) => test(e)
  }

  predicate Acceptable<T, E>(o: Options<T, E>, v: Option<T>) {
    v.Some? && (o.truthy ==> o.isTruthy(v.value))
  }

  function Start<T, E>(o: Options<T, E>): Loop<E> {
    Loop(0, o.interval, 0.0, o.timeout, None)
  }

  /** The race is only run while time is left; with none left the call is simply awaited, and then a
      call that never settles leaves the wait hanging. */
  function Race<T, E>(c: Call<T, E>, remaining: real): Raced<T, E>
    requires remaining > 0.0 || c.Settles?
  {
    if c.Settles? && (remaining <= 0.0 || c.after <= remaining)
    then Raced(c.result, c.after)
    else Raced(Value(None), remaining)
  }

  function Iterate<T, E>(o: Options<T, E>, s: Loop<E>, r: Raced<T, E>): Next<T, E> {
    match r.result
    case NonError(x) => Done(ThrewOther(x))
    case Error(e) =>
      if ShouldRetry(o, Some(e)) then Pause(o, s.(lastError := Some(e)), r.took) else Done(Threw(Some(e)))
    case Value(v) =>
      if ShouldRetry(o, s.lastError) || Acceptable(o, v) then Done(Returned(v)) else Pause(o, s, r.took)
  }

  function Longer<T, E>(o: Options<T, E>, interval: real): real {
    interval * o.backoff
  }

  /** The tail of the loop body: give up if the sleep would not fit, otherwise sleep and back off. */
  function Pause<T, E>(o: Options<T, E>, s: Loop<E>, took: real): Next<T, E> {
    var remaining := s.remaining - took;
    if s.elapsed + s.interval >= remaining then
      Done(if ShouldRetry(o, s.lastError) then Threw(s.lastError) else Returned(None))
    else
      Continue(Loop(s.calls + 1, Longer(o, s.interval), s.elapsed + s.interval, remaining, s.lastError))
  }

  // ---------------------------------------------------------------- runs

  /** Sleeping times and multipliers are not negative; `interval` and `backoff` are otherwise free. */
  predicate Sane<T, E>(o: Options<T, E>) {
    o.interval >= 0.0 && o.backoff >= 0.0
  }

  /** Calls take non-negative time, and the first one settles if there is no timeout to race it. */
  ghost predicate Playable<T, E>(o: Options<T, E>, fn: nat -> Call<T, E>) {
    && (forall k: nat :: fn(k).Settles? ==> fn(k).after >= 0.0)
    && (o.timeout <= 0.0 ==> fn(0).Settles?)
  }

  /** The loop's variables just before call number `n`, if that call is made at all. */
  ghost function At<T, E>(o: Options<T, E>, fn: nat -> Call<T, E>, n: nat): Option<Loop<E>> {
    if n == 0 then Some(Start(o))
    else
      var before := At(o, fn, n - 1);
      if before.None? || (before.value.remaining <= 0.0 && fn(n - 1).NeverSettles?) then None
      else
        var next := Iterate(o, before.value, Race(fn(n - 1), before.value.remaining));
        if next.Continue? then Some(next.state) else None
  }

  /** Call `n` is made, and the race for it has a winner. */
  ghost predicate Made<T, E>(o: Options<T, E>, fn: nat -> Call<T, E>, n: nat) {
    At(o, fn, n).Some? && (At(o, fn, n).value.remaining > 0.0 || fn(n).Settles?)
  }

  /** What call `n` showed to the loop. */
  ghost function Seen<T, E>(o: Options<T, E>, fn: nat -> Call<T, E>, n: nat): Raced<T, E>
    requires Made(o, fn, n)
  {
    Race(fn(n), At(o, fn, n).value.remaining)
  }

  /** The length of sleep number `n`, and the total of the first `n` sleeps. */
  function IntervalAt<T, E>(o: Options<T, E>, n: nat): real {
    if n == 0 then o.interval else Longer(o, IntervalAt(o, n - 1))
  }

  function SleptAfter<T, E>(o: Options<T, E>, n: nat): real {
    if n == 0 then 0.0 else SleptAfter(o, n - 1) + IntervalAt(o, n - 1)
  }

  lemma {:induction false} SleepsNonNegative<T, E>(o: Options<T, E>, n: nat)
    requires Sane(o)
    ensures IntervalAt(o, n) >= 0.0 && SleptAfter(o, n) >= 0.0
  {
    if n > 0 {
      SleepsNonNegative(o, n - 1);
      ProductNonNegative(IntervalAt(o, n - 1), o.backoff);
    }
  }

  /** One trip round the loop: what a continued iteration does to the variables. */
  lemma ContinueStep<T, E>(o: Options<T, E>, s: Loop<E>, r: Raced<T, E>)
    requires Iterate(o, s, r).Continue?
    ensures var t := Iterate(o, s, r).state;
            && t.calls == s.calls + 1
            && t.interval == Longer(o, s.interval)
            && t.elapsed == s.elapsed + s.interval
            && t.remaining == s.remaining - r.took
            && t.elapsed < t.remaining
  {
  }

  lemma {:induction false} IntervalBeforeCall<T, E>(o: Options<T, E>, fn: nat -> Call<T, E>, n: nat)
    requires At(o, fn, n).Some?
    ensures At(o, fn, n).value.interval == IntervalAt(o, n)
  {
    hide Longer;
    if n > 0 {
      IntervalBeforeCall(o, fn, n - 1);
      var s := At(o, fn, n - 1).value;
      ContinueStep(o, s, Race(fn(n - 1), s.remaining));
    }
  }

  /** Every state the loop can be in.  The last sleep always fitted: time slept plus time spent in
      calls (`timeout - remaining`) is below the timeout whenever the loop goes round again. */
  lemma {:induction false} StateBeforeCall<T, E>(o: Options<T, E>, fn: nat -> Call<T, E>, n: nat)
    requires Sane(o) && Playable(o, fn) && At(o, fn, n).Some?
    ensures var s := At(o, fn, n).value;
            && s.calls == n
            && s.interval == IntervalAt(o, n)
            && s.elapsed == SleptAfter(o, n)
            && s.remaining <= o.timeout
            && (n > 0 ==> s.elapsed < s.remaining)
            && (s.remaining > 0.0 || fn(n).Settles?)
  {
    SleepsNonNegative(o, n);
    IntervalBeforeCall(o, fn, n);
    if n > 0 {
      StateBeforeCall(o, fn, n - 1);
      var s := At(o, fn, n - 1).value;
      ContinueStep(o, s, Race(fn(n - 1), s.remaining));
    }
  }

  // ---------------------------------------------------------------- how a wait ends

  /** Does the loop go on after this attempt, given that the sleep fits? */
  predicate Retries<T, E>(o: Options<T, E>, a: Attempt<T, E>) {
    match a
    case NonError(_) => false
    case Error(e) => ShouldRetry(o, Some(e))
    case Value(v) => !ShouldRetry(o, None) && !Acceptable(o, v)
  }

  /** The outcome as a function of the last attempt alone. */
  function Verdict<T, E>(o: Options<T, E>, a: Attempt<T, E>): Outcome<T, E> {
    match a
    case NonError(x) => ThrewOther(x)
    case Error(e) => Threw(Some(e))
    case Value(v) => Returned(if ShouldRetry(o, None) || Acceptable(o, v) then v else None)
  }

  /** While the loop runs, `lastError` is unset in the plain mode and always retryable otherwise, so
      `ShouldRetry(lastError)` answers the same as `ShouldRetry(None)`. */
  lemma {:induction false} LastErrorBeforeCall<T, E>(o: Options<T, E>, fn: nat -> Call<T, E>, n: nat)
    requires At(o, fn, n).Some?
    ensures ShouldRetry(o, At(o, fn, n).value.lastError) == ShouldRetry(o, None)
    ensures !ShouldRetry(o, None) ==> At(o, fn, n).value.lastError.None?
    ensures n > 0 && ShouldRetry(o, None) ==> At(o, fn, n).value.lastError.Some?
  {
    hide Longer;
    if n > 0 {
      LastErrorBeforeCall(o, fn, n - 1);
    }
  }

  /** One iteration from a reachable state: it continues only on a retried attempt, and if it stops it
      stops with the verdict on that attempt. */
  lemma VerdictOfIteration<T, E>(o: Options<T, E>, s: Loop<E>, r: Raced<T, E>)
    requires ShouldRetry(o, s.lastError) == ShouldRetry(o, None)
    ensures Iterate(o, s, r).Continue? ==> Retries(o, r.result)
    ensures Iterate(o, s, r).Done? ==> Iterate(o, s, r).outcome == Verdict(o, r.result)
    ensures Verdict(o, r.result) != Threw(None)
  {
    hide Longer;
  }

  /** Every call but the last one was made and was retried. */
  lemma {:induction false} EarlierCallRetried<T, E>(o: Options<T, E>, fn: nat -> Call<T, E>, k: nat, n: nat)
    requires At(o, fn, n).Some? && k < n
    ensures Made(o, fn, k) && Retries(o, Seen(o, fn, k).result)
    decreases n
  {
    hide Longer, Iterate, Retries;
    if k < n - 1 {
      EarlierCallRetried(o, fn, k, n - 1);
    } else {
      var s := At(o, fn, k).value;
      LastErrorBeforeCall(o, fn, k);
      VerdictOfIteration(o, s, Race(fn(k), s.remaining));
    }
  }

  // ---------------------------------------------------------------- when it ends

  lemma {:induction false} IntervalIsPower<T, E>(o: Options<T, E>, n: nat)
    ensures IntervalAt(o, n) == Times(o.interval, Pow(o.backoff, n))
  {
    if n > 0 {
      hide Times;
      IntervalIsPower(o, n - 1);
      PowerStep(o.backoff, o.interval, Pow(o.backoff, n - 1));
    }
  }

  /** The sleeps form a geometric series: `(backoff - 1) * slept == interval * (backoff^n - 1)`. */
  lemma {:induction false} SleepsAreGeometric<T, E>(o: Options<T, E>, n: nat)
    ensures IsSeries(o.backoff, o.interval, Pow(o.backoff, n), SleptAfter(o, n))
  {
    if n > 0 {
      hide IsSeries, Longer, Times;
      SleepsAreGeometric(o, n - 1);
      IntervalIsPower(o, n - 1);
      GeometricStep(o.backoff, o.interval, Pow(o.backoff, n - 1), SleptAfter(o, n - 1));
    }
  }

  lemma {:induction false} SleepsAtLeastLinear<T, E>(o: Options<T, E>, n: nat)
    requires Sane(o) && o.backoff >= 1.0
    ensures IntervalAt(o, n) >= o.interval
    ensures SleptAfter(o, n) >= Times(n as real, o.interval)
  {
    if n > 0 {
      SleepsAtLeastLinear(o, n - 1);
      var t := IntervalAt(o, n - 1);
      assert t * o.backoff - t == t * (o.backoff - 1.0);
      ProductNonNegative(t, o.backoff - 1.0);
    }
  }

  /** The condition under which the sleeps add up to the timeout: one sleep already does, or the
      sleeps do not shrink, or they shrink slowly enough for their infinite sum to exceed it. */
  predicate Bounded<T, E>(o: Options<T, E>) {
    || o.timeout <= o.interval
    || (o.interval > 0.0 && o.backoff >= 1.0)
    || (0.0 < o.backoff < 1.0 && Times(1.0 - o.backoff, o.timeout) < o.interval)
  }

  /** If the condition holds, some number of sleeps reaches the timeout ... */
  lemma EnoughSleeps<T, E>(o: Options<T, E>) returns (n: nat)
    requires Sane(o) && Bounded(o)
    ensures n >= 1 && SleptAfter(o, n) >= o.timeout
  {
    if o.timeout <= o.interval {
      n := 1;
      assert SleptAfter(o, 1) == SleptAfter(o, 0) + IntervalAt(o, 0);
    } else if o.backoff >= 1.0 {
      n := Archimedes(o.timeout, o.interval);
      SleepsAtLeastLinear(o, n);
    } else {
      var b, i, t := o.backoff, o.interval, o.timeout;
      ProductNonNegative(1.0 - b, t);
      var d := (i - Times(1.0 - b, t)) / i;
      n := PowVanishes(b, d);
      SleepsAreGeometric(o, n);
      SeriesReaches(b, i, t, d, Pow(b, n), SleptAfter(o, n));
      if n == 0 {
        assert false;
      }
    }
  }

  /** ... and if it does not, no number of sleeps does. */
  lemma {:induction false} SleepsStayBelow<T, E>(o: Options<T, E>, n: nat)
    requires Sane(o) && !Bounded(o)
    ensures SleptAfter(o, n) < o.timeout
  {
    if o.interval == 0.0 || o.backoff == 0.0 {
      SingleSleep(o, n);
    } else {
      SleepsAreGeometric(o, n);
      PowPositive(o.backoff, n);
      SeriesBelow(o.backoff, o.interval, o.timeout, Pow(o.backoff, n), SleptAfter(o, n));
    }
  }

  lemma {:induction false} SingleSleep<T, E>(o: Options<T, E>, n: nat)
    requires Sane(o) && (o.interval == 0.0 || o.backoff == 0.0)
    ensures n > 0 ==> IntervalAt(o, n) == 0.0
    ensures SleptAfter(o, n) == if n == 0 then 0.0 else o.interval
  {
    if n > 0 {
      SingleSleep(o, n - 1);
    }
  }

  function Instant<T, E>(a: Attempt<T, E>): nat -> Call<T, E> {
    k => Settles(0.0, a)
  }

  lemma {:induction false} RunsForever<T, E>(o: Options<T, E>, a: Attempt<T, E>, n: nat)
    requires Sane(o) && !Bounded(o) && Retries(o, a)
    ensures At(o, Instant(a), n).Some? && At(o, Instant(a), n).value.remaining == o.timeout
  {
    hide Longer, Bounded;
    SleepsStayBelow(o, 0);
    if n > 0 {
      RunsForever(o, a, n - 1);
      SleepsStayBelow(o, n);
      LastErrorBeforeCall(o, Instant(a), n - 1);
      StateBeforeCall(o, Instant(a), n - 1);
    }
  }

  ghost predicate Ends<T, E>(o: Options<T, E>, fn: nat -> Call<T, E>) {
    exists n: nat :: At(o, fn, n).None?
  }

  /** A wait whose loop can go round at all ends against every callee exactly when `Bounded` holds. */
  lemma EndsForEveryCalleeIff<T(!new), E(!new)>(o: Options<T, E>, a: Attempt<T, E>)
    requires Sane(o) && Retries(o, a)
    ensures (forall fn | Playable(o, fn) :: Ends(o, fn)) <==> Bounded(o)
  {
    if Bounded(o) {
      var n := EnoughSleeps(o);
      forall fn | Playable(o, fn) ensures Ends(o, fn) {
        if At(o, fn, n).Some? {
          StateBeforeCall(o, fn, n);
          assert false;
        }
      }
    } else {
      var fn := Instant(a);
      SleepsStayBelow(o, 0);
      assert Playable(o, fn);
      forall n: nat ensures At(o, fn, n).Some? {
        RunsForever(o, a, n);
      }
      assert !Ends(o, fn);
    }
  }

  // ---------------------------------------------------------------- the loop and its bounds

  /** Time spent in the first `n` calls. */
  ghost function Busy<T, E>(o: Options<T, E>, fn: nat -> Call<T, E>, n: nat): real {
    if n == 0 then 0.0
    else Busy(o, fn, n - 1) + (if Made(o, fn, n - 1) then Seen(o, fn, n - 1).took else 0.0)
  }

  lemma {:induction false} BusyBeforeCall<T, E>(o: Options<T, E>, fn: nat -> Call<T, E>, n: nat)
    requires At(o, fn, n).Some?
    ensures At(o, fn, n).value.remaining == o.timeout - Busy(o, fn, n)
  {
    hide Longer;
    if n > 0 {
      BusyBeforeCall(o, fn, n - 1);
      var s := At(o, fn, n - 1).value;
      ContinueStep(o, s, Race(fn(n - 1), s.remaining));
    }
  }

  lemma {:induction false} ElapsedBeforeCall<T, E>(o: Options<T, E>, fn: nat -> Call<T, E>, n: nat)
    requires At(o, fn, n).Some?
    ensures At(o, fn, n).value.elapsed == SleptAfter(o, n)
  {
    hide Longer;
    if n > 0 {
      ElapsedBeforeCall(o, fn, n - 1);
      IntervalBeforeCall(o, fn, n - 1);
      var s := At(o, fn, n - 1).value;
      ContinueStep(o, s, Race(fn(n - 1), s.remaining));
    }
  }

  // ---------------------------------------------------------------- what the three modes do

  /** What the loop sees of call n.  It is raced only if the earlier calls have left some of the timeout;
      then it counts if it settles within that, the last moment included, and is `undefined` otherwise. */
  lemma SeenOfCall<T, E>(o: Options<T, E>, fn: nat -> Call<T, E>, n: nat)
    requires Made(o, fn, n)
    ensures var left, call, seen := o.timeout - Busy(o, fn, n), fn(n), Seen(o, fn, n);
      && (left <= 0.0 ==> call.Settles? && seen == Raced(call.result, call.after))
      && (left > 0.0 && call.Settles? && call.after <= left ==> seen == Raced(call.result, call.after))
      && (left > 0.0 && (call.NeverSettles? || call.after > left) ==> seen == Raced(Value(None), left))
  {
    BusyBeforeCall(o, fn, n);
    hide At, Busy;
  }

  /** Whether the loop goes round again depends on the attempt and on the sleep: it must fit. */
  lemma GoesOnIff<T, E>(o: Options<T, E>, fn: nat -> Call<T, E>, n: nat)
    ensures At(o, fn, n + 1).Some? <==>
      && Made(o, fn, n) && Retries(o, Seen(o, fn, n).result)
      && SleptAfter(o, n + 1) + Busy(o, fn, n + 1) < o.timeout
  {
    if Made(o, fn, n) {
      LastErrorBeforeCall(o, fn, n);
      ElapsedBeforeCall(o, fn, n);
      IntervalBeforeCall(o, fn, n);
      BusyBeforeCall(o, fn, n);
      assert Busy(o, fn, n + 1) == Busy(o, fn, n) + Seen(o, fn, n).took;
      assert SleptAfter(o, n + 1) == SleptAfter(o, n) + IntervalAt(o, n);
      hide Longer, Busy, SleptAfter, IntervalAt;
    }
  }

  /** An attempt that comes up is one that is made, unless it hangs. */
  lemma ReachedIsMade<T, E>(o: Options<T, E>, fn: nat -> Call<T, E>, n: nat)
    requires Sane(o) && Playable(o, fn)
    ensures Made(o, fn, n) <==> At(o, fn, n).Some?
  {
    if At(o, fn, n).Some? {
      StateBeforeCall(o, fn, n);
      SleepsNonNegative(o, n);
    }
  }

  /** With retryOnFail as a callback, or as `true`, which is a callback that always says yes: the loop
      comes to call n + 1 if and only if call n threw an error that the callback accepts and the next
      sleep fits into the timeout.  A refused error ends the wait. */
  lemma RetryGoesOnIff<T, E(!new)>(o: Options<T, E>, test: E -> bool, fn: nat -> Call<T, E>, n: nat)
    requires o.retryOnFail == When(test) || (o.retryOnFail == Flag(true) && forall e :: test(e))
    ensures At(o, fn, n + 1).Some? <==>
      && Made(o, fn, n) && Seen(o, fn, n).result.Error? && test(Seen(o, fn, n).result.e)
      && SleptAfter(o, n + 1) + Busy(o, fn, n + 1) < o.timeout
    ensures Made(o, fn, n) && Seen(o, fn, n).result.Error? && !test(Seen(o, fn, n).result.e) ==>
      Iterate(o, At(o, fn, n).value, Seen(o, fn, n)) == Done(Threw(Some(Seen(o, fn, n).result.e)))
  {
    GoesOnIff(o, fn, n);
    hide At, Busy, SleptAfter, Seen, Pause;
  }

  /** The outcome in those modes: the last call's value, whatever it is, or what it threw. */
  lemma RetryOutcome<T, E>(o: Options<T, E>, fn: nat -> Call<T, E>, calls: nat, out: Outcome<T, E>)
    requires o.retryOnFail != Flag(false) && Explains(o, fn, calls, out)
    ensures match Seen(o, fn, calls - 1).result
            case Value(v) => out == Returned(v)
            case Error(e) => out == Threw(Some(e))
            case NonError(x) => out == ThrewOther(x)
  {
    hide At, Seen;
  }

  /** Without retryOnFail the loop comes to call n + 1 if and only if call n answered `undefined`, or
      something falsy where `truthy` is set, and the next sleep fits. */
  lemma PlainGoesOnIff<T, E>(o: Options<T, E>, fn: nat -> Call<T, E>, n: nat)
    requires o.retryOnFail == Flag(false)
    ensures At(o, fn, n + 1).Some? <==>
      && Made(o, fn, n) && Seen(o, fn, n).result.Value?
      && (Seen(o, fn, n).result.v.Some? ==> o.truthy && !o.isTruthy(Seen(o, fn, n).result.v.value))
      && SleptAfter(o, n + 1) + Busy(o, fn, n + 1) < o.timeout
  {
    GoesOnIff(o, fn, n);
    hide At, Busy, SleptAfter, Seen;
  }

  /** The outcome in that mode: such a value gives `undefined`, any other is returned, and whatever is
      thrown ends the wait at once. */
  lemma PlainOutcome<T, E>(o: Options<T, E>, fn: nat -> Call<T, E>, calls: nat, out: Outcome<T, E>)
    requires o.retryOnFail == Flag(false) && Explains(o, fn, calls, out)
    ensures match Seen(o, fn, calls - 1).result
            case Value(None) => out == Returned(None)
            case Value(Some(x)) => out == Returned(if o.truthy && !o.isTruthy(x) then None else Some(x))
            case Error(e) => out == Threw(Some(e))
            case NonError(x) => out == ThrewOther(x)
  {
    hide At, Seen;
  }

  /** Without retryOnFail, a call that answers with a value ends the wait with it exactly when the answer
      comes within what the earlier calls left of the timeout, to the millisecond, and is truthy where
      that is asked for.  Time slept does not count. */
  lemma AnswerTakenIff<T, E>(o: Options<T, E>, fn: nat -> Call<T, E>, n: nat, after: real, x: T)
    requires Sane(o) && Playable(o, fn) && o.retryOnFail == Flag(false)
    requires At(o, fn, n).Some? && o.timeout > 0.0 && fn(n) == Settles(after, Value(Some(x)))
    ensures Made(o, fn, n)
    ensures Iterate(o, At(o, fn, n).value, Seen(o, fn, n)) == Done(Returned(Some(x))) <==>
      Busy(o, fn, n) + after <= o.timeout && (!o.truthy || o.isTruthy(x))
  {
    BusyBeforeCall(o, fn, n);
    StateBeforeCall(o, fn, n);
    SleepsNonNegative(o, n);
    hide At, Busy, SleptAfter, IntervalAt, Longer;
  }

  /** The whole wait, with its last call: below twice the timeout, because the last race may use all
      of `remaining`, from which time slept was never subtracted. */
  lemma TotalBelowTwice<T, E>(o: Options<T, E>, fn: nat -> Call<T, E>, n: nat)
    requires Sane(o) && Playable(o, fn) && At(o, fn, n).Some? && o.timeout > 0.0
    ensures n > 0 ==> SleptAfter(o, n) + Busy(o, fn, n) < o.timeout
    ensures SleptAfter(o, n) + Busy(o, fn, n + 1) < 2.0 * o.timeout
    ensures o.backoff >= 1.0 && n > 0 ==> Times(n as real, o.interval) < o.timeout
  {
    hide Longer, At, Times;
    StateBeforeCall(o, fn, n);
    BusyBeforeCall(o, fn, n);
    SleepsNonNegative(o, n);
    if o.backoff >= 1.0 {
      SleepsAtLeastLinear(o, n);
    }
  }

  /** With a growing interval the number of calls is bounded by a geometric sum: after n sleeps,
      interval * (backoff^n - 1) / (backoff - 1) is still below the timeout. */
  lemma GeometricCallBound<T, E>(o: Options<T, E>, fn: nat -> Call<T, E>, n: nat)
    requires Sane(o) && Playable(o, fn) && At(o, fn, n).Some? && n > 0 && o.backoff > 1.0
    ensures Times(o.interval, Pow(o.backoff, n) - 1.0) < Times(o.backoff - 1.0, o.timeout)
  {
    SleepsAreGeometric(o, n);
    hide At, Times;
    StateBeforeCall(o, fn, n);
    TimesMonotone(o.backoff - 1.0, SleptAfter(o, n), o.timeout);
  }

  /** The bounds on a wait of `calls` calls. */
  ghost predicate InTime<T, E>(o: Options<T, E>, fn: nat -> Call<T, E>, calls: nat, slept: real, busy: real) {
    && calls >= 1 && slept == SleptAfter(o, calls - 1) && busy == Busy(o, fn, calls)
    && (o.timeout > 0.0 ==> slept + busy < 2.0 * o.timeout)
    && (o.timeout > 0.0 && calls > 1 ==> slept + Busy(o, fn, calls - 1) < o.timeout)
    && (o.timeout > 0.0 && o.backoff >= 1.0 && calls > 1 ==> Times((calls - 1) as real, o.interval) < o.timeout)
  }

  /** The outcome of a wait of `calls` calls: all but the last were retried, and the last decides. */
  ghost predicate Explains<T, E>(o: Options<T, E>, fn: nat -> Call<T, E>, calls: nat, out: Outcome<T, E>) {
    && calls >= 1 && Made(o, fn, calls - 1) && At(o, fn, calls).None?
    && (forall k: nat | k < calls - 1 :: Made(o, fn, k) && Retries(o, Seen(o, fn, k).result))
    && out == Verdict(o, Seen(o, fn, calls - 1).result)
    && out != Threw(None)
  }

  /** The body of the loop, from the settled race to the sleep. */
  method Turn<T, E>(o: Options<T, E>, s: Loop<E>, r: Raced<T, E>) returns (next: Next<T, E>)
    ensures next == Iterate(o, s, r)
  {
    var interval, elapsed, remaining, lastError := s.interval, s.elapsed, s.remaining, s.lastError;
    match r.result {
      case NonError(x) =>
        return Done(ThrewOther(x));
      case Error(e) =>
        if !ShouldRetry(o, Some(e)) {
          return Done(Threw(Some(e)));
        }
        lastError := Some(e);
      case Value(v) =>
        if ShouldRetry(o, lastError) || Acceptable(o, v) {
          return Done(Returned(v));
        }
    }
    remaining := remaining - r.took;
    if elapsed + interval >= remaining {
      if !ShouldRetry(o, lastError) {
        return Done(Returned(None));
      }
      return Done(Threw(lastError));
    }
    elapsed := elapsed + interval;
    interval := Longer(o, interval);
    next := Continue(Loop(s.calls + 1, interval, elapsed, remaining, lastError));
  }

  /** The state before call `s.calls`, with the totals that lead up to it. */
  ghost predicate Ready<T, E>(o: Options<T, E>, fn: nat -> Call<T, E>, s: Loop<E>, slept: real, busy: real) {
    && At(o, fn, s.calls) == Some(s) && busy == Busy(o, fn, s.calls)
    && (Sane(o) && Playable(o, fn) ==> slept == SleptAfter(o, s.calls) && s.interval == IntervalAt(o, s.calls) >= 0.0)
  }

  /** The wait is not over after `calls` calls: the next one is due, or it never settles and is not raced. */
  ghost predicate StillWaiting<T, E>(o: Options<T, E>, fn: nat -> Call<T, E>, calls: nat, turns: nat) {
    At(o, fn, calls).Some? && (calls == turns || !Made(o, fn, calls))
  }

  /** The loop, watched for up to `turns` calls, as it need not end.  It has an outcome by then if the
      sleeps of that many calls add up to the timeout. */
  method WaitUntil<T, E>(o: Options<T, E>, fn: nat -> Call<T, E>, turns: nat)
    returns (out: Option<Outcome<T, E>>, calls: nat, slept: real, busy: real)
    ensures out.Some? ==> Explains(o, fn, calls, out.value)
    ensures out.Some? && Sane(o) && Playable(o, fn) ==> InTime(o, fn, calls, slept, busy)
    ensures out.None? ==> StillWaiting(o, fn, calls, turns)
    ensures Sane(o) && Playable(o, fn) && turns > 0 && SleptAfter(o, turns) >= o.timeout ==> out.Some?
  {
    BeforeFirstCall(o, fn);
    hide *;
    var s := Start(o);
    calls, slept, busy := 0, 0.0, 0.0;
    while calls < turns
      invariant calls == s.calls <= turns && Ready(o, fn, s, slept, busy)
    {
      if s.remaining <= 0.0 && fn(calls).NeverSettles? {
        Hangs(o, fn, s, slept, busy, turns);
        return None, calls, slept, busy;
      }
      var r := Race(fn(calls), s.remaining);
      var next := Turn(o, s, r);
      if next.Done? {
        WaitEnds(o, fn, s, slept, busy, next.outcome);
        return Some(next.outcome), calls + 1, slept, busy + r.took;
      }
      WaitGoesOn(o, fn, s, slept, busy, next.state);
      calls, busy := calls + 1, busy + r.took;
      slept := if s.interval > 0.0 then slept + s.interval else slept;
      s := next.state;
    }
    out := None;
    WatchedOut(o, fn, s, slept, busy);
  }

  lemma BeforeFirstCall<T, E>(o: Options<T, E>, fn: nat -> Call<T, E>)
    ensures Ready(o, fn, Start(o), 0.0, 0.0) && Start(o).calls == 0
  {
  }

  lemma Hangs<T, E>(o: Options<T, E>, fn: nat -> Call<T, E>, s: Loop<E>, slept: real, busy: real, turns: nat)
    requires Ready(o, fn, s, slept, busy) && s.remaining <= 0.0 && fn(s.calls).NeverSettles?
    ensures StillWaiting(o, fn, s.calls, turns) && !(Sane(o) && Playable(o, fn))
  {
    if Sane(o) && Playable(o, fn) {
      StateBeforeCall(o, fn, s.calls);
      SleepsNonNegative(o, s.calls);
    }
  }

  lemma WatchedOut<T, E>(o: Options<T, E>, fn: nat -> Call<T, E>, s: Loop<E>, slept: real, busy: real)
    requires Ready(o, fn, s, slept, busy)
    ensures StillWaiting(o, fn, s.calls, s.calls)
    ensures Sane(o) && Playable(o, fn) && s.calls > 0 ==> SleptAfter(o, s.calls) < o.timeout
  {
    if Sane(o) && Playable(o, fn) {
      StateBeforeCall(o, fn, s.calls);
    }
  }

  lemma AtNext<T, E>(o: Options<T, E>, fn: nat -> Call<T, E>, s: Loop<E>, t: Loop<E>)
    requires At(o, fn, s.calls) == Some(s) && Made(o, fn, s.calls)
    requires Iterate(o, s, Race(fn(s.calls), s.remaining)) == Continue(t)
    ensures At(o, fn, s.calls + 1) == Some(t)
  {
    hide Iterate;
  }

  lemma WaitGoesOn<T, E>(o: Options<T, E>, fn: nat -> Call<T, E>, s: Loop<E>, slept: real, busy: real, t: Loop<E>)
    requires Ready(o, fn, s, slept, busy) && (s.remaining > 0.0 || fn(s.calls).Settles?)
    requires Iterate(o, s, Race(fn(s.calls), s.remaining)) == Continue(t)
    ensures t.calls == s.calls + 1
    ensures Ready(
      o, fn, t, if s.interval > 0.0 then slept + s.interval else slept, busy + Race(fn(s.calls), s.remaining).took)
  {
    var r := Race(fn(s.calls), s.remaining);
    ContinueStep(o, s, r);
    AtNext(o, fn, s, t);
    BusyStep(o, fn, s.calls);
    IntervalBeforeCall(o, fn, t.calls);
    if Sane(o) {
      SleepsNonNegative(o, t.calls);
    }
    hide Iterate, Race, Busy, At, Longer, Playable;
  }

  lemma WaitEnds<T, E>(o: Options<T, E>, fn: nat -> Call<T, E>, s: Loop<E>, slept: real, busy: real, out: Outcome<T, E>)
    requires Ready(o, fn, s, slept, busy) && (s.remaining > 0.0 || fn(s.calls).Settles?)
    requires Iterate(o, s, Race(fn(s.calls), s.remaining)) == Done(out)
    ensures Explains(o, fn, s.calls + 1, out)
    ensures Sane(o) && Playable(o, fn) ==> InTime(o, fn, s.calls + 1, slept, busy + Race(fn(s.calls), s.remaining).took)
  {
    var n := s.calls;
    hide Longer, Acceptable, InTime, Sane, Playable;
    assert At(o, fn, n + 1).None?;
    hide At;
    LastErrorBeforeCall(o, fn, n);
    VerdictOfIteration(o, s, Seen(o, fn, n));
    hide Iterate, Verdict, Retries;
    forall k: nat | k < n ensures Made(o, fn, k) && Retries(o, Seen(o, fn, k).result) {
      EarlierCallRetried(o, fn, k, n);
    }
    if Sane(o) && Playable(o, fn) {
      WaitInTime(o, fn, n);
    }
  }

  lemma WaitInTime<T, E>(o: Options<T, E>, fn: nat -> Call<T, E>, n: nat)
    requires Sane(o) && Playable(o, fn) && Made(o, fn, n)
    ensures InTime(o, fn, n + 1, SleptAfter(o, n), Busy(o, fn, n) + Race(fn(n), At(o, fn, n).value.remaining).took)
  {
    hide At, Busy, Seen, Race, SleptAfter, Times, Playable, Sane;
    BusyStep(o, fn, n);
    if o.timeout > 0.0 {
      TotalBelowTwice(o, fn, n);
    }
  }

  lemma BusyStep<T, E>(o: Options<T, E>, fn: nat -> Call<T, E>, n: nat)
    requires Made(o, fn, n)
    ensures Busy(o, fn, n + 1) == Busy(o, fn, n) + Race(fn(n), At(o, fn, n).value.remaining).took
  {
  }

  /** The documentation has a wait with retryOnFail throw the last error at the timeout.  It returns
      `undefined` instead exactly if the last call answered `undefined` in time, or was raced and had not
      answered when the timeout, less the time of the earlier calls, was over. */
  lemma RetryReturnsUndefinedIff<T, E>(o: Options<T, E>, fn: nat -> Call<T, E>, calls: nat, out: Outcome<T, E>)
    requires o.retryOnFail != Flag(false) && Explains(o, fn, calls, out)
    ensures var left, call := o.timeout - Busy(o, fn, calls - 1), fn(calls - 1);
      out == Returned(None) <==>
        || (call.Settles? && call.result == Value(None))
        || (left > 0.0 && (call.NeverSettles? || call.after > left))
  {
    BusyBeforeCall(o, fn, calls - 1);
    hide At, Busy, Playable;
  }

  /** Against some callee the wait overruns its timeout. */
  ghost predicate CanOverrun<T(!new), E(!new)>(o: Options<T, E>) {
    exists fn, n: nat :: Playable(o, fn) && Made(o, fn, n) && SleptAfter(o, n) + Busy(o, fn, n + 1) > o.timeout
  }

  /** One quick call that is retried, then one that hangs. */
  function QuickThenHanging<T, E>(a: Attempt<T, E>): nat -> Call<T, E> {
    k => if k == 0 then Settles(0.0, a) else NeverSettles
  }

  /** The comment "never overrun the timeout" is true exactly when the wait cannot sleep at all. */
  lemma CanOverrunIff<T(!new), E(!new)>(o: Options<T, E>, a: Attempt<T, E>)
    requires Sane(o) && Retries(o, a) && o.timeout > 0.0
    ensures CanOverrun(o) <==> 0.0 < o.interval < o.timeout
    ensures 0.0 < o.interval < o.timeout ==>
      SleptAfter(o, 1) + Busy(o, QuickThenHanging(a), 2) == o.interval + o.timeout
  {
    if 0.0 < o.interval < o.timeout {
      OverrunWitness(o, a);
    } else {
      forall fn, n: nat | Playable(o, fn) && Made(o, fn, n)
        ensures SleptAfter(o, n) + Busy(o, fn, n + 1) <= o.timeout
      {
        NoSleepNoOverrun(o, fn, n);
      }
    }
  }

  lemma OverrunWitness<T, E>(o: Options<T, E>, a: Attempt<T, E>)
    requires Sane(o) && Retries(o, a) && 0.0 < o.interval < o.timeout
    ensures var fn := QuickThenHanging(a);
            && Playable(o, fn) && Made(o, fn, 1)
            && SleptAfter(o, 1) + Busy(o, fn, 2) == o.interval + o.timeout
  {
    hide Longer;
    var fn := QuickThenHanging(a);
    assert At(o, fn, 0) == Some(Start(o));
    assert Race(fn(0), o.timeout) == Raced(a, 0.0);
    assert At(o, fn, 1).Some? && At(o, fn, 1).value.remaining == o.timeout;
    assert SleptAfter(o, 1) == SleptAfter(o, 0) + IntervalAt(o, 0);
    assert Busy(o, fn, 1) == Busy(o, fn, 0);
    assert Seen(o, fn, 1).took == o.timeout;
  }

  lemma NoSleepNoOverrun<T, E>(o: Options<T, E>, fn: nat -> Call<T, E>, n: nat)
    requires Sane(o) && Playable(o, fn) && Made(o, fn, n) && o.timeout > 0.0
    requires o.interval == 0.0 || o.interval >= o.timeout
    ensures SleptAfter(o, n) + Busy(o, fn, n + 1) <= o.timeout
  {
    StateBeforeCall(o, fn, n);
    BusyBeforeCall(o, fn, n);
    if o.interval == 0.0 {
      SingleSleep(o, n);
    } else if n > 0 {
      FirstSleepIsLeast(o, n);
      assert false;
    }
  }

  lemma {:induction false} FirstSleepIsLeast<T, E>(o: Options<T, E>, n: nat)
    requires Sane(o) && n > 0
    ensures SleptAfter(o, n) >= o.interval
  {
    if n > 1 {
      FirstSleepIsLeast(o, n - 1);
      SleepsNonNegative(o, n - 1);
    } else {
      assert SleptAfter(o, 1) == SleptAfter(o, 0) + IntervalAt(o, 0);
    }
  }
}

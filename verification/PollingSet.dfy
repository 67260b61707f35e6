/**
  `PollingSet` of core/aws-lsp-core/src/util/pollingSet.ts: a set that keeps an interval timer running
  while it has members.
 */
module PollingSets {
  import opened Wrappers

  /** A polling set as a value: its members, its `pollTimer` field, and the host's side of the story,
      namely the intervals that are running for it and the next unused timer handle. */
  datatype Polled<T> = Polled(items: set<T>, pollTimer: Option<nat>, live: set<nat>, nextTimer: nat)

  /** The calls that can be made on a set, also by its own action while a poll is running. */
  datatype Op<+T> = Add(id: T) | Delete(id: T) | Clear | ClearTimer

  /** `Tick` is an interval firing; its action performs some calls and may throw. */
  datatype Event<+T> = Call(op: Op<T>) | Tick(action: seq<Op<T>>, throws: bool)

  function Fresh<T>(): Polled<T> {
    Polled({}, None, {}, 0)
  }

  function WithoutTimer<T(==)>(p: Polled<T>): Polled<T> {
    if p.items == {} && p.pollTimer.Some?
    then p.(pollTimer := None, live := p.live - {p.pollTimer.value})
    else p
  }

  function Perform<T(==)>(p: Polled<T>, op: Op<T>): Polled<T> {
    match op
    case Add(id) =>
      var q := p.(items := p.items + {id});
      if q.pollTimer.Some? then q
      else q.(pollTimer := Some(q.nextTimer), live := q.live + {q.nextTimer}, nextTimer := q.nextTimer + 1)
    case Delete(id) => p.(items := p.items - {id})
    case Clear => WithoutTimer(p).(items := {})
    case ClearTimer => WithoutTimer(p)
  }

  function PerformAll<T(==)>(p: Polled<T>, ops: seq<Op<T>>): Polled<T> {
    if ops == [] then p else Perform(PerformAll(p, ops[..|ops| - 1]), ops[|ops| - 1])
  }

  function Step<T(==)>(p: Polled<T>, e: Event<T>): Polled<T> {
    match e
    case Call(op) => Perform(p, op)
    case Tick(action, throws) =>
      var q := PerformAll(p, action);
      if throws then q else WithoutTimer(q)
  }

  /** Runs are not restricted: an interval may even fire late, after it was cleared. */
  ghost function Run<T>(es: seq<Event<T>>): Polled<T> {
    if es == [] then Fresh() else Step(Run(es[..|es| - 1]), es[|es| - 1])
  }

  /** At most one interval runs, it is the one in `pollTimer`, and a non-empty set has one. */
  ghost predicate Valid<T>(p: Polled<T>) {
    && p.live == (if p.pollTimer.Some? then {p.pollTimer.value} else {})
    && (p.items != {} ==> p.pollTimer.Some?)
    && (p.pollTimer.Some? ==> p.pollTimer.value < p.nextTimer)
  }

  lemma {:induction false} PerformAllKeepsValid<T>(p: Polled<T>, ops: seq<Op<T>>)
    requires Valid(p)
    ensures Valid(PerformAll(p, ops))
  {
    if ops != [] {
      PerformAllKeepsValid(p, ops[..|ops| - 1]);
    }
  }

  /** Whatever is called, in whatever order, and whatever the action does while it runs. */
  lemma {:induction false} RunIsValid<T>(es: seq<Event<T>>)
    ensures Valid(Run(es))
  {
    if es != [] {
      RunIsValid(es[..|es| - 1]);
      var p, e := Run(es[..|es| - 1]), es[|es| - 1];
      if e.Tick? {
        PerformAllKeepsValid(p, e.action);
      }
    }
  }

  /** `clear()` clears the timer before it empties the set, so on a non-empty set the timer survives;
      an empty set then loses it at the next tick, unless the action fills the set again. */
  lemma ClearLeavesTimerIff<T>(es: seq<Event<T>>, action: seq<Op<T>>)
    ensures Perform(Run(es), Clear).pollTimer.Some? <==> Run(es).items != {}
    ensures var p := Perform(Run(es), Clear);
            var q := Step(p, Tick(action, false));
            q.pollTimer.Some? <==> PerformAll(p, action).items != {}
  {
    RunIsValid(es);
    var p := Perform(Run(es), Clear);
    PerformAllKeepsValid(p, action);
  }

  /** After every tick whose action returned, the timer runs exactly when the set has members. */
  lemma TickSettlesTimer<T>(es: seq<Event<T>>, action: seq<Op<T>>)
    ensures var q := Run(es + [Tick(action, false)]);
            q.pollTimer.Some? <==> q.items != {}
  {
    var e := Tick(action, false);
    assert (es + [e])[..|es|] == es;
    RunIsValid(es);
    PerformAllKeepsValid(Run(es), action);
  }

  lemma RunStep<T>(es: seq<Event<T>>, e: Event<T>)
    ensures Run(es + [e]) == Step(Run(es), e)
  {
    hide Step;
    assert (es + [e])[..|es + [e]| - 1] == es;
  }

  /** Ticks whose actions all throw, and the calls those actions made before. */
  predicate AllThrow<T>(ticks: seq<Event<T>>) {
    forall i | 0 <= i < |ticks| :: ticks[i].Tick? && ticks[i].throws
  }

  function CallsOf<T>(ticks: seq<Event<T>>): seq<Op<T>>
    requires AllThrow(ticks)
  {
    if ticks == [] then [] else CallsOf(ticks[..|ticks| - 1]) + ticks[|ticks| - 1].action
  }

  lemma {:induction false} PerformAllAppends<T>(p: Polled<T>, a: seq<Op<T>>, b: seq<Op<T>>)
    ensures PerformAll(p, a + b) == PerformAll(PerformAll(p, a), b)
  {
    if b == [] {
      assert a + b == a;
    } else {
      assert (a + b)[..|a + b| - 1] == a + b[..|b| - 1];
      PerformAllAppends(p, a, b[..|b| - 1]);
      hide Perform;
    }
  }

  lemma ThrowingTickOnlyCalls<T>(p: Polled<T>, e: Event<T>)
    requires e.Tick? && e.throws
    ensures Step(p, e) == PerformAll(p, e.action)
  {
    hide PerformAll;
  }

  lemma {:induction false} ThrowingTicksOnlyCall<T>(es: seq<Event<T>>, ticks: seq<Event<T>>)
    requires AllThrow(ticks)
    ensures Run(es + ticks) == PerformAll(Run(es), CallsOf(ticks))
  {
    if ticks == [] {
      hide Run;
      assert es + ticks == es;
      assert CallsOf(ticks) == [];
    } else {
      var before, tick := ticks[..|ticks| - 1], ticks[|ticks| - 1];
      var mid := es + before;
      assert CallsOf(ticks) == CallsOf(before) + tick.action;
      hide Run, PerformAll, Step, CallsOf;
      ThrowingTicksOnlyCall(es, before);
      RunStep(mid, tick);
      ThrowingTickOnlyCalls(Run(mid), tick);
      PerformAllAppends(Run(es), CallsOf(before), tick.action);
      assert mid + [tick] == es + ticks;
    }
  }

  /** One of the calls is `clear()` or `clearTimer()`, made while the set is empty. */
  ghost predicate ClearsEmpty<T>(p: Polled<T>, ops: seq<Op<T>>) {
    ops != [] &&
    var before, op := ops[..|ops| - 1], ops[|ops| - 1];
    ClearsEmpty(p, before) || ((op.Clear? || op.ClearTimer?) && PerformAll(p, before).items == {})
  }

  lemma {:induction false} TimerKeptIff<T>(p: Polled<T>, ops: seq<Op<T>>)
    requires Valid(p) && p.pollTimer.Some?
    ensures var q := PerformAll(p, ops);
      && (q.pollTimer == p.pollTimer <==> !ClearsEmpty(p, ops))
      && p.nextTimer <= q.nextTimer && (q.pollTimer.Some? && ClearsEmpty(p, ops) ==> q.pollTimer.value >= p.nextTimer)
  {
    if ops != [] {
      var before := ops[..|ops| - 1];
      TimerKeptIff(p, before);
      PerformAllKeepsValid(p, before);
    }
  }

  /** A tick whose action throws does not get as far as the timer: in every reachable state with an
      interval, it survives any number of throwing ticks, the set being empty or not, if and only if no
      action called `clear()` or `clearTimer()` on the empty set. */
  lemma ThrowingTicksKeepTimerIff<T>(es: seq<Event<T>>, ticks: seq<Event<T>>)
    requires Run(es).pollTimer.Some? && AllThrow(ticks)
    ensures Run(es + ticks).pollTimer == Run(es).pollTimer <==> !ClearsEmpty(Run(es), CallsOf(ticks))
  {
    RunIsValid(es);
    ThrowingTicksOnlyCall(es, ticks);
    TimerKeptIff(Run(es), CallsOf(ticks));
  }

  /** The class itself; `live` and `nextTimer` stand for the host's `setInterval` table. */
  class PollingSet<T(==)> {
    var items: set<T>
    var pollTimer: Option<nat>
    var live: set<nat>
    var nextTimer: nat

    ghost function View(): Polled<T>
      reads this
    {
      Polled(items, pollTimer, live, nextTimer)
    }

    constructor ()
      ensures View() == Fresh()
    {
      items, pollTimer, live, nextTimer := {}, None, {}, 0;
    }

    predicate IsActive()
      reads this
    {
      items != {}
    }

    predicate HasTimer()
      reads this
    {
      pollTimer.Some?
    }

    method ClearTimer()
      modifies this
      ensures View() == WithoutTimer(old(View()))
    {
      if !IsActive() && HasTimer() {
        live := live - {pollTimer.value};
        pollTimer := None;
      }
    }

    method Add(id: T)
      modifies this
      ensures View() == Perform(old(View()), Op.Add(id))
    {
      items := items + {id};
      if pollTimer.None? {
        live := live + {nextTimer};
        pollTimer := Some(nextTimer);
        nextTimer := nextTimer + 1;
      }
    }

    method Delete(id: T)
      modifies this
      ensures View() == Perform(old(View()), Op.Delete(id))
    {
      items := items - {id};
    }

    method Clear()
      modifies this
      ensures View() == Perform(old(View()), Op.Clear)
    {
      ClearTimer();
      items := {};
    }

    /** One firing of the interval; `action` lists the calls the callback makes on this set, and if it
        throws, the exception leaves `poll` at that point. */
    method Poll(action: seq<Op<T>>, throws: bool)
      requires Valid(View())
      modifies this
      ensures Valid(View())
      ensures View() == Step(old(View()), Tick(action, throws))
    {
      for i := 0 to |action|
        invariant View() == PerformAll(old(View()), action[..i])
      {
        assert action[..i + 1][..i] == action[..i];
        match action[i] {
          case Add(id) => Add(id);
          case Delete(id) => Delete(id);
          case Clear => Clear();
          case ClearTimer => ClearTimer();
        }
      }
      assert action[..|action|] == action;
      PerformAllKeepsValid(old(View()), action);
      if throws {
        return;
      }
      if !IsActive() {
        ClearTimer();
      }
    }
  }
}

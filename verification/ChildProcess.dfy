/**
  `ChildProcess` of core/aws-lsp-core/src/util/processUtils.ts, one process at a time.

  A process is driven by events: calls made on the object, and events that Node delivers for the
  child.  `Enabled` is Node's contract: 'exit' at most once and only for a child that got a pid,
  'close' at most once and only after 'exit' or 'error'.  'error' may come at any time, also after both.
 */
module ChildProcesses {
  import opened Wrappers
  import Text
  import W = WaitUntil

  datatype RejectMode = Off | Plain | Mapped

  datatype RunOptions = RunOptions(
    collect: bool, waitForStreams: bool, useForceStop: bool,
    rejectOnError: RejectMode, rejectOnErrorCode: RejectMode)

  datatype Result = Result(exitCode: int, stdout: string, stderr: string, error: Option<string>, signal: Option<string>)

  /** Why `run` rejected; `mapped` says that the caller's callback made the final error of it. */
  datatype Reason = ByError(error: string, mapped: bool) | ByExitCode(code: int, mapped: bool)

  datatype Promise = Pending | Resolved(result: Result) | Rejected(reason: Reason)

  datatype Child = NotStarted | Started(pid: Option<int>, options: RunOptions)

  /** A call of `child.kill`, with the number of the `stop` call it belongs to. */
  datatype Kill = Polite(call: nat, signal: Option<string>) | SigKill(call: nat)

  /** What `stop` did so far: the signals it sent, how many calls got that far, and the loop variables
      of the forced calls that are still waiting. */
  datatype Stopping = Stopping(kills: seq<Kill>, calls: nat, waits: map<nat, W.Loop<string>>)

  /** What Node delivered so far. */
  datatype Life = Life(stdinDestroyed: bool, failed: bool, exited: bool, closed: bool)

  /** `promise` is that of the `run` that spawned the child.  A `run` whose spawn threw has rejected its
      own promise and owes a clean-up, which it runs later on whatever child there is by then. */
  datatype Proc = Proc(
    child: Child,
    errors: seq<string>, stdoutChunks: seq<string>, stderrChunks: seq<string>,
    result: Option<Result>, promise: Promise, listening: bool, owed: nat,
    stopping: Stopping, life: Life)

  datatype Spawn = SpawnThrew | Spawned(pid: Option<int>)

  /** `took` is the time that passes between a probe of `waitUntil` and its verdict. */
  datatype Event =
    | Run(options: RunOptions, spawn: Spawn)
    | Stdout(text: string)
    | Stderr(text: string)
    | StreamError(error: string, took: real)
    | ReportError(error: string, took: real)
    | ProcessError(error: string, took: real)
    | Exit(code: Option<int>, signal: Option<string>)
    | Close(code: Option<int>, signal: Option<string>)
    | Cleanup
    | StrayCleanup
    | StdinDestroyed
    | StopCall(force: bool, signal: Option<string>, took: real)
    | Probe(call: nat, took: real)

  const STOP_TIMEOUT := 3000.0
  const STOP_INTERVAL := 200.0
  const MAX_PROBES := 15

  function StopWait(): W.Options<bool, string> {
    W.Options(STOP_TIMEOUT, STOP_INTERVAL, 1.0, true, (stopped: bool) => stopped, W.Flag(false))
  }

  function New(): Proc {
    Proc(NotStarted, [], [], [], None, Pending, true, 0, Stopping([], 0, map[]), Life(false, false, false, false))
  }

  predicate Stopped(p: Proc) {
    p.child.Started? && p.result.Some?
  }

  function MakeResult(p: Proc, code: Option<int>, signal: Option<string>): Result {
    Result(if code.Some? then code.value else -1,
           Text.Trim(Text.Join(p.stdoutChunks)), Text.Trim(Text.Join(p.stderrChunks)),
           if p.errors == [] then None else Some(p.errors[0]), signal)
  }

  /** Only the first `resolve` or `reject` of a promise counts. */
  function Settle(p: Proc, outcome: Promise): Proc {
    if p.promise == Pending then p.(promise := outcome) else p
  }

  /** `stop` throws "already been killed" in exactly this case, and then changes nothing. */
  predicate StopThrows(p: Proc) {
    Stopped(p) && !p.life.stdinDestroyed
  }

  function Stop(p: Proc, force: bool, signal: Option<string>, took: real): Proc {
    if p.child.NotStarted? || p.life.stdinDestroyed || Stopped(p) then p
    else p.(stopping := SendStop(p.stopping, force, signal, took))
  }

  /** The part of `stop` that runs for a process that is not stopped; a forced call probes at once. */
  function SendStop(k: Stopping, force: bool, signal: Option<string>, took: real): Stopping {
    var l := k.(kills := k.kills + [Polite(k.calls, signal)], calls := k.calls + 1);
    if force then ProbeOnce(l, false, k.calls, W.Start(StopWait()), took) else l
  }

  /** One probe of `stop`'s `waitUntil`, with the verdict on it: stop waiting, kill, or sleep. */
  function ProbeOnce(k: Stopping, stopped: bool, call: nat, s: W.Loop<string>, took: real): Stopping {
    match W.Iterate(StopWait(), s, W.Raced(W.Value(Some(stopped)), took))
    case Continue(next) => k.(waits := k.waits[call := next])
    case Done(outcome) =>
      var l := k.(waits := k.waits - {call});
      if outcome == W.Returned(Some(true)) then l else l.(kills := l.kills + [SigKill(call)])
  }

  function HandleError(p: Proc, error: string, took: real): Proc
    requires p.child.Started?
  {
    var options := p.child.options;
    var q := p.(errors := p.errors + [error]);
    var r := if Stopped(q) then q else Stop(q, options.useForceStop, None, took);
    if options.rejectOnError.Off? then r
    else Settle(r, Rejected(ByError(error, options.rejectOnError.Mapped?)))
  }

  function HandleExit(p: Proc, code: Option<int>, signal: Option<string>): Proc
    requires p.child.Started?
  {
    var options := p.child.options;
    var result := MakeResult(p, code, signal);
    var q := p.(life := p.life.(exited := true), result := Some(result));
    var r := if code.Some? && code.value != 0 && !options.rejectOnErrorCode.Off?
             then Settle(q, Rejected(ByExitCode(code.value, options.rejectOnErrorCode.Mapped?)))
             else q;
    if options.waitForStreams then r else Settle(r, Resolved(result))
  }

  predicate Enabled(p: Proc, e: Event) {
    match e
    case Run(_, _) => true
    case StopCall(_, _, took) => took >= 0.0
    case Probe(call, took) => call in p.stopping.waits && took >= 0.0
    case Cleanup => p.promise != Pending
    case StrayCleanup => p.owed > 0
    case StdinDestroyed => p.child.Started?
    case Stdout(_) => p.child.Started? && !p.life.closed
    case Stderr(_) => p.child.Started? && !p.life.closed
    case StreamError(_, took) => p.child.Started? && !p.life.closed && p.listening && took >= 0.0
    case ReportError(_, took) => p.child.Started? && took >= 0.0
    case ProcessError(_, took) => p.child.Started? && took >= 0.0
    case Exit(_, _) => p.child.Started? && p.child.pid.Some? && !p.life.exited && !p.life.closed
    case Close(_, _) => p.child.Started? && !p.life.closed && (p.life.exited || p.life.failed)
  }

  function Step(p: Proc, e: Event): Proc
    requires Enabled(p, e)
  {
    match e
    case Run(options, spawn) =>
      if p.child.Started? then p
      else if spawn.SpawnThrew? then p.(owed := p.owed + 1)
      else p.(child := Started(spawn.pid, options))
    case Stdout(text) =>
      if p.listening && p.child.options.collect then p.(stdoutChunks := p.stdoutChunks + [text]) else p
    case Stderr(text) =>
      if p.listening && p.child.options.collect then p.(stderrChunks := p.stderrChunks + [text]) else p
    case StreamError(error, took) => HandleError(p, error, took)
    case ReportError(error, took) => HandleError(p, error, took)
    case ProcessError(error, took) => HandleError(p.(life := p.life.(failed := true)), error, took)
    case Exit(code, signal) => HandleExit(p, code, signal)
    case Close(code, signal) =>
      var result := MakeResult(p, code, signal);
      Settle(p.(life := p.life.(closed := true), result := Some(result)), Resolved(result))
    case Cleanup => p.(listening := false)
    case StrayCleanup => p.(owed := p.owed - 1, listening := p.listening && p.child.NotStarted?)
    case StdinDestroyed => p.(life := p.life.(stdinDestroyed := true))
    case StopCall(force, signal, took) => Stop(p, force, signal, took)
    case Probe(call, took) =>
      p.(stopping := ProbeOnce(p.stopping, Stopped(p), call, p.stopping.waits[call], took))
  }

  // ---------------------------------------------------------------- histories

  ghost predicate Legal(h: seq<Event>)
    decreases |h|, 0
  {
    h == [] || (Legal(h[..|h| - 1]) && Enabled(Exec(h[..|h| - 1]), h[|h| - 1]))
  }

  ghost function Exec(h: seq<Event>): Proc
    requires Legal(h)
    decreases |h|, 1
  {
    if h == [] then New() else Step(Exec(h[..|h| - 1]), h[|h| - 1])
  }

  /** The life cycle: a process has a result exactly when 'exit' or 'close' was delivered. */
  ghost predicate Tidy(p: Proc) {
    && (p.child.NotStarted? ==> p == New().(owed := p.owed))
    && (p.result.Some? <==> p.life.exited || p.life.closed)
    && (p.life.closed ==> p.life.exited || p.life.failed)
    && (p.life.exited ==> p.child.Started? && p.child.pid.Some?)
  }

  /** A pending wait of a forced stop: `calls` probes so far, each a STOP_INTERVAL apart. */
  ghost predicate WaitOk(s: W.Loop<string>) {
    && s.interval == STOP_INTERVAL && s.lastError.None?
    && s.elapsed == STOP_INTERVAL * s.calls as real
    && s.elapsed < s.remaining <= STOP_TIMEOUT
    && 1 <= s.calls < MAX_PROBES
  }

  /** Every stop call sends at most one SIGKILL, and none while it is still waiting. */
  ghost predicate KillsOk(k: Stopping) {
    && (forall call | call in k.waits :: call < k.calls && WaitOk(k.waits[call]))
    && (forall i | 0 <= i < |k.kills| :: k.kills[i].call < k.calls)
    && (forall i | 0 <= i < |k.kills| && k.kills[i].SigKill? :: k.kills[i].call !in k.waits)
    && (forall i, j | 0 <= i < j < |k.kills| && k.kills[i].SigKill? && k.kills[j].SigKill? ::
          k.kills[i].call != k.kills[j].call)
  }

  /** Stopping changes nothing but the record of it. */
  lemma StopFrame(p: Proc, force: bool, signal: Option<string>, took: real)
    ensures Stop(p, force, signal, took) == p.(stopping := Stop(p, force, signal, took).stopping)
    ensures p.child.NotStarted? ==> Stop(p, force, signal, took) == p
  {
    hide SendStop;
  }

  lemma ErrorKeepsTidy(p: Proc, error: string, took: real)
    requires Tidy(p) && p.child.Started?
    ensures Tidy(HandleError(p, error, took))
  {
    StopFrame(p.(errors := p.errors + [error]), p.child.options.useForceStop, None, took);
    hide Stop;
  }

  lemma StepKeepsTidy(p: Proc, e: Event)
    requires Tidy(p) && Enabled(p, e)
    ensures Tidy(Step(p, e))
  {
    hide HandleError, Stop, ProbeOnce, MakeResult;
    match e
    case StreamError(error, took) => ErrorKeepsTidy(p, error, took);
    case ReportError(error, took) => ErrorKeepsTidy(p, error, took);
    case ProcessError(error, took) => ErrorKeepsTidy(p.(life := p.life.(failed := true)), error, took);
    case StopCall(force, signal, took) => StopFrame(p, force, signal, took);
    case _ =>
  }

  /** What one probe does, in terms of the process and not of `waitUntil`. */
  lemma ProbeVerdict(k: Stopping, stopped: bool, call: nat, s: W.Loop<string>, took: real)
    requires took >= 0.0 && s.lastError.None? && s.interval == STOP_INTERVAL
    ensures ProbeOnce(k, stopped, call, s, took) ==
      if stopped then k.(waits := k.waits - {call})
      else if s.elapsed + STOP_INTERVAL >= s.remaining - took then
        k.(waits := k.waits - {call}, kills := k.kills + [SigKill(call)])
      else
        var next := W.Loop(s.calls + 1, STOP_INTERVAL, s.elapsed + STOP_INTERVAL, s.remaining - took, None);
        k.(waits := k.waits[call := next])
  {
    assert W.Longer(StopWait(), STOP_INTERVAL) == STOP_INTERVAL;
  }

  ghost predicate Killed(k: Stopping, call: nat) {
    SigKill(call) in k.kills
  }

  /** The loop variables before any probe of a forced stop. */
  ghost predicate ProbeReady(s: W.Loop<string>) {
    && s.interval == STOP_INTERVAL && s.lastError.None?
    && s.elapsed == STOP_INTERVAL * s.calls as real
    && s.remaining <= STOP_TIMEOUT
  }

  lemma ProbeKeepsKillsOk(k: Stopping, stopped: bool, call: nat, s: W.Loop<string>, took: real)
    requires KillsOk(k) && call < k.calls && !Killed(k, call) && ProbeReady(s) && took >= 0.0
    ensures KillsOk(ProbeOnce(k, stopped, call, s, took))
  {
    hide ProbeOnce;
    ProbeVerdict(k, stopped, call, s, took);
  }

  lemma StepKeepsKillsOk(p: Proc, e: Event)
    requires Tidy(p) && KillsOk(p.stopping) && Enabled(p, e)
    ensures KillsOk(Step(p, e).stopping)
  {
    var k := p.stopping;
    hide ProbeOnce, Tidy, MakeResult;
    match e
    case Probe(call, took) => ProbeKeepsKillsOk(k, Stopped(p), call, k.waits[call], took);
    case StopCall(force, signal, took) => SendStopKeepsKillsOk(k, force, signal, took);
    case StreamError(_, took) => SendStopKeepsKillsOk(k, p.child.options.useForceStop, None, took);
    case ReportError(_, took) => SendStopKeepsKillsOk(k, p.child.options.useForceStop, None, took);
    case ProcessError(_, took) => SendStopKeepsKillsOk(k, p.child.options.useForceStop, None, took);
    case _ =>
  }

  lemma SendStopKeepsKillsOk(k: Stopping, force: bool, signal: Option<string>, took: real)
    requires KillsOk(k) && took >= 0.0
    ensures KillsOk(SendStop(k, force, signal, took))
  {
    hide ProbeOnce;
    var l := k.(kills := k.kills + [Polite(k.calls, signal)], calls := k.calls + 1);
    assert KillsOk(l);
    assert !Killed(l, k.calls);
    if force {
      ProbeKeepsKillsOk(l, false, k.calls, W.Start(StopWait()), took);
    }
  }

  lemma {:induction false} ReachableOk(h: seq<Event>)
    requires Legal(h)
    ensures Tidy(Exec(h)) && KillsOk(Exec(h).stopping)
  {
    if h != [] {
      hide Step, Tidy, KillsOk, Enabled;
      ReachableOk(h[..|h| - 1]);
      StepKeepsTidy(Exec(h[..|h| - 1]), h[|h| - 1]);
      StepKeepsKillsOk(Exec(h[..|h| - 1]), h[|h| - 1]);
    } else {
      assert KillsOk(New().stopping);
    }
  }

  /** A process counts as stopped exactly once 'exit' or 'close' was delivered; in particular an error
      that kept it from starting does not stop it by itself. */
  lemma {:induction false} StoppedIffEnded(h: seq<Event>)
    requires Legal(h)
    ensures Stopped(Exec(h)) <==> exists i | 0 <= i < |h| :: h[i].Exit? || h[i].Close?
  {
    if h != [] {
      var g, e := h[..|h| - 1], h[|h| - 1];
      StoppedIffEnded(g);
      ReachableOk(g);
      StepStops(Exec(g), e);
      hide Step, Enabled, Tidy;
      assert forall i | 0 <= i < |g| :: h[i] == g[i];
    }
  }

  lemma StepStops(p: Proc, e: Event)
    requires Tidy(p) && Enabled(p, e)
    ensures Stopped(Step(p, e)) <==> Stopped(p) || e.Exit? || e.Close?
  {
    hide SendStop, ProbeOnce, MakeResult;
  }

  // ---------------------------------------------------------------- forced stops

  /** A SIGKILL goes out only in a step that starts with the process running. */
  lemma NewKillMeansRunning(p: Proc, e: Event, call: nat)
    requires Tidy(p) && KillsOk(p.stopping) && Enabled(p, e)
    requires !Killed(p.stopping, call) && Killed(Step(p, e).stopping, call)
    ensures p.child.Started? && !Stopped(p) && !p.life.exited && !p.life.closed
  {
    hide ProbeOnce, MakeResult;
    if e.Probe? {
      ProbeVerdict(p.stopping, Stopped(p), e.call, p.stopping.waits[e.call], e.took);
    }
  }

  lemma {:induction false} PrefixLegal(h: seq<Event>, i: nat)
    requires Legal(h) && i <= |h|
    ensures Legal(h[..i])
  {
    if i < |h| {
      PrefixLegal(h[..|h| - 1], i);
      assert h[..|h| - 1][..i] == h[..i];
    } else {
      assert h[..i] == h;
    }
  }

  lemma StepKeepsStopped(p: Proc, e: Event)
    requires Enabled(p, e) && Stopped(p)
    ensures Stopped(Step(p, e)) && Step(p, e).stopping.kills == p.stopping.kills
  {
    hide MakeResult;
    if e.Probe? {
      var s := p.stopping.waits[e.call];
      assert W.Acceptable(StopWait(), Some(true));
    }
  }

  /** Once stopped, a process stays stopped and is sent no further signal. */
  lemma {:induction false} StoppedStays(h: seq<Event>, i: nat)
    requires Legal(h) && i <= |h| && Legal(h[..i]) && Stopped(Exec(h[..i]))
    ensures Stopped(Exec(h)) && Exec(h).stopping.kills == Exec(h[..i]).stopping.kills
  {
    if i < |h| {
      var g := h[..|h| - 1];
      assert g[..i] == h[..i];
      StoppedStays(g, i);
      hide Step, Enabled;
      StepKeepsStopped(Exec(g), h[|h| - 1]);
    } else {
      assert h[..i] == h;
    }
  }

  /** A process that is not stopped was never stopped. */
  lemma NeverStoppedBefore(h: seq<Event>, i: nat)
    requires Legal(h) && !Stopped(Exec(h)) && i <= |h|
    ensures Legal(h[..i]) && !Stopped(Exec(h[..i]))
  {
    PrefixLegal(h, i);
    hide Exec, Legal, Stopped;
    if Stopped(Exec(h[..i])) {
      StoppedStays(h, i);
    }
  }

  /** The last event of the history sends the SIGKILL. */
  lemma LastEventKills(h: seq<Event>, call: nat)
    requires Legal(h) && h != [] && Killed(Exec(h).stopping, call) && !Killed(Exec(h[..|h| - 1]).stopping, call)
    ensures var p := Exec(h[..|h| - 1]); !Stopped(p) && !p.life.exited && !p.life.closed
  {
    hide Step, Enabled, KillsOk, Tidy, Killed;
    ReachableOk(h[..|h| - 1]);
    NewKillMeansRunning(Exec(h[..|h| - 1]), h[|h| - 1], call);
  }

  lemma {:induction false} KillIndex(h: seq<Event>, call: nat) returns (sent: nat)
    requires Legal(h) && Killed(Exec(h).stopping, call)
    ensures sent < |h| && Legal(h[..sent]) && Legal(h[..sent + 1])
    ensures !Killed(Exec(h[..sent]).stopping, call) && Killed(Exec(h[..sent + 1]).stopping, call)
  {
    var g := h[..|h| - 1];
    assert Legal(g);
    hide Exec, Legal, Killed;
    if Killed(Exec(g).stopping, call) {
      sent := KillIndex(g, call);
      PrefixOfFront(h, sent);
      PrefixOfFront(h, sent + 1);
    } else {
      sent := |h| - 1;
      assert h[..sent + 1] == h;
    }
  }

  lemma PrefixOfFront(h: seq<Event>, n: nat)
    requires n < |h|
    ensures h[..|h| - 1][..n] == h[..n]
  {
  }

  lemma NeverStoppedUpTo(h: seq<Event>, n: nat)
    requires Legal(h) && n <= |h| && Legal(h[..n]) && !Stopped(Exec(h[..n]))
    ensures forall i: nat | i <= n :: Legal(h[..i]) && !Stopped(Exec(h[..i]))
  {
    hide Exec, Legal, Stopped;
    forall i: nat | i <= n ensures Legal(h[..i]) && !Stopped(Exec(h[..i])) {
      NeverStoppedBefore(h[..n], i);
      assert h[..n][..i] == h[..i];
    }
  }

  /** A SIGKILL was sent at one point of the history, up to which no probe, and indeed no state, had
      the process stopped: neither 'exit' nor 'close' had been delivered. */
  lemma SigKillOnlyWhileRunning(h: seq<Event>, call: nat) returns (sent: nat)
    requires Legal(h) && Killed(Exec(h).stopping, call)
    ensures sent < |h| && Legal(h[..sent]) && Legal(h[..sent + 1])
    ensures !Killed(Exec(h[..sent]).stopping, call) && Killed(Exec(h[..sent + 1]).stopping, call)
    ensures !Exec(h[..sent]).life.exited && !Exec(h[..sent]).life.closed
    ensures forall i: nat | i <= sent :: Legal(h[..i]) && !Stopped(Exec(h[..i]))
  {
    hide Exec, Legal, Killed, Stopped;
    sent := KillIndex(h, call);
    assert h[..sent + 1][..sent] == h[..sent];
    LastEventKills(h[..sent + 1], call);
    NeverStoppedUpTo(h, sent);
  }

  ghost function ProbesOf(h: seq<Event>, call: nat): nat {
    if h == [] then 0
    else ProbesOf(h[..|h| - 1], call) + (if h[|h| - 1].Probe? && h[|h| - 1].call == call then 1 else 0)
  }

  /** A forced stop probes at most MAX_PROBES times: once in the call itself, and then while it waits. */
  lemma {:induction false} ProbesBounded(h: seq<Event>, call: nat)
    requires Legal(h)
    ensures var k := Exec(h).stopping;
      && (call in k.waits ==> k.waits[call].calls == ProbesOf(h, call) + 1)
      && (call >= k.calls ==> ProbesOf(h, call) == 0)
      && ProbesOf(h, call) + 1 <= MAX_PROBES
  {
    if h != [] {
      var g, e := h[..|h| - 1], h[|h| - 1];
      ProbesBounded(g, call);
      ReachableOk(g);
      hide Step, Enabled, Tidy;
      if e.Probe? {
        ProbeEnabled(Exec(g), e);
      }
      CallsOfStep(Exec(g), e, call);
    }
  }

  /** How an event changes the stopping record: by a probe, by a stop that gets through, or not. */
  lemma StoppingOfStep(p: Proc, e: Event)
    requires Enabled(p, e)
    ensures var k, l := p.stopping, Step(p, e).stopping;
      if e.Probe? then l == ProbeOnce(k, Stopped(p), e.call, k.waits[e.call], e.took)
      else l == k || (!Stopped(p) && exists force, signal, took :: took >= 0.0 && l == SendStop(k, force, signal, took))
  {
    hide ProbeOnce, SendStop, MakeResult;
  }

  lemma SendStopEffect(k: Stopping, force: bool, signal: Option<string>, took: real)
    requires took >= 0.0
    ensures var l := SendStop(k, force, signal, took);
      && l.calls == k.calls + 1
      && (forall call | call != k.calls ::
            (call in l.waits <==> call in k.waits) && (call in k.waits ==> l.waits[call] == k.waits[call]))
      && (k.calls in l.waits && k.calls !in k.waits ==> l.waits[k.calls].calls == 1)
  {
    hide ProbeOnce;
    var l := k.(kills := k.kills + [Polite(k.calls, signal)], calls := k.calls + 1);
    ProbeVerdict(l, false, k.calls, W.Start(StopWait()), took);
  }

  lemma CallsOfStep(p: Proc, e: Event, call: nat)
    requires KillsOk(p.stopping) && Enabled(p, e)
    ensures var k, l := p.stopping, Step(p, e).stopping;
      && k.calls <= l.calls
      && (call in l.waits ==>
            if call in k.waits
            then l.waits[call].calls == k.waits[call].calls + (if e.Probe? && e.call == call then 1 else 0)
            else call == k.calls && l.waits[call].calls == 1 && !e.Probe?)
      && (call in k.waits && call !in l.waits ==>
            e.Probe? && e.call == call && (Killed(l, call) <==> !Stopped(p)))
  {
    var k, l := p.stopping, Step(p, e).stopping;
    StoppingOfStep(p, e);
    hide ProbeOnce, SendStop, Step, Enabled;
    if e.Probe? {
      assert e.call in k.waits && e.took >= 0.0 by {
        ProbeEnabled(p, e);
      }
      ProbeVerdict(k, Stopped(p), e.call, k.waits[e.call], e.took);
    } else if l != k {
      var force, signal, took :| took >= 0.0 && l == SendStop(k, force, signal, took);
      SendStopEffect(k, force, signal, took);
    }
  }

  lemma ProbeEnabled(p: Proc, e: Event)
    requires Enabled(p, e) && e.Probe?
    ensures e.call in p.stopping.waits && e.took >= 0.0
  {
  }

  /** A waiting call stops waiting only by finding the process stopped or by killing it, never both. */
  lemma WaitEndsInKillOrStop(h: seq<Event>, e: Event, call: nat)
    requires Legal(h) && Enabled(Exec(h), e)
    requires call in Exec(h).stopping.waits && call !in Step(Exec(h), e).stopping.waits
    ensures e.Probe? && e.call == call
    ensures Killed(Step(Exec(h), e).stopping, call) <==> !Stopped(Exec(h))
  {
    ReachableOk(h);
    hide Step, Enabled, KillsOk, Tidy;
    CallsOfStep(Exec(h), e, call);
  }

  /** A forced stop that gets through sends its polite signal, and then waits or kills. */
  lemma ForcedStopSent(p: Proc, signal: Option<string>, took: real)
    requires p.child.Started? && !p.life.stdinDestroyed && !Stopped(p) && took >= 0.0
    ensures var k, l := p.stopping, Stop(p, true, signal, took).stopping;
      && l.calls == k.calls + 1 && k.kills + [Polite(k.calls, signal)] <= l.kills
      && (k.calls in l.waits || Killed(l, k.calls))
  {
    var k := p.stopping;
    hide ProbeOnce;
    var l := k.(kills := k.kills + [Polite(k.calls, signal)], calls := k.calls + 1);
    ProbeVerdict(l, false, k.calls, W.Start(StopWait()), took);
  }

  /** What a stop that gets through leaves behind; the call number is new. */
  lemma SendStopLeaves(k: Stopping, force: bool, signal: Option<string>, took: real)
    requires KillsOk(k) && took >= 0.0
    ensures var l := SendStop(k, force, signal, took);
      && l.calls == k.calls + 1 && k.kills + [Polite(k.calls, signal)] <= l.kills
      && (k.calls in l.waits || Killed(l, k.calls) <==> force)
  {
    var m := k.(kills := k.kills + [Polite(k.calls, signal)], calls := k.calls + 1);
    hide ProbeOnce;
    assert k.calls !in m.waits && !Killed(m, k.calls);
    ProbeVerdict(m, false, k.calls, W.Start(StopWait()), took);
  }

  /** Every reported error stops the process: in each reachable state it sends one polite signal, unless
      there is nothing to stop, and escalates exactly if the run asked for force. */
  lemma ErrorStopsProcess(h: seq<Event>, e: Event)
    requires Legal(h) && Enabled(Exec(h), e) && (e.StreamError? || e.ReportError? || e.ProcessError?)
    ensures var p, k, l := Exec(h), Exec(h).stopping, Step(Exec(h), e).stopping;
      if Stopped(p) || p.life.stdinDestroyed then l == k
      else
        && l.calls == k.calls + 1 && k.kills + [Polite(k.calls, None)] <= l.kills
        && (k.calls in l.waits || Killed(l, k.calls) <==> p.child.options.useForceStop)
  {
    var p := Exec(h);
    ReachableOk(h);
    hide SendStop, KillsOk, Tidy, MakeResult, Exec, Legal;
    SendStopLeaves(p.stopping, p.child.options.useForceStop, None, e.took);
  }

  /** A `stop` call in any reachable state: nothing to do for a process that is not started or has ended
      or whose stdin is destroyed; otherwise its signal goes out once, and it waits or kills exactly if it
      was forced. */
  lemma StopCallSends(h: seq<Event>, force: bool, signal: Option<string>, took: real)
    requires Legal(h) && took >= 0.0
    ensures var p, k, l := Exec(h), Exec(h).stopping, Step(Exec(h), StopCall(force, signal, took)).stopping;
      if p.child.NotStarted? || p.result.Some? || p.life.stdinDestroyed
      then Step(p, StopCall(force, signal, took)) == p
      else
        && l.calls == k.calls + 1 && k.kills + [Polite(k.calls, signal)] <= l.kills
        && (k.calls in l.waits || Killed(l, k.calls) <==> force)
        && (!force ==> l.kills == k.kills + [Polite(k.calls, signal)] && l.waits == k.waits)
  {
    ReachableOk(h);
    hide Exec, Legal, ProbeOnce, KillsOk, Tidy;
    SendStopLeaves(Exec(h).stopping, force, signal, took);
  }

  lemma {:induction false} StdinDestroyedIff(h: seq<Event>)
    requires Legal(h)
    ensures Exec(h).life.stdinDestroyed <==> StdinDestroyed in h
  {
    if h != [] {
      var g, e := h[..|h| - 1], h[|h| - 1];
      StdinDestroyedIff(g);
      StdinOfStep(Exec(g), e);
      assert h == g + [e];
      hide Step, Enabled;
    }
  }

  lemma StdinOfStep(p: Proc, e: Event)
    requires Enabled(p, e)
    ensures Step(p, e).life.stdinDestroyed <==> p.life.stdinDestroyed || e.StdinDestroyed?
  {
    hide HandleError, Stop, ProbeOnce, MakeResult;
    if IsError(e) {
      HandleErrorRecord(if e.ProcessError? then p.(life := p.life.(failed := true)) else p, e.error, e.took);
    } else if e.StopCall? {
      StopFrame(p, e.force, e.signal, e.took);
    }
  }

  /** `stop` throws exactly if 'exit' or 'close' was delivered and stdin was not destroyed. */
  lemma StopThrowsIff(h: seq<Event>)
    requires Legal(h)
    ensures StopThrows(Exec(h)) <==>
      (exists i | 0 <= i < |h| :: h[i].Exit? || h[i].Close?) && StdinDestroyed !in h
  {
    StoppedIffEnded(h);
    StdinDestroyedIff(h);
  }

  /** The history, a forced stop, and n further probes, all prompt. */
  function Probed(h: seq<Event>, signal: Option<string>, call: nat, n: nat): seq<Event> {
    if n == 0 then h + [StopCall(true, signal, 0.0)] else Probed(h, signal, call, n - 1) + [Probe(call, 0.0)]
  }

  lemma PromptProbe(k: Stopping, call: nat, s: W.Loop<string>)
    requires s == W.Loop(s.calls, 200.0, 200.0 * s.calls as real, 3000.0, None)
    ensures ProbeOnce(k, false, call, s, 0.0) ==
      if s.calls < 14 then
        k.(waits := k.waits[call := W.Loop(s.calls + 1, 200.0, 200.0 * (s.calls + 1) as real, 3000.0, None)])
      else k.(waits := k.waits - {call}, kills := k.kills + [SigKill(call)])
  {
    ProbeVerdict(k, false, call, s, 0.0);
    hide ProbeOnce;
  }

  lemma PromptStop(p: Proc, signal: Option<string>)
    requires Tidy(p) && p.child.Started? && !p.life.stdinDestroyed && !Stopped(p)
    ensures var q, call := Step(p, StopCall(true, signal, 0.0)), p.stopping.calls;
      && call in q.stopping.waits && q.stopping.waits[call] == W.Loop(1, 200.0, 200.0, 3000.0, None)
      && q.stopping.kills == p.stopping.kills + [Polite(call, signal)]
      && !Stopped(q)
  {
    var k := p.stopping;
    PromptProbe(k.(kills := k.kills + [Polite(k.calls, signal)], calls := k.calls + 1), k.calls, W.Start(StopWait()));
    hide ProbeOnce;
  }

  /** A forced stop, its n-th prompt probe made: waiting up to the 14th, and killed at the 15th. */
  ghost predicate AfterProbes(before: seq<Kill>, q: Proc, call: nat, signal: Option<string>, n: nat) {
    && !Stopped(q)
    && if n < 15 then
         && call in q.stopping.waits
         && q.stopping.waits[call] == W.Loop(n, 200.0, 200.0 * n as real, 3000.0, None)
         && q.stopping.kills == before + [Polite(call, signal)]
       else
         && call !in q.stopping.waits
         && q.stopping.kills == before + [Polite(call, signal)] + [SigKill(call)]
  }

  lemma NextProbe(before: seq<Kill>, q: Proc, call: nat, signal: Option<string>, n: nat)
    requires n < 15 && AfterProbes(before, q, call, signal, n)
    ensures Enabled(q, Probe(call, 0.0)) && AfterProbes(before, Step(q, Probe(call, 0.0)), call, signal, n + 1)
  {
    PromptProbe(q.stopping, call, q.stopping.waits[call]);
    hide ProbeOnce;
  }

  lemma ForcedStopWaits(h: seq<Event>, signal: Option<string>)
    requires Legal(h) && Exec(h).child.Started? && !Exec(h).life.stdinDestroyed && !Stopped(Exec(h))
    ensures var g := h + [StopCall(true, signal, 0.0)];
      Legal(g) && AfterProbes(Exec(h).stopping.kills, Exec(g), Exec(h).stopping.calls, signal, 1)
  {
    ReachableOk(h);
    hide Exec, Legal, KillsOk;
    PromptStop(Exec(h), signal);
    assert Enabled(Exec(h), StopCall(true, signal, 0.0));
    hide Step, Enabled, Tidy, Stopped;
    ExecStep(h, StopCall(true, signal, 0.0));
  }

  lemma OneMoreProbe(g: seq<Event>, before: seq<Kill>, call: nat, signal: Option<string>, n: nat)
    requires Legal(g) && n < 15 && AfterProbes(before, Exec(g), call, signal, n)
    ensures Legal(g + [Probe(call, 0.0)]) && AfterProbes(before, Exec(g + [Probe(call, 0.0)]), call, signal, n + 1)
  {
    hide Exec, Legal, Step, Enabled, AfterProbes;
    NextProbe(before, Exec(g), call, signal, n);
    ExecStep(g, Probe(call, 0.0));
  }

  /** The bound of `ProbesBounded` is attained: a forced stop of a process that keeps running is still
      waiting after 14 prompt probes, 200 ms apart, and the 15th one, after 2800 ms, sends the SIGKILL. */
  lemma {:induction false} FifteenthProbeKills(h: seq<Event>, signal: Option<string>, n: nat)
    requires Legal(h) && Exec(h).child.Started? && !Exec(h).life.stdinDestroyed && !Stopped(Exec(h)) && n <= 14
    ensures var call := Exec(h).stopping.calls;
      var g := Probed(h, signal, call, n);
      Legal(g) && AfterProbes(Exec(h).stopping.kills, Exec(g), call, signal, n + 1)
  {
    hide Exec, Legal, AfterProbes, Stopped;
    var call := Exec(h).stopping.calls;
    if n == 0 {
      ForcedStopWaits(h, signal);
    } else {
      FifteenthProbeKills(h, signal, n - 1);
      OneMoreProbe(Probed(h, signal, call, n - 1), Exec(h).stopping.kills, call, signal, n);
    }
  }

  // ---------------------------------------------------------------- what `run` settles with

  /** The child of a history: the first spawn that did not throw.  Later `run` calls spawn nothing. */
  ghost function ChildOf(h: seq<Event>): Child {
    if h == [] then NotStarted
    else
      var before, e := ChildOf(h[..|h| - 1]), h[|h| - 1];
      if before.NotStarted? && e.Run? && e.spawn.Spawned? then Started(e.spawn.pid, e.options) else before
  }

  /** All text delivered on a stream, in order of delivery. */
  ghost function StdoutOf(h: seq<Event>): seq<string> {
    if h == [] then []
    else StdoutOf(h[..|h| - 1]) + (if h[|h| - 1].Stdout? then [h[|h| - 1].text] else [])
  }

  ghost function StderrOf(h: seq<Event>): seq<string> {
    if h == [] then []
    else StderrOf(h[..|h| - 1]) + (if h[|h| - 1].Stderr? then [h[|h| - 1].text] else [])
  }

  /** Some clean-up has removed the listeners of the child: that of its own `run`, or a stray one. */
  ghost predicate Deaf(h: seq<Event>) {
    h != [] &&
    var g, e := h[..|h| - 1], h[|h| - 1];
    Deaf(g) || e.Cleanup? || (e.StrayCleanup? && ChildOf(g).Started?)
  }

  /** The text that was delivered before. */
  ghost function StdoutHeard(h: seq<Event>): seq<string> {
    if h == [] then []
    else StdoutHeard(h[..|h| - 1]) + (if h[|h| - 1].Stdout? && !Deaf(h[..|h| - 1]) then [h[|h| - 1].text] else [])
  }

  ghost function StderrHeard(h: seq<Event>): seq<string> {
    if h == [] then []
    else StderrHeard(h[..|h| - 1]) + (if h[|h| - 1].Stderr? && !Deaf(h[..|h| - 1]) then [h[|h| - 1].text] else [])
  }

  ghost predicate IsError(e: Event) {
    e.StreamError? || e.ReportError? || e.ProcessError?
  }

  ghost function ErrorsOf(h: seq<Event>): seq<string> {
    if h == [] then []
    else ErrorsOf(h[..|h| - 1]) + (if IsError(h[|h| - 1]) then [h[|h| - 1].error] else [])
  }

  /** The result that an 'exit' or 'close' after history `h` reports. */
  ghost function ResultAfter(h: seq<Event>, options: RunOptions, code: Option<int>, signal: Option<string>): Result {
    Result(if code.Some? then code.value else -1,
           Text.Trim(if options.collect then Text.Join(StdoutHeard(h)) else ""),
           Text.Trim(if options.collect then Text.Join(StderrHeard(h)) else ""),
           if ErrorsOf(h) == [] then None else Some(ErrorsOf(h)[0]), signal)
  }

  /** What event `e` after history `h` says about the promise, taken by itself. */
  ghost function Verdict(h: seq<Event>, e: Event): Promise {
    var child := ChildOf(h);
    if child.NotStarted? then Pending
    else
      var options := child.options;
      if IsError(e) then
        if options.rejectOnError.Off? then Pending else Rejected(ByError(e.error, options.rejectOnError.Mapped?))
      else if e.Exit? then
        if e.code.Some? && e.code.value != 0 && !options.rejectOnErrorCode.Off?
        then Rejected(ByExitCode(e.code.value, options.rejectOnErrorCode.Mapped?))
        else if options.waitForStreams then Pending
        else Resolved(ResultAfter(h, options, e.code, e.signal))
      else if e.Close? then Resolved(ResultAfter(h, options, e.code, e.signal))
      else Pending
  }

  /** None of the first `n` events has a verdict. */
  ghost predicate NoVerdict(h: seq<Event>, n: nat)
    requires n <= |h|
  {
    forall j: nat | j < n :: Verdict(h[..j], h[j]) == Pending
  }

  /** Every error that was delivered is on record, and every chunk that was heard. */
  ghost predicate OnRecord(p: Proc, h: seq<Event>) {
    && p.child == ChildOf(h)
    && p.listening == !Deaf(h)
    && p.errors == ErrorsOf(h)
    && (p.child.Started? ==>
          && p.stdoutChunks == (if p.child.options.collect then StdoutHeard(h) else [])
          && p.stderrChunks == (if p.child.options.collect then StderrHeard(h) else []))
    && (p.child.NotStarted? ==>
          p == New().(owed := p.owed) && StdoutHeard(h) == [] && StderrHeard(h) == [])
  }

  lemma HistoryStep(h: seq<Event>, e: Event)
    ensures StdoutHeard(h + [e]) == StdoutHeard(h) + (if e.Stdout? && !Deaf(h) then [e.text] else [])
    ensures StderrHeard(h + [e]) == StderrHeard(h) + (if e.Stderr? && !Deaf(h) then [e.text] else [])
    ensures ErrorsOf(h + [e]) == ErrorsOf(h) + (if IsError(e) then [e.error] else [])
    ensures Deaf(h + [e]) <==> Deaf(h) || e.Cleanup? || (e.StrayCleanup? && ChildOf(h).Started?)
    ensures ChildOf(h + [e]) ==
      if ChildOf(h).NotStarted? && e.Run? && e.spawn.Spawned? then Started(e.spawn.pid, e.options) else ChildOf(h)
  {
    assert (h + [e])[..|h + [e]| - 1] == h;
  }

  lemma HandleErrorRecord(p: Proc, error: string, took: real)
    requires p.child.Started?
    ensures var q := HandleError(p, error, took);
      && q == p.(errors := p.errors + [error], promise := q.promise, stopping := q.stopping)
      && q.promise ==
         if p.promise == Pending && !p.child.options.rejectOnError.Off?
         then Rejected(ByError(error, p.child.options.rejectOnError.Mapped?))
         else p.promise
  {
    hide SendStop;
  }

  lemma StepKeepsRecord(p: Proc, h: seq<Event>, e: Event)
    requires OnRecord(p, h) && Enabled(p, e)
    ensures OnRecord(Step(p, e), h + [e])
  {
    HistoryStep(h, e);
    hide SendStop, ProbeOnce, HandleError, MakeResult, StdoutHeard, StderrHeard, ErrorsOf, ChildOf, Deaf;
    if IsError(e) {
      HandleErrorRecord(if e.ProcessError? then p.(life := p.life.(failed := true)) else p, e.error, e.took);
    }
  }

  lemma RecordedResult(p: Proc, h: seq<Event>, code: Option<int>, signal: Option<string>)
    requires OnRecord(p, h) && p.child.Started?
    ensures MakeResult(p, code, signal) == ResultAfter(h, p.child.options, code, signal)
  {
    hide Text.Trim;
  }

  lemma StepVerdict(p: Proc, h: seq<Event>, e: Event)
    requires OnRecord(p, h) && Enabled(p, e)
    ensures Step(p, e).promise == if p.promise == Pending then Verdict(h, e) else p.promise
  {
    hide SendStop, ProbeOnce, HandleError, MakeResult, ResultAfter;
    if IsError(e) {
      HandleErrorRecord(if e.ProcessError? then p.(life := p.life.(failed := true)) else p, e.error, e.took);
    } else if (e.Exit? || e.Close?) && p.promise == Pending {
      RecordedResult(p, h, e.code, e.signal);
    }
  }

  lemma {:induction false} HistoryOnRecord(h: seq<Event>)
    requires Legal(h)
    ensures OnRecord(Exec(h), h)
  {
    if h != [] {
      var g := h[..|h| - 1];
      HistoryOnRecord(g);
      assert g + [h[|h| - 1]] == h;
      hide OnRecord, Step, Enabled;
      StepKeepsRecord(Exec(g), g, h[|h| - 1]);
    }
  }

  lemma PromiseRecurrence(h: seq<Event>)
    requires Legal(h) && h != []
    ensures var g := h[..|h| - 1];
      Exec(h).promise == if Exec(g).promise == Pending then Verdict(g, h[|h| - 1]) else Exec(g).promise
  {
    var g := h[..|h| - 1];
    HistoryOnRecord(g);
    hide Step, Enabled, Verdict, OnRecord;
    StepVerdict(Exec(g), g, h[|h| - 1]);
  }

  lemma NoVerdictPrefix(h: seq<Event>, n: nat)
    requires n <= |h|
    ensures NoVerdict(h[..n], n) <==> NoVerdict(h, n)
  {
    hide Verdict;
    assert forall j: nat | j < n :: h[..n][..j] == h[..j] && h[..n][j] == h[j];
  }

  lemma {:induction false} PendingIff(h: seq<Event>)
    requires Legal(h)
    ensures Exec(h).promise == Pending <==> NoVerdict(h, |h|)
  {
    if h != [] {
      var n := |h| - 1;
      PendingIff(h[..n]);
      PromiseRecurrence(h);
      NoVerdictPrefix(h, n);
      hide Exec, Legal, Verdict;
      assert NoVerdict(h, |h|) <==> NoVerdict(h, n) && Verdict(h[..n], h[n]) == Pending;
    }
  }

  /** A settled promise stays as it is. */
  lemma {:induction false} PromiseStays(h: seq<Event>, i: nat)
    requires Legal(h) && i <= |h| && Legal(h[..i]) && Exec(h[..i]).promise != Pending
    ensures Exec(h).promise == Exec(h[..i]).promise
  {
    if i < |h| {
      var g := h[..|h| - 1];
      assert g[..i] == h[..i];
      assert Legal(g);
      PromiseRecurrence(h);
      hide Exec, Legal, Verdict;
      PromiseStays(g, i);
    } else {
      assert h[..i] == h;
    }
  }

  /** The promise of `run` is pending exactly as long as no event has a verdict, and from the first
      verdict on it is that verdict. */
  lemma RunSettlesWithFirstVerdict(h: seq<Event>, k: nat)
    requires Legal(h)
    ensures Exec(h).promise == Pending <==> NoVerdict(h, |h|)
    ensures k < |h| && NoVerdict(h, k) && Verdict(h[..k], h[k]) != Pending ==> Exec(h).promise == Verdict(h[..k], h[k])
  {
    PendingIff(h);
    if k < |h| && NoVerdict(h, k) && Verdict(h[..k], h[k]) != Pending {
      PrefixLegal(h, k);
      NoVerdictPrefix(h, k);
      PendingIff(h[..k]);
      hide Exec, Legal, Verdict, NoVerdict;
      VerdictSettles(h, k);
    }
  }

  lemma VerdictSettles(h: seq<Event>, k: nat)
    requires Legal(h) && k < |h| && Legal(h[..k]) && Exec(h[..k]).promise == Pending
    ensures Legal(h[..k + 1]) && Exec(h[..k + 1]).promise == Verdict(h[..k], h[k])
    ensures Verdict(h[..k], h[k]) != Pending ==> Exec(h).promise == Verdict(h[..k], h[k])
  {
    PrefixLegal(h, k + 1);
    hide Exec, Legal, Verdict;
    assert h[..k + 1][..k] == h[..k];
    PromiseRecurrence(h[..k + 1]);
    if Verdict(h[..k], h[k]) != Pending {
      PromiseStays(h, k + 1);
    }
  }

  /** The child is that of the first `run` whose spawn did not throw, with the options of that run. */
  lemma {:induction false} ChildIsFirstSpawn(h: seq<Event>, i: nat)
    requires Legal(h) && i <= |h|
    requires forall j | 0 <= j < i :: !(h[j].Run? && h[j].spawn.Spawned?)
    ensures i == |h| ==> Exec(h).child.NotStarted?
    ensures i < |h| && h[i].Run? && h[i].spawn.Spawned? ==> Exec(h).child == Started(h[i].spawn.pid, h[i].options)
  {
    if h != [] {
      var g, e := h[..|h| - 1], h[|h| - 1];
      ChildOfEvent(Exec(g), e);
      assert forall j | 0 <= j < |g| :: g[j] == h[j];
      ChildIsFirstSpawn(g, if i < |h| then i else i - 1);
      hide Step, Enabled;
    }
  }

  lemma ChildOfEvent(p: Proc, e: Event)
    requires Enabled(p, e)
    ensures Step(p, e).child ==
      if p.child.NotStarted? && e.Run? && e.spawn.Spawned? then Started(e.spawn.pid, e.options) else p.child
  {
    hide SendStop, ProbeOnce, MakeResult;
  }

  /** The first recorded error is that of the first error event. */
  lemma {:induction false} FirstError(h: seq<Event>, i: nat)
    requires i <= |h| && forall j | 0 <= j < i :: !(h[j].StreamError? || h[j].ReportError? || h[j].ProcessError?)
    ensures i == |h| ==> ErrorsOf(h) == []
    ensures i < |h| && (h[i].StreamError? || h[i].ReportError? || h[i].ProcessError?) ==>
      ErrorsOf(h) != [] && ErrorsOf(h)[0] == h[i].error
  {
    if h != [] {
      FirstError(h[..|h| - 1], if i < |h| then i else i - 1);
    }
  }

  /** What settles `run`, event by event, in a history in which it is pending so far: an error if errors
      reject, an exit with a non-zero code if those reject, any other exit if streams are not awaited, and
      the close; nothing else.  The result has the code or -1, the signal, the collected text without the
      white space at its ends, and the first error of the history. */
  lemma EventSettlesRun(h: seq<Event>, k: nat)
    requires Legal(h) && k < |h| && Legal(h[..k]) && Exec(h[..k]).promise == Pending && Exec(h[..k]).child.Started?
    ensures var e, p, out := h[k], Exec(h[..k]), Exec(h).promise;
      var options := p.child.options;
      var isError := e.StreamError? || e.ReportError? || e.ProcessError?;
      if isError && options.rejectOnError != Off then
        out == Rejected(ByError(e.error, options.rejectOnError == Mapped))
      else if e.Exit? && e.code.Some? && e.code.value != 0 && options.rejectOnErrorCode != Off then
        out == Rejected(ByExitCode(e.code.value, options.rejectOnErrorCode == Mapped))
      else if (e.Exit? && !options.waitForStreams) || e.Close? then
        && out.Resolved?
        && out.result.exitCode == (if e.code.Some? then e.code.value else -1) && out.result.signal == e.signal
        && Text.Trimmed(Text.Join(p.stdoutChunks), out.result.stdout)
        && Text.Trimmed(Text.Join(p.stderrChunks), out.result.stderr)
        && out.result.error == (if p.errors == [] then None else Some(p.errors[0]))
      else Legal(h[..k + 1]) && Exec(h[..k + 1]).promise == Pending
  {
    var p := Exec(h[..k]);
    HistoryOnRecord(h[..k]);
    VerdictSettles(h, k);
    hide Exec, Legal;
    VerdictMeans(p, h[..k], h[k]);
    hide Verdict, OnRecord, Text.Trimmed, Text.Join;
  }

  /** The same of the verdict by itself. */
  lemma VerdictMeans(p: Proc, h: seq<Event>, e: Event)
    requires OnRecord(p, h) && p.child.Started?
    ensures var out, options := Verdict(h, e), p.child.options;
      var isError := e.StreamError? || e.ReportError? || e.ProcessError?;
      if isError && options.rejectOnError != Off then
        out == Rejected(ByError(e.error, options.rejectOnError == Mapped))
      else if e.Exit? && e.code.Some? && e.code.value != 0 && options.rejectOnErrorCode != Off then
        out == Rejected(ByExitCode(e.code.value, options.rejectOnErrorCode == Mapped))
      else if (e.Exit? && !options.waitForStreams) || e.Close? then
        && out.Resolved?
        && out.result.exitCode == (if e.code.Some? then e.code.value else -1) && out.result.signal == e.signal
        && Text.Trimmed(Text.Join(p.stdoutChunks), out.result.stdout)
        && Text.Trimmed(Text.Join(p.stderrChunks), out.result.stderr)
        && out.result.error == (if p.errors == [] then None else Some(p.errors[0]))
      else out == Pending
  {
    if e.Exit? || e.Close? {
      ResultIs(p, e.code, e.signal);
      RecordedResult(p, h, e.code, e.signal);
    }
    assert p.child == ChildOf(h);
    hide OnRecord, ResultAfter, MakeResult, Text.Trim, Text.Trimmed, Text.Join, ChildOf;
  }

  lemma ResultIs(p: Proc, code: Option<int>, signal: Option<string>)
    ensures var r := MakeResult(p, code, signal);
      && r.exitCode == (if code.Some? then code.value else -1) && r.signal == signal
      && Text.Trimmed(Text.Join(p.stdoutChunks), r.stdout)
      && Text.Trimmed(Text.Join(p.stderrChunks), r.stderr)
      && r.error == (if p.errors == [] then None else Some(p.errors[0]))
  {
    hide Text.Trim, Text.Trimmed, Text.Join;
    Text.TrimTrims(Text.Join(p.stdoutChunks));
    Text.TrimTrims(Text.Join(p.stderrChunks));
  }

  /** The errors on record at any point, as the result reports them. */
  lemma ReportedError(h: seq<Event>, i: nat)
    requires Legal(h) && i <= |h|
    requires forall j | 0 <= j < i :: !(h[j].StreamError? || h[j].ReportError? || h[j].ProcessError?)
    ensures i == |h| ==> Exec(h).errors == []
    ensures i < |h| && (h[i].StreamError? || h[i].ReportError? || h[i].ProcessError?) ==>
      Exec(h).errors != [] && Exec(h).errors[0] == h[i].error
  {
    HistoryOnRecord(h);
    FirstError(h, i);
  }

  /** What never changes back: there is one child, listeners stay removed, and stdin stays destroyed. */
  lemma StepOneWay(p: Proc, e: Event)
    requires Enabled(p, e)
    ensures var q := Step(p, e);
      && (p.child.Started? ==> q.child == p.child)
      && (!p.listening ==> !q.listening && q.stdoutChunks == p.stdoutChunks && q.stderrChunks == p.stderrChunks)
      && (p.life.stdinDestroyed ==>
            q.life.stdinDestroyed && (p.child.Started? ==> q.stopping.calls == p.stopping.calls))
  {
    hide ProbeOnce, MakeResult;
    if e.Probe? {
      ProbeKeepsCalls(p.stopping, Stopped(p), e.call, p.stopping.waits[e.call], e.took);
    }
  }

  lemma ProbeKeepsCalls(k: Stopping, stopped: bool, call: nat, s: W.Loop<string>, took: real)
    ensures ProbeOnce(k, stopped, call, s, took).calls == k.calls
  {
  }

  /** However often `run` is called, only one child is ever spawned; after the clean-up that follows
      settlement no more output is collected; and once stdin is destroyed no `stop` call gets through. */
  lemma {:induction false} OneWay(h: seq<Event>, i: nat)
    requires Legal(h) && i <= |h| && Legal(h[..i])
    ensures var p, q := Exec(h[..i]), Exec(h);
      && (p.child.Started? ==> q.child == p.child)
      && (!p.listening ==> !q.listening && q.stdoutChunks == p.stdoutChunks && q.stderrChunks == p.stderrChunks)
      && (p.life.stdinDestroyed && p.child.Started? ==> q.life.stdinDestroyed && q.stopping.calls == p.stopping.calls)
  {
    if i < |h| {
      var g := h[..|h| - 1];
      assert g[..i] == h[..i];
      OneWay(g, i);
      hide Step, Enabled;
      StepOneWay(Exec(g), h[|h| - 1]);
    } else {
      assert h[..i] == h;
    }
  }

  lemma CutOffStep(p: Proc, e: Event)
    requires Enabled(p, e)
    ensures e.Cleanup? || (e.StrayCleanup? && p.child.Started?) ==>
      !Step(p, e).listening && Step(p, e).stdoutChunks == p.stdoutChunks && Step(p, e).stderrChunks == p.stderrChunks
    ensures e.StdinDestroyed? ==>
      Step(p, e).life.stdinDestroyed && Step(p, e).stopping == p.stopping && Step(p, e).child.Started?
  {
    hide Stop, HandleError, HandleExit, ProbeOnce, MakeResult;
  }

  /** Removing the listeners and destroying stdin are final from that very event on: no chunk is
      collected after the one, and no `stop` call gets through after the other. */
  lemma CutOff(h: seq<Event>, i: nat)
    requires Legal(h) && i < |h|
    ensures Legal(h[..i])
    ensures h[i].Cleanup? || (h[i].StrayCleanup? && Exec(h[..i]).child.Started?) ==>
      && !Exec(h).listening
      && Exec(h).stdoutChunks == Exec(h[..i]).stdoutChunks && Exec(h).stderrChunks == Exec(h[..i]).stderrChunks
    ensures h[i].StdinDestroyed? ==>
      && Exec(h).life.stdinDestroyed && !StopThrows(Exec(h))
      && Exec(h).stopping.calls == Exec(h[..i]).stopping.calls
  {
    PrefixLegal(h, i);
    PrefixLegal(h, i + 1);
    assert h[..i + 1][..i] == h[..i];
    assert Enabled(Exec(h[..i]), h[i]) && Exec(h[..i + 1]) == Step(Exec(h[..i]), h[i]) by {
      hide Step, Enabled;
    }
    hide Exec, Legal, Step, Enabled;
    OneWay(h, i + 1);
    CutOffStep(Exec(h[..i]), h[i]);
  }

  lemma StepAppends(p: Proc, e: Event)
    requires Enabled(p, e)
    ensures p.stdoutChunks <= Step(p, e).stdoutChunks && p.stderrChunks <= Step(p, e).stderrChunks
  {
    hide SendStop, MakeResult, ProbeOnce;
  }

  lemma JoinOfPrefix(a: seq<string>, b: seq<string>)
    requires a <= b
    ensures Text.Join(a) <= Text.Join(b)
  {
    assert b == a + b[|a|..];
    Text.JoinAppends(a, b[|a|..]);
  }

  lemma {:induction false} ChunksAppend(h: seq<Event>, i: nat)
    requires Legal(h) && i <= |h| && Legal(h[..i])
    ensures Exec(h[..i]).stdoutChunks <= Exec(h).stdoutChunks && Exec(h[..i]).stderrChunks <= Exec(h).stderrChunks
  {
    if i < |h| {
      var g := h[..|h| - 1];
      assert g[..i] == h[..i];
      ChunksAppend(g, i);
      hide Step, Enabled;
      StepAppends(Exec(g), h[|h| - 1]);
    } else {
      assert h[..i] == h;
    }
  }

  /** Text only ever accumulates: what an 'exit' finds collected is a prefix of what the 'close' finds. */
  lemma ExitTextIsPrefix(h: seq<Event>, i: nat)
    requires Legal(h) && i <= |h|
    ensures Legal(h[..i])
    ensures Text.Join(Exec(h[..i]).stdoutChunks) <= Text.Join(Exec(h).stdoutChunks)
    ensures Text.Join(Exec(h[..i]).stderrChunks) <= Text.Join(Exec(h).stderrChunks)
  {
    PrefixLegal(h, i);
    ChunksAppend(h, i);
    JoinOfPrefix(Exec(h[..i]).stdoutChunks, Exec(h).stdoutChunks);
    JoinOfPrefix(Exec(h[..i]).stderrChunks, Exec(h).stderrChunks);
  }

  // ---------------------------------------------------------------- stray clean-ups

  lemma ExecStep(h: seq<Event>, e: Event)
    requires Legal(h) && Enabled(Exec(h), e)
    ensures Legal(h + [e]) && Exec(h + [e]) == Step(Exec(h), e)
  {
    hide Enabled, Step;
    assert (h + [e])[..|h + [e]| - 1] == h;
  }

  /** This `run` spawns the child. */
  predicate Spawning(p: Proc, e: Event) {
    p.child.NotStarted? && e.Run? && e.spawn.Spawned?
  }

  /** When the child was spawned, no earlier `run` that had failed to spawn still owed its clean-up. */
  ghost predicate CleanSpawn(h: seq<Event>)
    requires Legal(h)
  {
    h != [] ==>
      CleanSpawn(h[..|h| - 1]) && (Spawning(Exec(h[..|h| - 1]), h[|h| - 1]) ==> Exec(h[..|h| - 1]).owed == 0)
  }

  lemma {:induction false} HeardAll(h: seq<Event>)
    requires !Deaf(h)
    ensures StdoutHeard(h) == StdoutOf(h) && StderrHeard(h) == StderrOf(h)
  {
    if h != [] {
      HeardAll(h[..|h| - 1]);
    }
  }

  lemma StepOwes(p: Proc, e: Event)
    requires Enabled(p, e) && (Spawning(p, e) ==> p.owed == 0) && (p.child.Started? ==> p.owed == 0)
    ensures Step(p, e).child.Started? ==> Step(p, e).owed == 0
    ensures Step(p, e).promise == Pending ==> p.promise == Pending && !e.Cleanup?
    ensures e.StrayCleanup? ==> p.child.NotStarted?
  {
    hide SendStop, ProbeOnce, MakeResult;
  }

  lemma {:induction false} CleanSpawnHears(h: seq<Event>)
    requires Legal(h) && CleanSpawn(h)
    ensures Exec(h).child.Started? ==> Exec(h).owed == 0
    ensures Exec(h).promise == Pending ==> !Deaf(h)
  {
    if h != [] {
      var g, e := h[..|h| - 1], h[|h| - 1];
      CleanSpawnHears(g);
      HistoryOnRecord(g);
      hide Step, Enabled;
      StepOwes(Exec(g), e);
    }
  }

  /** After a clean spawn nothing is lost: as long as `run` is pending, the collected text is all the text
      that was delivered. */
  lemma NothingLost(h: seq<Event>)
    requires Legal(h) && CleanSpawn(h) && Exec(h).promise == Pending && Exec(h).child.Started?
    ensures StdoutHeard(h) == StdoutOf(h) && StderrHeard(h) == StderrOf(h)
    ensures Exec(h).child.options.collect ==> Exec(h).stdoutChunks == StdoutOf(h) && Exec(h).stderrChunks == StderrOf(h)
  {
    CleanSpawnHears(h);
    HeardAll(h);
    HistoryOnRecord(h);
  }

  /** A clean run that collects and is settled by its 'close' reports all the text that was delivered,
      without the white space at its ends. */
  lemma CleanRunReportsAllText(h: seq<Event>, k: nat)
    requires Legal(h) && k < |h| && Legal(h[..k]) && CleanSpawn(h[..k]) && h[k].Close?
    requires Exec(h[..k]).promise == Pending && Exec(h[..k]).child.Started? && Exec(h[..k]).child.options.collect
    ensures Exec(h).promise.Resolved?
    ensures Text.Trimmed(Text.Join(StdoutOf(h[..k])), Exec(h).promise.result.stdout)
    ensures Text.Trimmed(Text.Join(StderrOf(h[..k])), Exec(h).promise.result.stderr)
  {
    NothingLost(h[..k]);
    hide Exec, Legal, Text.Trim, Text.Trimmed;
    EventSettlesRun(h, k);
  }

  /** A pending `run` that collects has all the text. */
  ghost predicate HasAllText(h: seq<Event>) {
    Legal(h) && Exec(h).promise == Pending ==>
      Exec(h).stdoutChunks == StdoutOf(h) && Exec(h).stderrChunks == StderrOf(h)
  }

  lemma {:induction false} StaysClean(h: seq<Event>, n: nat)
    requires Legal(h) && n <= |h| && Legal(h[..n]) && CleanSpawn(h[..n]) && Exec(h[..n]).child.Started?
    ensures CleanSpawn(h) && Exec(h).child == Exec(h[..n]).child
  {
    if n < |h| {
      var g := h[..|h| - 1];
      assert g[..n] == h[..n];
      StaysClean(g, n);
      hide Step, Enabled;
      StepOneWay(Exec(g), h[|h| - 1]);
    } else {
      assert h[..n] == h;
    }
  }

  lemma {:induction false} NoSpawnIsClean(h: seq<Event>)
    requires Legal(h) && Exec(h).child.NotStarted?
    ensures CleanSpawn(h) && Exec(h).promise == Pending
  {
    if h != [] {
      var g := h[..|h| - 1];
      hide Step, Enabled;
      StepOneWay(Exec(g), h[|h| - 1]);
      NoSpawnIsClean(g);
      ReachableOk(h);
    } else {
    }
  }

  lemma StrayCleanupState(p: Proc, run: Event, text: string)
    requires Tidy(p) && Spawning(p, run) && p.owed > 0 && run.options.collect
    ensures Enabled(p, run) && Enabled(Step(p, run), StrayCleanup)
    ensures var q := Step(Step(p, run), StrayCleanup);
      && Enabled(q, Stdout(text)) && Step(q, Stdout(text)) == q
      && q.promise == Pending && q.stdoutChunks == []
  {
  }

  lemma StdoutStep(h: seq<Event>, e: Event)
    ensures StdoutOf(h + [e]) == StdoutOf(h) + (if e.Stdout? then [e.text] else [])
    ensures StderrOf(h + [e]) == StderrOf(h) + (if e.Stderr? then [e.text] else [])
    ensures StdoutOf([]) == [] && StderrOf([]) == []
  {
    assert (h + [e])[..|h + [e]| - 1] == h;
  }

  /** The history of a `run` that spawns although an earlier one still owes its clean-up. */
  lemma StrayCleanupLosesText(g: seq<Event>, run: Event, text: string)
    requires Legal(g) && Spawning(Exec(g), run) && Exec(g).owed > 0 && run.options.collect
    ensures var h := g + [run] + [StrayCleanup] + [Stdout(text)];
      && Legal(h) && Exec(h).promise == Pending && Exec(h).stdoutChunks == [] && StdoutOf(h) == [text]
  {
    ReachableOk(g);
    NoTextBeforeSpawn(g);
    StdoutStep(g, run);
    StdoutStep(g + [run], StrayCleanup);
    StdoutStep(g + [run] + [StrayCleanup], Stdout(text));
    StrayCleanupState(Exec(g), run, text);
    hide Exec, Legal, Step, Enabled, StdoutOf, KillsOk, Tidy;
    ExecStep(g, run);
    ExecStep(g + [run], StrayCleanup);
    ExecStep(g + [run] + [StrayCleanup], Stdout(text));
  }

  lemma {:induction false} NoTextBeforeSpawn(h: seq<Event>)
    requires Legal(h) && Exec(h).child.NotStarted?
    ensures StdoutOf(h) == [] && StderrOf(h) == []
  {
    if h != [] {
      var g := h[..|h| - 1];
      StepOneWay(Exec(g), h[|h| - 1]);
      hide Step;
      NoTextBeforeSpawn(g);
    }
  }

  lemma ExitState(p: Proc)
    requires p.child.Started? && p.child.pid.Some? && !p.life.exited && !p.life.closed
    requires p.promise == Pending && p.stdoutChunks == []
    ensures Enabled(p, Exit(Some(0), None))
    ensures var q := Step(p, Exit(Some(0), None));
      && q.stdoutChunks == []
      && if p.child.options.waitForStreams then q.promise == Pending
         else q.promise.Resolved? && q.promise.result.exitCode == 0 && q.promise.result.stdout == ""
  {
  }

  lemma FailedRunOwes(options: RunOptions)
    ensures var g := [Run(options, SpawnThrew)]; Legal(g) && Exec(g) == New().(owed := 1)
  {
    assert Legal([]) && Exec([]) == New();
    ExecStep([], Run(options, SpawnThrew));
    assert [] + [Run(options, SpawnThrew)] == [Run(options, SpawnThrew)];
  }

  /** A whole history of that kind, up to the exit of the child: the first `run` fails to spawn, the
      second one spawns, and the clean-up of the first one runs.  A second run that does not wait for its
      streams resolves without the text its child wrote; one that does is still pending without it. */
  lemma FailedRunLosesOutput(first: RunOptions, options: RunOptions, pid: int, text: string)
    requires options.collect
    ensures var run := Run(options, Spawned(Some(pid)));
      var h := [Run(first, SpawnThrew)] + [run] + [StrayCleanup] + [Stdout(text)] + [Exit(Some(0), None)];
      && Legal(h) && StdoutOf(h) == [text] && Exec(h).stdoutChunks == []
      && if options.waitForStreams then Exec(h).promise == Pending
         else
           && Exec(h).promise.Resolved?
           && Exec(h).promise.result.exitCode == 0 && Exec(h).promise.result.stdout == ""
  {
    var g, run := [Run(first, SpawnThrew)], Run(options, Spawned(Some(pid)));
    FailedRunOwes(first);
    StrayCleanupLosesText(g, run, text);
    StrayChildLives(g, run, text);
    var h := g + [run] + [StrayCleanup] + [Stdout(text)];
    StdoutStep(h, Exit(Some(0), None));
    ExitState(Exec(h));
    hide Exec, Legal, Step, Enabled, StdoutOf;
    ExecStep(h, Exit(Some(0), None));
  }

  lemma StrayChildLives(g: seq<Event>, run: Event, text: string)
    requires Legal(g) && Spawning(Exec(g), run) && Exec(g).owed > 0 && run.options.collect
    ensures var h := g + [run] + [StrayCleanup] + [Stdout(text)];
      && Legal(h) && Exec(h).child == Started(run.spawn.pid, run.options)
      && Exec(h).life == Life(false, false, false, false)
  {
    ReachableOk(g);
    StrayCleanupState(Exec(g), run, text);
    assert Exec(g).life == Life(false, false, false, false);
    hide Exec, Legal, KillsOk, Tidy, StdoutOf;
    ExecStep(g, run);
    ExecStep(g + [run], StrayCleanup);
    ExecStep(g + [run] + [StrayCleanup], Stdout(text));
  }

  /** So a `run` that spawns is sure to collect everything delivered while it is pending, whatever comes,
      if and only if no earlier `run` owes a clean-up at that moment. */
  lemma CollectsAllIff(g: seq<Event>, run: Event)
    requires Legal(g) && Spawning(Exec(g), run) && run.options.collect
    ensures (forall k: seq<Event> :: HasAllText(g + [run] + k)) <==> Exec(g).owed == 0
  {
    if Exec(g).owed == 0 {
      forall k: seq<Event> ensures HasAllText(g + [run] + k) {
        CollectsAll(g, run, k);
      }
    } else {
      StrayCleanupLosesText(g, run, "");
      var k := [StrayCleanup, Stdout("")];
      assert g + [run] + k == g + [run] + [StrayCleanup] + [Stdout("")];
      assert !HasAllText(g + [run] + k);
    }
  }

  lemma CollectsAll(g: seq<Event>, run: Event, k: seq<Event>)
    requires Legal(g) && Spawning(Exec(g), run) && run.options.collect && Exec(g).owed == 0
    ensures HasAllText(g + [run] + k)
  {
    var h, n := g + [run] + k, |g| + 1;
    if Legal(h) && Exec(h).promise == Pending {
      assert h[..n] == g + [run] && (g + [run])[..|g|] == g;
      ExecStep(g, run);
      NoSpawnIsClean(g);
      assert Exec(g + [run]).child == Started(run.spawn.pid, run.options);
      assert CleanSpawn(g + [run]) by {
        hide Step, Enabled;
      }
      hide Step, Enabled, Exec, Legal, CleanSpawn;
      StaysClean(h, n);
      NothingLost(h);
    }
  }
}

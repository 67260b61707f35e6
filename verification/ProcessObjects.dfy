/**
  The objects themselves: `ChildProcess` and `ChildProcessTracker` of
  core/aws-lsp-core/src/util/processUtils.ts, with their fields updated in place.  Each method is
  proved against the step functions of `ChildProcesses`, and keeps the tracker valid.
 */
module ProcessObjects {
  import opened Wrappers
  import P = ChildProcesses
  import S = PollingSets
  import Supervision
  import W = WaitUntil

  class ChildProcess {
    const tracker: ChildProcessTracker
    var childProcess: P.Child
    var processErrors: seq<string>
    var stdoutChunks: seq<string>
    var stderrChunks: seq<string>
    var processResult: Option<P.Result>
    // Held for the object by the host: the promise of `run`, the stream listeners, the clean-ups that
    // failed runs owe, the signals sent and the pending waits of `stop`, and what Node has delivered for the child.
    var promise: P.Promise
    var listening: bool
    var owed: nat
    var stopping: P.Stopping
    var life: P.Life

    ghost function View(): P.Proc
      reads this
    {
      P.Proc(childProcess, processErrors, stdoutChunks, stderrChunks, processResult,
             promise, listening, owed, stopping, life)
    }

    constructor (tracker: ChildProcessTracker)
      ensures View() == P.New() && this.tracker == tracker
    {
      this.tracker := tracker;
      childProcess, processErrors, stdoutChunks, stderrChunks := P.NotStarted, [], [], [];
      processResult, promise, listening, owed := None, P.Pending, true, 0;
      stopping, life := P.Stopping([], 0, map[]), P.Life(false, false, false, false);
    }

    predicate Stopped()
      reads this
      ensures Stopped() == P.Stopped(View())
    {
      childProcess.Started? && processResult.Some?
    }

    function MakeResult(code: Option<int>, signal: Option<string>): (r: P.Result)
      reads this
      ensures r == P.MakeResult(View(), code, signal)
    {
      P.Result(if code.Some? then code.value else -1,
               P.Text.Trim(P.Text.Join(stdoutChunks)), P.Text.Trim(P.Text.Join(stderrChunks)),
               if processErrors == [] then None else Some(processErrors[0]), signal)
    }

    method Settle(outcome: P.Promise)
      modifies this`promise
      ensures View() == P.Settle(old(View()), outcome)
    {
      if promise == P.Pending {
        promise := outcome;
      }
    }

    /** Reports whether it threw because the process had already been killed. */
    method Stop(force: bool, signal: Option<string>, took: real) returns (threw: bool)
      modifies this`stopping
      ensures View() == P.Stop(old(View()), force, signal, took)
      ensures threw <==> old(childProcess.Started? && processResult.Some? && !life.stdinDestroyed)
    {
      threw := false;
      if childProcess.NotStarted? || life.stdinDestroyed {
        return;
      }
      if Stopped() {
        threw := true;
        return;
      }
      var call := stopping.calls;
      stopping := stopping.(kills := stopping.kills + [P.Polite(call, signal)], calls := call + 1);
      if force {
        Probe(call, W.Start(P.StopWait()), took);
      }
    }

    /** One probe of the forced stop's wait, and the verdict on it. */
    method Probe(call: nat, s: W.Loop<string>, took: real)
      modifies this`stopping
      ensures View() == old(View()).(stopping := P.ProbeOnce(old(stopping), old(Stopped()), call, s, took))
    {
      var next := W.Iterate(P.StopWait(), s, W.Raced(W.Value(Some(Stopped())), took));
      if next.Continue? {
        stopping := stopping.(waits := stopping.waits[call := next.state]);
      } else {
        stopping := stopping.(waits := stopping.waits - {call});
        if next.outcome != W.Returned(Some(true)) {
          stopping := stopping.(kills := stopping.kills + [P.SigKill(call)]);
        }
      }
    }

    method OnStdout(text: string)
      requires P.Enabled(View(), P.Stdout(text))
      modifies this`stdoutChunks
      ensures View() == P.Step(old(View()), P.Stdout(text))
    {
      if listening && childProcess.options.collect {
        stdoutChunks := stdoutChunks + [text];
      }
    }

    method HandleError(error: string, took: real)
      requires childProcess.Started?
      modifies this`processErrors, this`stopping, this`promise
      ensures View() == P.HandleError(old(View()), error, took)
    {
      hide P.SendStop, P.ProbeOnce;
      var options := childProcess.options;
      processErrors := processErrors + [error];
      if !Stopped() {
        var threw := Stop(options.useForceStop, None, took);
        assert !threw;
      }
      if !options.rejectOnError.Off? {
        Settle(P.Rejected(P.ByError(error, options.rejectOnError.Mapped?)));
      }
    }

    /** `run`: spawn at most one child, and track it if it got a pid. */
    method Run(options: P.RunOptions, spawn: P.Spawn) returns (alreadyStarted: bool)
      requires P.Tidy(View()) && tracker.Valid()
      requires spawn.Spawned? && spawn.pid.Some? ==> spawn.pid.value !in tracker.processByPid
      modifies this`childProcess, this`owed, tracker, tracker.pids
      ensures alreadyStarted == old(childProcess.Started?)
      ensures View() == P.Step(old(View()), P.Run(options, spawn))
      ensures tracker.processByPid ==
        if Supervision.Spawns(old(View()), P.Run(options, spawn))
        then old(tracker.processByPid)[spawn.pid.value := this] else old(tracker.processByPid)
      ensures tracker.Valid()
    {
      alreadyStarted := childProcess.Started?;
      if alreadyStarted {
        return;
      }
      if spawn.SpawnThrew? {
        owed := owed + 1;
        return;
      }
      childProcess := P.Started(spawn.pid, options);
      if spawn.pid.Some? {
        tracker.Add(this, spawn.pid.value);
      }
    }

    /** No other tracked process has this process's pid. */
    ghost predicate OwnsPid()
      reads this, tracker
    {
      forall pid | pid in tracker.processByPid && Supervision.Running(View(), pid) :: tracker.processByPid[pid] == this
    }

    /** The `dispose` listener, which runs before the others. */
    method Dispose()
      requires tracker.Valid()
      modifies tracker, tracker.pids
      ensures tracker.Valid()
      ensures tracker.processByPid ==
        if childProcess.Started? && childProcess.pid.Some?
        then old(tracker.processByPid) - {childProcess.pid.value} else old(tracker.processByPid)
    {
      if childProcess.Started? && childProcess.pid.Some? {
        tracker.Delete(childProcess.pid.value);
      }
    }

    method HandleExit(code: Option<int>, signal: Option<string>)
      requires childProcess.Started?
      modifies this`processResult, this`life, this`promise
      ensures View() == P.HandleExit(old(View()), code, signal)
    {
      hide P.MakeResult;
      var options := childProcess.options;
      var result := MakeResult(code, signal);
      processResult, life := Some(result), life.(exited := true);
      if code.Some? && code.value != 0 && !options.rejectOnErrorCode.Off? {
        Settle(P.Rejected(P.ByExitCode(code.value, options.rejectOnErrorCode.Mapped?)));
      }
      if !options.waitForStreams {
        Settle(P.Resolved(result));
      }
    }

    method OnExit(code: Option<int>, signal: Option<string>)
      requires P.Enabled(View(), P.Exit(code, signal)) && tracker.Valid() && OwnsPid()
      modifies this, tracker, tracker.pids
      ensures View() == P.Step(old(View()), P.Exit(code, signal))
      ensures tracker.processByPid == old(tracker.processByPid) - {childProcess.pid.value}
      ensures tracker.Valid()
    {
      hide P.MakeResult, P.HandleExit, P.Stop, P.HandleError, P.ProbeOnce, P.Tidy;
      Dispose();
      HandleExit(code, signal);
    }

    method OnClose(code: Option<int>, signal: Option<string>)
      requires P.Enabled(View(), P.Close(code, signal)) && tracker.Valid() && OwnsPid()
      modifies this
      ensures View() == P.Step(old(View()), P.Close(code, signal))
      ensures tracker.processByPid == old(tracker.processByPid) && tracker.Valid()
    {
      var result := MakeResult(code, signal);
      processResult, life := Some(result), life.(closed := true);
      Settle(P.Resolved(result));
    }

    method OnProcessError(error: string, took: real)
      requires P.Enabled(View(), P.ProcessError(error, took)) && tracker.Valid() && OwnsPid()
      modifies this, tracker, tracker.pids
      ensures View() == P.Step(old(View()), P.ProcessError(error, took))
      ensures tracker.processByPid ==
        if childProcess.pid.Some? then old(tracker.processByPid) - {childProcess.pid.value}
        else old(tracker.processByPid)
      ensures tracker.Valid()
    {
      hide P.HandleError, P.Tidy, P.MakeResult;
      Dispose();
      life := life.(failed := true);
      HandleError(error, took);
    }
  }

  class ChildProcessTracker {
    var processByPid: map<int, ChildProcess>
    const pids: S.PollingSet<int>

    /** The two collections agree, and every tracked process is running and not stopped. */
    ghost predicate Valid()
      reads this, pids, processByPid.Values
    {
      && S.Valid(pids.View())
      && pids.items == processByPid.Keys
      && forall pid | pid in processByPid :: Tracked(processByPid[pid], pid)
    }

    ghost predicate Tracked(p: ChildProcess, pid: int)
      reads p
    {
      p.tracker == this && P.Tidy(p.View()) && Supervision.Running(p.View(), pid) && !p.life.failed
    }

    constructor ()
      ensures Valid() && processByPid == map[] && fresh(pids)
    {
      processByPid := map[];
      pids := new S.PollingSet<int>();
    }

    method Add(p: ChildProcess, pid: int)
      requires Valid() && Tracked(p, pid)
      modifies this, pids
      ensures Valid() && processByPid == old(processByPid)[pid := p]
    {
      processByPid := processByPid[pid := p];
      pids.Add(pid);
    }

    method Delete(pid: int)
      requires Valid()
      modifies this, pids
      ensures Valid() && processByPid == old(processByPid) - {pid}
    {
      processByPid := processByPid - {pid};
      pids.Delete(pid);
    }

    /** `order` is the iteration order of a collection with these keys. */
    static ghost predicate IsOrder(order: seq<int>, keys: set<int>) {
      && (forall i | 0 <= i < |order| :: order[i] in keys)
      && (forall pid | pid in keys :: pid in order)
      && (forall i, j | 0 <= i < j < |order| :: order[i] != order[j])
    }

    static ghost function ToSet(order: seq<int>): set<int> {
      set pid | pid in order
    }

    static lemma RemoveOneMore(all: map<int, ChildProcess>, order: seq<int>, i: nat)
      requires i < |order|
      ensures all - ToSet(order[..i]) - {order[i]} == all - ToSet(order[..i + 1])
    {
      assert order[..i + 1] == order[..i] + [order[i]];
      assert ToSet(order[..i + 1]) == ToSet(order[..i]) + {order[i]};
    }

    method DeleteAll(gone: seq<int>)
      requires Valid()
      modifies this, pids
      ensures Valid() && processByPid == old(processByPid) - ToSet(gone)
      ensures gone == [] ==> pids.View() == old(pids.View())
    {
      assert ToSet(gone[..0]) == {};
      hide ToSet, S.Valid, P.Tidy, Supervision.Running;
      for i := 0 to |gone|
        invariant Valid() && processByPid == old(processByPid) - ToSet(gone[..i])
        invariant i == 0 ==> pids.View() == old(pids.View())
      {
        RemoveOneMore(old(processByPid), gone, i);
        Delete(gone[i]);
      }
      assert gone[..|gone|] == gone;
    }

    /** `cleanUp`: there is never anything for it to delete. */
    method CleanUp(order: seq<int>) returns (terminated: seq<int>)
      requires Valid() && IsOrder(order, pids.items)
      modifies this, pids
      ensures terminated == [] && Valid()
      ensures processByPid == old(processByPid) && pids.View() == old(pids.View())
    {
      terminated := [];
      for i := 0 to |order|
        invariant terminated == []
      {
        var pid := order[i];
        assert Tracked(processByPid[pid], pid);
        terminated := if processByPid[pid].Stopped() then terminated + [pid] else terminated;
      }
      DeleteAll(terminated);
    }

    /** `clear`: every tracked process is stopped by force, none of the calls throws. */
    method Clear(order: seq<int>, took: real)
      requires Valid() && IsOrder(order, processByPid.Keys) && took >= 0.0
      modifies this, pids, processByPid.Values
      ensures Valid() && processByPid == map[] && pids.View() == S.Perform(old(pids.View()), S.Clear)
      ensures forall pid | pid in old(processByPid) ::
        old(processByPid)[pid].View() == P.Stop(old(processByPid[pid].View()), true, None, took)
    {
      StopAll(order, took);
      pids.Clear();
      processByPid := map[];
    }

    /** No object is tracked twice, and `stop` does not throw on any. */
    lemma TrackedFacts(order: seq<int>)
      requires Valid() && IsOrder(order, processByPid.Keys)
      ensures forall i | 0 <= i < |order| :: !P.StopThrows(processByPid[order[i]].View())
      ensures forall i, j | 0 <= i < j < |order| :: processByPid[order[i]] != processByPid[order[j]]
    {
      forall i | 0 <= i < |order| ensures Tracked(processByPid[order[i]], order[i]) {
      }
    }

    method StopAll(order: seq<int>, took: real)
      requires Valid() && IsOrder(order, processByPid.Keys) && took >= 0.0
      modifies processByPid.Values
      ensures forall pid | pid in processByPid ::
        processByPid[pid].View() == P.Stop(old(processByPid[pid].View()), true, None, took)
    {
      TrackedFacts(order);
      hide P.Stop, P.StopThrows;
      for i := 0 to |order|
        invariant forall j | 0 <= j < i ::
          processByPid[order[j]].View() == P.Stop(old(processByPid[order[j]].View()), true, None, took)
        invariant forall j | i <= j < |order| :: processByPid[order[j]].View() == old(processByPid[order[j]].View())
      {
        var threw := processByPid[order[i]].Stop(true, None, took);
        assert !threw;
      }
    }
  }
}

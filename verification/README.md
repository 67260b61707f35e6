# Language-server support code, modelled and proved in Dafny

The repository is a monorepo of AWS language servers and clients. This project models the parts of it
that keep state over time or compute by loops, and proves what their callers rely on:

- **Child processes** (`ChildProcess.dfy`, `Supervision.dfy`, `ProcessObjects.dfy`, `PollingSet.dfy`):
  `ChildProcess`, `ChildProcessTracker` and `PollingSet` as one event-driven system. A process is a
  state machine over calls and over the events Node delivers. All processes together with the tracker
  form a second state machine, whose runs are every interleaving. The objects themselves are classes
  with the source's fields, proved against the step functions.
- **Waiting** (`WaitUntil.dfy`, `RealSeries.dfy`): `waitUntil` over a scripted callee, with real-valued
  times. `stop(true)` uses the same iteration function.
- **SSO** (`SsoConnections.dfy`, `DevicePolling.dfy`): the token provider's two caches under the
  per-connection single flight, cut at every await, and the device-code polling loop.
- **Host and webview** (`MessageRouter.dfy`): the request protocol with ids, timeouts, lost messages and
  late replies.
- **Structure** (`PartialClone.dfy`, `Paths.dfy`, `FileDistance.dfy`): the depth-limited clone, path
  containment, and the distance between files.
- **Smaller loops** (`UriResolver.dfy`, `Retry.dfy`, `LineReader.dfy`).

Run `dafny verify dfyconfig.toml` to check everything.

## Reading the model

- Node's contract, the only assumption about processes: 'exit' comes at most once and only for a child
  with a pid; 'close' at most once and only after 'exit' or a process 'error'; a process 'error' at any
  time, also after both; a new pid differs from the pids of the children that are still running.
  A 'close' after a clean-up is admitted too, although removing the stream listeners may suppress it; no
  history given as an example relies on one.
- Calls that a stream callback makes on its context are the events that follow the chunk.
- A promise is a field that only the first `resolve` or `reject` changes. Time, replies, spawn results,
  UI behaviour and the order in which a JavaScript map iterates are parameters.
- A `char` stands for one UTF-16 code unit. Lower-casing and Node's `path.normalize` are parameters.
- Numbers are unbounded integers, or reals where the source multiplies intervals.

Where the code and its own words disagree, the model follows the code, and a lemma says exactly when
the words are right:

- `waitUntil` says it never overruns its timeout. It can, by up to the timeout itself, exactly when it can
  sleep at all (`CanOverrunIff`), because `remaining` is never reduced by the time slept.
- `waitUntil` need not end for a multiplier below one; `EndsForEveryCalleeIff` has the condition.
- `isInDirectory` promises that identical paths contain each other; a trailing slash on the directory
  breaks that (`TrailingSlashExcludesSelf`), and the empty path breaks chaining (`ChainsThroughIff`).
- `UriResolverBuilder` promises insertion order; only every other `build` keeps it (`InsertionOrderIff`,
  `BuildsTakeTurns`).
- The "exponential" backoff of `retryWithBackoff` is linear per attempt (`DelaysClosedForm`).
- `truncate` says it cuts a string that "has or exceeds" the limit; the code cuts only longer ones
  (`TruncateUnchangedIff`).
- `normalizeSeparator` says it keeps the double slash of UNC paths; white space in front, which
  `isUncPath` allows, breaks that (`UncSurvivesIff`).
- A `PollingSet` action that throws keeps a cleared set polling (`ThrowingTicksKeepTimerIff`).
- `runFlow` never checks a registration's expiry. `StaleRegistrationIff` says when an expired one is used,
  `NoTokenIffLoginFailed` when a connection is in that state, and `StaleRegistrationUsed` is such a run.
- `waitUntil` says that with retryOnFail it throws the last error at the timeout; a last call that does not
  answer in time makes it return `undefined` instead (`RetryReturnsUndefinedIff`).
- `stopped` says that an error that prevented the start counts as ended; it does not (`StoppedIffEnded`).
- `isInDirectory` says it tests for descendants; the root directory contains every path with a separator
  in it (`RootContainsIff`).
- A `run` whose spawn threw cleans up later, and by then there may be the child of another `run`, whose
  output is lost (`CollectsAllIff`). A process error after the end untracks whatever process has the pid by
  then, and that process stays untracked (`HitLosesAnother`, `TrackedIffRunning`).

## Model

| member | source | states |
|---|---|---|
| `WaitUntil.WaitUntil` | core/aws-lsp-core/src/util/timeoutUtils.ts:64-138 | the loop, for all options and callees, watched for any number of calls: if it settles, every call but the last was made and retried and the last alone decides the outcome, which is never a throw of `undefined`; otherwise the next call is due or hangs; for intervals and multipliers that are not negative, slept plus call time is below twice a positive timeout and below the timeout up to the last sleep, and the wait is over once that many sleeps add up to the timeout |
| `WaitUntil.Turn` | core/aws-lsp-core/src/util/timeoutUtils.ts:95-136 | the loop body with its variables updated in place, branch by branch, is the iteration function that the run lemmas are about |
| `WaitUntil.StateBeforeCall` | core/aws-lsp-core/src/util/timeoutUtils.ts:119-136 | in every state the loop can reach, `interval` and `elapsed` are the n-th sleep and the sum of the first n, and whenever it goes round again time slept was below the time that calls had left |
| `WaitUntil.LastErrorBeforeCall` | core/aws-lsp-core/src/util/timeoutUtils.ts:81-117 | without retryOnFail `lastError` is unset in every reachable state, with it it is set after the first round, and `shouldRetry(lastError)` always answers like `shouldRetry(undefined)` |
| `WaitUntil.VerdictOfIteration` | core/aws-lsp-core/src/util/timeoutUtils.ts:95-128 | an iteration goes on only after a retried attempt and otherwise ends with the verdict on that attempt, never with an undefined error |
| `WaitUntil.EarlierCallRetried` | core/aws-lsp-core/src/util/timeoutUtils.ts:91-117 | in every run all calls before the current one were made and retried: unacceptable values in plain mode, retryable errors otherwise |
| `WaitUntil.SeenOfCall` | core/aws-lsp-core/src/util/timeoutUtils.ts:95-101 | what the loop sees of call n: the call itself if the timeout less the time of the earlier calls is used up or the call settles within it, `undefined` after that time otherwise |
| `WaitUntil.RetryGoesOnIff` | core/aws-lsp-core/src/util/timeoutUtils.ts:81-128 | with retryOnFail as a callback, or `true`: the loop comes to call n+1 if and only if call n was made and threw an error that the callback accepts and sleeps plus call time up to the next call are below the timeout; an error it refuses ends the wait with that error |
| `WaitUntil.RetryOutcome` | core/aws-lsp-core/src/util/timeoutUtils.ts:95-128 | in those modes the wait ends with the last call's value, whatever it is, or with what it threw |
| `WaitUntil.PlainGoesOnIff` | core/aws-lsp-core/src/util/timeoutUtils.ts:81-128 | without retryOnFail the loop comes to call n+1 if and only if call n answered `undefined`, or something falsy where `truthy` is set, and the next sleep fits |
| `WaitUntil.PlainOutcome` | core/aws-lsp-core/src/util/timeoutUtils.ts:95-128 | in that mode such a value ends in `undefined`, any other value is returned, and a throw ends the wait |
| `WaitUntil.TotalBelowTwice` | core/aws-lsp-core/src/util/timeoutUtils.ts:91-137 | for every callee: slept plus call time stays below the timeout at each sleep and below twice the timeout overall |
| `WaitUntil.BusyBeforeCall` | core/aws-lsp-core/src/util/timeoutUtils.ts:119-120 | `remaining` is the timeout minus the time spent in calls, with no sleep subtracted |
| `WaitUntil.AnswerTakenIff` | core/aws-lsp-core/src/util/timeoutUtils.ts:95-105 | without retryOnFail, in every reachable state: a call's value ends the wait if and only if it comes within the timeout minus the time of the earlier calls, the last millisecond included, and is truthy where `truthy` is set |
| `WaitUntil.RetryReturnsUndefinedIff` | core/aws-lsp-core/src/util/timeoutUtils.ts:97-128 | with retryOnFail the wait returns `undefined` if and only if its last call answered `undefined` or, being raced, had not answered within the timeout less the time of the earlier calls |
| `WaitUntil.SleepsAreGeometric` | core/aws-lsp-core/src/util/timeoutUtils.ts:135-136 | n sleeps add up to interval * (backoff^n - 1) / (backoff - 1) |
| `WaitUntil.GeometricCallBound` | core/aws-lsp-core/src/util/timeoutUtils.ts:122-136 | for any multiplier above 1, after n sleeps that geometric sum is below the timeout |
| `WaitUntil.EndsForEveryCalleeIff` | core/aws-lsp-core/src/util/timeoutUtils.ts:91-137 | the wait ends against every callee if and only if the sleeps can add up to the timeout: interval at least the timeout, or a non-shrinking positive interval, or a shrinking one whose infinite sum exceeds the timeout |
| `WaitUntil.CanOverrunIff` | core/aws-lsp-core/src/util/timeoutUtils.ts:98-120 | some callee makes the wait overrun its timeout if and only if 0 < interval < timeout, and then by interval plus timeout in total |
| `PollingSets.RunIsValid` | core/aws-lsp-core/src/util/pollingSet.ts:10-52 | after any sequence of calls and ticks, with any re-entrant or throwing action: at most one interval runs, it is the one in `pollTimer`, and a non-empty set has one |
| `PollingSets.TickSettlesTimer` | core/aws-lsp-core/src/util/pollingSet.ts:35-40 | after every tick whose action returned, the timer runs exactly when the set has members |
| `PollingSets.ClearLeavesTimerIff` | core/aws-lsp-core/src/util/pollingSet.ts:28-51 | in every reachable state `clear()` leaves the timer running exactly when the set was non-empty, and the next tick ends it unless its action fills the set |
| `PollingSets.ThrowingTicksKeepTimerIff` | core/aws-lsp-core/src/util/pollingSet.ts:35-51 | in every reachable state with an interval, and for any ticks whose actions make any calls and then throw: the interval survives them if and only if none of those calls was `clear()` or `clearTimer()` on the empty set |
| `PollingSets.PollingSet.constructor` | core/aws-lsp-core/src/util/pollingSet.ts:13-18 | a new set is empty and runs no interval |
| `PollingSets.PollingSet.ClearTimer` | core/aws-lsp-core/src/util/pollingSet.ts:28-33 | in place: stops the interval only if the set is empty |
| `PollingSets.PollingSet.Add` | core/aws-lsp-core/src/util/pollingSet.ts:42-46 | in place: adds the member and starts an interval only if none is set |
| `PollingSets.PollingSet.Delete` | core/aws-lsp-core/src/util/pollingSet.ts:10 | in place: the inherited delete leaves the timer alone |
| `PollingSets.PollingSet.Clear` | core/aws-lsp-core/src/util/pollingSet.ts:48-51 | in place: the timer is looked at before the set is emptied |
| `PollingSets.PollingSet.Poll` | core/aws-lsp-core/src/util/pollingSet.ts:35-40 | a firing with an action that calls back into the set, and returns or throws, equals the tick of the state machine and keeps the set valid |
| `ChildProcesses.RunSettlesWithFirstVerdict` | core/aws-lsp-core/src/util/processUtils.ts:303-395 | for every event order, `run` is pending until the first event with a verdict and settled by it for good: a rejection by `rejectOnError` or `rejectOnErrorCode`, the exit result if streams are not awaited, otherwise the close result, whose text is the trimmed concatenation of all chunks delivered before any clean-up hit the child and whose error is the first reported |
| `ChildProcesses.EventSettlesRun` | core/aws-lsp-core/src/util/processUtils.ts:303-395 | the same event by event: which errors, exits and closes settle a pending `run` under which options, and with what: the code or -1, the signal, the collected text without the white space at its ends, the first recorded error; every other event leaves it pending |
| `ChildProcesses.ReportedError` | core/aws-lsp-core/src/util/processUtils.ts:304-305 | the first recorded error is that of the first error event of the history |
| `ChildProcesses.ChildIsFirstSpawn` | core/aws-lsp-core/src/util/processUtils.ts:279-332 | the child and its options are those of the first `run` whose spawn did not throw, whatever follows |
| `Text.TrimTrims` | core/aws-lsp-core/src/util/processUtils.ts:239-240 | trimming cuts white space off both ends, all of it, and nothing else |
| `Text.TrimmedIsUnique` | core/aws-lsp-core/src/util/processUtils.ts:239-240 | only one string fits that description |
| `ChildProcesses.HistoryOnRecord` | core/aws-lsp-core/src/util/processUtils.ts:347-365 | in every history the recorded errors are those delivered, and the collected chunks are those delivered before a clean-up, in order; there are listeners exactly until then |
| `ChildProcesses.NothingLost` | core/aws-lsp-core/src/util/processUtils.ts:298-365 | while `run` is pending the collected chunks are all that were delivered, if no earlier `run` whose spawn threw still owed its clean-up at the spawn |
| `ChildProcesses.CleanRunReportsAllText` | core/aws-lsp-core/src/util/processUtils.ts:369-372 | such a run, settled by its 'close', resolves with all the text delivered before it on either stream, less the white space at its ends |
| `ChildProcesses.StrayCleanupLosesText` | core/aws-lsp-core/src/util/processUtils.ts:298-335 | from any history with a clean-up owed at the spawn: that clean-up and then a chunk, and the pending run has lost the chunk |
| `ChildProcesses.FailedRunLosesOutput` | core/aws-lsp-core/src/util/processUtils.ts:279-395 | for all options and text: a `run` whose spawn throws, a second one that spawns, the clean-up of the first, the text and 'exit' is a history in which the second run has lost the text, and has resolved with code 0 without it if it does not wait for its streams, and is still pending if it does |
| `ChildProcesses.CollectsAllIff` | core/aws-lsp-core/src/util/processUtils.ts:279-395 | a run that spawns keeps all its text in every continuation if and only if no clean-up is owed at that moment |
| `ChildProcesses.RecordedResult` | core/aws-lsp-core/src/util/processUtils.ts:236-244 | the result made at an exit or close is determined by the delivered history: exit code or -1, trimmed text, first error, signal |
| `ChildProcesses.ExitTextIsPrefix` | core/aws-lsp-core/src/util/processUtils.ts:347-394 | over every history, the text collected on either stream at any earlier point is a prefix of the text collected later |
| `ChildProcesses.OneWay` | core/aws-lsp-core/src/util/processUtils.ts:279-301 | over every history: one child at most is ever spawned however often `run` is called, nothing is collected after the clean-up, and no `stop` call gets through once stdin is destroyed |
| `ChildProcesses.CutOff` | core/aws-lsp-core/src/util/processUtils.ts:298-434 | from a clean-up that hits the child on, its own or a stray one, the collected chunks are those of before it, to the end of every history; from the destruction of stdin on, no `stop` call gets through and none throws |
| `ChildProcesses.ReachableOk` | core/aws-lsp-core/src/util/processUtils.ts:369-454 | in every reachable state a process has a result exactly when 'exit' or 'close' was delivered, and every stop call has sent at most one SIGKILL and none while it waits |
| `ChildProcesses.StoppedIffEnded` | core/aws-lsp-core/src/util/processUtils.ts:493-508 | over every history, `stopped` is true if and only if 'exit' or 'close' was delivered; an error that prevented the start does not make it true |
| `ChildProcesses.StoppedStays` | core/aws-lsp-core/src/util/processUtils.ts:430-454 | once stopped, always stopped, and no further signal is sent |
| `ChildProcesses.SigKillOnlyWhileRunning` | core/aws-lsp-core/src/util/processUtils.ts:437-450 | every SIGKILL in a history was sent at a point up to which no state had the process stopped, so no probe saw it stopped and neither 'exit' nor 'close' had been delivered |
| `ChildProcesses.ProbesBounded` | core/aws-lsp-core/src/util/processUtils.ts:440-446 | a forced stop probes at most 15 times over its whole life |
| `ChildProcesses.WaitEndsInKillOrStop` | core/aws-lsp-core/src/util/processUtils.ts:441-446 | a waiting stop call ends only by a probe, and it kills if and only if that probe found the process running |
| `ChildProcesses.ForcedStopSent` | core/aws-lsp-core/src/util/processUtils.ts:430-446 | a forced stop that gets through sends its polite signal first and then waits or kills |
| `ChildProcesses.StopCallSends` | core/aws-lsp-core/src/util/processUtils.ts:430-454 | in every reachable state a `stop` call does nothing for a process that is not started, has a result or has its stdin destroyed; otherwise its signal is sent once, and it waits or kills if and only if it was forced |
| `ChildProcesses.StopThrowsIff` | core/aws-lsp-core/src/util/processUtils.ts:432-453 | over every history, `stop` throws if and only if 'exit' or 'close' was delivered and stdin was not destroyed |
| `ChildProcesses.FifteenthProbeKills` | core/aws-lsp-core/src/util/processUtils.ts:440-446 | the bound is attained: from any history with a running process, prompt probes 200 ms apart find a forced stop waiting up to the 14th, and the 15th sends the SIGKILL |
| `ChildProcesses.ErrorStopsProcess` | core/aws-lsp-core/src/util/processUtils.ts:304-308 | in every reachable state a reported error sends exactly one more stop, with the default signal, unless the process is stopped or its stdin destroyed, and waits or kills if and only if `useForceStop` is set |
| `Supervision.ReachableInv` | core/aws-lsp-core/src/util/processUtils.ts:79-163 | in every state of every run, with late errors and reused pids: pid set and map agree and the timer is right, what is tracked is running and was not let go, and no two running children share a pid |
| `Supervision.TrackedIffRunning` | core/aws-lsp-core/src/util/processUtils.ts:102-163 | in every state of every run the pid set is the key set of the map; a process is tracked, under its own pid, if and only if it is running, had no process error, was not let go by `clear()` and was not lost to an event of another process; tracked processes are not stopped; `clear()` cannot throw and `cleanUp()` finds nothing |
| `Supervision.ReachableComplete` | core/aws-lsp-core/src/util/processUtils.ts:138-169 | in every run the only processes missing from the tracker are the lost ones, and none of them is tracked again |
| `Supervision.UndisturbedIff` | core/aws-lsp-core/src/util/processUtils.ts:456-469 | over whole runs, nothing is ever missing if and only if no event untracks another process, if and only if no process is lost |
| `Supervision.StepKeepsCompleteIff` | core/aws-lsp-core/src/util/processUtils.ts:456-469 | a single step from a state in which nothing is missing leaves such a state if and only if it does not untrack another process |
| `Supervision.HitsOnlyByLateError` | core/aws-lsp-core/src/util/processUtils.ts:463-468 | from any state with the invariant of all runs, only an 'error' after 'exit' or 'close' can do that |
| `Supervision.HitLosesAnother` | core/aws-lsp-core/src/util/processUtils.ts:463-468 | it leaves a running process, neither failed nor let go, untracked |
| `Supervision.NeverReusedIsUndisturbed` | core/aws-lsp-core/src/util/processUtils.ts:456-469 | no run without pid reuse has such an event, however late its errors are |
| `Supervision.PidReuseLosesAnother` | core/aws-lsp-core/src/util/processUtils.ts:456-469 | for every pid and options a run in which the pid is reused, a late 'error' follows, and the tracker loses the second child |
| `Supervision.ClearNeverThrows` | core/aws-lsp-core/src/util/processUtils.ts:157-163 | under the invariant of all runs no tracked process makes `stop` throw "already been killed" |
| `Supervision.CleanUpFindsNothing` | core/aws-lsp-core/src/util/processUtils.ts:102-109 | under the invariant of all runs no tracked process is terminated |
| `Supervision.ClearStopsExactlyTheTracked` | core/aws-lsp-core/src/util/processUtils.ts:157-163 | from every reachable state `clear()` sends a forced stop to each tracked process whose stdin is not destroyed, touches no other process, and leaves an empty tracker whose timer still runs if it had members |
| `Supervision.PollKeepsInv` | core/aws-lsp-core/src/util/processUtils.ts:111-116 | under the invariant of all runs a poll changes nothing but the timer of an empty tracker |
| `ProcessObjects.ChildProcess.constructor` | core/aws-lsp-core/src/util/processUtils.ts:246-253 | a new object is the initial state of the process machine |
| `ProcessObjects.ChildProcess.Stop` | core/aws-lsp-core/src/util/processUtils.ts:430-454 | in place, only the stopping record changes, as the machine says; reports a throw exactly for a stopped process whose stdin is not destroyed |
| `ProcessObjects.ChildProcess.Probe` | core/aws-lsp-core/src/util/processUtils.ts:441-446 | in place: one probe and its verdict |
| `ProcessObjects.ChildProcess.OnStdout` | core/aws-lsp-core/src/util/processUtils.ts:347-355 | in place: the chunk step |
| `ProcessObjects.ChildProcess.HandleError` | core/aws-lsp-core/src/util/processUtils.ts:304-316 | in place: the error step; its `stop` never throws |
| `ProcessObjects.ChildProcess.Run` | core/aws-lsp-core/src/util/processUtils.ts:279-335 | in place: spawns only if there is no child, owes a clean-up if the spawn threw, tracks the child exactly if it got a pid, and keeps the tracker valid |
| `ProcessObjects.ChildProcess.Dispose` | core/aws-lsp-core/src/util/processUtils.ts:463-465 | in place: untracks exactly the child's pid and keeps the tracker valid |
| `ProcessObjects.ChildProcess.HandleExit` | core/aws-lsp-core/src/util/processUtils.ts:379-394 | in place: result, rejection and resolution of the exit step, and no other field |
| `ProcessObjects.ChildProcess.OnExit` | core/aws-lsp-core/src/util/processUtils.ts:379-394 | in place: the exit step with the disposal before it; afterwards the tracker holds everything it held except this pid and is valid |
| `ProcessObjects.ChildProcess.OnClose` | core/aws-lsp-core/src/util/processUtils.ts:369-372 | in place: the close step leaves a valid tracker untouched |
| `ProcessObjects.ChildProcess.OnProcessError` | core/aws-lsp-core/src/util/processUtils.ts:337-345 | in place: the process-error step, also after the end of the child; the tracker loses exactly this pid and stays valid |
| `ProcessObjects.ChildProcessTracker.constructor` | core/aws-lsp-core/src/util/processUtils.ts:89-91 | a new tracker is valid and empty |
| `ProcessObjects.ChildProcessTracker.Add` | core/aws-lsp-core/src/util/processUtils.ts:138-142 | map and pid set both gain the running process, and stay in agreement |
| `ProcessObjects.ChildProcessTracker.Delete` | core/aws-lsp-core/src/util/processUtils.ts:144-147 | map and pid set both lose the pid, and stay in agreement |
| `ProcessObjects.ChildProcessTracker.CleanUp` | core/aws-lsp-core/src/util/processUtils.ts:102-109 | on a valid tracker it finds no terminated process and changes nothing |
| `ProcessObjects.ChildProcessTracker.Clear` | core/aws-lsp-core/src/util/processUtils.ts:157-163 | every tracked object is stopped by force without a throw, then both collections are empty |
| `DevicePolling.PollForToken` | client/vscode/src/sso/connectionBuilder.ts:71-112 | for every start after the login dialog and every server answer with a non-negative interval the loop ends; the requests it made are exactly those the guard admits, dialog plus requests * first interval is below the lifetime, and none starts once the user has cancelled; it is 'user cancelled' if and only if the user cancels by the end, otherwise the last reply's token or error, or a time-out |
| `DevicePolling.RequestMadeIff` | client/vscode/src/sso/connectionBuilder.ts:77-92 | a request is made if and only if the one before it was answered with slow_down or authorization_pending, more than the current interval is left and the user has not cancelled |
| `DevicePolling.IntervalCountsSlowDowns` | client/vscode/src/sso/connectionBuilder.ts:70-92 | section 3.5 of RFC 8628: each wait is the first interval plus 5000 ms per slow_down so far, and the next request comes exactly that long after the answer, plus what the sleep was late |
| `DevicePolling.RequestsFit` | client/vscode/src/sso/connectionBuilder.ts:77 | every request starts uncancelled with more than the current interval left, the waits before it plus that interval are below the time there was at the start, and so is (n+1) * first interval |
| `DevicePolling.BoundIsTight` | client/vscode/src/sso/connectionBuilder.ts:74-92 | that bound is exact: against a prompt server that stays pending, request n is made if and only if the time of the dialog plus n+1 intervals is below the lifetime of `expiresIn` seconds |
| `DevicePolling.IntervalIsPositive` | client/vscode/src/sso/connectionBuilder.ts:71-75 | section 3.2 of RFC 8628: an absent or zero server interval becomes 5000 ms, any other at least a second |
| `SsoConnections.EveryInterleaving` | client/vscode/src/sso/connectionBuilder.ts:53-68 | over every interleaving of callers, connections, server answers and time: one flow in flight per connection; a cached token's registration is the cached one; a settled call belongs to a flow of its connection that was in flight when the call was made, and that flow settled as the caches it found, its launch time and what it heard itself determine |
| `SsoConnections.CallerGets` | client/vscode/src/sso/connectionBuilder.ts:234-307 | what a caller's flow does is determined by the caches it found, its launch time and what it heard: a token with more than 60000 ms left is handed out; one that has not is refreshed if it has a refresh token and its registration has more than 60000 ms left; all else is a login, with the cached registration only if there was no token; the result is the token or the error the flow itself heard last; and the caches it leaves |
| `SsoConnections.TokenWasIssued` | client/vscode/src/sso/connectionBuilder.ts:234-277 | whatever token a caller gets was issued to a flow of its own connection |
| `SsoConnections.FlowsAreSerial` | client/vscode/src/sso/connectionBuilder.ts:53-68 | over every interleaving the flows of a connection do not overlap, each finds in the caches exactly what its predecessor left, and in flight nobody else writes to them |
| `SsoConnections.SingleFlight` | client/vscode/src/sso/connectionBuilder.ts:56-67 | two flows in flight for one connection are the same flow |
| `SsoConnections.JoinersShareOutcome` | client/vscode/src/sso/connectionBuilder.ts:59-61 | a call made while an earlier call's flow is in flight starts no flow, and to the end of the run both calls have the same flow |
| `SsoConnections.RunGrows` | client/vscode/src/sso/connectionBuilder.ts:63-66 | a call never changes its flow and a flow never changes its outcome |
| `SsoConnections.ReadyMeansSignedIn` | client/vscode/src/sso/connectionBuilder.ts:336-348 | over every interleaving, a connection that was handed out has a flow that got a token |
| `SsoConnections.SignedInMeansReady` | client/vscode/src/sso/connectionBuilder.ts:336-348 | and conversely, a connection one of whose flows got a token has been handed out |
| `SsoConnections.ReachableInv` | client/vscode/src/sso/connectionBuilder.ts:220-374 | the invariant behind these: every flow, outcome, call and connection is accounted for in every reachable state |
| `SsoConnections.BeginMidway` | client/vscode/src/sso/connectionBuilder.ts:234-248 | `getToken` up to its first await, against the description of a flow by its trace: a token with more than 60 s left is handed out, a due refresh (section 6 of RFC 6749) is begun, or a login is, with the cached registration only if there was no token |
| `SsoConnections.ResumeMidway` | client/vscode/src/sso/connectionBuilder.ts:250-307 | every later segment, against the same description: what was heard, the registration used, the result and the caches left |
| `SsoConnections.StaleRegistrationIff` | client/vscode/src/sso/connectionBuilder.ts:258-264 | over every run, a flow past its first segment authorizes with a registration that had expired before it began if and only if it found such a registration cached and no token, and then with that one |
| `SsoConnections.NoTokenIffLoginFailed` | client/vscode/src/sso/connectionBuilder.ts:234-264 | in every reachable state, a handed-out connection with no flow in flight has no token if and only if its last flow was a login that failed |
| `SsoConnections.StaleIffAfterFailedLogin` | client/vscode/src/sso/connectionBuilder.ts:258-264 | so an expired registration is used if and only if the predecessor on the connection was a login, not a refresh, that failed after it had used a registration expired by now; and it is that registration |
| `SsoConnections.StaleRegistrationUsed` | client/vscode/src/sso/connectionBuilder.ts:258-264 | for any two registrations and any token without refresh token, a run that ends with a handed-out connection authorizing with the second registration after its expiry |
| `SsoConnections.SsoAccessTokenProvider.constructor` | client/vscode/src/sso/connectionBuilder.ts:220-227 | a new provider has empty caches |
| `SsoConnections.SsoAccessTokenProvider.Invalidate` | client/vscode/src/sso/connectionBuilder.ts:229-232 | in place: forgets both |
| `SsoConnections.SsoAccessTokenProvider.GetToken` | client/vscode/src/sso/connectionBuilder.ts:234-248 | in place: the first segment, caches stay coherent |
| `SsoConnections.SsoAccessTokenProvider.Continue` | client/vscode/src/sso/connectionBuilder.ts:250-307 | in place: each later segment, caches stay coherent |
| `MessageRouter.AnswerBelongsToRequest` | client/vscode/src/chatActivation.ts:244-287 | under delays, reordering, loss and timeouts: an answered request carries the one reply that the webview sent for that id, and the language server gets the value, or the error code and message, that the request and the UI call for |
| `MessageRouter.ReplyIs` | chat-client/src/client/mynahUi.ts:1396-1626 | the webview's reply to either request and the response it becomes, for every UI; there is none if and only if selecting another tab throws |
| `MessageRouter.ErrorCodeIff` | client/vscode/src/chatActivation.ts:246-256 | which error types become which error codes, and all others the unknown one |
| `MessageRouter.SettledForever` | client/vscode/src/chatActivation.ts:264-277 | a request settles at most once: after any run, a settled entry is what it was when it settled |
| `MessageRouter.StepKeepsSettled` | client/vscode/src/chatActivation.ts:265-276 | no step changes a settled entry, and a reply after the timeout changes nothing but the channel |
| `MessageRouter.RejectedIffTimerFired` | client/vscode/src/chatActivation.ts:264-268 | over every run, a request is rejected with "Request timed out" if and only if its timer fired, which is never before 30000 ms |
| `MessageRouter.TimerReleasesEveryWait` | client/vscode/src/chatActivation.ts:264-268 | from every reachable state, 30000 ms later the timer of a waiting request can fire; that rejects it and changes no other request |
| `MessageRouter.QuiescentWaitExplained` | chat-client/src/client/mynahUi.ts:1396-1424 | with both channels empty, a request still waits only if one of its messages was lost, or it named a tab other than the selected one and selecting that tab threw |
| `MessageRouter.ReachableInv` | chat-client/src/client/chat.ts:466-486 | in every reachable state, per id: at most one reply sent and only for a handled request, a reply under way is that reply in one copy, a timeout is at least 30 s after the post, and no waiting request is unaccounted for |
| `MessageRouter.RequestStepKeepsId` | chat-client/src/client/mynahUi.ts:1597-1626 | handling or losing a request keeps that for every id |
| `MessageRouter.ResponseRouter.constructor` | client/vscode/src/chatActivation.ts:244-245 | no request yet |
| `MessageRouter.ResponseRouter.Post` | client/vscode/src/chatActivation.ts:257-276 | in place: a listener and a timer for the new id |
| `MessageRouter.ResponseRouter.OnMessage` | client/vscode/src/chatActivation.ts:270-276 | in place: only the waiting request with that id is answered, and its listener and timer go together |
| `MessageRouter.ResponseRouter.OnTimer` | client/vscode/src/chatActivation.ts:265-268 | in place: the request times out, and its listener goes with its timer |
| `PartialClone.PartialClone` | core/aws-lsp-core/src/util/collectionUtils.ts:17-54 | the loop that fills the copy key by key computes the recursive clone |
| `PartialClone.CloneOutside` | core/aws-lsp-core/src/util/collectionUtils.ts:26-39 | leaves, empty objects, strings under a limit, and containers at depth 0, which become the replacement or an empty container of their kind |
| `PartialClone.CloneInside` | core/aws-lsp-core/src/util/collectionUtils.ts:41-53 | keys keep their places; an omitted child becomes the replacement or an empty container of its parent's kind, and every other child is cloned to one level less |
| `PartialClone.IndexKeyIsDecimal` | core/aws-lsp-core/src/util/collectionUtils.ts:42-43 | the property name of an array element is its index in decimal without leading zeros |
| `PartialClone.ComposesIff` | core/aws-lsp-core/src/util/collectionUtils.ts:26-53 | cloning to depth m and then n equals cloning once to the smaller depth, for all values and depths, if and only if there is no truthy replacement or it is flat: a leaf that shortening leaves alone, or a container of such leaves under keys that are not omitted |
| `PartialClone.Compose` | core/aws-lsp-core/src/util/collectionUtils.ts:26-53 | the law itself, for every replacement that cloning leaves alone |
| `PartialClone.TruncateIdempotent` | core/aws-lsp-core/src/util/text.ts:43-52 | truncating twice is truncating once, for limits of either sign and any suffix |
| `PartialClone.TruncateUnchangedIff` | core/aws-lsp-core/src/util/text.ts:34-52 | a string comes out unchanged if and only if it is no longer than the limit, or is exactly limit plus suffix long and already carries the suffix on the side that is cut; a longer one comes out limit plus suffix long |
| `PartialClone.TruncateKeeps` | core/aws-lsp-core/src/util/text.ts:43-52 | a longer string keeps its first n characters before the suffix, or its last n behind it for a negative limit |
| `PartialClone.AgreeMeansSameClone` | core/aws-lsp-core/src/util/collectionUtils.ts:26-53 | values that agree down to the depth, outside omitted keys and up to shortening, have equal clones |
| `PartialClone.SameCloneMeansAgree` | core/aws-lsp-core/src/util/collectionUtils.ts:26-53 | without a replacement the converse: the clone shows everything else |
| `PartialClone.ReplacementIgnoredIff` | core/aws-lsp-core/src/util/collectionUtils.ts:37-46 | the replacement makes no difference to any clone if and only if it is undefined, null, false, 0 or the empty string |
| `PartialClone.CloneHeight` | core/aws-lsp-core/src/util/collectionUtils.ts:37-39 | a clone nests no deeper than the depth plus the height of the replacement |
| `PartialClone.CloneStrings` | core/aws-lsp-core/src/util/collectionUtils.ts:27-32 | with a limit, every string in a clone has at most limit + 3 characters or occurs in the replacement |
| `PartialClone.CloneIsIdentity` | core/aws-lsp-core/src/util/collectionUtils.ts:26-53 | with depth above the height or negative, no omitted key and no long string, the clone is the value |
| `Paths.NormalizeSeparatorIdempotent` | core/aws-lsp-core/src/util/path.ts:49-59 | normalising twice is normalising once, for every string, UNC and white-space-led ones included |
| `Paths.UncSurvivesIff` | core/aws-lsp-core/src/util/path.ts:45-59 | normalising yields a UNC path if and only if it was given one without white space in front |
| `Paths.UncPathIff` | core/aws-lsp-core/src/util/path.ts:57-59 | a UNC path is white space, two separators of either kind and then something else |
| `Paths.CollapseConcat` | core/aws-lsp-core/src/util/path.ts:49-50 | collapsing works piece by piece wherever no run of separators is cut |
| `Paths.CollapseParts` | core/aws-lsp-core/src/util/path.ts:49-50 | a run of separators becomes one slash, and text without separators is kept |
| `Paths.NormalizeFacts` | core/aws-lsp-core/src/util/path.ts:68-80 | whatever Node's normalisation does, the result has normal separators, and the case of a drive letter does not matter; it is applied to all but empty and UNC paths |
| `Paths.IsInDirectory` | core/aws-lsp-core/src/util/path.ts:21-43 | the popping loop decides containment and never indexes past the path's pieces; where case matters and the directory does not end in a separator, it says yes if and only if, both normalised, the path is the directory or continues it behind a slash; an empty path is in everything and contains everything |
| `Paths.InMeansBelow` | core/aws-lsp-core/src/util/path.ts:11-43 | that meaning of containment, by the pieces |
| `Paths.SplitConcat` | core/aws-lsp-core/src/util/path.ts:25-26 | the pieces on the two sides of any slash are put side by side |
| `Paths.SplitWhole` | core/aws-lsp-core/src/util/path.ts:25-26 | a string without a slash is its only piece |
| `Paths.SplitThenJoin` | core/aws-lsp-core/src/util/path.ts:25-26 | the pieces joined by slashes are the string again |
| `Paths.PiecesHaveNoSlash` | core/aws-lsp-core/src/util/path.ts:25-26 | and no piece has a slash |
| `Paths.InReflexive` | core/aws-lsp-core/src/util/path.ts:21-43 | every path is in itself, in both case modes |
| `Paths.InTransitive` | core/aws-lsp-core/src/util/path.ts:21-43 | containment chains through every non-empty path, in both case modes |
| `Paths.ChainsThroughIff` | core/aws-lsp-core/src/util/path.ts:22-24 | containment chains through b for all outer paths if and only if b is not empty |
| `Paths.InUnchangedByNormalizing` | core/aws-lsp-core/src/util/path.ts:25-26 | normalising the arguments first changes no answer |
| `Paths.TrailingSlashExcludesSelf` | core/aws-lsp-core/src/util/path.ts:28-35 | with a slash appended, a directory contains exactly what it contained before minus the paths with its own number of pieces, so never itself |
| `Paths.RootContainsIff` | core/aws-lsp-core/src/util/path.ts:11-43 | a directory of separators only contains exactly the empty path and the paths with a separator anywhere in them, relative ones included |
| `FileDistance.GetFileDistance` | core/aws-lsp-core/src/util/filesystem.ts:13-33 | the loop finds the longest common prefix, so the result is the distance of the parent directories |
| `FileDistance.ParentDirIs` | core/aws-lsp-core/src/util/filesystem.ts:14-18 | a file's directory is all before the last slash of its normalised path, and a name without one is in no directory |
| `FileDistance.SameAndDeeperDirectory` | core/aws-lsp-core/src/util/filesystem.ts:6-12 | two files of one directory have distance 0, and one directory further down makes it 1 |
| `FileDistance.DistanceCounts` | core/aws-lsp-core/src/util/filesystem.ts:20-32 | below the last common directory every directory on either side counts one |
| `FileDistance.DistanceIsMetric` | core/aws-lsp-core/src/util/filesystem.ts:20-32 | zero exactly for equal directories, symmetric, triangle inequality, for all triples |
| `FileDistance.NoShorterWalk` | core/aws-lsp-core/src/util/filesystem.ts:6-12 | no walk over parent and child directories between the two is shorter than the distance |
| `FileDistance.ShortestWalk` | core/aws-lsp-core/src/util/filesystem.ts:6-12 | and one of that length exists |
| `UriResolvers.UriResolverBuilder.constructor` | core/aws-lsp-core/src/content/uriResolverBuilder.ts:11-12 | starts without handlers |
| `UriResolvers.UriResolverBuilder.AddHandler` | core/aws-lsp-core/src/content/uriResolverBuilder.ts:14-17 | in place: appends |
| `UriResolvers.UriResolverBuilder.Build` | core/aws-lsp-core/src/content/uriResolverBuilder.ts:19-33 | for every uri the resolver returns a content if and only if the uri parses and the closures over the handlers, in array order, come to that content, and rejects with an error if and only if parsing or the closures end in it; for handlers that answer or forward, that is the walk down and back up; the array is left reversed |
| `UriResolvers.ResolveWalks` | core/aws-lsp-core/src/content/uriResolverBuilder.ts:20-32 | the resolver of a chain of such handlers answers with the walk's result |
| `UriResolvers.UnansweredIsRejected` | core/aws-lsp-core/src/content/uriResolverBuilder.ts:20-22 | a uri that no handler answers ends in "Unhandled uri: " and the uri last passed on, where the handlers let errors through |
| `UriResolvers.UriResolverBuilder.BuildTimes` | core/aws-lsp-core/src/content/uriResolverBuilder.ts:19-33 | the last of n builds in a row answers and rejects like the closures in the n-th order |
| `UriResolvers.InsertionOrderIff` | core/aws-lsp-core/src/content/uriResolverBuilder.ts:24 | the n-th order is the insertion order if and only if n is odd or that order is its own reverse |
| `UriResolvers.BuildsTakeTurns` | core/aws-lsp-core/src/content/uriResolverBuilder.ts:5-10 | where all handlers answer a uri, odd builds have it answered by the handler added first and even builds by the one added last |
| `UriResolvers.ChainGoesDownAndUp` | core/aws-lsp-core/src/content/uriResolverBuilder.ts:20-32 | for handlers that answer or forward, the closure nest computes: each handler sees the uri its predecessor passed on, until one answers or the uri is unhandled, then the others process the response in reverse |
| `Retry.RetryWithBackoff` | core/aws-lsp-core/src/util/retryUtils.ts:56-77 | at most maxRetries calls, all but the last failing retryably, the last one's value or error, the total wait; the final throw is reached if and only if maxRetries is below 1 |
| `Retry.CallsAreDetermined` | core/aws-lsp-core/src/util/retryUtils.ts:64-75 | the callee and the test alone determine the number of calls |
| `Retry.DelaysClosedForm` | core/aws-lsp-core/src/util/retryUtils.ts:72-73 | n calls wait baseDelay * n(n-1)/2 with the flag on and baseDelay * (n-1) with it off |
| `Retry.DefaultPolicy` | core/aws-lsp-core/src/util/retryUtils.ts:35-75 | the loop under the default test: a client error other than throttling is always the last call, a retried error is throttling or a server error, and a callee that keeps throttling is called until the attempts are used up |
| `LineReader.Reader.constructor` | core/aws-lsp-core/src/credentials/encryption.ts:37-38 | nothing read, not resolved |
| `LineReader.Reader.Arrive` | core/aws-lsp-core/src/credentials/encryption.ts:40-42 | bytes that arrive later never change what was read or resolved |
| `LineReader.Reader.OnReadable` | core/aws-lsp-core/src/credentials/encryption.ts:41-59 | however the input was cut: resolved exactly with the bytes through the first newline and only those consumed, or everything consumed and nothing resolved; a second event changes nothing |
| `LineReader.LineIsSettled` | core/aws-lsp-core/src/credentials/encryption.ts:52-57 | once a newline is there, later bytes do not change the line |
| `LineReader.DecodeFaithfulIff` | core/aws-lsp-core/src/credentials/encryption.ts:49-50 | the text has the codes of the bytes read if and only if all of them are ASCII |

## Left out

- Signals whose delivery fails at once: Node then emits 'error' from inside `kill`, which re-enters the error handler; in the model such an error is a separate later event.
- Stream errors after the clean-up: no listener is left and Node would end the program; the model has no such event.
- `keyedDebounce` has no class of its own: its `pending` map is a field of the SSO system's value, so its update in place is not shown.
- `onStderr`, the clean-up and the listener registration have no method of their own; they are steps of the process machine only.
- Timers that fire late, and a retry predicate that throws or changes its mind, in `waitUntil`.
- Usage probes (`ps`, `wmic`), shell decoding, logging and option merging of child processes.
- PartialClone.PartialClone: an own key "__proto__", which the source's assignment turns into the copy's prototype instead of a property; objects in the model have no such key.
- PartialClone.CloneIsIdentity: the same key, which would not survive.
- JavaScript objects with inherited enumerable or non-enumerable properties, sparse arrays, cycles and NaN in the clone.
- The `identity` field of created tokens, prompts and progress notifications of the SSO flow; a negative server interval.
- Exceptions of the UI library other than from selecting a tab and serializing a chat, and replies without params.
- Decoding of multi-byte text in `readLine`: the code decodes each byte alone, and `DecodeFaithfulIff` says when that is right; no UTF-8 decoder is modelled.
- The rest of the chat client, the language services and the generated parsers: rendering, wiring and generated tables.

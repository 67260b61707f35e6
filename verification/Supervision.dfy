/**
  `ChildProcessTracker` of core/aws-lsp-core/src/util/processUtils.ts together with all the processes
  it supervises: every interleaving of the processes' events with `clear()` and with poll ticks.
 */
module Supervision {
  import opened Wrappers
  import P = ChildProcesses
  import S = PollingSets

  /** The objects that exist, the tracker's two fields, and the processes that a `clear()` let go. */
  datatype World = World(procs: map<nat, P.Proc>, byPid: map<int, nat>, pids: S.Polled<int>, dropped: set<nat>)

  datatype Step =
    | Create(id: nat)
    | Local(id: nat, event: P.Event)
    | ClearTracker(took: real)
    | PollTick

  function Init(): World {
    World(map[], map[], S.Fresh(), {})
  }

  function Track(w: World, pid: int, id: nat): World {
    w.(byPid := w.byPid[pid := id], pids := S.Perform(w.pids, S.Add(pid)))
  }

  function Untrack(w: World, pid: int): World {
    w.(byPid := w.byPid - {pid}, pids := S.Perform(w.pids, S.Delete(pid)))
  }

  /** Started with a pid, and neither 'exit' nor 'close' delivered yet. */
  predicate Alive(p: P.Proc) {
    p.child.Started? && p.child.pid.Some? && !p.life.exited && !p.life.closed
  }

  predicate Running(p: P.Proc, pid: int) {
    Alive(p) && p.child.pid.value == pid
  }

  /** The operating system hands out no pid that a running child still holds. */
  predicate FreshPid(w: World, pid: int) {
    forall id | id in w.procs :: !Running(w.procs[id], pid)
  }

  predicate Spawns(p: P.Proc, e: P.Event) {
    p.child.NotStarted? && e.Run? && e.spawn.Spawned? && e.spawn.pid.Some?
  }

  /** The events on which the `dispose` listener runs; it is registered only for a child with a pid. */
  predicate Disposes(p: P.Proc, e: P.Event) {
    (e.Exit? || e.ProcessError?) && p.child.Started? && p.child.pid.Some?
  }

  function TrackedIds(w: World): set<nat> {
    set pid | pid in w.byPid :: w.byPid[pid]
  }

  predicate ClearThrows(w: World) {
    exists pid | pid in w.byPid :: w.byPid[pid] in w.procs && P.StopThrows(w.procs[w.byPid[pid]])
  }

  function Terminated(w: World): set<int> {
    set pid | pid in w.pids.items && pid in w.byPid && w.byPid[pid] in w.procs && P.Stopped(w.procs[w.byPid[pid]])
  }

  predicate Enabled(w: World, s: Step) {
    match s
    case Create(id) => id !in w.procs
    case Local(id, e) =>
      && id in w.procs && P.Enabled(w.procs[id], e)
      && (Spawns(w.procs[id], e) ==> FreshPid(w, e.spawn.pid.value))
    case ClearTracker(took) => took >= 0.0
    case PollTick => w.pids.pollTimer.Some?
  }

  function Apply(w: World, s: Step): World
    requires Enabled(w, s)
  {
    match s
    case Create(id) => w.(procs := w.procs[id := P.New()])
    case Local(id, e) => ApplyLocal(w, id, e)
    case ClearTracker(took) => if ClearThrows(w) then w else Clear(w, took)
    case PollTick => Poll(w)
  }

  /** A process event; spawning adds to the tracker, and `dispose` runs before the other listeners. */
  function ApplyLocal(w: World, id: nat, e: P.Event): World
    requires id in w.procs && P.Enabled(w.procs[id], e)
  {
    var p := w.procs[id];
    var v := if Disposes(p, e) then Untrack(w, p.child.pid.value) else w;
    var u := v.(procs := v.procs[id := P.Step(p, e)]);
    if Spawns(p, e) then Track(u, e.spawn.pid.value, id) else u
  }

  /** `clear()`: a forced stop of everything tracked, then both collections are emptied. */
  function Clear(w: World, took: real): World
    requires took >= 0.0
  {
    World(
      map id | id in w.procs ::
        if id in TrackedIds(w) then P.Step(w.procs[id], P.StopCall(true, None, took)) else w.procs[id],
      map[], S.Perform(w.pids, S.Clear), w.dropped + TrackedIds(w))
  }

  /** One poll: `cleanUp()` deletes what has stopped, and the timer goes if nothing is left. */
  function Poll(w: World): World {
    var gone := Terminated(w);
    w.(byPid := w.byPid - gone, pids := S.WithoutTimer(w.pids.(items := w.pids.items - gone)))
  }

  // ---------------------------------------------------------------- the invariant

  ghost predicate Explained(p: P.Proc) {
    exists h :: P.Legal(h) && p == P.Exec(h)
  }

  /** The two collections agree, and what they hold is running and was not let go. */
  ghost predicate TrackerOk(w: World) {
    && S.Valid(w.pids)
    && w.pids.items == w.byPid.Keys
    && (forall pid | pid in w.byPid ::
          && w.byPid[pid] in w.procs && w.byPid[pid] !in w.dropped
          && Running(w.procs[w.byPid[pid]], pid) && !w.procs[w.byPid[pid]].life.failed)
  }

  /** No two running children share a pid. */
  ghost predicate PidsDistinct(w: World) {
    forall i, j | i in w.procs && j in w.procs && Alive(w.procs[i]) && Alive(w.procs[j])
                  && w.procs[i].child.pid == w.procs[j].child.pid :: i == j
  }

  /** These processes exist and have a child. */
  ghost predicate AllStarted(w: World, ids: set<nat>) {
    forall id | id in ids :: id in w.procs && w.procs[id].child.Started?
  }

  ghost predicate AllExplained(w: World) {
    forall id | id in w.procs :: Explained(w.procs[id])
  }

  /** What every step keeps, whatever the pids and however late the errors. */
  ghost predicate Inv(w: World) {
    TrackerOk(w) && PidsDistinct(w) && AllStarted(w, w.dropped) && AllExplained(w)
  }

  /** A process that should be tracked is not missing, unless it is one of the lost ones. */
  ghost predicate Accounted(w: World, lost: set<nat>, id: nat)
    requires id in w.procs
  {
    var p := w.procs[id];
    Alive(p) && !p.life.failed && id !in w.dropped && id !in lost ==>
      p.child.pid.value in w.byPid && w.byPid[p.child.pid.value] == id
  }

  /** Nothing but the lost processes is missing, and those are not tracked. */
  ghost predicate CompleteBut(w: World, lost: set<nat>) {
    && AllStarted(w, lost)
    && (forall pid | pid in w.byPid :: w.byPid[pid] !in lost)
    && (forall id | id in w.procs :: Accounted(w, lost, id))
  }

  /** Running means spawned with a pid, and neither 'exit' nor 'close' delivered. */
  lemma AliveIff(h: seq<P.Event>)
    requires P.Legal(h)
    ensures Alive(P.Exec(h)) <==>
      && P.Exec(h).child.Started? && P.Exec(h).child.pid.Some?
      && forall i | 0 <= i < |h| :: !h[i].Exit? && !h[i].Close?
  {
    P.StoppedIffEnded(h);
    P.ReachableOk(h);
  }

  lemma ExplainedStep(p: P.Proc, e: P.Event)
    requires Explained(p) && P.Enabled(p, e)
    ensures Explained(P.Step(p, e))
  {
    var h :| P.Legal(h) && p == P.Exec(h);
    assert (h + [e])[..|h + [e]| - 1] == h;
    assert P.Legal(h + [e]) && P.Exec(h + [e]) == P.Step(p, e);
  }

  lemma ExplainedFacts(p: P.Proc)
    requires Explained(p)
    ensures P.Tidy(p) && P.KillsOk(p.stopping)
  {
    var h :| P.Legal(h) && p == P.Exec(h);
    P.ReachableOk(h);
  }

  /** What an event does to the parts of a process that the tracker depends on. */
  lemma LifeOfStep(p: P.Proc, e: P.Event)
    requires P.Enabled(p, e)
    ensures var q := P.Step(p, e);
      && (Spawns(p, e) ==> q.child.Started? && q.child.pid == e.spawn.pid && q.life == p.life)
      && (q.child.Started? && q.child.pid.Some? <==> (p.child.Started? && p.child.pid.Some?) || Spawns(p, e))
      && (p.child.Started? ==> q.child == p.child)
      && q.life.exited == (p.life.exited || e.Exit?)
      && q.life.closed == (p.life.closed || e.Close?)
      && q.life.failed == (p.life.failed || e.ProcessError?)
      && (e.Close? ==> p.life.exited || p.life.failed)
      && (e.Exit? || e.ProcessError? ==> p.child.Started?)
      && (e.Exit? ==> p.child.pid.Some? && !p.life.exited && !p.life.closed)
  {
    hide P.HandleError, P.Stop, P.ProbeOnce, P.MakeResult;
    if P.IsError(e) {
      ErrorFrame(p, e);
      hide P.Step;
    } else if e.StopCall? {
      P.StopFrame(p, e.force, e.signal, e.took);
    }
  }

  lemma ErrorFrame(p: P.Proc, e: P.Event)
    requires P.Enabled(p, e) && P.IsError(e)
    ensures p.child.Started? && P.Step(p, e).child == p.child
    ensures P.Step(p, e).life == p.life.(failed := p.life.failed || e.ProcessError?)
  {
    hide P.HandleError;
    P.HandleErrorRecord(if e.ProcessError? then p.(life := p.life.(failed := true)) else p, e.error, e.took);
  }

  /** The event untracks a pid that belongs to another process by now. */
  predicate Hits(w: World, s: Step)
    requires Enabled(w, s)
  {
    s.Local? &&
    var p := w.procs[s.id];
    Disposes(p, s.event) && p.child.pid.value in w.byPid && w.byPid[p.child.pid.value] != s.id
  }

  /** The process whose tracking the step removes although the event is another process's. */
  function Victims(w: World, s: Step): set<nat>
    requires Enabled(w, s)
  {
    if Hits(w, s) then {w.byPid[w.procs[s.id].child.pid.value]} else {}
  }

  /** The new world, field by field. */
  lemma LocalEffect(w: World, id: nat, e: P.Event)
    requires Enabled(w, Local(id, e))
    ensures var v, p := ApplyLocal(w, id, e), w.procs[id];
      && v.procs == w.procs[id := P.Step(p, e)] && v.dropped == w.dropped
      && v.byPid == (if Spawns(p, e) then w.byPid[e.spawn.pid.value := id]
                     else if Disposes(p, e) then w.byPid - {p.child.pid.value} else w.byPid)
      && v.pids == (if Spawns(p, e) then S.Perform(w.pids, S.Add(e.spawn.pid.value))
                    else if Disposes(p, e) then S.Perform(w.pids, S.Delete(p.child.pid.value)) else w.pids)
  {
    hide P.Step, P.Enabled, S.Perform;
  }

  lemma LocalKeepsTracker(w: World, id: nat, e: P.Event)
    requires TrackerOk(w) && PidsDistinct(w) && AllStarted(w, w.dropped) && Enabled(w, Local(id, e))
    requires P.Tidy(w.procs[id])
    ensures TrackerOk(ApplyLocal(w, id, e))
  {
    LifeOfStep(w.procs[id], e);
    LocalEffect(w, id, e);
    assert Spawns(w.procs[id], e) ==> id !in w.dropped;
    hide P.Step, P.Enabled, ApplyLocal, AllStarted;
    var v := ApplyLocal(w, id, e);
    assert v.pids.items == v.byPid.Keys;
  }

  lemma LocalKeepsStarted(w: World, id: nat, e: P.Event, ids: set<nat>)
    requires AllStarted(w, ids) && Enabled(w, Local(id, e))
    ensures AllStarted(ApplyLocal(w, id, e), ids)
  {
    LifeOfStep(w.procs[id], e);
    LocalEffect(w, id, e);
    hide P.Step, P.Enabled, ApplyLocal, S.Perform;
  }

  lemma LocalKeepsDistinct(w: World, id: nat, e: P.Event)
    requires PidsDistinct(w) && Enabled(w, Local(id, e))
    ensures PidsDistinct(ApplyLocal(w, id, e))
  {
    LifeOfStep(w.procs[id], e);
    LocalEffect(w, id, e);
    assert Spawns(w.procs[id], e) ==> FreshPid(w, e.spawn.pid.value);
    hide P.Step, P.Enabled, ApplyLocal, S.Perform;
  }

  lemma LocalKeepsInv(w: World, id: nat, e: P.Event)
    requires Inv(w) && Enabled(w, Local(id, e))
    ensures Inv(ApplyLocal(w, id, e))
  {
    LocalEffect(w, id, e);
    ExplainedFacts(w.procs[id]);
    LocalKeepsTracker(w, id, e);
    LocalKeepsDistinct(w, id, e);
    LocalKeepsStarted(w, id, e, w.dropped);
    hide TrackerOk, PidsDistinct, AllStarted, Explained, P.Step, P.Enabled, ApplyLocal, S.Perform;
    ExplainedStep(w.procs[id], e);
  }

  /** Tracked processes are not stopped, so `stop` does not throw on them ... */
  lemma ClearNeverThrows(w: World)
    requires Inv(w)
    ensures !ClearThrows(w)
  {
    forall pid | pid in w.byPid ensures !P.StopThrows(w.procs[w.byPid[pid]]) {
      ExplainedFacts(w.procs[w.byPid[pid]]);
    }
  }

  /** ... and a poll has nothing to clean up. */
  lemma CleanUpFindsNothing(w: World)
    requires Inv(w)
    ensures Terminated(w) == {}
  {
    forall pid | pid in w.byPid ensures !P.Stopped(w.procs[w.byPid[pid]]) {
      ExplainedFacts(w.procs[w.byPid[pid]]);
    }
  }

  lemma ClearedProcs(w: World, took: real)
    requires AllExplained(w) && took >= 0.0
    ensures var v := Clear(w, took);
      && AllExplained(v) && v.procs.Keys == w.procs.Keys
      && forall id | id in w.procs :: v.procs[id].child == w.procs[id].child && v.procs[id].life == w.procs[id].life
  {
    var v := Clear(w, took);
    forall id | id in w.procs
      ensures Explained(v.procs[id])
      ensures v.procs[id].child == w.procs[id].child && v.procs[id].life == w.procs[id].life
    {
      hide Explained, P.SendStop;
      ExplainedStep(w.procs[id], P.StopCall(true, None, took));
    }
  }

  lemma ClearKeepsStarted(w: World, took: real, ids: set<nat>)
    requires TrackerOk(w) && AllStarted(w, w.dropped) && AllStarted(w, ids) && AllExplained(w) && took >= 0.0
    ensures AllStarted(Clear(w, took), Clear(w, took).dropped) && AllStarted(Clear(w, took), ids)
  {
    ClearedProcs(w, took);
    assert Clear(w, took).dropped == w.dropped + TrackedIds(w);
    hide P.Step, P.Enabled, AllExplained, Clear;
  }

  lemma ClearKeepsDistinct(w: World, took: real)
    requires PidsDistinct(w) && AllExplained(w) && took >= 0.0
    ensures PidsDistinct(Clear(w, took))
  {
    ClearedProcs(w, took);
    hide P.Step, P.Enabled, AllExplained, Clear;
  }

  lemma ClearKeepsInv(w: World, took: real)
    requires Inv(w) && took >= 0.0
    ensures Inv(Clear(w, took))
  {
    ClearedProcs(w, took);
    ClearKeepsStarted(w, took, {});
    ClearKeepsDistinct(w, took);
    hide P.Step, P.Enabled, AllExplained, AllStarted, PidsDistinct;
    assert TrackerOk(Clear(w, took));
  }

  /** The invariant does not depend on the timer, as long as the pid set stays valid. */
  lemma TimerKeepsInv(w: World, pids: S.Polled<int>)
    requires Inv(w) && S.Valid(pids) && pids.items == w.pids.items
    ensures Inv(w.(pids := pids))
  {
    hide Alive, Explained;
  }

  /** A poll touches nothing but the timer. */
  lemma PollKeepsInv(w: World)
    requires Inv(w)
    ensures Inv(Poll(w)) && Poll(w) == w.(pids := S.WithoutTimer(w.pids))
  {
    CleanUpFindsNothing(w);
    assert w.byPid - {} == w.byPid && w.pids.items - {} == w.pids.items;
    assert S.Valid(S.WithoutTimer(w.pids)) && S.WithoutTimer(w.pids).items == w.pids.items;
    assert Poll(w) == w.(pids := S.WithoutTimer(w.pids));
    hide Inv, Poll, S.WithoutTimer, S.Valid;
    TimerKeepsInv(w, S.WithoutTimer(w.pids));
  }

  lemma CreateKeepsInv(w: World, id: nat)
    requires Inv(w) && id !in w.procs
    ensures Inv(w.(procs := w.procs[id := P.New()]))
  {
    assert P.Legal([]) && P.Exec([]) == P.New();
    var v := w.(procs := w.procs[id := P.New()]);
    forall j | j in v.procs ensures Explained(v.procs[j]) {
    }
    hide Explained;
  }

  lemma StepKeepsInv(w: World, s: Step)
    requires Inv(w) && Enabled(w, s)
    ensures Inv(Apply(w, s))
  {
    hide Inv, ApplyLocal, Clear, Poll, P.Enabled;
    match s
    case Create(id) => CreateKeepsInv(w, id);
    case Local(id, e) => LocalKeepsInv(w, id, e);
    case ClearTracker(took) => ClearKeepsInv(w, took);
    case PollTick => PollKeepsInv(w);
  }

  // ---------------------------------------------------------------- nothing else is missing

  lemma LocalKeepsAccount(w: World, lost: set<nat>, id: nat, e: P.Event, j: nat)
    requires TrackerOk(w) && Enabled(w, Local(id, e)) && j in w.procs && Accounted(w, lost, j)
    ensures j in ApplyLocal(w, id, e).procs
    ensures Accounted(ApplyLocal(w, id, e), lost + Victims(w, Local(id, e)), j)
  {
    LifeOfStep(w.procs[id], e);
    LocalEffect(w, id, e);
    assert Spawns(w.procs[id], e) ==> !Running(w.procs[j], e.spawn.pid.value);
    hide P.Step, P.Enabled, ApplyLocal, S.Perform;
  }

  /** Who is tracked after an event, and who is not. */
  lemma LocalTracks(w: World, lost: set<nat>, id: nat, e: P.Event, pid: int)
    requires Inv(w) && CompleteBut(w, lost) && Enabled(w, Local(id, e)) && pid in ApplyLocal(w, id, e).byPid
    ensures ApplyLocal(w, id, e).byPid[pid] !in lost + Victims(w, Local(id, e))
  {
    LocalEffect(w, id, e);
    hide P.Step, P.Enabled, ApplyLocal, S.Perform, Accounted;
    assert Spawns(w.procs[id], e) ==> id !in lost;
    assert pid in w.byPid ==> Running(w.procs[w.byPid[pid]], pid);
    if Hits(w, Local(id, e)) {
      var hit := w.procs[id].child.pid.value;
      assert Running(w.procs[w.byPid[hit]], hit);
    }
  }

  lemma LocalKeepsComplete(w: World, lost: set<nat>, id: nat, e: P.Event)
    requires Inv(w) && CompleteBut(w, lost) && Enabled(w, Local(id, e))
    ensures CompleteBut(ApplyLocal(w, id, e), lost + Victims(w, Local(id, e)))
  {
    var v, more := ApplyLocal(w, id, e), lost + Victims(w, Local(id, e));
    LocalEffect(w, id, e);
    assert AllStarted(w, more) by {
      hide P.Step, P.Enabled, ApplyLocal, S.Perform, Accounted;
    }
    LocalKeepsStarted(w, id, e, more);
    forall pid | pid in v.byPid ensures v.byPid[pid] !in more {
      LocalTracks(w, lost, id, e, pid);
    }
    hide P.Step, P.Enabled, ApplyLocal, S.Perform, Victims, Accounted, AllStarted;
    forall j | j in v.procs ensures Accounted(v, more, j) {
      LocalKeepsAccount(w, lost, id, e, j);
    }
  }

  lemma ClearKeepsAccount(w: World, lost: set<nat>, took: real, id: nat)
    requires took >= 0.0 && id in w.procs && Accounted(w, lost, id) && AllExplained(w)
    ensures id in Clear(w, took).procs && Accounted(Clear(w, took), lost, id)
  {
    ClearedProcs(w, took);
    hide P.Step, P.Enabled, AllExplained;
    assert Clear(w, took).dropped == w.dropped + TrackedIds(w);
    hide Clear;
    var p := w.procs[id];
    if Alive(p) && !p.life.failed && id !in w.dropped && id !in lost {
      var pid := p.child.pid.value;
      assert pid in w.byPid && w.byPid[pid] == id;
      assert w.byPid[pid] in TrackedIds(w);
    }
  }

  lemma ClearKeepsComplete(w: World, lost: set<nat>, took: real)
    requires Inv(w) && CompleteBut(w, lost) && took >= 0.0
    ensures CompleteBut(Clear(w, took), lost)
  {
    ClearedProcs(w, took);
    ClearKeepsStarted(w, took, lost);
    var v := Clear(w, took);
    assert v.byPid == map[];
    hide P.Step, P.Enabled, AllExplained, Clear, Accounted, AllStarted;
    forall id | id in v.procs ensures Accounted(v, lost, id) {
      ClearKeepsAccount(w, lost, took, id);
    }
  }

  lemma StepKeepsComplete(w: World, lost: set<nat>, s: Step)
    requires Inv(w) && CompleteBut(w, lost) && Enabled(w, s)
    ensures CompleteBut(Apply(w, s), lost + Victims(w, s))
  {
    match s
    case Local(id, e) =>
      hide Inv, ApplyLocal, CompleteBut, P.Enabled, Victims;
      LocalKeepsComplete(w, lost, id, e);
    case ClearTracker(took) =>
      ClearNeverThrows(w);
      hide Inv, Clear, CompleteBut;
      assert lost + Victims(w, s) == lost;
      ClearKeepsComplete(w, lost, took);
    case PollTick =>
      PollKeepsInv(w);
      hide Inv, Poll;
      assert lost + Victims(w, s) == lost;
    case Create(id) =>
      hide Inv;
      assert lost + Victims(w, s) == lost;
  }

  // ---------------------------------------------------------------- runs

  ghost predicate Legal(steps: seq<Step>)
    decreases |steps|, 0
  {
    steps == [] || (Legal(steps[..|steps| - 1]) && Enabled(Exec(steps[..|steps| - 1]), steps[|steps| - 1]))
  }

  ghost function Exec(steps: seq<Step>): World
    requires Legal(steps)
    decreases |steps|, 1
  {
    if steps == [] then Init() else Apply(Exec(steps[..|steps| - 1]), steps[|steps| - 1])
  }

  lemma {:induction false} ReachableInv(steps: seq<Step>)
    requires Legal(steps)
    ensures Inv(Exec(steps))
  {
    if steps != [] {
      hide Inv, Apply, Enabled;
      ReachableInv(steps[..|steps| - 1]);
      StepKeepsInv(Exec(steps[..|steps| - 1]), steps[|steps| - 1]);
    }
  }

  /** The processes whose tracking was removed by an event of another process. */
  ghost function Lost(steps: seq<Step>): set<nat>
    requires Legal(steps)
  {
    if steps == [] then {}
    else Lost(steps[..|steps| - 1]) + Victims(Exec(steps[..|steps| - 1]), steps[|steps| - 1])
  }

  lemma {:induction false} ReachableComplete(steps: seq<Step>)
    requires Legal(steps)
    ensures CompleteBut(Exec(steps), Lost(steps))
  {
    if steps != [] {
      var before := steps[..|steps| - 1];
      hide Inv, Apply, Enabled, CompleteBut, Victims;
      ReachableInv(before);
      ReachableComplete(before);
      StepKeepsComplete(Exec(before), Lost(before), steps[|steps| - 1]);
    }
  }

  /** In every state of every run: the pid set is the key set of the map; a process is tracked, under
      its own pid, exactly if it is running, had no process error, was not let go by a `clear()` and was
      not lost to an event of another process; `clear()` cannot throw and `cleanUp()` finds nothing. */
  lemma TrackedIffRunning(steps: seq<Step>, id: nat, pid: int)
    requires Legal(steps) && id in Exec(steps).procs
    ensures var w := Exec(steps);
      && w.pids.items == w.byPid.Keys
      && ((pid in w.byPid && w.byPid[pid] == id) <==>
            Running(w.procs[id], pid) && !w.procs[id].life.failed && id !in w.dropped && id !in Lost(steps))
      && (pid in w.byPid && w.byPid[pid] == id ==> !P.Stopped(w.procs[id]))
      && !ClearThrows(w)
      && Terminated(w) == {}
  {
    ReachableInv(steps);
    ReachableComplete(steps);
    var w := Exec(steps);
    ClearNeverThrows(w);
    CleanUpFindsNothing(w);
    ExplainedFacts(w.procs[id]);
    hide Exec, Legal, Lost, ClearThrows, Terminated, Explained, P.KillsOk, S.Valid, AllStarted;
    assert Accounted(w, Lost(steps), id);
  }

  /** One process under `clear()`. */
  ghost predicate StoppedByClear(w: World, v: World, id: nat)
    requires id in w.procs && id in v.procs
  {
    var p, k, l := w.procs[id], w.procs[id].stopping, v.procs[id].stopping;
    if id in TrackedIds(w) && !p.life.stdinDestroyed
    then
      && l.calls == k.calls + 1 && k.kills + [P.Polite(k.calls, None)] <= l.kills
      && (k.calls in l.waits || P.Killed(l, k.calls))
    else v.procs[id] == p
  }

  lemma ClearOneProcess(w: World, took: real, id: nat)
    requires Inv(w) && took >= 0.0 && id in w.procs
    ensures StoppedByClear(w, Clear(w, took), id)
  {
    var p := w.procs[id];
    ExplainedFacts(p);
    if id in TrackedIds(w) && !p.life.stdinDestroyed {
      assert Alive(p);
      hide Inv, P.SendStop;
      P.ForcedStopSent(p, None, took);
    } else {
      hide Inv, P.SendStop;
    }
  }

  /** `clear()` sends a forced stop to every tracked process whose stdin is not destroyed and touches
      no other, and it leaves the tracker empty, its timer still running if there was anything in it. */
  lemma ClearStopsExactlyTheTracked(steps: seq<Step>, took: real)
    requires Legal(steps) && took >= 0.0
    ensures var w := Exec(steps);
      var v := Apply(w, ClearTracker(took));
      && v.byPid == map[] && v.pids.items == {}
      && (v.pids.pollTimer.Some? <==> w.pids.items != {})
      && v.procs.Keys == w.procs.Keys
      && forall id | id in w.procs :: StoppedByClear(w, v, id)
  {
    var w := Exec(steps);
    ReachableInv(steps);
    ClearNeverThrows(w);
    assert S.Valid(w.pids);
    hide Inv, StoppedByClear, P.Step;
    forall id | id in w.procs ensures StoppedByClear(w, Clear(w, took), id) {
      ClearOneProcess(w, took, id);
    }
  }

  // ---------------------------------------------------------------- late errors and reused pids

  /** Only an 'error' that comes after the child has ended can do that ... */
  lemma HitsOnlyByLateError(w: World, s: Step)
    requires Inv(w) && Enabled(w, s) && Hits(w, s)
    ensures s.event.ProcessError? && (w.procs[s.id].life.exited || w.procs[s.id].life.closed)
  {
    var pid := w.procs[s.id].child.pid.value;
    assert Running(w.procs[w.byPid[pid]], pid);
    assert !Running(w.procs[s.id], pid);
  }

  /** ... and then a running process, which nothing has let go, is not tracked any more. */
  lemma HitLosesAnother(w: World, s: Step)
    requires Inv(w) && Enabled(w, s) && Hits(w, s)
    ensures var pid := w.procs[s.id].child.pid.value;
      var other, v := w.byPid[pid], Apply(w, s);
      && other in v.procs && v.procs[other] == w.procs[other] && Running(v.procs[other], pid)
      && !v.procs[other].life.failed && other !in v.dropped && pid !in v.byPid
  {
    hide P.Step, P.Enabled;
  }

  /** Nothing that should be tracked is missing. */
  ghost predicate Complete(w: World) {
    CompleteBut(w, {})
  }

  lemma HitBreaksComplete(w: World, s: Step)
    requires Inv(w) && Enabled(w, s) && Hits(w, s)
    ensures !Complete(Apply(w, s))
  {
    HitLosesAnother(w, s);
    var other := w.byPid[w.procs[s.id].child.pid.value];
    hide Apply, Inv, Enabled, Hits, AllStarted;
    assert !Accounted(Apply(w, s), {}, other);
  }

  /** A step from a complete state leaves a complete one exactly if it does not hit another process. */
  lemma StepKeepsCompleteIff(w: World, s: Step)
    requires Inv(w) && Complete(w) && Enabled(w, s)
    ensures Complete(Apply(w, s)) <==> !Hits(w, s)
  {
    hide Inv, Apply, Enabled, Hits, CompleteBut;
    if Hits(w, s) {
      HitBreaksComplete(w, s);
    } else {
      StepKeepsComplete(w, {}, s);
      assert {} + Victims(w, s) == {};
    }
  }

  /** No event untracked another process than its own. */
  ghost predicate Undisturbed(steps: seq<Step>)
    requires Legal(steps)
  {
    steps != [] ==> Undisturbed(steps[..|steps| - 1]) && !Hits(Exec(steps[..|steps| - 1]), steps[|steps| - 1])
  }

  ghost predicate AlwaysComplete(steps: seq<Step>)
    requires Legal(steps)
  {
    Complete(Exec(steps)) && (steps != [] ==> AlwaysComplete(steps[..|steps| - 1]))
  }

  /** Over whole runs: nothing is ever missing exactly if no event hits another process, that is, if no
      process is lost. */
  lemma {:induction false} UndisturbedIff(steps: seq<Step>)
    requires Legal(steps)
    ensures AlwaysComplete(steps) <==> Undisturbed(steps)
    ensures Undisturbed(steps) <==> Lost(steps) == {}
  {
    if steps != [] {
      var before := steps[..|steps| - 1];
      hide Inv, Apply, Enabled, Hits, Complete;
      UndisturbedIff(before);
      ReachableInv(before);
      if AlwaysComplete(before) {
        StepKeepsCompleteIff(Exec(before), steps[|steps| - 1]);
      }
    }
  }

  /** Each spawn got a pid that no child before it ever had. */
  predicate NewPid(w: World, s: Step)
    requires Enabled(w, s)
  {
    s.Local? && Spawns(w.procs[s.id], s.event) ==>
      forall id | id in w.procs :: w.procs[id].child.Started? ==> w.procs[id].child.pid != s.event.spawn.pid
  }

  ghost predicate NeverReused(steps: seq<Step>)
    requires Legal(steps)
  {
    steps != [] ==> NeverReused(steps[..|steps| - 1]) && NewPid(Exec(steps[..|steps| - 1]), steps[|steps| - 1])
  }

  /** No two children share a pid, ended ones included. */
  ghost predicate AllPidsDistinct(w: World) {
    forall i, j | i in w.procs && j in w.procs && w.procs[i].child.Started? && w.procs[j].child.Started?
                  && w.procs[i].child.pid.Some? && w.procs[i].child.pid == w.procs[j].child.pid :: i == j
  }

  /** Which pid a process has, if any, after a step. */
  lemma ChildOfStep(w: World, s: Step, id: nat)
    requires AllExplained(w) && Enabled(w, s) && id in w.procs
    ensures id in Apply(w, s).procs
    ensures var p, q := w.procs[id], Apply(w, s).procs[id];
      (q.child.Started? && q.child.pid.Some?) ==>
        || (p.child.Started? && p.child.pid == q.child.pid)
        || (s.Local? && s.id == id && Spawns(p, s.event) && q.child.pid == s.event.spawn.pid)
  {
    match s
    case Local(i, e) =>
      LifeOfStep(w.procs[i], e);
      LocalEffect(w, i, e);
      hide P.Step, P.Enabled, ApplyLocal, S.Perform, AllExplained;
    case ClearTracker(took) =>
      ClearedProcs(w, took);
      hide P.Step, Clear, AllExplained, ClearThrows;
    case _ =>
      hide AllExplained;
  }

  lemma StepKeepsAllDistinct(w: World, s: Step)
    requires Inv(w) && AllPidsDistinct(w) && Enabled(w, s) && NewPid(w, s)
    ensures AllPidsDistinct(Apply(w, s))
  {
    var v := Apply(w, s);
    forall id | id in v.procs ensures id in w.procs || v.procs[id].child.NotStarted? {
      hide P.Step, P.Enabled;
    }
    assert AllExplained(w);
    hide Apply, Inv, AllExplained, P.Enabled;
    forall i, j | i in v.procs && j in v.procs && v.procs[i].child.Started? && v.procs[j].child.Started?
                  && v.procs[i].child.pid.Some? && v.procs[i].child.pid == v.procs[j].child.pid ensures i == j {
      ChildOfStep(w, s, i);
      ChildOfStep(w, s, j);
    }
  }

  /** Without pid reuse every run is undisturbed, however late its errors are. */
  lemma {:induction false} NeverReusedIsUndisturbed(steps: seq<Step>)
    requires Legal(steps) && NeverReused(steps)
    ensures Undisturbed(steps) && AllPidsDistinct(Exec(steps))
  {
    if steps != [] {
      var before := steps[..|steps| - 1];
      NeverReusedIsUndisturbed(before);
      ReachableInv(before);
      NoHitIfDistinct(Exec(before), steps[|steps| - 1]);
      hide Apply, Enabled, Inv, AllPidsDistinct, Hits, NewPid;
      StepKeepsAllDistinct(Exec(before), steps[|steps| - 1]);
    }
  }

  lemma NoHitIfDistinct(w: World, s: Step)
    requires Inv(w) && AllPidsDistinct(w) && Enabled(w, s)
    ensures !Hits(w, s)
  {
    hide P.Enabled, P.Step;
    if s.Local? && Disposes(w.procs[s.id], s.event) && w.procs[s.id].child.pid.value in w.byPid {
      var pid := w.procs[s.id].child.pid.value;
      assert Running(w.procs[w.byPid[pid]], pid);
    }
  }

  lemma ExecStep(steps: seq<Step>, step: Step)
    requires Legal(steps) && Enabled(Exec(steps), step)
    ensures Legal(steps + [step]) && Exec(steps + [step]) == Apply(Exec(steps), step)
  {
    hide Enabled, Apply;
    assert (steps + [step])[..|steps + [step]| - 1] == steps;
  }

  /** Two objects, the first of which has ended and the second of which runs under the same pid. */
  lemma PidReusedRun(options: P.RunOptions, pid: int) returns (steps: seq<Step>)
    ensures Legal(steps)
    ensures var w := Exec(steps);
      && 0 in w.procs && w.procs[0].child == P.Started(Some(pid), options) && w.procs[0].life.exited
      && 1 in w.procs && Running(w.procs[1], pid) && !w.procs[1].life.failed
      && w.byPid == map[pid := 1] && w.dropped == {}
  {
    var run, exit := P.Run(options, P.Spawned(Some(pid))), P.Exit(Some(0), None);
    assert Legal([]) && Exec([]) == Init();
    ExecStep([], Create(0));
    ExecStep([] + [Create(0)], Create(1));
    steps := [] + [Create(0)] + [Create(1)];
    hide Exec, Legal, P.MakeResult;
    ExecStep(steps, Local(0, run));
    steps := steps + [Local(0, run)];
    assert Exec(steps).byPid == map[pid := 0];
    ExecStep(steps, Local(0, exit));
    steps := steps + [Local(0, exit)];
    assert Exec(steps).byPid == map[];
    ExecStep(steps, Local(1, run));
    steps := steps + [Local(1, run)];
  }

  /** With a reused pid, a late 'error' of the first child makes the tracker lose the second one. */
  lemma PidReuseLosesAnother(options: P.RunOptions, pid: int, error: string) returns (steps: seq<Step>)
    ensures Legal(steps) && !Undisturbed(steps)
    ensures var w := Exec(steps);
      1 in w.procs && Running(w.procs[1], pid) && !w.procs[1].life.failed && 1 !in w.dropped && pid !in w.byPid
  {
    var before := PidReusedRun(options, pid);
    var step := Local(0, P.ProcessError(error, 0.0));
    ExecStep(before, step);
    steps := before + [step];
    assert steps[..|steps| - 1] == before;
    hide Exec, Legal, P.Step;
    assert Hits(Exec(before), step);
  }
}

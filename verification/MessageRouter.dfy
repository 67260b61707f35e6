/**
  The request/response protocol between the extension host and the chat webview:
  `registerHandlerWithResponseRouter` of client/vscode/src/chatActivation.ts on one side, and `openTab`
  and `getSerializedChat` of chat-client/src/client/mynahUi.ts with their reply framing in
  chat-client/src/client/chat.ts on the other.  Messages may be delayed, overtaken or lost.
 */
module MessageRouter {
  import opened Wrappers

  const REQUEST_TIMEOUT := 30000

  /** An empty `tabId` is an absent one. */
  datatype Request = OpenTab(tabId: string) | GetSerializedChat(tabId: string, format: string)

  datatype Value = TabId(tabId: string) | Content(content: string)

  /** The `params` of a reply. */
  datatype Payload = Success(result: Value) | ErrorReply(kind: string, message: string)

  /** What the UI library contributes: the selected tab, whether selecting a tab throws, the tab it
      creates if there is room, and the serialized chat unless serializing throws. */
  datatype Ui = Ui(selected: string, selectThrows: bool, newTab: Option<string>, serialized: Option<string>)

  datatype ErrorCode = InvalidRequest | InternalError | UnknownErrorCode

  datatype Response = Result(value: Value) | ResponseError(code: ErrorCode, message: string) | Rejected(error: string)

  /** The webview's handler: the one reply it sends, or none if it throws. */
  function Handle(r: Request, ui: Ui): Option<Payload> {
    match r
    case OpenTab(tabId) =>
      if tabId != "" then
        if tabId != ui.selected && ui.selectThrows then None else Some(Success(TabId(tabId)))
      else if ui.newTab.Some? && ui.newTab.value != "" then Some(Success(TabId(ui.newTab.value)))
      else Some(ErrorReply("InvalidRequest", "No more tabs available"))
    case GetSerializedChat(tabId, format) =>
      if format != "markdown" && format != "html" then
        Some(ErrorReply("InvalidRequest", "Failed to get serialized chat content, " + format + " is not supported"))
      else if ui.serialized.Some? then Some(Success(Content(ui.serialized.value)))
      else Some(ErrorReply("InternalError", "Failed to get serialized chat content"))
  }

  function MapErrorType(kind: string): ErrorCode {
    if kind == "InvalidRequest" then InvalidRequest
    else if kind == "InternalError" then InternalError
    else UnknownErrorCode
  }

  /** The host's side of one request. */
  datatype Entry = Waiting(posted: int) | Answered(payload: Payload) | TimedOut(posted: int, at: int)

  /** What the language server gets back. */
  function Respond(e: Entry): Response
    requires !e.Waiting?
  {
    match e
    case Answered(Success(value)) => Result(value)
    case Answered(ErrorReply(kind, message)) => ResponseError(MapErrorType(kind), message)
    case TimedOut(_, _) => Rejected("Request timed out")
  }

  // ---------------------------------------------------------------- the two parties and the channels

  /** `handled` records the UI that the webview saw when it handled a request, and `replies` how many
      replies it has sent for it; `lost` are the ids of messages that were dropped. */
  datatype System = System(
    now: int, requests: map<nat, Request>, host: map<nat, Entry>,
    toWebview: set<nat>, handled: map<nat, Ui>, replies: map<nat, nat>,
    toHost: multiset<(nat, Payload)>, lost: set<nat>)

  datatype Step =
    | Tick(passed: nat)
    | Post(id: nat, request: Request)
    | DeliverRequest(id: nat, ui: Ui)
    | DropRequest(id: nat)
    | DeliverReply(id: nat, payload: Payload)
    | DropReply(id: nat, payload: Payload)
    | Timeout(id: nat)

  function Init(): System {
    System(0, map[], map[], {}, map[], map[], multiset{}, {})
  }

  /** Request ids are fresh, and a timer fires only while it is armed and when it is due. */
  predicate Enabled(s: System, step: Step) {
    match step
    case Tick(_) => true
    case Post(id, _) => id !in s.requests
    case DeliverRequest(id, _) => id in s.toWebview && id in s.requests
    case DropRequest(id) => id in s.toWebview
    case DeliverReply(id, payload) => (id, payload) in s.toHost
    case DropReply(id, payload) => (id, payload) in s.toHost
    case Timeout(id) => id in s.host && s.host[id].Waiting? && s.now >= s.host[id].posted + REQUEST_TIMEOUT
  }

  function Apply(s: System, step: Step): System
    requires Enabled(s, step)
  {
    match step
    case Tick(passed) => s.(now := s.now + passed)
    case Post(id, request) =>
      s.(requests := s.requests[id := request], host := s.host[id := Waiting(s.now)], toWebview := s.toWebview + {id})
    case DeliverRequest(id, ui) =>
      var reply := Handle(s.requests[id], ui);
      var t := s.(toWebview := s.toWebview - {id}, handled := s.handled[id := ui]);
      if reply.None? then t
      else t.(toHost := t.toHost + multiset{(id, reply.value)},
              replies := t.replies[id := (if id in t.replies then t.replies[id] else 0) + 1])
    case DropRequest(id) => s.(toWebview := s.toWebview - {id}, lost := s.lost + {id})
    case DeliverReply(id, payload) =>
      Receive(s.(toHost := s.toHost - multiset{(id, payload)}), id, payload)
    case DropReply(id, payload) => s.(toHost := s.toHost - multiset{(id, payload)}, lost := s.lost + {id})
    case Timeout(id) => s.(host := s.host[id := TimedOut(s.host[id].posted, s.now)])
  }

  /** Only the listener of a request that is still waiting is registered. */
  function Receive(s: System, id: nat, payload: Payload): System {
    if id in s.host && s.host[id].Waiting? then s.(host := s.host[id := Answered(payload)]) else s
  }

  // ---------------------------------------------------------------- invariants

  /** The reply that the webview produced for a request, if it has handled it and replied at all. */
  ghost function ReplyOf(s: System, id: nat): Option<Payload> {
    if id in s.requests && id in s.handled then Handle(s.requests[id], s.handled[id]) else None
  }

  /** Requests: a request is on its way, lost or handled, and is handled at most once. */
  ghost predicate RequestOk(s: System, id: nat) {
    && (id in s.requests <==> id in s.host)
    && (id in s.toWebview ==> id in s.requests && id !in s.handled && id !in s.lost)
    && (id in s.handled || id in s.lost ==> id in s.requests)
    && (id in s.replies <==> ReplyOf(s, id).Some?)
    && (id in s.replies ==> s.replies[id] == 1)
  }

  /** Replies: what is on its way to the host is the one reply the webview produced for that id. */
  ghost predicate ReplyOk(s: System, id: nat) {
    forall payload | (id, payload) in s.toHost ::
      && ReplyOf(s, id) == Some(payload) && s.toHost[(id, payload)] == 1
      && id !in s.lost && id in s.host && !s.host[id].Answered?
  }

  /** The host: an answer is the webview's reply, a timeout is due, and no waiting request is
      forgotten: it or its reply is on its way, or was lost, or the handler threw. */
  ghost predicate EntryOk(s: System, id: nat) {
    id in s.host ==>
      match s.host[id]
      case Waiting(posted) =>
        && posted <= s.now
        && (id in s.toWebview || id in s.lost || id in s.handled)
        && (ReplyOf(s, id).Some? ==> id in s.lost || (id, ReplyOf(s, id).value) in s.toHost)
      case Answered(payload) => ReplyOf(s, id) == Some(payload) && id !in s.lost
      case TimedOut(posted, at) => posted + REQUEST_TIMEOUT <= at <= s.now
  }

  ghost predicate IdOk(s: System, id: nat) {
    RequestOk(s, id) && ReplyOk(s, id) && EntryOk(s, id)
  }

  ghost predicate Inv(s: System) {
    forall id: nat :: IdOk(s, id)
  }

  lemma HostStepKeepsId(s: System, step: Step, id: nat)
    requires IdOk(s, id) && Enabled(s, step) && (step.Tick? || step.Post? || step.Timeout?)
    ensures IdOk(Apply(s, step), id)
  {
    hide Handle;
  }

  lemma DropRequestKeepsId(s: System, dropped: nat, id: nat)
    requires IdOk(s, id) && Enabled(s, DropRequest(dropped))
    ensures IdOk(Apply(s, DropRequest(dropped)), id)
  {
    hide Handle;
  }

  /** A request that is handled, seen from another one. */
  lemma DeliverKeepsOther(s: System, handled: nat, ui: Ui, id: nat)
    requires IdOk(s, id) && Enabled(s, DeliverRequest(handled, ui)) && id != handled
    ensures IdOk(Apply(s, DeliverRequest(handled, ui)), id)
  {
    hide Handle;
    var t := Apply(s, DeliverRequest(handled, ui));
    assert ReplyOf(t, id) == ReplyOf(s, id);
    assert forall payload :: t.toHost[(id, payload)] == s.toHost[(id, payload)];
    hide Apply, Enabled, ReplyOf;
  }

  lemma DeliverKeepsOwn(s: System, id: nat, ui: Ui)
    requires IdOk(s, id) && Enabled(s, DeliverRequest(id, ui))
    ensures IdOk(Apply(s, DeliverRequest(id, ui)), id)
  {
    hide Handle;
    var t := Apply(s, DeliverRequest(id, ui));
    assert ReplyOf(s, id).None? && ReplyOf(t, id) == Handle(s.requests[id], ui);
    forall payload ensures (id, payload) !in s.toHost {
    }
    assert RequestOk(t, id);
    assert EntryOk(t, id);
    assert ReplyOk(t, id);
  }

  lemma RequestStepKeepsId(s: System, step: Step, id: nat)
    requires IdOk(s, id) && Enabled(s, step) && (step.DeliverRequest? || step.DropRequest?)
    ensures IdOk(Apply(s, step), id)
  {
    hide IdOk, Apply, Enabled;
    if step.DropRequest? {
      DropRequestKeepsId(s, step.id, id);
    } else if step.id == id {
      DeliverKeepsOwn(s, id, step.ui);
    } else {
      DeliverKeepsOther(s, step.id, step.ui, id);
    }
  }

  lemma ReplyStepKeepsId(s: System, step: Step, id: nat)
    requires IdOk(s, id) && Enabled(s, step) && (step.DeliverReply? || step.DropReply?)
    ensures IdOk(Apply(s, step), id)
  {
    hide Handle;
  }

  lemma StepKeepsInv(s: System, step: Step)
    requires Inv(s) && Enabled(s, step)
    ensures Inv(Apply(s, step))
  {
    forall id: nat ensures IdOk(Apply(s, step), id) {
      hide IdOk, Apply, Enabled;
      if step.DeliverRequest? || step.DropRequest? {
        RequestStepKeepsId(s, step, id);
      } else if step.DeliverReply? || step.DropReply? {
        ReplyStepKeepsId(s, step, id);
      } else {
        HostStepKeepsId(s, step, id);
      }
    }
  }

  // ---------------------------------------------------------------- runs

  ghost predicate Legal(steps: seq<Step>)
    decreases |steps|, 0
  {
    steps == [] || (Legal(steps[..|steps| - 1]) && Enabled(Exec(steps[..|steps| - 1]), steps[|steps| - 1]))
  }

  ghost function Exec(steps: seq<Step>): System
    requires Legal(steps)
    decreases |steps|, 1
  {
    if steps == [] then Init() else Apply(Exec(steps[..|steps| - 1]), steps[|steps| - 1])
  }

  lemma {:induction false} ReachableInv(steps: seq<Step>)
    requires Legal(steps)
    ensures Inv(Exec(steps))
  {
    if steps != [] {
      hide Inv, Apply, Enabled;
      ReachableInv(steps[..|steps| - 1]);
      StepKeepsInv(Exec(steps[..|steps| - 1]), steps[|steps| - 1]);
    }
  }

  /** The error types of the webview, and everything else, as error codes. */
  lemma ErrorCodeIff(kind: string)
    ensures MapErrorType(kind) == InvalidRequest <==> kind == "InvalidRequest"
    ensures MapErrorType(kind) == InternalError <==> kind == "InternalError"
    ensures MapErrorType(kind) == UnknownErrorCode <==> kind !in ["InvalidRequest", "InternalError"]
  {
  }

  /** The webview's one reply, in terms of the request and the UI, and the response it becomes. */
  lemma ReplyIs(r: Request, ui: Ui)
    ensures Handle(r, ui).None? <==> r.OpenTab? && r.tabId !in ["", ui.selected] && ui.selectThrows
    ensures Handle(r, ui).Some? ==>
      var response := Respond(Answered(Handle(r, ui).value));
      match r
      case OpenTab(tabId) =>
        if tabId != "" then response == Result(TabId(tabId))
        else if ui.newTab.Some? && ui.newTab.value != "" then response == Result(TabId(ui.newTab.value))
        else response == ResponseError(InvalidRequest, "No more tabs available")
      case GetSerializedChat(_, format) =>
        if format !in ["markdown", "html"] then
          response == ResponseError(
            InvalidRequest, "Failed to get serialized chat content, " + format + " is not supported")
        else if ui.serialized.Some? then response == Result(Content(ui.serialized.value))
        else response == ResponseError(InternalError, "Failed to get serialized chat content")
  {
  }

  /** An answered request got the one reply that the webview sent for that very request, and the
      language server gets what the request and the UI that handled it call for. */
  lemma AnswerBelongsToRequest(steps: seq<Step>, id: nat)
    requires Legal(steps) && id in Exec(steps).host && Exec(steps).host[id].Answered?
    ensures var s := Exec(steps);
      && id in s.requests && id in s.handled && id in s.replies && s.replies[id] == 1
      && Handle(s.requests[id], s.handled[id]) == Some(s.host[id].payload)
    ensures var s := Exec(steps);
      var ui, response := s.handled[id], Respond(s.host[id]);
      match s.requests[id]
      case OpenTab(tabId) =>
        if tabId != "" then response == Result(TabId(tabId))
        else if ui.newTab.Some? && ui.newTab.value != "" then response == Result(TabId(ui.newTab.value))
        else response == ResponseError(InvalidRequest, "No more tabs available")
      case GetSerializedChat(_, format) =>
        if format !in ["markdown", "html"] then
          response == ResponseError(
            InvalidRequest, "Failed to get serialized chat content, " + format + " is not supported")
        else if ui.serialized.Some? then response == Result(Content(ui.serialized.value))
        else response == ResponseError(InternalError, "Failed to get serialized chat content")
  {
    ReachableInv(steps);
    var s := Exec(steps);
    assert IdOk(s, id);
    ReplyIs(s.requests[id], s.handled[id]);
    hide Exec, Legal, Handle, Respond, Inv;
  }

  /** No step touches a settled entry; in particular a reply that arrives after the timeout changes
      nothing but the channel. */
  lemma StepKeepsSettled(s: System, step: Step, id: nat)
    requires IdOk(s, id) && Enabled(s, step) && id in s.host && !s.host[id].Waiting?
    ensures id in Apply(s, step).host && Apply(s, step).host[id] == s.host[id]
    ensures step.DeliverReply? && step.id == id ==>
      Apply(s, step) == s.(toHost := s.toHost - multiset{(id, step.payload)})
  {
    hide Handle;
  }

  /** Once settled, always settled the same way. */
  lemma {:induction false} SettledForever(steps: seq<Step>, i: nat, id: nat)
    requires Legal(steps) && i <= |steps| && Legal(steps[..i])
    requires id in Exec(steps[..i]).host && !Exec(steps[..i]).host[id].Waiting?
    ensures id in Exec(steps).host && Exec(steps).host[id] == Exec(steps[..i]).host[id]
  {
    if i < |steps| {
      var before := steps[..|steps| - 1];
      hide Apply, Enabled, IdOk;
      assert before[..i] == steps[..i];
      SettledForever(before, i, id);
      ReachableInv(before);
      assert IdOk(Exec(before), id);
      StepKeepsSettled(Exec(before), steps[|steps| - 1], id);
    } else {
      assert steps[..i] == steps;
    }
  }

  lemma StepTimesOutIff(s: System, step: Step, id: nat)
    requires IdOk(s, id) && Enabled(s, step)
    ensures var t := Apply(s, step);
      (id in t.host && t.host[id].TimedOut?) <==> (id in s.host && s.host[id].TimedOut?) || step == Timeout(id)
  {
    hide Handle;
  }

  /** A request is rejected as timed out exactly if its timer fired at some point of the run. */
  lemma {:induction false} RejectedIffTimerFired(steps: seq<Step>, id: nat)
    requires Legal(steps)
    ensures var s := Exec(steps);
      (id in s.host && !s.host[id].Waiting? && Respond(s.host[id]) == Rejected("Request timed out")) <==>
      Timeout(id) in steps
    ensures var s := Exec(steps);
      id in s.host && s.host[id].TimedOut? ==> s.host[id].at - s.host[id].posted >= 30000
  {
    ReachableInv(steps);
    assert IdOk(Exec(steps), id);
    if steps != [] {
      var before, step := steps[..|steps| - 1], steps[|steps| - 1];
      RejectedIffTimerFired(before, id);
      ReachableInv(before);
      assert IdOk(Exec(before), id);
      assert steps == before + [step];
      hide Apply, Enabled, IdOk;
      StepTimesOutIff(Exec(before), step, id);
    }
  }

  lemma ExecStep(steps: seq<Step>, step: Step)
    requires Legal(steps) && Enabled(Exec(steps), step)
    ensures Legal(steps + [step]) && Exec(steps + [step]) == Apply(Exec(steps), step)
  {
    hide Enabled, Apply;
    assert (steps + [step])[..|steps + [step]| - 1] == steps;
  }

  lemma TimerCanFire(s: System, id: nat)
    requires id in s.host && s.host[id].Waiting? && s.host[id].posted <= s.now
    ensures var t := Apply(s, Tick(30000));
      && Enabled(t, Timeout(id))
      && Apply(t, Timeout(id)).host == s.host[id := TimedOut(s.host[id].posted, s.now + 30000)]
  {
  }

  /** No request can be kept waiting: after 30 s its timer may fire, whatever happened before, and that
      rejects it and touches no other request. */
  lemma TimerReleasesEveryWait(steps: seq<Step>, id: nat)
    requires Legal(steps) && id in Exec(steps).host && Exec(steps).host[id].Waiting?
    ensures var s, late := Exec(steps), steps + [Tick(30000)] + [Timeout(id)];
      && Legal(late)
      && Exec(late).host == s.host[id := TimedOut(s.host[id].posted, s.now + 30000)]
      && Respond(Exec(late).host[id]) == Rejected("Request timed out")
  {
    ReachableInv(steps);
    assert Exec(steps).host[id].posted <= Exec(steps).now by {
      hide Exec, Legal, ReplyOk, RequestOk;
      assert IdOk(Exec(steps), id);
    }
    TimerCanFire(Exec(steps), id);
    hide Exec, Legal, Inv, Apply;
    ExecStep(steps, Tick(30000));
    ExecStep(steps + [Tick(30000)], Timeout(id));
  }

  /** When nothing is on its way any more, a request still waits only if a message of its was lost or
      the webview's handler threw, which only selecting another tab can do. */
  lemma QuiescentWaitExplained(steps: seq<Step>, id: nat)
    requires Legal(steps) && id in Exec(steps).host && Exec(steps).host[id].Waiting?
    requires Exec(steps).toWebview == {} && Exec(steps).toHost == multiset{}
    ensures var s := Exec(steps);
      && id in s.requests
      && (id in s.lost ||
          (id in s.handled && s.requests[id].OpenTab? && s.handled[id].selectThrows
           && s.requests[id].tabId !in ["", s.handled[id].selected]))
  {
    ReachableInv(steps);
    assert IdOk(Exec(steps), id);
  }

  // ---------------------------------------------------------------- the host's objects

  /** The host half with its listeners, timers and promises.  A request has its listener and its timer
      exactly as long as its promise is open. */
  class ResponseRouter {
    var listeners: set<nat>
    var timers: map<nat, int>
    var settled: map<nat, Entry>

    ghost predicate Valid()
      reads this
    {
      && listeners == timers.Keys
      && listeners !! settled.Keys
      && forall id | id in settled :: !settled[id].Waiting?
    }

    /** The entries of `System.host`. */
    ghost function View(): (h: map<nat, Entry>)
      requires Valid()
      reads this
      ensures h.Keys == listeners + settled.Keys
    {
      map id | id in timers.Keys + settled.Keys :: if id in timers then Waiting(timers[id]) else settled[id]
    }

    constructor ()
      ensures Valid() && View() == map[]
    {
      listeners, timers, settled := {}, map[], map[];
    }

    method Post(id: nat, now: int)
      requires Valid() && id !in View()
      modifies this
      ensures Valid() && View() == old(View())[id := Waiting(now)]
    {
      listeners := listeners + {id};
      timers := timers[id := now];
    }

    /** Every registered listener sees the message; the one with this id takes it. */
    method OnMessage(id: nat, payload: Payload)
      requires Valid()
      modifies this
      ensures Valid()
      ensures View() ==
        if id in old(View()) && old(View())[id].Waiting? then old(View())[id := Answered(payload)] else old(View())
    {
      if id in listeners {
        timers := timers - {id};
        listeners := listeners - {id};
        settled := settled[id := Answered(payload)];
      }
    }

    method OnTimer(id: nat, now: int)
      requires Valid() && id in View() && View()[id].Waiting?
      modifies this
      ensures Valid() && View() == old(View())[id := TimedOut(old(View())[id].posted, now)]
    {
      var posted := timers[id];
      timers := timers - {id};
      listeners := listeners - {id};
      settled := settled[id := TimedOut(posted, now)];
    }
  }
}

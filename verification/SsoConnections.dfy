/**
  The SSO connections of client/vscode/src/sso/connectionBuilder.ts: `SsoAccessTokenProvider` with its two
  caches, and the per-key single flight (`keyedDebounce`) that `SSOConnectionBuilder.getToken` goes
  through.

  An asynchronous call is cut at its awaits.  Each segment is a function of the provider's fields; what
  the server, the user or the clock contributes at an await is a parameter of the next segment.
 */
module SsoConnections {
  import opened Wrappers

  const EXPIRATION_BUFFER := 60000

  datatype Token = Token(accessToken: string, expiresAt: int, refreshToken: Option<string>)

  datatype Registration = Registration(clientId: string, clientSecret: string, expiresAt: int)

  datatype Access = Access(token: Token, registration: Registration)

  datatype Provider = Provider(cachedToken: Option<Access>, cachedRegistration: Option<Registration>)

  datatype Result = Got(token: Token) | Failed(error: string)

  datatype Phase =
    | NeedsToken
    | Registering
    | Authorizing(registration: Registration)
    | Refreshing(access: Access)
    | Finished(result: Result)

  /** What an await came back with. */
  datatype Response = NoResponse | Registered(registration: Registration) | Issued(token: Token) | Error(error: string)

  predicate IsExpired(now: int, expiresAt: int) {
    now + EXPIRATION_BUFFER >= expiresAt
  }

  /** `_getToken` up to its first await: hand out, refresh, or forget and create. */
  function BeginGetToken(p: Provider, now: int): (Provider, Phase) {
    if p.cachedToken.None? then (p, NeedsToken)
    else
      var data := p.cachedToken.value;
      if !IsExpired(now, data.token.expiresAt) then (p, Finished(Got(data.token)))
      else if !IsExpired(now, data.registration.expiresAt) && data.token.refreshToken.Some? then
        (p, Refreshing(data))
      else (Provider(None, None), NeedsToken)
  }

  /** The later segments: `createToken`, `runFlow`, `authorize` and `refreshToken`. */
  function Resume(p: Provider, phase: Phase, response: Response): (Provider, Phase)
    requires Resumable(phase, response)
  {
    if response.Error? then (p, Finished(Failed(response.error)))
    else if phase.NeedsToken? then
      (p, if p.cachedRegistration.None? then Registering else Authorizing(p.cachedRegistration.value))
    else if phase.Registering? then
      (p.(cachedRegistration := Some(response.registration)), Authorizing(response.registration))
    else if phase.Authorizing? then
      (p.(cachedToken := Some(Access(response.token, phase.registration))), Finished(Got(response.token)))
    else
      (p.(cachedToken := Some(Access(response.token, phase.access.registration))), Finished(Got(response.token)))
  }

  predicate Resumable(phase: Phase, response: Response) {
    match phase
    case NeedsToken => response == NoResponse
    case Registering => response.Registered? || response.Error?
    case Authorizing(_) => response.Issued? || response.Error?
    case Refreshing(_) => response.Issued? || response.Error?
    case Finished(_) => false
  }

  // ---------------------------------------------------------------- all connections together

  /** The record of one flow: its connection, when it was launched and what the caches held then, the
      flow of the connection that settled last before it, what came back to it, in order, and the
      registration it called `authorize` with.  The first flow of a connection runs before the
      connection is handed out, outside the debounce. */
  datatype Trace = Trace(
    key: nat, initial: bool, launchedAt: int, found: Provider, previous: Option<nat>,
    heard: seq<Response>, used: Option<Registration>)

  datatype Flow = Flow(trace: Trace, phase: Phase)

  /** A settled flow: what its promise settled with, when, and what it left in the caches. */
  datatype Settled = Settled(trace: Trace, result: Result, at: int, left: Provider)

  /** A call of a connection's `getToken`, the flow whose promise it was given, and when. */
  datatype Joined = Joined(key: nat, flow: nat, at: int)

  /** `last` is the flow of each connection that settled last. */
  datatype System = System(
    now: int, providers: map<nat, Provider>, ready: set<nat>,
    pending: map<nat, nat>, flows: map<nat, Flow>, nextFlow: nat,
    calls: map<nat, Joined>, outcomes: map<nat, Settled>, last: map<nat, nat>)

  datatype Step =
    | Tick(passed: nat)
    | Open(key: nat)
    | Call(caller: nat, key: nat)
    | Advance(flow: nat, response: Response)
    | Settle(flow: nat)

  function Init(): System {
    System(0, map[], {}, map[], map[], 0, map[], map[], map[])
  }

  /** Connection ids are fresh, and a connection can be called once it was handed out. */
  predicate Enabled(s: System, step: Step) {
    match step
    case Tick(_) => true
    case Open(key) => key !in s.providers
    case Call(caller, key) => caller !in s.calls && key in s.ready && key in s.providers
    case Advance(f, response) =>
      f in s.flows && s.flows[f].trace.key in s.providers && Resumable(s.flows[f].phase, response)
    case Settle(f) => f in s.flows && s.flows[f].phase.Finished? && s.flows[f].trace.key in s.providers
  }

  function Launch(s: System, key: nat, initial: bool): System
    requires key in s.providers
  {
    var found := s.providers[key];
    var (p, phase) := BeginGetToken(found, s.now);
    var previous := if key in s.last then Some(s.last[key]) else None;
    s.(providers := s.providers[key := p],
       flows := s.flows[s.nextFlow := Flow(Trace(key, initial, s.now, found, previous, [], None), phase)],
       nextFlow := s.nextFlow + 1)
  }

  /** A flow after an await. */
  function Advanced(flow: Flow, phase: Phase, response: Response): Flow {
    var heard := if response.NoResponse? then flow.trace.heard else flow.trace.heard + [response];
    var used := if phase.Authorizing? then Some(phase.registration) else flow.trace.used;
    Flow(flow.trace.(heard := heard, used := used), phase)
  }

  function Apply(s: System, step: Step): System
    requires Enabled(s, step)
  {
    match step
    case Tick(passed) => s.(now := s.now + passed)
    case Open(key) => Launch(s.(providers := s.providers[key := Provider(None, None)]), key, true)
    case Call(caller, key) =>
      if key in s.pending then s.(calls := s.calls[caller := Joined(key, s.pending[key], s.now)])
      else
        var t := Launch(s, key, false);
        t.(pending := t.pending[key := s.nextFlow], calls := t.calls[caller := Joined(key, s.nextFlow, s.now)])
    case Advance(f, response) =>
      var flow := s.flows[f];
      var key := flow.trace.key;
      var (p, phase) := Resume(s.providers[key], flow.phase, response);
      s.(providers := s.providers[key := p], flows := s.flows[f := Advanced(flow, phase, response)])
    case Settle(f) =>
      var trace, result := s.flows[f].trace, s.flows[f].phase.result;
      var t := s.(
        flows := s.flows - {f}, last := s.last[trace.key := f],
        outcomes := s.outcomes[f := Settled(trace, result, s.now, s.providers[trace.key])]);
      if trace.initial then (if result.Got? then t.(ready := t.ready + {trace.key}) else t)
      else t.(pending := t.pending - {trace.key})
  }

  // ---------------------------------------------------------------- what one flow does

  /** The cached token has more than a minute left. */
  predicate Fresh(p: Provider, at: int) {
    p.cachedToken.Some? && p.cachedToken.value.token.expiresAt - at > 60000
  }

  /** The cached token is to be refreshed (section 6 of RFC 6749): it has no more than a minute left, it
      came with a refresh token, and its registration has more than a minute left. */
  predicate RefreshDue(p: Provider, at: int) {
    && p.cachedToken.Some? && !Fresh(p, at) && p.cachedToken.value.token.refreshToken.Some?
    && p.cachedToken.value.registration.expiresAt - at > 60000
  }

  /** The registration a login starts with: the cached one, but only if there is no token beside it. */
  function Held(p: Provider): Option<Registration> {
    if p.cachedToken.None? then p.cachedRegistration else None
  }

  /** A flow that logs in: what it has heard and used before the final answer. */
  predicate LoginSoFar(tr: Trace, heard: seq<Response>) {
    && !Fresh(tr.found, tr.launchedAt) && !RefreshDue(tr.found, tr.launchedAt)
    && (if Held(tr.found).Some? then heard == [] && (tr.used.None? || tr.used == Held(tr.found))
        else if tr.used.Some? then heard == [Registered(tr.used.value)]
        else heard == [])
  }

  /** A flow that found nothing fresh settles by the last thing it heard. */
  predicate SettledBy(tr: Trace, before: seq<Response>, answer: Response, result: Result, left: Provider) {
    && (answer.Issued? || answer.Error?)
    && result == (if answer.Issued? then Got(answer.token) else Failed(answer.error))
    && if RefreshDue(tr.found, tr.launchedAt) then
         && before == [] && tr.used.None?
         && left == if answer.Issued?
                    then tr.found.(cachedToken := Some(Access(answer.token, tr.found.cachedToken.value.registration)))
                    else tr.found
       else
         && LoginSoFar(tr, before)
         && (tr.used.None? ==> answer.Error? && Held(tr.found).None?)
         && left == Provider(
              if answer.Issued? && tr.used.Some? then Some(Access(answer.token, tr.used.value)) else None, tr.used)
  }

  /** How a flow settles, read off its trace: which of three ways it goes depends on the caches it found
      and its launch time alone. */
  predicate Settles(tr: Trace, result: Result, left: Provider) {
    if Fresh(tr.found, tr.launchedAt) then
      tr.heard == [] && tr.used.None? && result == Got(tr.found.cachedToken.value.token) && left == tr.found
    else
      tr.heard != [] && SettledBy(tr, tr.heard[..|tr.heard| - 1], tr.heard[|tr.heard| - 1], result, left)
  }

  /** A flow at an await, and the caches meanwhile: nobody else has touched them since the launch. */
  predicate Midway(tr: Trace, phase: Phase, p: Provider) {
    match phase
    case NeedsToken =>
      LoginSoFar(tr, tr.heard) && tr.used.None? && tr.heard == [] && p == Provider(None, Held(tr.found))
    case Registering => LoginSoFar(tr, tr.heard) && tr.used.None? && Held(tr.found).None? && p == Provider(None, None)
    case Authorizing(r) => LoginSoFar(tr, tr.heard) && tr.used == Some(r) && p == Provider(None, Some(r))
    case Refreshing(a) =>
      && RefreshDue(tr.found, tr.launchedAt) && tr.heard == [] && tr.used.None?
      && p == tr.found && tr.found.cachedToken == Some(a)
    case Finished(result) => Settles(tr, result, p)
  }

  lemma BeginMidway(tr: Trace)
    requires tr.heard == [] && tr.used.None?
    ensures var (p, phase) := BeginGetToken(tr.found, tr.launchedAt); Midway(tr, phase, p)
  {
  }

  lemma AnswerSettles(tr: Trace, before: seq<Response>, answer: Response, result: Result, left: Provider)
    requires tr.heard == before + [answer] && !Fresh(tr.found, tr.launchedAt)
    requires SettledBy(tr, before, answer, result, left)
    ensures Settles(tr, result, left)
  {
    hide SettledBy, Fresh;
    assert tr.heard[..|tr.heard| - 1] == before;
  }

  /** The trace and the caches when the awaited answer ends the flow. */
  ghost predicate Ends(flow: Flow, p: Provider, response: Response, result: Result, left: Provider)
    requires Resumable(flow.phase, response)
  {
    && Resume(p, flow.phase, response) == (left, Finished(result))
    && !response.NoResponse? && !Fresh(flow.trace.found, flow.trace.launchedAt)
    && SettledBy(flow.trace, flow.trace.heard, response, result, left)
  }

  lemma EndMidway(flow: Flow, p: Provider, response: Response, result: Result, left: Provider)
    requires Resumable(flow.phase, response) && Ends(flow, p, response, result, left)
    ensures var r := Resume(p, flow.phase, response); Midway(Advanced(flow, r.1, response).trace, r.1, r.0)
  {
    hide Fresh, Resume, Resumable;
    var tr := Advanced(flow, Finished(result), response).trace;
    assert tr == flow.trace.(heard := flow.trace.heard + [response]);
    assert SettledBy(tr, flow.trace.heard, response, result, left) by {
      hide Resume, Fresh, RefreshDue, Held, Advanced;
    }
    hide SettledBy;
    AnswerSettles(tr, flow.trace.heard, response, result, left);
  }

  lemma LoginMidway(flow: Flow, p: Provider, response: Response)
    requires Midway(flow.trace, flow.phase, p) && Resumable(flow.phase, response)
    requires flow.phase.NeedsToken? || flow.phase.Registering?
    ensures var r := Resume(p, flow.phase, response); Midway(Advanced(flow, r.1, response).trace, r.1, r.0)
  {
    hide Fresh, RefreshDue;
    if response.Error? {
      assert Ends(flow, p, response, Failed(response.error), p);
      hide Midway, Resume, Ends, Resumable;
      EndMidway(flow, p, response, Failed(response.error), p);
    }
  }

  lemma AuthorizeMidway(flow: Flow, p: Provider, response: Response)
    requires Midway(flow.trace, flow.phase, p) && Resumable(flow.phase, response) && flow.phase.Authorizing?
    ensures var r := Resume(p, flow.phase, response); Midway(Advanced(flow, r.1, response).trace, r.1, r.0)
  {
    var r := Resume(p, flow.phase, response);
    hide Fresh, RefreshDue, Held;
    assert Ends(flow, p, response, r.1.result, r.0);
    hide Midway, Resume, Ends;
    EndMidway(flow, p, response, r.1.result, r.0);
  }

  lemma RefreshMidway(flow: Flow, p: Provider, response: Response)
    requires Midway(flow.trace, flow.phase, p) && Resumable(flow.phase, response) && flow.phase.Refreshing?
    ensures var r := Resume(p, flow.phase, response); Midway(Advanced(flow, r.1, response).trace, r.1, r.0)
  {
    var r := Resume(p, flow.phase, response);
    assert !Fresh(flow.trace.found, flow.trace.launchedAt);
    hide Fresh, LoginSoFar, Held;
    assert Ends(flow, p, response, r.1.result, r.0);
    hide Midway, Resume, Ends;
    EndMidway(flow, p, response, r.1.result, r.0);
  }

  lemma ResumeMidway(flow: Flow, p: Provider, response: Response)
    requires Midway(flow.trace, flow.phase, p) && Resumable(flow.phase, response)
    ensures var r := Resume(p, flow.phase, response); Midway(Advanced(flow, r.1, response).trace, r.1, r.0)
  {
    hide Midway, Resume, Advanced;
    match flow.phase
    case Refreshing(_) => RefreshMidway(flow, p, response);
    case Authorizing(_) => AuthorizeMidway(flow, p, response);
    case _ => LoginMidway(flow, p, response);
  }

  // ---------------------------------------------------------------- invariants

  /** The cached token always belongs to the cached registration. */
  ghost predicate CacheOk(p: Provider) {
    p.cachedToken.Some? ==> p.cachedRegistration == Some(p.cachedToken.value.registration)
  }

  /** A flow found what the flow before it left; the first one found nothing. */
  ghost predicate FollowsOn(s: System, tr: Trace, f: nat) {
    if tr.previous.Some? then
      var g := tr.previous.value;
      && g < f && g in s.outcomes && s.outcomes[g].trace.key == tr.key
      && s.outcomes[g].left == tr.found && s.outcomes[g].at <= tr.launchedAt
    else tr.found == Provider(None, None)
  }

  function LastOf(s: System, key: nat): Option<nat> {
    if key in s.last then Some(s.last[key]) else None
  }

  ghost predicate FlowOk(s: System, f: nat) {
    f in s.flows ==>
      var tr := s.flows[f].trace;
      && f < s.nextFlow && f !in s.outcomes && tr.key in s.providers
      && Midway(tr, s.flows[f].phase, s.providers[tr.key])
      && tr.launchedAt <= s.now && tr.previous == LastOf(s, tr.key) && FollowsOn(s, tr, f)
      && (if tr.initial then tr.key !in s.ready
          else tr.key in s.ready && tr.key in s.pending && s.pending[tr.key] == f)
  }

  ghost predicate OutcomeOk(s: System, f: nat) {
    f in s.outcomes ==>
      var o := s.outcomes[f];
      && f < s.nextFlow && o.trace.key in s.last && f <= s.last[o.trace.key]
      && Settles(o.trace, o.result, o.left) && FollowsOn(s, o.trace, f)
      && o.trace.launchedAt <= o.at <= s.now
  }

  /** A call was given a flow of its own connection that was in flight when the call was made. */
  ghost predicate CallOk(s: System, c: nat) {
    c in s.calls ==>
      var j := s.calls[c];
      && j.at <= s.now && (j.flow in s.flows || j.flow in s.outcomes)
      && (j.flow in s.flows ==> s.flows[j.flow].trace.key == j.key && s.flows[j.flow].trace.launchedAt <= j.at)
      && (j.flow in s.outcomes ==>
            && s.outcomes[j.flow].trace.key == j.key
            && s.outcomes[j.flow].trace.launchedAt <= j.at <= s.outcomes[j.flow].at)
  }

  ghost predicate Idle(s: System, key: nat) {
    forall f | f in s.flows :: s.flows[f].trace.key != key
  }

  ghost predicate KeyOk(s: System, key: nat) {
    && (key in s.ready ==> key in s.last)
    && (key in s.pending ==>
          && s.pending[key] in s.flows && s.flows[s.pending[key]].trace.key == key
          && !s.flows[s.pending[key]].trace.initial)
    && (key in s.last ==>
          && key in s.providers && s.last[key] in s.outcomes && s.outcomes[s.last[key]].trace.key == key
          && (Idle(s, key) ==> s.providers[key] == s.outcomes[s.last[key]].left))
    && (key in s.providers ==> CacheOk(s.providers[key]))
  }

  ghost predicate InitialsOk(s: System) {
    forall f, g | f in s.flows && g in s.flows && s.flows[f].trace.initial && s.flows[g].trace.initial
                  && s.flows[f].trace.key == s.flows[g].trace.key :: f == g
  }

  ghost predicate Inv(s: System) {
    && InitialsOk(s)
    && (forall f :: FlowOk(s, f)) && (forall f :: OutcomeOk(s, f))
    && (forall c :: CallOk(s, c)) && (forall key :: KeyOk(s, key))
  }

  /** At most one flow per connection is in flight. */
  lemma SingleFlight(s: System, f: nat, g: nat)
    requires Inv(s) && f in s.flows && g in s.flows && s.flows[f].trace.key == s.flows[g].trace.key
    ensures f == g
  {
    hide Midway;
    assert FlowOk(s, f) && FlowOk(s, g);
  }

  lemma TickKeepsInv(s: System, passed: nat)
    requires Inv(s)
    ensures Inv(s.(now := s.now + passed))
  {
    var t := s.(now := s.now + passed);
    hide Midway, Settles, CacheOk;
    forall f ensures FlowOk(t, f) && OutcomeOk(t, f) {
      assert FlowOk(s, f) && OutcomeOk(s, f);
    }
    forall c ensures CallOk(t, c) {
      assert CallOk(s, c);
    }
    forall key ensures KeyOk(t, key) {
      assert KeyOk(s, key);
      assert Idle(t, key) == Idle(s, key);
    }
  }

  /** What launching a flow does; the connection is idle, and what it finds is what was left. */
  ghost predicate Launched(s: System, t: System, key: nat, initial: bool) {
    && key in s.providers && t == Launch(s, key, initial).(pending := t.pending, calls := t.calls)
    && Idle(s, key) && CacheOk(s.providers[key])
    && (if initial then
          key !in s.last && key !in s.ready && s.providers[key] == Provider(None, None) && t.pending == s.pending
        else key in s.ready && t.pending == s.pending[key := s.nextFlow])
  }

  lemma BeginCoherent(p: Provider, now: int)
    requires CacheOk(p)
    ensures CacheOk(BeginGetToken(p, now).0)
  {
  }

  lemma LaunchKeepsFlow(s: System, t: System, key: nat, initial: bool, f: nat)
    requires Launched(s, t, key, initial) && FlowOk(s, f) && OutcomeOk(s, s.nextFlow) && KeyOk(s, key)
    requires key in s.last ==> OutcomeOk(s, s.last[key])
    ensures FlowOk(t, f)
  {
    if f == s.nextFlow {
      BeginMidway(t.flows[f].trace);
    }
    hide Midway, Settles, BeginGetToken;
  }

  lemma LaunchKeepsKey(s: System, t: System, key: nat, initial: bool, k: nat)
    requires Launched(s, t, key, initial) && KeyOk(s, k) && FlowOk(s, s.nextFlow)
    ensures KeyOk(t, k)
  {
    BeginCoherent(s.providers[key], s.now);
    hide Midway, Settles, BeginGetToken, CacheOk;
    assert t.flows[s.nextFlow].trace.key == key;
    if k != key && Idle(t, k) {
      forall f | f in s.flows ensures s.flows[f].trace.key != k {
        assert f in t.flows && t.flows[f] == s.flows[f];
      }
    }
  }

  lemma LaunchKeepsInitials(s: System, t: System, key: nat, initial: bool)
    requires Launched(s, t, key, initial) && InitialsOk(s) && FlowOk(s, s.nextFlow)
    ensures InitialsOk(t)
  {
    hide Midway, BeginGetToken;
  }

  /** Everything but the calls. */
  lemma LaunchKeeps(s: System, t: System, key: nat, initial: bool)
    requires Inv(s) && Launched(s, t, key, initial)
    ensures InitialsOk(t) && (forall f :: FlowOk(t, f)) && (forall f :: OutcomeOk(t, f)) && (forall k :: KeyOk(t, k))
  {
    hide BeginGetToken, CacheOk, Midway, Settles;
    assert FlowOk(s, s.nextFlow) && OutcomeOk(s, s.nextFlow);
    LaunchKeepsInitials(s, t, key, initial);
    forall f ensures FlowOk(t, f) && OutcomeOk(t, f) {
      assert FlowOk(s, f) && OutcomeOk(s, f) && KeyOk(s, key);
      assert key in s.last ==> OutcomeOk(s, s.last[key]);
      LaunchKeepsFlow(s, t, key, initial, f);
    }
    forall k ensures KeyOk(t, k) {
      assert KeyOk(s, k);
      LaunchKeepsKey(s, t, key, initial, k);
    }
  }

  /** An unused id as it is when its connection is being opened. */
  lemma WithNewProvider(s: System, key: nat)
    requires Inv(s) && key !in s.providers
    ensures var t := s.(providers := s.providers[key := Provider(None, None)]);
      Inv(t) && Idle(t, key) && key !in t.last && key !in t.ready
  {
    var t := s.(providers := s.providers[key := Provider(None, None)]);
    hide Midway, Settles;
    assert KeyOk(s, key);
    forall f ensures FlowOk(t, f) && OutcomeOk(t, f) && CallOk(t, f) && (f in s.flows ==> s.flows[f].trace.key != key) {
      assert FlowOk(s, f) && OutcomeOk(s, f) && CallOk(s, f);
    }
    forall k ensures KeyOk(t, k) {
      assert KeyOk(s, k);
      assert Idle(t, k) == Idle(s, k);
    }
  }

  lemma OpenKeepsInv(s: System, key: nat)
    requires Inv(s) && key !in s.providers
    ensures Inv(Apply(s, Open(key)))
  {
    WithNewProvider(s, key);
    var u, t := s.(providers := s.providers[key := Provider(None, None)]), Apply(s, Open(key));
    hide BeginGetToken, Midway, Settles;
    assert Launched(u, t, key, true);
    LaunchKeeps(u, t, key, true);
    forall c ensures CallOk(t, c) {
      assert CallOk(u, c) && FlowOk(u, u.nextFlow) && OutcomeOk(u, u.nextFlow);
    }
  }

  lemma JoinKeepsInv(s: System, caller: nat, key: nat)
    requires Inv(s) && Enabled(s, Call(caller, key)) && key in s.pending
    ensures Inv(Apply(s, Call(caller, key)))
  {
    var t := Apply(s, Call(caller, key));
    hide Midway, Settles, CacheOk;
    assert KeyOk(s, key) && FlowOk(s, s.pending[key]);
    forall f ensures FlowOk(t, f) && OutcomeOk(t, f) && CallOk(t, f) {
      assert FlowOk(s, f) && OutcomeOk(s, f) && CallOk(s, f);
    }
    forall k ensures KeyOk(t, k) {
      assert KeyOk(s, k);
      assert Idle(t, k) == Idle(s, k);
    }
  }

  lemma IdleUnlessPending(s: System, key: nat)
    requires Inv(s) && key in s.ready && key !in s.pending
    ensures Idle(s, key)
  {
    hide Midway;
    forall f | f in s.flows ensures s.flows[f].trace.key != key {
      assert FlowOk(s, f);
    }
  }

  lemma StartKeepsInv(s: System, caller: nat, key: nat)
    requires Inv(s) && Enabled(s, Call(caller, key)) && key !in s.pending
    ensures Inv(Apply(s, Call(caller, key)))
  {
    var t := Apply(s, Call(caller, key));
    IdleUnlessPending(s, key);
    hide BeginGetToken, Midway, Settles, CacheOk, Idle;
    assert KeyOk(s, key);
    assert Launched(s, t, key, false);
    LaunchKeeps(s, t, key, false);
    forall c ensures CallOk(t, c) {
      assert CallOk(s, c) && FlowOk(s, s.nextFlow) && OutcomeOk(s, s.nextFlow);
    }
  }

  lemma ResumeCoherent(flow: Flow, p: Provider, response: Response)
    requires Midway(flow.trace, flow.phase, p) && CacheOk(p) && Resumable(flow.phase, response)
    ensures CacheOk(Resume(p, flow.phase, response).0)
  {
  }

  lemma AdvanceKeepsFlow(s: System, f: nat, response: Response, g: nat)
    requires Inv(s) && Enabled(s, Advance(f, response))
    ensures FlowOk(Apply(s, Advance(f, response)), g)
  {
    assert FlowOk(s, f) && FlowOk(s, g);
    var flow := s.flows[f];
    ResumeMidway(flow, s.providers[flow.trace.key], response);
    if g in s.flows && s.flows[g].trace.key == flow.trace.key {
      SingleFlight(s, f, g);
    }
    hide Midway, Settles, Resume, Resumable;
  }

  lemma AdvanceKeepsKey(s: System, f: nat, response: Response, key: nat)
    requires FlowOk(s, f) && KeyOk(s, key) && Enabled(s, Advance(f, response))
    ensures KeyOk(Apply(s, Advance(f, response)), key)
  {
    var t, flow := Apply(s, Advance(f, response)), s.flows[f];
    if key == flow.trace.key {
      ResumeCoherent(flow, s.providers[key], response);
    }
    hide Midway, Settles, Resume, Resumable, CacheOk;
    assert f in t.flows && t.flows[f].trace.key == flow.trace.key;
    assert Idle(t, key) ==> Idle(s, key) by {
      if Idle(t, key) {
        forall g | g in s.flows ensures s.flows[g].trace.key != key {
          assert g in t.flows && t.flows[g].trace.key == s.flows[g].trace.key;
        }
      }
    }
  }

  lemma AdvanceKeepsInv(s: System, f: nat, response: Response)
    requires Inv(s) && Enabled(s, Advance(f, response))
    ensures Inv(Apply(s, Advance(f, response)))
  {
    var t := Apply(s, Advance(f, response));
    assert FlowOk(s, f);
    forall g ensures FlowOk(t, g) {
      AdvanceKeepsFlow(s, f, response, g);
    }
    forall key ensures KeyOk(t, key) {
      assert KeyOk(s, key);
      AdvanceKeepsKey(s, f, response, key);
    }
    hide Midway, Settles, Resume, Resumable, KeyOk, FlowOk, CacheOk;
    forall g ensures OutcomeOk(t, g) && CallOk(t, g) {
      assert OutcomeOk(s, g) && CallOk(s, g);
    }
  }

  /** The settled system, field by field. */
  lemma SettleEffect(s: System, f: nat)
    requires Enabled(s, Settle(f))
    ensures var t, tr := Apply(s, Settle(f)), s.flows[f].trace;
      && t.now == s.now && t.providers == s.providers && t.nextFlow == s.nextFlow && t.calls == s.calls
      && t.flows == s.flows - {f} && t.last == s.last[tr.key := f]
      && t.outcomes == s.outcomes[f := Settled(tr, s.flows[f].phase.result, s.now, s.providers[tr.key])]
      && t.ready == (if tr.initial && s.flows[f].phase.result.Got? then s.ready + {tr.key} else s.ready)
      && t.pending == (if tr.initial then s.pending else s.pending - {tr.key})
  {
  }

  lemma SettleKeepsFlow(s: System, f: nat, g: nat)
    requires Inv(s) && Enabled(s, Settle(f))
    ensures FlowOk(Apply(s, Settle(f)), g)
  {
    SettleEffect(s, f);
    hide Midway, Settles, Apply;
    assert FlowOk(s, f) && FlowOk(s, g);
    if g in s.flows && s.flows[g].trace.key == s.flows[f].trace.key {
      SingleFlight(s, f, g);
    }
    hide Inv, Enabled;
  }

  lemma SettleKeepsOutcome(s: System, f: nat, g: nat)
    requires FlowOk(s, f) && OutcomeOk(s, g) && Enabled(s, Settle(f)) && KeyOk(s, s.flows[f].trace.key)
    ensures OutcomeOk(Apply(s, Settle(f)), g)
  {
    assert Settles(s.flows[f].trace, s.flows[f].phase.result, s.providers[s.flows[f].trace.key]);
    SettleEffect(s, f);
    hide Midway, Settles, Apply, Enabled, CacheOk, Idle;
  }

  lemma SettleKeepsKey(s: System, f: nat, key: nat)
    requires FlowOk(s, f) && KeyOk(s, key) && Enabled(s, Settle(f))
    ensures KeyOk(Apply(s, Settle(f)), key)
  {
    SettleEffect(s, f);
    hide Midway, Settles, CacheOk, Apply, Enabled, FollowsOn;
    var t := Apply(s, Settle(f));
    if key != s.flows[f].trace.key && Idle(t, key) {
      forall g | g in s.flows ensures s.flows[g].trace.key != key {
        assert g != f ==> g in t.flows;
      }
      assert Idle(s, key);
    }
    hide Idle;
  }

  lemma SettleKeepsCall(s: System, f: nat, c: nat)
    requires FlowOk(s, f) && CallOk(s, c) && Enabled(s, Settle(f))
    ensures CallOk(Apply(s, Settle(f)), c)
  {
    SettleEffect(s, f);
    hide Midway, Apply, Enabled, FollowsOn;
  }

  lemma SettleKeepsInv(s: System, f: nat)
    requires Inv(s) && Enabled(s, Settle(f))
    ensures Inv(Apply(s, Settle(f)))
  {
    var t := Apply(s, Settle(f));
    assert FlowOk(s, f) && KeyOk(s, s.flows[f].trace.key);
    forall g ensures FlowOk(t, g) && OutcomeOk(t, g) && CallOk(t, g) && KeyOk(t, g) {
      hide FlowOk, OutcomeOk, CallOk, KeyOk, Apply, Enabled;
      assert OutcomeOk(s, g) && CallOk(s, g) && KeyOk(s, g);
      SettleKeepsFlow(s, f, g);
      SettleKeepsOutcome(s, f, g);
      SettleKeepsCall(s, f, g);
      SettleKeepsKey(s, f, g);
    }
    hide FlowOk, OutcomeOk, CallOk, KeyOk;
  }

  lemma StepKeepsInv(s: System, step: Step)
    requires Inv(s) && Enabled(s, step)
    ensures Inv(Apply(s, step))
  {
    hide Inv;
    match step
    case Tick(passed) => TickKeepsInv(s, passed);
    case Open(key) => OpenKeepsInv(s, key);
    case Call(caller, key) =>
      if key in s.pending {
        JoinKeepsInv(s, caller, key);
      } else {
        StartKeepsInv(s, caller, key);
      }
    case Advance(f, response) => AdvanceKeepsInv(s, f, response);
    case Settle(f) => SettleKeepsInv(s, f);
  }

  // ---------------------------------------------------------------- runs

  ghost predicate Legal(steps: seq<Step>)
    decreases |steps|, 0
  {
    steps == [] || (Legal(steps[..|steps| - 1]) && Enabled(Exec(steps[..|steps| - 1]), steps[|steps| - 1]))
  }

  ghost function Exec(steps: seq<Step>): System
    requires Legal(steps)
    decreases |steps|, 1
  {
    if steps == [] then Init() else Apply(Exec(steps[..|steps| - 1]), steps[|steps| - 1])
  }

  lemma {:induction false} ReachableInv(steps: seq<Step>)
    requires Legal(steps)
    ensures Inv(Exec(steps))
  {
    if steps != [] {
      hide Inv, Apply, Enabled;
      ReachableInv(steps[..|steps| - 1]);
      StepKeepsInv(Exec(steps[..|steps| - 1]), steps[|steps| - 1]);
    }
  }

  /** Over every interleaving: one flow per connection, coherent caches, and each settled call got what
      its flow's own trace calls for, from a flow that was in flight when the call was made. */
  lemma EveryInterleaving(steps: seq<Step>)
    requires Legal(steps)
    ensures var s := Exec(steps);
      && (forall f, g | f in s.flows && g in s.flows && s.flows[f].trace.key == s.flows[g].trace.key :: f == g)
      && (forall key | key in s.providers && s.providers[key].cachedToken.Some? ::
            s.providers[key].cachedRegistration == Some(s.providers[key].cachedToken.value.registration))
      && (forall c | c in s.calls && s.calls[c].flow in s.outcomes ::
            var o := s.outcomes[s.calls[c].flow];
            && o.trace.key == s.calls[c].key && o.trace.launchedAt <= s.calls[c].at <= o.at
            && Settles(o.trace, o.result, o.left))
  {
    ReachableInv(steps);
    var s := Exec(steps);
    hide Exec, Legal, Settles, Midway;
    forall f, g | f in s.flows && g in s.flows && s.flows[f].trace.key == s.flows[g].trace.key ensures f == g {
      SingleFlight(s, f, g);
    }
    forall key | key in s.providers ensures CacheOk(s.providers[key]) {
      assert KeyOk(s, key);
    }
    forall c | c in s.calls && s.calls[c].flow in s.outcomes
      ensures CallOk(s, c) && OutcomeOk(s, s.calls[c].flow)
    {
    }
  }

  /** What a caller gets, from the caches its flow found, when it was launched and what it heard itself.
      A token with more than a minute left at the launch is handed out.  A token that has not is refreshed
      (section 6 of RFC 6749) if it came with a refresh token and its registration has more than a minute
      left.  In all other cases there is a login.  An error is the one the flow ran into. */
  lemma CallerGets(steps: seq<Step>, c: nat)
    requires Legal(steps) && c in Exec(steps).calls && Exec(steps).calls[c].flow in Exec(steps).outcomes
    ensures FlowSettles(Exec(steps).outcomes[Exec(steps).calls[c].flow])
  {
    EveryInterleaving(steps);
    var s := Exec(steps);
    hide Exec, Legal;
    var o := s.outcomes[s.calls[c].flow];
    assert Settles(o.trace, o.result, o.left);
    FlowSettlesSo(o);
  }

  ghost predicate FlowSettles(o: Settled) {
    var tr, data := o.trace, o.trace.found.cachedToken;
    var n := |tr.heard|;
    if data.Some? && data.value.token.expiresAt - tr.launchedAt > 60000 then
      // handed out
      n == 0 && tr.used.None? && o.result == Got(data.value.token) && o.left == tr.found
    else
      && n > 0
      && (match o.result
          case Got(token) => tr.heard[n - 1] == Issued(token)
          case Failed(error) => tr.heard[n - 1] == Error(error))
      && if && data.Some? && data.value.token.refreshToken.Some?
            && data.value.registration.expiresAt - tr.launchedAt > 60000 then
           // refreshed: the new token replaces the old one, and a failure leaves it there
           && n == 1 && tr.used.None?
           && o.left == (if o.result.Got?
                         then tr.found.(cachedToken := Some(Access(o.result.token, data.value.registration)))
                         else tr.found)
         else
           // logged in, with the cached registration if there was no token, else with a new one
           && (data.None? && tr.found.cachedRegistration.Some? ==> n == 1 && tr.used == tr.found.cachedRegistration)
           && (data.Some? || tr.found.cachedRegistration.None? ==>
                 if n == 1 then o.result.Failed? && tr.used.None?
                 else n == 2 && tr.heard[0].Registered? && tr.used == Some(tr.heard[0].registration))
           && o.left.cachedRegistration == tr.used
           && (o.result.Failed? ==> o.left.cachedToken.None?)
           && (o.result.Got? ==> tr.used.Some? && o.left.cachedToken == Some(Access(o.result.token, tr.used.value)))
  }

  lemma RefreshSettlesSo(o: Settled)
    requires Settles(o.trace, o.result, o.left) && RefreshDue(o.trace.found, o.trace.launchedAt)
    ensures FlowSettles(o)
  {
    hide LoginSoFar, Held;
    var tr := o.trace;
    var n := |tr.heard| - 1;
    assert tr.heard[..n] == [] && n == 0;
  }

  lemma LoginSettlesSo(o: Settled)
    requires Settles(o.trace, o.result, o.left)
    requires !Fresh(o.trace.found, o.trace.launchedAt) && !RefreshDue(o.trace.found, o.trace.launchedAt)
    ensures FlowSettles(o)
  {
    var tr := o.trace;
    var n := |tr.heard| - 1;
    var before, answer := tr.heard[..n], tr.heard[n];
    assert SettledBy(tr, before, answer, o.result, o.left);
    assert |before| == n && (n > 0 ==> before[0] == tr.heard[0]);
    hide Settles;
  }

  lemma FlowSettlesSo(o: Settled)
    requires Settles(o.trace, o.result, o.left)
    ensures FlowSettles(o)
  {
    if Fresh(o.trace.found, o.trace.launchedAt) {
      hide SettledBy;
    } else if RefreshDue(o.trace.found, o.trace.launchedAt) {
      hide Settles, FlowSettles, RefreshDue;
      RefreshSettlesSo(o);
    } else {
      hide Settles, FlowSettles, RefreshDue, Fresh;
      LoginSettlesSo(o);
    }
  }

  /** What is in the cache after a flow was issued to that flow or to an earlier one of its connection. */
  lemma {:induction false} CachedTokenWasIssued(s: System, f: nat) returns (g: nat)
    requires Inv(s) && f in s.outcomes && s.outcomes[f].left.cachedToken.Some?
    ensures g <= f && g in s.outcomes && s.outcomes[g].trace.key == s.outcomes[f].trace.key
    ensures Issued(s.outcomes[f].left.cachedToken.value.token) in s.outcomes[g].trace.heard
    decreases f
  {
    assert OutcomeOk(s, f);
    var o := s.outcomes[f];
    if o.left.cachedToken == o.trace.found.cachedToken && Issued(o.left.cachedToken.value.token) !in o.trace.heard {
      g := CachedTokenWasIssued(s, o.trace.previous.value);
    } else {
      assert Issued(o.left.cachedToken.value.token) in o.trace.heard;
      g := f;
    }
  }

  /** Whatever token a caller gets was issued to its own connection. */
  lemma TokenWasIssued(steps: seq<Step>, c: nat) returns (g: nat)
    requires Legal(steps) && c in Exec(steps).calls && Exec(steps).calls[c].flow in Exec(steps).outcomes
    requires Exec(steps).outcomes[Exec(steps).calls[c].flow].result.Got?
    ensures var s := Exec(steps);
      && g in s.outcomes && s.outcomes[g].trace.key == s.calls[c].key
      && Issued(s.outcomes[s.calls[c].flow].result.token) in s.outcomes[g].trace.heard
  {
    EveryInterleaving(steps);
    CallerGets(steps, c);
    ReachableInv(steps);
    hide Inv, Exec, Legal, Settles, Fresh;
    g := CachedTokenWasIssued(Exec(steps), Exec(steps).calls[c].flow);
  }

  // ---------------------------------------------------------------- one flow after another

  /** Two flows of a connection do not overlap. */
  ghost predicate Serial(s: System) {
    forall f, g | f in s.outcomes && g in s.outcomes && s.outcomes[f].trace.key == s.outcomes[g].trace.key && f < g ::
      s.outcomes[f].at <= s.outcomes[g].trace.launchedAt
  }

  lemma StepKeepsSerial(s: System, step: Step)
    requires Inv(s) && Serial(s) && Enabled(s, step)
    ensures Serial(Apply(s, step))
  {
    if step.Settle? {
      SettleEffect(s, step.flow);
      assert FlowOk(s, step.flow);
      hide Apply, Midway;
      SettleKeepsSerial(s, Apply(s, step), step.flow);
    } else {
      assert Apply(s, step).outcomes == s.outcomes;
    }
  }

  lemma SettleKeepsSerial(s: System, t: System, f: nat)
    requires Inv(s) && Serial(s) && f in s.flows && t.outcomes.Keys == s.outcomes.Keys + {f}
    requires t.outcomes[f].trace == s.flows[f].trace && forall g | g in s.outcomes :: t.outcomes[g] == s.outcomes[g]
    ensures Serial(t)
  {
    hide Settles, Midway;
    assert FlowOk(s, f);
    var tr := s.flows[f].trace;
    forall g | g in s.outcomes && s.outcomes[g].trace.key == tr.key
      ensures g < f && s.outcomes[g].at <= tr.launchedAt
    {
      assert OutcomeOk(s, g) && OutcomeOk(s, tr.previous.value);
    }
  }

  lemma {:induction false} ReachableSerial(steps: seq<Step>)
    requires Legal(steps)
    ensures Serial(Exec(steps))
  {
    if steps != [] {
      var before := steps[..|steps| - 1];
      hide Apply, Enabled, Inv;
      ReachableInv(before);
      ReachableSerial(before);
      hide Serial;
      StepKeepsSerial(Exec(before), steps[|steps| - 1]);
    }
  }

  /** Over every interleaving, the flows of a connection run one after another, and each one finds in
      the caches exactly what the one before it left: nobody writes to them in between. */
  lemma FlowsAreSerial(steps: seq<Step>, f: nat)
    requires Legal(steps)
    ensures Serial(Exec(steps))
    ensures f in Exec(steps).outcomes ==> FollowsOn(Exec(steps), Exec(steps).outcomes[f].trace, f)
    ensures var s := Exec(steps);
      f in s.flows ==>
        var tr := s.flows[f].trace;
        FollowsOn(s, tr, f) && tr.key in s.providers && Midway(tr, s.flows[f].phase, s.providers[tr.key])
  {
    ReachableInv(steps);
    ReachableSerial(steps);
    hide Exec, Legal, Settles, Midway, Serial, FollowsOn;
    assert FlowOk(Exec(steps), f) && OutcomeOk(Exec(steps), f);
  }

  /** Promises are not taken back: a call keeps its flow, and a flow keeps its outcome. */
  ghost predicate Grows(s: System, t: System) {
    && (forall c | c in s.calls :: c in t.calls && t.calls[c] == s.calls[c])
    && (forall f | f in s.outcomes :: f in t.outcomes && t.outcomes[f] == s.outcomes[f])
    && s.ready <= t.ready
  }

  lemma StepGrows(s: System, step: Step)
    requires Inv(s) && Enabled(s, step)
    ensures Grows(s, Apply(s, step))
  {
    hide Midway, Settles, BeginGetToken, Resume, Resumable;
    if step.Settle? {
      assert FlowOk(s, step.flow);
    }
  }

  lemma {:induction false} RunGrows(steps: seq<Step>, i: nat)
    requires Legal(steps) && i <= |steps|
    ensures Legal(steps[..i]) && Grows(Exec(steps[..i]), Exec(steps))
  {
    if i < |steps| {
      var before := steps[..|steps| - 1];
      hide Inv, Apply, Enabled;
      assert before[..i] == steps[..i];
      RunGrows(before, i);
      ReachableInv(before);
      StepGrows(Exec(before), steps[|steps| - 1]);
    } else {
      assert steps[..i] == steps;
    }
  }

  lemma JoinStep(s: System, early: nat, late: nat, key: nat)
    requires Inv(s) && Enabled(s, Call(late, key))
    requires early in s.calls && s.calls[early].flow in s.flows && s.calls[early].key == key
    ensures var t := Apply(s, Call(late, key));
      && t.flows == s.flows && t.outcomes == s.outcomes
      && t.calls == s.calls[late := Joined(key, s.calls[early].flow, s.now)]
  {
    hide Midway;
    assert CallOk(s, early) && FlowOk(s, s.calls[early].flow);
  }

  /** A call made while an earlier call's flow is in flight starts nothing, and for the rest of the run
      the two calls have the same flow, hence the same outcome. */
  lemma JoinersShareOutcome(steps: seq<Step>, i: nat, early: nat, late: nat)
    requires Legal(steps) && i < |steps| && Legal(steps[..i]) && steps[i].Call? && steps[i].caller == late
    requires var s := Exec(steps[..i]);
      early in s.calls && s.calls[early].flow in s.flows && s.calls[early].key == steps[i].key
    ensures Legal(steps[..i + 1]) && Exec(steps[..i + 1]).flows == Exec(steps[..i]).flows
    ensures var t := Exec(steps);
      && early in t.calls && late in t.calls && t.calls[late].flow == t.calls[early].flow
      && t.calls[late].at == Exec(steps[..i]).now
  {
    var s := Exec(steps[..i]);
    RunGrows(steps, i + 1);
    RunGrows(steps, i);
    assert steps[..i + 1][..i] == steps[..i];
    ReachableInv(steps[..i]);
    hide Apply, Enabled, Inv;
    JoinStep(s, early, late, steps[i].key);
  }

  /** A connection is handed out only after one of its flows got a token ... */
  lemma {:induction false} ReadyMeansSignedIn(steps: seq<Step>, key: nat) returns (f: nat)
    requires Legal(steps) && key in Exec(steps).ready
    ensures var s := Exec(steps);
      f in s.outcomes && s.outcomes[f].trace.key == key && s.outcomes[f].result.Got?
  {
    var before, step := steps[..|steps| - 1], steps[|steps| - 1];
    if key in Exec(before).ready {
      f := ReadyMeansSignedIn(before, key);
      ReachableInv(before);
      hide Inv, Apply, Enabled;
      StepGrows(Exec(before), step);
    } else {
      hide BeginGetToken, Resume, Resumable;
      f := step.flow;
    }
  }

  lemma SettleMeansReady(s: System, step: Step, f: nat)
    requires Inv(s) && Enabled(s, step) && f in Apply(s, step).outcomes && f !in s.outcomes
    ensures Apply(s, step).outcomes[f].result.Got? ==> Apply(s, step).outcomes[f].trace.key in Apply(s, step).ready
  {
    hide BeginGetToken, Resume, Midway;
    assert step == Settle(f);
    assert FlowOk(s, f);
  }

  /** ... and once one did, it is, for the rest of the run. */
  lemma {:induction false} SignedInMeansReady(steps: seq<Step>, f: nat)
    requires Legal(steps) && f in Exec(steps).outcomes && Exec(steps).outcomes[f].result.Got?
    ensures Exec(steps).outcomes[f].trace.key in Exec(steps).ready
  {
    var before, step := steps[..|steps| - 1], steps[|steps| - 1];
    var s := Exec(before);
    ReachableInv(before);
    hide Inv, Apply, Enabled;
    if f in s.outcomes {
      StepGrows(s, step);
      SignedInMeansReady(before, f);
    } else {
      SettleMeansReady(s, step, f);
    }
  }

  // ---------------------------------------------------------------- expired registrations

  /** The flow called `authorize` with a registration that it had not just obtained and that had expired
      before the flow began. */
  predicate UsesStale(tr: Trace) {
    tr.used.Some? && Registered(tr.used.value) !in tr.heard && IsExpired(tr.launchedAt, tr.used.value.expiresAt)
  }

  /** At its launch there was an expired registration in the cache and no token. */
  predicate FoundStale(tr: Trace) {
    && tr.found.cachedToken.None? && tr.found.cachedRegistration.Some?
    && IsExpired(tr.launchedAt, tr.found.cachedRegistration.value.expiresAt)
  }

  lemma StaleByTrace(tr: Trace, phase: Phase, p: Provider)
    requires Midway(tr, phase, p) && !phase.NeedsToken?
    ensures UsesStale(tr) <==> FoundStale(tr)
    ensures UsesStale(tr) ==> tr.used == tr.found.cachedRegistration
  {
    if phase.Finished? && !Fresh(tr.found, tr.launchedAt) && tr.heard != [] {
      var n := |tr.heard| - 1;
      assert tr.heard == tr.heard[..n] + [tr.heard[n]];
    }
  }

  /** The flow used an expired registration if and only if it found one without a token, and then that. */
  predicate StaleExactly(tr: Trace) {
    && (UsesStale(tr) <==> FoundStale(tr))
    && (UsesStale(tr) ==> tr.used == tr.found.cachedRegistration)
  }

  /** `runFlow` never looks at the expiry of a registration: in every run, a flow that is past its first
      segment authorizes with an expired registration if and only if it found one without a token. */
  lemma StaleRegistrationIff(steps: seq<Step>, f: nat)
    requires Legal(steps)
    ensures f in Exec(steps).outcomes ==> StaleExactly(Exec(steps).outcomes[f].trace)
    ensures f in Exec(steps).flows && !Exec(steps).flows[f].phase.NeedsToken? ==>
      StaleExactly(Exec(steps).flows[f].trace)
  {
    ReachableInv(steps);
    var s := Exec(steps);
    hide Exec, Legal, UsesStale, FoundStale, Settles;
    assert FlowOk(s, f) && OutcomeOk(s, f);
    if f in s.outcomes {
      StaleByTrace(s.outcomes[f].trace, Finished(s.outcomes[f].result), s.outcomes[f].left);
    }
    if f in s.flows && !s.flows[f].phase.NeedsToken? {
      StaleByTrace(s.flows[f].trace, s.flows[f].phase, s.providers[s.flows[f].trace.key]);
    }
  }

  /** A flow leaves no token exactly if it tried to log in and failed. */
  lemma NoTokenLeft(tr: Trace, result: Result, left: Provider)
    requires Settles(tr, result, left)
    ensures left.cachedToken.None? <==> result.Failed? && !RefreshDue(tr.found, tr.launchedAt)
    ensures left.cachedToken.None? ==> left.cachedRegistration == tr.used
  {
  }

  /** When that can happen: a connection with no flow in flight that was handed out has no token if and
      only if its last flow was a login that failed. */
  lemma NoTokenIffLoginFailed(steps: seq<Step>, key: nat)
    requires Legal(steps) && key in Exec(steps).ready && Idle(Exec(steps), key)
    ensures var s := Exec(steps);
      && key in s.providers && key in s.last && s.last[key] in s.outcomes && s.outcomes[s.last[key]].trace.key == key
      && (forall f | f in s.outcomes && s.outcomes[f].trace.key == key :: f <= s.last[key])
      && var o := s.outcomes[s.last[key]];
         s.providers[key].cachedToken.None? <==> o.result.Failed? && !RefreshDue(o.trace.found, o.trace.launchedAt)
  {
    ReachableInv(steps);
    var s := Exec(steps);
    hide Exec, Legal, Settles, RefreshDue, Midway, Idle;
    assert KeyOk(s, key) && OutcomeOk(s, s.last[key]);
    var o := s.outcomes[s.last[key]];
    NoTokenLeft(o.trace, o.result, o.left);
    forall f | f in s.outcomes && s.outcomes[f].trace.key == key ensures f <= s.last[key] {
      assert OutcomeOk(s, f);
    }
  }

  /** The flow before this one was a login that failed after it had called `authorize` with a registration
      that had expired when this flow began. */
  ghost predicate AfterFailedLogin(s: System, tr: Trace) {
    && tr.previous.Some? && tr.previous.value in s.outcomes
    && var o := s.outcomes[tr.previous.value];
       && o.trace.key == tr.key && o.result.Failed? && !RefreshDue(o.trace.found, o.trace.launchedAt)
       && o.trace.used.Some? && IsExpired(tr.launchedAt, o.trace.used.value.expiresAt)
  }

  lemma FoundStaleIff(s: System, tr: Trace, f: nat)
    requires FollowsOn(s, tr, f) && (tr.previous.Some? ==> OutcomeOk(s, tr.previous.value))
    ensures FoundStale(tr) <==> AfterFailedLogin(s, tr)
    ensures FoundStale(tr) ==> tr.found.cachedRegistration == s.outcomes[tr.previous.value].trace.used
  {
    hide Settles, RefreshDue, IsExpired;
    if tr.previous.Some? {
      var o := s.outcomes[tr.previous.value];
      NoTokenLeft(o.trace, o.result, o.left);
    }
  }

  /** The flow used an expired registration if and only if the flow before it on the same connection was a
      login that had used that registration and failed. */
  ghost predicate StaleFromFailedLogin(s: System, tr: Trace) {
    && (UsesStale(tr) <==> AfterFailedLogin(s, tr))
    && (UsesStale(tr) ==> tr.used == s.outcomes[tr.previous.value].trace.used)
  }

  lemma StaleOfTrace(s: System, tr: Trace, f: nat)
    requires Inv(s) && FollowsOn(s, tr, f) && StaleExactly(tr)
    ensures StaleFromFailedLogin(s, tr)
  {
    assert tr.previous.Some? ==> OutcomeOk(s, tr.previous.value);
    FoundStaleIff(s, tr, f);
    hide Inv, OutcomeOk, UsesStale, FoundStale;
  }

  /** Over every run, for settled flows and for flows past their first segment. */
  lemma StaleIffAfterFailedLogin(steps: seq<Step>, f: nat)
    requires Legal(steps)
    ensures f in Exec(steps).outcomes ==> StaleFromFailedLogin(Exec(steps), Exec(steps).outcomes[f].trace)
    ensures f in Exec(steps).flows && !Exec(steps).flows[f].phase.NeedsToken? ==>
      StaleFromFailedLogin(Exec(steps), Exec(steps).flows[f].trace)
  {
    StaleRegistrationIff(steps, f);
    ReachableInv(steps);
    var s := Exec(steps);
    hide Exec, Legal, Settles, Midway, StaleExactly, StaleFromFailedLogin, FollowsOn;
    assert FlowOk(s, f) && OutcomeOk(s, f);
    if f in s.outcomes {
      StaleOfTrace(s, s.outcomes[f].trace, f);
    }
    if f in s.flows && !s.flows[f].phase.NeedsToken? {
      StaleOfTrace(s, s.flows[f].trace, f);
    }
  }

  // A run in which it does happen, put together from these pieces.

  /** Connection 0 with its flow n in flight, and with none. */
  ghost predicate Busy(s: System, n: nat, p: Provider, phase: Phase) {
    && 0 in s.providers && s.providers[0] == p
    && n in s.flows && s.flows[n].trace.key == 0 && s.flows[n].trace.initial == (n == 0) && s.flows[n].phase == phase
    && s.nextFlow == n + 1 && (n > 0 ==> 0 in s.ready) && (forall c | c in s.calls :: c <= n)
    && (forall key | key in s.pending :: n > 0)
  }

  ghost predicate Resting(s: System, n: nat, p: Provider) {
    && 0 in s.providers && s.providers[0] == p && 0 in s.ready && 0 !in s.pending
    && s.nextFlow == n && (forall c | c in s.calls :: c < n)
  }

  lemma ExecStep(steps: seq<Step>, step: Step)
    requires Legal(steps) && Enabled(Exec(steps), step)
    ensures Legal(steps + [step]) && Exec(steps + [step]) == Apply(Exec(steps), step)
  {
    hide Enabled, Apply;
    assert (steps + [step])[..|steps + [step]| - 1] == steps;
  }

  lemma BusyAdvance(steps: seq<Step>, n: nat, p: Provider, phase: Phase, response: Response)
    requires Legal(steps) && Busy(Exec(steps), n, p, phase) && Resumable(phase, response)
    ensures var more, r := steps + [Advance(n, response)], Resume(p, phase, response);
      && Legal(more) && Busy(Exec(more), n, r.0, r.1) && Exec(more).now == Exec(steps).now
      && Exec(more).flows[n] == Advanced(Exec(steps).flows[n], r.1, response)
  {
    ExecStep(steps, Advance(n, response));
    hide Exec, Legal, Resume, Resumable;
  }

  lemma BusySettle(steps: seq<Step>, n: nat, p: Provider, result: Result)
    requires Legal(steps) && Busy(Exec(steps), n, p, Finished(result)) && (n == 0 ==> result.Got?)
    ensures var more := steps + [Settle(n)];
      Legal(more) && Resting(Exec(more), n + 1, p) && Exec(more).now == Exec(steps).now
  {
    ExecStep(steps, Settle(n));
    SettleEffect(Exec(steps), n);
    hide Exec, Legal, Apply;
  }

  lemma RestingTick(steps: seq<Step>, n: nat, p: Provider, passed: nat)
    requires Legal(steps) && Resting(Exec(steps), n, p)
    ensures var more := steps + [Tick(passed)];
      Legal(more) && Resting(Exec(more), n, p) && Exec(more).now == Exec(steps).now + passed
  {
    ExecStep(steps, Tick(passed));
    hide Exec, Legal;
  }

  lemma RestingCall(steps: seq<Step>, n: nat, p: Provider)
    requires Legal(steps) && Resting(Exec(steps), n, p) && n > 0
    ensures var more, now := steps + [Call(n, 0)], Exec(steps).now;
      var r := BeginGetToken(p, now);
      && Legal(more) && Busy(Exec(more), n, r.0, r.1) && Exec(more).now == now
      && var tr := Exec(more).flows[n].trace;
         tr.found == p && tr.launchedAt == now && tr.heard == [] && tr.used.None?
  {
    ExecStep(steps, Call(n, 0));
    hide Exec, Legal, BeginGetToken;
  }

  lemma OpenState()
    ensures Enabled(Init(), Open(0)) && Busy(Apply(Init(), Open(0)), 0, Provider(None, None), NeedsToken)
    ensures Apply(Init(), Open(0)).now == 0
  {
  }

  lemma OpenFirst()
    ensures Legal([Open(0)]) && Busy(Exec([Open(0)]), 0, Provider(None, None), NeedsToken) && Exec([Open(0)]).now == 0
  {
    assert Legal([]) && Exec([]) == Init();
    OpenState();
    hide Exec, Legal, Apply, Enabled, Busy, Init;
    ExecStep([], Open(0));
    assert [] + [Open(0)] == [Open(0)];
  }

  /** A connection is signed in, and its token, which cannot be refreshed, runs out. */
  lemma SignedInThenExpired(r: Registration, t: Token, later: nat) returns (steps: seq<Step>)
    requires t.refreshToken.None? && later + EXPIRATION_BUFFER >= t.expiresAt
    ensures Legal(steps) && Resting(Exec(steps), 1, Provider(Some(Access(t, r)), Some(r))) && Exec(steps).now == later
  {
    OpenFirst();
    hide Exec, Legal, Busy, Resting;
    steps := [Open(0)];
    BusyAdvance(steps, 0, Provider(None, None), NeedsToken, NoResponse);
    steps := steps + [Advance(0, NoResponse)];
    BusyAdvance(steps, 0, Provider(None, None), Registering, Registered(r));
    steps := steps + [Advance(0, Registered(r))];
    BusyAdvance(steps, 0, Provider(None, Some(r)), Authorizing(r), Issued(t));
    steps := steps + [Advance(0, Issued(t))];
    BusySettle(steps, 0, Provider(Some(Access(t, r)), Some(r)), Got(t));
    steps := steps + [Settle(0)];
    RestingTick(steps, 1, Provider(Some(Access(t, r)), Some(r)), later);
    steps := steps + [Tick(later)];
  }

  /** The next login registers anew and is cancelled, and then time passes. */
  lemma ThenLoginCancelled(before: seq<Step>, p: Provider, r: Registration, error: string, later: nat)
    returns (steps: seq<Step>)
    requires Legal(before) && Resting(Exec(before), 1, p)
    requires BeginGetToken(p, Exec(before).now) == (Provider(None, None), NeedsToken)
    ensures Legal(steps) && Resting(Exec(steps), 2, Provider(None, Some(r)))
    ensures Exec(steps).now == Exec(before).now + later
  {
    hide Exec, Legal, Busy, Resting, BeginGetToken;
    RestingCall(before, 1, p);
    steps := before + [Call(1, 0)];
    BusyAdvance(steps, 1, Provider(None, None), NeedsToken, NoResponse);
    steps := steps + [Advance(1, NoResponse)];
    BusyAdvance(steps, 1, Provider(None, None), Registering, Registered(r));
    steps := steps + [Advance(1, Registered(r))];
    BusyAdvance(steps, 1, Provider(None, Some(r)), Authorizing(r), Error(error));
    steps := steps + [Advance(1, Error(error))];
    BusySettle(steps, 1, Provider(None, Some(r)), Failed(error));
    steps := steps + [Settle(1)];
    RestingTick(steps, 2, Provider(None, Some(r)), later);
    steps := steps + [Tick(later)];
  }

  /** For any two registrations and any token without a refresh token there is a run that ends with a
      handed-out connection authorizing with the second registration after it has expired. */
  lemma StaleRegistrationUsed(r1: Registration, r2: Registration, t: Token, error: string) returns (steps: seq<Step>)
    requires t.refreshToken.None?
    ensures Legal(steps) && 2 in Exec(steps).flows
    ensures Exec(steps).flows[2].phase == Authorizing(r2) && Exec(steps).flows[2].trace.key in Exec(steps).ready
    ensures UsesStale(Exec(steps).flows[2].trace) && r2.expiresAt < Exec(steps).now
  {
    var first: nat := if t.expiresAt < 0 then 0 else t.expiresAt;
    var second: nat := if r2.expiresAt < 0 then 0 else r2.expiresAt + 1;
    steps := SignedInThenExpired(r1, t, first);
    var p := Provider(None, Some(r2));
    steps := ThenLoginCancelled(steps, Provider(Some(Access(t, r1)), Some(r1)), r2, error, second);
    hide Exec, Legal, Resting;
    var now := Exec(steps).now;
    RestingCall(steps, 2, p);
    steps := steps + [Call(2, 0)];
    BusyAdvance(steps, 2, p, NeedsToken, NoResponse);
    steps := steps + [Advance(2, NoResponse)];
  }

  // ---------------------------------------------------------------- the objects

  class SsoAccessTokenProvider {
    var cachedToken: Option<Access>
    var cachedRegistration: Option<Registration>

    ghost function View(): Provider
      reads this
    {
      Provider(cachedToken, cachedRegistration)
    }

    constructor ()
      ensures View() == Provider(None, None)
    {
      cachedToken, cachedRegistration := None, None;
    }

    method Invalidate()
      modifies this
      ensures View() == Provider(None, None)
    {
      cachedToken, cachedRegistration := None, None;
    }

    method GetToken(now: int) returns (phase: Phase)
      requires CacheOk(View())
      modifies this
      ensures (View(), phase) == BeginGetToken(old(View()), now)
      ensures CacheOk(View())
    {
      if cachedToken.None? {
        return NeedsToken;
      }
      var data := cachedToken.value;
      if !IsExpired(now, data.token.expiresAt) {
        return Finished(Got(data.token));
      }
      if !IsExpired(now, data.registration.expiresAt) && data.token.refreshToken.Some? {
        return Refreshing(data);
      }
      Invalidate();
      phase := NeedsToken;
    }

    /** The rest of the flow, one await at a time; the cache stays coherent as long as no other flow
        of the same provider interferes, which `SingleFlight` rules out. */
    method Continue(phase: Phase, response: Response) returns (next: Phase)
      requires Resumable(phase, response) && CacheOk(View())
      requires phase.Authorizing? ==> cachedRegistration == Some(phase.registration)
      requires phase.Registering? ==> cachedToken.None?
      requires phase.Refreshing? ==> cachedToken == Some(phase.access)
      modifies this
      ensures (View(), next) == Resume(old(View()), phase, response)
      ensures CacheOk(View())
    {
      if response.Error? {
        return Finished(Failed(response.error));
      }
      match phase {
        case NeedsToken =>
          next := if cachedRegistration.None? then Registering else Authorizing(cachedRegistration.value);
        case Registering =>
          cachedRegistration := Some(response.registration);
          next := Authorizing(response.registration);
        case Authorizing(registration) =>
          cachedToken := Some(Access(response.token, registration));
          next := Finished(Got(response.token));
        case Refreshing(access) =>
          cachedToken := Some(Access(response.token, access.registration));
          next := Finished(Got(response.token));
      }
    }
  }
}

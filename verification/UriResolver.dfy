/** `UriResolverBuilder` of core/aws-lsp-core/src/content/uriResolverBuilder.ts: a chain of middleware
    handlers, built by reversing the handler array in place. */
module UriResolvers {

  datatype Response = Content(content: string) | Thrown(error: string)

  type Delegate = string -> Response

  type Middleware = (string, Delegate) -> Response

  function Unhandled(): Delegate {
    uri => Thrown("Unhandled uri: " + uri)
  }

  function Wrap(handler: Middleware, next: Delegate): Delegate {
    uri => handler(uri, next)
  }

  /** The first handler is called first; it gets the rest of the chain to delegate to. */
  function Chain(handlers: seq<Middleware>): Delegate {
    if handlers == [] then Unhandled() else Wrap(handlers[0], Chain(handlers[1..]))
  }

  function Reverse<T>(s: seq<T>): seq<T> {
    if s == [] then [] else Reverse(s[1..]) + [s[0]]
  }

  lemma {:induction false} ReverseAt<T>(s: seq<T>)
    ensures |Reverse(s)| == |s| && forall i | 0 <= i < |s| :: Reverse(s)[i] == s[|s| - 1 - i]
  {
    if s != [] {
      ReverseAt(s[1..]);
    }
  }

  /** What `URI.parse` makes of the caller's string, and what the caller gets back. */
  datatype Parsed = Parsed(uri: string) | Invalid(error: string)

  datatype Resolution = Resolved(content: string) | Rejected(error: string)

  type Resolver = string -> Resolution

  /** The function `build` returns: parse, run the chain, and take the content of the response. */
  function Resolve(next: Delegate, parse: string -> Parsed): Resolver {
    uri =>
      match parse(uri)
      case Invalid(error) => Rejected(error)
      case Parsed(parsed) =>
        match next(parsed)
        case Content(content) => Resolved(content)
        case Thrown(error) => Rejected(error)
  }

  /** The order in which the n-th build (counted from 1, nothing added in between) calls the handlers. */
  function BuildOrder<T>(handlers: seq<T>, n: nat): seq<T>
    requires n >= 1
  {
    if n == 1 then handlers else Reverse(BuildOrder(handlers, n - 1))
  }

  // ---------------------------------------------------------------- what a chain computes

  /** What a handler makes of a request: answer it, or forward a uri and process what comes back. */
  datatype Decision = Answer(response: Response) | Forward(uri: string)

  datatype Handler = Handler(before: string -> Decision, after: (string, Response) -> Response)

  function AsMiddleware(h: Handler): Middleware {
    (uri: string, next: Delegate) =>
      match h.before(uri)
      case Answer(response) => response
      case Forward(onward) => h.after(uri, next(onward))
  }

  function AllMiddleware(handlers: seq<Handler>): (ms: seq<Middleware>)
    ensures |ms| == |handlers|
  {
    if handlers == [] then [] else [AsMiddleware(handlers[0])] + AllMiddleware(handlers[1..])
  }

  /** The uris seen on the way down: by each handler that is reached, and then by the end of the chain
      if no handler answers. */
  function Visited(handlers: seq<Handler>, uri: string): (uris: seq<string>)
    ensures 1 <= |uris| <= |handlers| + 1 && uris[0] == uri
    ensures |uris| <= |handlers| ==> handlers[|uris| - 1].before(uris[|uris| - 1]).Answer?
  {
    if handlers == [] || handlers[0].before(uri).Answer? then [uri]
    else [uri] + Visited(handlers[1..], handlers[0].before(uri).uri)
  }

  /** The response at the turning point. */
  function Bottom(handlers: seq<Handler>, uris: seq<string>): Response
    requires 1 <= |uris| <= |handlers| + 1
    requires |uris| <= |handlers| ==> handlers[|uris| - 1].before(uris[|uris| - 1]).Answer?
  {
    var n := |uris| - 1;
    if n == |handlers| then Thrown("Unhandled uri: " + uris[n]) else handlers[n].before(uris[n]).response
  }

  /** The way back: the handlers before the n-th process the response, the last one first. */
  function Unwind(handlers: seq<Handler>, uris: seq<string>, n: nat, response: Response): Response
    requires n <= |handlers| && n <= |uris|
  {
    if n == 0 then response else Unwind(handlers, uris, n - 1, handlers[n - 1].after(uris[n - 1], response))
  }

  lemma {:induction false} UnwindShift(handlers: seq<Handler>, uris: seq<string>, n: nat, response: Response)
    requires 1 <= n <= |handlers| && n <= |uris|
    ensures Unwind(handlers, uris, n, response)
         == handlers[0].after(uris[0], Unwind(handlers[1..], uris[1..], n - 1, response))
  {
    if n > 1 {
      UnwindShift(handlers, uris, n - 1, handlers[n - 1].after(uris[n - 1], response));
    }
  }

  lemma BottomShift(handlers: seq<Handler>, uris: seq<string>)
    requires 2 <= |uris| <= |handlers| + 1
    requires |uris| <= |handlers| ==> handlers[|uris| - 1].before(uris[|uris| - 1]).Answer?
    ensures Bottom(handlers, uris) == Bottom(handlers[1..], uris[1..])
  {
    var n := |uris| - 1;
    assert uris[1..][n - 1] == uris[n];
  }

  /** One handler that forwards, and the rest. */
  lemma VisitedShift(handlers: seq<Handler>, uri: string)
    requires handlers != [] && handlers[0].before(uri).Forward?
    ensures var uris, rest := Visited(handlers, uri), Visited(handlers[1..], handlers[0].before(uri).uri);
      uris[0] == uri && uris[1..] == rest && |uris| == |rest| + 1
  {
    assert Visited(handlers, uri) == [uri] + Visited(handlers[1..], handlers[0].before(uri).uri);
    hide Visited;
  }

  lemma ChainShift(handlers: seq<Handler>, uri: string)
    requires handlers != []
    ensures Chain(AllMiddleware(handlers))(uri) ==
      match handlers[0].before(uri)
      case Answer(response) => response
      case Forward(onward) => handlers[0].after(uri, Chain(AllMiddleware(handlers[1..]))(onward))
  {
    var ms := AllMiddleware(handlers);
    assert ms[1..] == AllMiddleware(handlers[1..]);
    assert Chain(ms)(uri) == AsMiddleware(handlers[0])(uri, Chain(ms[1..]));
  }

  /** The nest of closures computes: down in insertion order, then back up in reverse. */
  lemma {:induction false} ChainGoesDownAndUp(handlers: seq<Handler>, uri: string)
    ensures var uris := Visited(handlers, uri);
      Chain(AllMiddleware(handlers))(uri) == Unwind(handlers, uris, |uris| - 1, Bottom(handlers, uris))
  {
    if handlers != [] && handlers[0].before(uri).Forward? {
      hide Chain, AllMiddleware, Visited, Bottom;
      var uris := Visited(handlers, uri);
      ChainShift(handlers, uri);
      VisitedShift(handlers, uri);
      BottomShift(handlers, uris);
      ChainGoesDownAndUp(handlers[1..], handlers[0].before(uri).uri);
      hide Unwind;
      UnwindShift(handlers, uris, |uris| - 1, Bottom(handlers, uris));
    } else if handlers != [] {
      ChainShift(handlers, uri);
    }
  }

  /** The resolver answers with the content that the delegate comes to for the parsed uri, and rejects
      with the error of the parser or of the delegate. */
  ghost predicate AnswersWith(resolver: Resolver, parse: string -> Parsed, next: Delegate) {
    forall uri, text ::
      && (resolver(uri) == Resolved(text) <==> parse(uri).Parsed? && next(parse(uri).uri) == Content(text))
      && (resolver(uri) == Rejected(text) <==>
            parse(uri) == Invalid(text) || (parse(uri).Parsed? && next(parse(uri).uri) == Thrown(text)))
  }

  lemma ResolveIs(next: Delegate, parse: string -> Parsed, uri: string, text: string)
    ensures Resolve(next, parse)(uri) == Resolved(text) <==>
      parse(uri).Parsed? && next(parse(uri).uri) == Content(text)
    ensures Resolve(next, parse)(uri) == Rejected(text) <==>
      parse(uri) == Invalid(text) || (parse(uri).Parsed? && next(parse(uri).uri) == Thrown(text))
  {
  }

  lemma ResolveAnswers(next: Delegate, parse: string -> Parsed)
    ensures AnswersWith(Resolve(next, parse), parse, next)
  {
    hide Resolve;
    forall uri, text {
      ResolveIs(next, parse, uri, text);
    }
  }

  /** What the walk over the handlers, down and back up, ends in. */
  function WalkResult(handlers: seq<Handler>, uri: string): Response {
    var uris := Visited(handlers, uri);
    Unwind(handlers, uris, |uris| - 1, Bottom(handlers, uris))
  }

  function Walk(handlers: seq<Handler>): Delegate {
    uri => WalkResult(handlers, uri)
  }

  /** The same for handlers that answer or forward: the chain of closures is that walk. */
  lemma ResolveWalks(handlers: seq<Handler>, parse: string -> Parsed)
    ensures AnswersWith(Resolve(Chain(AllMiddleware(handlers)), parse), parse, Walk(handlers))
  {
    var next := Chain(AllMiddleware(handlers));
    forall uri ensures next(uri) == Walk(handlers)(uri) {
      hide Chain, AllMiddleware, Visited, Bottom, Unwind;
      ChainGoesDownAndUp(handlers, uri);
    }
    hide Resolve, Chain, AllMiddleware, WalkResult, Walk;
    ResolveAnswers(next, parse);
  }

  lemma {:induction false} UnwindKeepsError(handlers: seq<Handler>, uris: seq<string>, n: nat, error: string)
    requires n <= |handlers| && n <= |uris|
    requires forall i, u | 0 <= i < |handlers| :: handlers[i].after(u, Thrown(error)) == Thrown(error)
    ensures Unwind(handlers, uris, n, Thrown(error)) == Thrown(error)
  {
    if n > 0 {
      UnwindKeepsError(handlers, uris, n - 1, error);
    }
  }

  /** A uri that no handler answers is rejected, with the uri as the last handler passed it on, unless a
      handler makes something else of the error. */
  lemma UnansweredIsRejected(handlers: seq<Handler>, uri: string)
    requires |Visited(handlers, uri)| == |handlers| + 1
    requires var error := "Unhandled uri: " + Visited(handlers, uri)[|handlers|];
      forall i, u | 0 <= i < |handlers| :: handlers[i].after(u, Thrown(error)) == Thrown(error)
    ensures WalkResult(handlers, uri) == Thrown("Unhandled uri: " + Visited(handlers, uri)[|handlers|])
  {
    var uris := Visited(handlers, uri);
    UnwindKeepsError(handlers, uris, |uris| - 1, "Unhandled uri: " + uris[|handlers|]);
  }

  // ---------------------------------------------------------------- repeated builds

  lemma ReverseTwice<T>(s: seq<T>)
    ensures Reverse(Reverse(s)) == s
  {
    ReverseAt(s);
    ReverseAt(Reverse(s));
  }

  /** Handlers are called in the order they were added by exactly every other build, unless the order
      reads the same backwards. */
  lemma {:induction false} InsertionOrderIff<T>(handlers: seq<T>, n: nat)
    requires n >= 1
    ensures BuildOrder(handlers, n) == if n % 2 == 1 then handlers else Reverse(handlers)
    ensures BuildOrder(handlers, n) == handlers <==> n % 2 == 1 || handlers == Reverse(handlers)
  {
    hide Reverse;
    if n > 1 {
      InsertionOrderIff(handlers, n - 1);
      ReverseTwice(handlers);
    }
  }

  lemma {:induction false} AllMiddlewareAt(handlers: seq<Handler>, i: nat)
    requires i < |handlers|
    ensures AllMiddleware(handlers)[i] == AsMiddleware(handlers[i])
  {
    if i > 0 {
      AllMiddlewareAt(handlers[1..], i - 1);
    }
  }

  /** What a caller sees of it: if every handler answers a uri, the first build has it answered by the
      handler that was added first, the second build by the one that was added last, and so on. */
  lemma BuildsTakeTurns(handlers: seq<Handler>, n: nat, uri: string)
    requires n >= 1 && handlers != [] && forall i | 0 <= i < |handlers| :: handlers[i].before(uri).Answer?
    ensures Chain(BuildOrder(AllMiddleware(handlers), n))(uri) ==
      (if n % 2 == 1 then handlers[0] else handlers[|handlers| - 1]).before(uri).response
  {
    var ms := AllMiddleware(handlers);
    InsertionOrderIff(ms, n);
    ReverseAt(ms);
    AllMiddlewareAt(handlers, 0);
    AllMiddlewareAt(handlers, |handlers| - 1);
    var order := BuildOrder(ms, n);
    var h := if n % 2 == 1 then handlers[0] else handlers[|handlers| - 1];
    assert order[0] == AsMiddleware(h);
    assert Chain(order)(uri) == order[0](uri, Chain(order[1..]));
  }

  // ---------------------------------------------------------------- the builder

  class UriResolverBuilder {
    var handlers: seq<Middleware>

    constructor ()
      ensures handlers == []
    {
      handlers := [];
    }

    method AddHandler(handler: Middleware)
      modifies this
      ensures handlers == old(handlers) + [handler]
    {
      handlers := handlers + [handler];
    }

    /** The resolver calls the handlers in the order of the array, which is left reversed. */
    method Build(parse: string -> Parsed) returns (resolver: Resolver)
      modifies this
      ensures AnswersWith(resolver, parse, Chain(old(handlers)))
      ensures forall hs: seq<Handler> | old(handlers) == AllMiddleware(hs) :: AnswersWith(resolver, parse, Walk(hs))
      ensures resolver == Resolve(Chain(old(handlers)), parse)
      ensures handlers == Reverse(old(handlers))
    {
      ReverseAt(handlers);
      var next := Unhandled();
      handlers := Reverse(handlers);
      for i := 0 to |handlers|
        invariant handlers == Reverse(old(handlers))
        invariant next == Chain(old(handlers)[|handlers| - i..])
      {
        var current := next;
        next := Wrap(handlers[i], current);
        assert old(handlers)[|handlers| - i - 1..][1..] == old(handlers)[|handlers| - i..];
      }
      assert old(handlers)[0..] == old(handlers);
      resolver := Resolve(next, parse);
      assert next == Chain(old(handlers));
      hide Resolve, Chain, AllMiddleware, Reverse, Wrap, AnswersWith;
      ResolveAnswers(next, parse);
      forall hs: seq<Handler> | old(handlers) == AllMiddleware(hs) ensures AnswersWith(resolver, parse, Walk(hs)) {
        ResolveWalks(hs, parse);
      }
    }

    /** Building again and again: what the last of n builds returns. */
    method BuildTimes(n: nat, parse: string -> Parsed) returns (resolver: Resolver)
      requires n >= 1
      modifies this
      ensures AnswersWith(resolver, parse, Chain(BuildOrder(old(handlers), n)))
      ensures resolver == Resolve(Chain(BuildOrder(old(handlers), n)), parse)
      ensures handlers == Reverse(BuildOrder(old(handlers), n))
    {
      resolver := Build(parse);
      for i := 1 to n
        invariant resolver == Resolve(Chain(BuildOrder(old(handlers), i)), parse)
        invariant handlers == Reverse(BuildOrder(old(handlers), i))
      {
        resolver := Build(parse);
      }
      ResolveAnswers(Chain(BuildOrder(old(handlers), n)), parse);
    }
  }
}

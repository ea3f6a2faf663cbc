/** The route registry and dispatcher (App\Modules\Router).

    The request is passed in explicitly instead of being read from `$_SERVER`:
    its method token as sent and the path component of its URI. Whether a
    callback exists (`method_exists`) and what it does when called are oracles
    in `Env`. A callback either returns normally or ends the process with its
    own JSON response. */
module Routing {
  import opened HttpMethods
  import opened Controller

  datatype Route = Route(verb: HttpMethod, uri: string, callback: Callback)

  /** `$_SERVER['REQUEST_METHOD']` and `parse_url($_SERVER['REQUEST_URI'], PHP_URL_PATH)`. */
  datatype Request = Request(verb: string, path: string)

  /** The response a callback sends before it ends the process. */
  datatype Reply = Reply(data: Payload, statusCode: int)

  /** The oracles: the callbacks `method_exists` finds, and the callbacks that
      end the process with their own response; every other callback returns. */
  datatype Env = Env(existing: set<Callback>, replies: map<Callback, Reply>)

  /** How a dispatch pass ends: each ending is exactly one response. */
  datatype Ending =
    | NotFound
    | MethodNotAllowed(registered: HttpMethod)
    | HandlerMissing
    | Handled(reply: Reply)

  /** The callbacks a pass calls, in order, and how it ends. */
  datatype Verdict = Verdict(called: seq<Callback>, ending: Ending)

  const NOT_FOUND_MESSAGE := "Not Found"
  const SERVER_ERROR_MESSAGE := "The specified function does not exist"

  /** The body of the 405 response: it names the method the ROUTE was
      registered under, not the method of the request. */
  function NotAllowedMessage(m: HttpMethod): string
  {
    Value(m) + " method is not allowed for this route."
  }

  function EndingPayload(e: Ending): Payload
  {
    match e
    case NotFound => Message(NOT_FOUND_MESSAGE)
    case MethodNotAllowed(m) => Message(NotAllowedMessage(m))
    case HandlerMissing => Message(SERVER_ERROR_MESSAGE)
    case Handled(reply) => reply.data
  }

  function EndingStatus(e: Ending): int
  {
    match e
    case NotFound => 404
    case MethodNotAllowed(_) => 405
    case HandlerMissing => 500
    case Handled(reply) => reply.statusCode
  }

  /** The call events of `callbacks`, in order. */
  function Calls(callbacks: seq<Callback>): seq<Event>
  {
    if callbacks == [] then [] else [Call(callbacks[0])] + Calls(callbacks[1..])
  }

  /** The events one dispatch pass writes: the callback calls, then one framed response. */
  function Trace(v: Verdict): seq<Event>
  {
    Calls(v.called) + Frame(EndingPayload(v.ending), EndingStatus(v.ending))
  }

  /** `isCurrentUri`: byte-exact equality, no normalisation of any kind. */
  predicate IsCurrentUri(uri: string, path: string)
  {
    uri == path
  }

  /** Whether the request method token equals the route's backing string (`!==` fails). */
  predicate MethodMatches(req: Request, m: HttpMethod)
  {
    req.verb == Value(m)
  }

  /** What one iteration of the `listen` loop does with one route. */
  datatype Step =
    | Skip                          // the path differs: next route
    | Continue(callback: Callback)  // the callback ran and returned: next route
    | Stop(verdict: Verdict)        // a response was sent: the pass is over

  function ScanStep(r: Route, req: Request, env: Env): Step
  {
    if !IsCurrentUri(r.uri, req.path) then Skip
    else if !MethodMatches(req, r.verb) then Stop(Verdict([], MethodNotAllowed(r.verb)))
    else if r.callback !in env.existing then Stop(Verdict([], HandlerMissing))
    else if r.callback in env.replies then Stop(Verdict([r.callback], Handled(env.replies[r.callback])))
    else Continue(r.callback)
  }

  function StepEvents(s: Step): seq<Event>
  {
    match s
    case Skip => []
    case Continue(callback) => [Call(callback)]
    case Stop(v) => Trace(v)
  }

  /** The outcome of `listen` over `routes`, route by route in registration order. */
  function Dispatch(routes: seq<Route>, req: Request, env: Env): Verdict
  {
    if routes == [] then Verdict([], NotFound)
    else match ScanStep(routes[0], req, env)
      case Skip => Dispatch(routes[1..], req, env)
      case Continue(callback) =>
        var rest := Dispatch(routes[1..], req, env);
        Verdict([callback] + rest.called, rest.ending)
      case Stop(v) => v
  }

  lemma {:induction false} CallsAppend(a: seq<Callback>, b: seq<Callback>)
    ensures Calls(a + b) == Calls(a) + Calls(b)
  {
    if a != [] {
      assert (a + b)[0] == a[0] && (a + b)[1..] == a[1..] + b;
      CallsAppend(a[1..], b);
      assert Calls(a + b) == [Call(a[0])] + (Calls(a[1..]) + Calls(b));
    } else {
      assert a + b == b;
    }
  }

  lemma AppendAssociative<T>(a: seq<T>, b: seq<T>, c: seq<T>)
    ensures a + b + c == a + (b + c)
  {
  }

  /** A pass that calls `called` before reaching the rest writes their calls first. */
  lemma TraceAfter(called: seq<Callback>, rest: Verdict)
    ensures Trace(Verdict(called + rest.called, rest.ending)) == Calls(called) + Trace(rest)
  {
    CallsAppend(called, rest.called);
    AppendAssociative(Calls(called), Calls(rest.called), Frame(EndingPayload(rest.ending), EndingStatus(rest.ending)));
  }

  /** `v` preceded by the calls in `called`. */
  function Prepend(called: seq<Callback>, v: Verdict): Verdict
  {
    Verdict(called + v.called, v.ending)
  }

  /** The callbacks one step calls and lets the scan go on after. */
  function StepCalls(s: Step): seq<Callback>
  {
    if s.Continue? then [s.callback] else []
  }

  /** One step of `Dispatch` over the route at position `i`: after a stop the
      trace is complete, otherwise the scan goes on with the rest. */
  lemma DispatchAt(routes: seq<Route>, i: nat, req: Request, env: Env, called: seq<Callback>)
    requires i < |routes|
    requires Dispatch(routes, req, env) == Prepend(called, Dispatch(routes[i..], req, env))
    ensures ScanStep(routes[i], req, env).Stop? ==>
      Trace(Dispatch(routes, req, env)) == Calls(called) + StepEvents(ScanStep(routes[i], req, env))
    ensures !ScanStep(routes[i], req, env).Stop? ==>
      var called' := called + StepCalls(ScanStep(routes[i], req, env));
      Dispatch(routes, req, env) == Prepend(called', Dispatch(routes[i + 1..], req, env)) &&
      Calls(called) + StepEvents(ScanStep(routes[i], req, env)) == Calls(called')
  {
    assert routes[i..][0] == routes[i] && routes[i..][1..] == routes[i + 1..];
    var step := ScanStep(routes[i], req, env);
    var next := Dispatch(routes[i + 1..], req, env);
    match step
    case Skip =>
      assert called + [] == called;
    case Continue(callback) =>
      assert called + ([callback] + next.called) == (called + [callback]) + next.called;
      CallsAppend(called, [callback]);
    case Stop(v) =>
      TraceAfter(called, v);
  }

  /** `$callback()`: records the call; a callback that responds ends the process. */
  method RunCallback(out: Response, callback: Callback, env: Env)
    requires !out.exited
    modifies out
    ensures out.exited == (callback in env.replies)
    ensures out.events == old(out.events) + [Call(callback)] +
      if callback in env.replies
      then Frame(env.replies[callback].data, env.replies[callback].statusCode)
      else []
  {
    out.EnterCallback(callback);
    if callback in env.replies {
      SendJSONResponse(out, env.replies[callback].data, env.replies[callback].statusCode);
    }
  }

  /** `checkMethod`: a 405 naming the route's method when the request's differs. */
  method CheckMethod(out: Response, req: Request, verb: HttpMethod)
    requires !out.exited
    modifies out
    ensures out.exited == !MethodMatches(req, verb)
    ensures out.events == old(out.events) +
      if MethodMatches(req, verb) then [] else Frame(Message(NotAllowedMessage(verb)), 405)
  {
    if req.verb != Value(verb) {
      SendJSONResponse(out, Message(NotAllowedMessage(verb)), 405);
      return;
    }
  }

  /** `handleNotFound` */
  method HandleNotFound(out: Response)
    requires !out.exited
    modifies out
    ensures out.events == old(out.events) + Frame(Message(NOT_FOUND_MESSAGE), 404) && out.exited
  {
    SendJSONResponse(out, Message(NOT_FOUND_MESSAGE), 404);
  }

  /** `handleServerError` */
  method HandleServerError(out: Response)
    requires !out.exited
    modifies out
    ensures out.events == old(out.events) + Frame(Message(SERVER_ERROR_MESSAGE), 500) && out.exited
  {
    SendJSONResponse(out, Message(SERVER_ERROR_MESSAGE), 500);
  }

  /** One iteration of the `listen` loop: the body of its `foreach`. */
  method ScanRoute(out: Response, route: Route, req: Request, env: Env) returns (stopped: bool)
    requires !out.exited
    modifies out
    ensures stopped == out.exited == ScanStep(route, req, env).Stop?
    ensures out.events == old(out.events) + StepEvents(ScanStep(route, req, env))
  {
    ghost var step := ScanStep(route, req, env);
    if !IsCurrentUri(route.uri, req.path) {
      assert StepEvents(step) == [];
      return false;
    }
    CheckMethod(out, req, route.verb);
    if out.exited {
      assert StepEvents(step) == Calls([]) + Frame(Message(NotAllowedMessage(route.verb)), 405);
      return true;
    }
    if route.callback !in env.existing {
      HandleServerError(out);
      assert StepEvents(step) == Calls([]) + Frame(Message(SERVER_ERROR_MESSAGE), 500);
      return true;
    }
    RunCallback(out, route.callback, env);
    assert Calls([route.callback]) == [Call(route.callback)];
    return out.exited;
  }

  /** The registry: the static `$routes` array. */
  class Router {
    var routes: seq<Route>

    constructor ()
      ensures routes == []
    {
      routes := [];
    }

    /** `request`: appends one route at the end of the registry. */
    method Request(verb: HttpMethod, uri: string, callback: Callback)
      modifies this
      ensures routes == old(routes) + [Route(verb, uri, callback)]
    {
      routes := routes + [Route(verb, uri, callback)];
    }

    /** `listen`: scans the routes in order and always ends the process with
        exactly one response; the registry is left as it was. */
    method Listen(out: Response, req: Request, env: Env)
      requires !out.exited
      modifies out
      ensures out.exited
      ensures out.events == old(out.events) + Trace(Dispatch(routes, req, env))
    {
      var rs := routes;
      ghost var called: seq<Callback> := [];
      var i := 0;
      while i < |rs|
        invariant 0 <= i <= |rs|
        invariant !out.exited
        invariant out.events == old(out.events) + Calls(called)
        invariant Dispatch(rs, req, env) == Prepend(called, Dispatch(rs[i..], req, env))
      {
        ghost var step := ScanStep(rs[i], req, env);
        DispatchAt(rs, i, req, env, called);
        var stopped := ScanRoute(out, rs[i], req, env);
        if stopped {
          AppendAssociative(old(out.events), Calls(called), StepEvents(step));
          return;
        }
        called := called + StepCalls(step);
        i := i + 1;
      }
      assert rs[i..] == [];
      TraceAfter(called, Verdict([], NotFound));
      HandleNotFound(out);
      AppendAssociative(old(out.events), Calls(called), Frame(Message(NOT_FOUND_MESSAGE), 404));
    }
  }
}

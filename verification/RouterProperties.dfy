/** What a dispatch pass does, stated over the `Dispatch` specification of
    `Router::listen`: a reference characterisation by the first route that
    stops the scan, the effect of non-matching and later-registered routes,
    the shape of the trace, and the documented scenarios. */
module RouterProperties {
  import opened HttpMethods
  import opened Controller
  import opened Routing

  /** The routes registered for exactly `path`, in registration order. */
  function OnPath(routes: seq<Route>, path: string): (r: seq<Route>)
    ensures |r| <= |routes|
    ensures forall x :: x in r ==> x in routes && x.uri == path
    ensures forall x :: x in routes && x.uri == path ==> x in r
  {
    if routes == [] then []
    else if routes[0].uri == path then [routes[0]] + OnPath(routes[1..], path)
    else OnPath(routes[1..], path)
  }

  /** The callbacks of the routes whose step lets the scan go on. */
  function Continued(routes: seq<Route>, req: Request, env: Env): seq<Callback>
  {
    if routes == [] then []
    else StepCalls(ScanStep(routes[0], req, env)) + Continued(routes[1..], req, env)
  }

  /** `k` is the first route at which the scan stops. */
  predicate FirstStop(routes: seq<Route>, req: Request, env: Env, k: nat)
  {
    k < |routes| && ScanStep(routes[k], req, env).Stop? &&
    forall j :: 0 <= j < k ==> !ScanStep(routes[j], req, env).Stop?
  }

  // ---------------------------------------------------------------------
  // Reference characterisation

  /** When some route stops the scan, the pass is: the calls of the routes
      before it that let the scan go on, then what the first stopping route
      decides. Nothing registered after it has any effect. */
  lemma DispatchAtFirstStop(routes: seq<Route>, req: Request, env: Env, k: nat)
    requires FirstStop(routes, req, env, k)
    ensures Dispatch(routes, req, env) ==
      Prepend(Continued(routes[..k], req, env), ScanStep(routes[k], req, env).verdict)
    ensures Dispatch(routes, req, env) == Dispatch(routes[..k + 1], req, env)
  {
    UpToFirstStop(routes, req, env, k);
    var upTo := routes[..k + 1];
    assert upTo[..k] == routes[..k] && upTo[k] == routes[k];
    UpToFirstStop(upTo, req, env, k);
  }

  lemma {:induction false} UpToFirstStop(routes: seq<Route>, req: Request, env: Env, k: nat)
    requires FirstStop(routes, req, env, k)
    ensures Dispatch(routes, req, env) ==
      Prepend(Continued(routes[..k], req, env), ScanStep(routes[k], req, env).verdict)
  {
    var v := ScanStep(routes[k], req, env).verdict;
    if k == 0 {
      assert routes[..0] == [];
      assert [] + v.called == v.called;
    } else {
      var rest := routes[1..];
      assert FirstStop(rest, req, env, k - 1) by {
        forall j | 0 <= j < k - 1 ensures !ScanStep(rest[j], req, env).Stop? {
          assert rest[j] == routes[j + 1];
        }
        assert rest[k - 1] == routes[k];
      }
      UpToFirstStop(rest, req, env, k - 1);
      assert routes[..k][0] == routes[0] && routes[..k][1..] == rest[..k - 1];
      var pre := Continued(rest[..k - 1], req, env);
      var s := StepCalls(ScanStep(routes[0], req, env));
      assert Continued(routes[..k], req, env) == s + pre;
      AppendAssociative(s, pre, v.called);
    }
  }

  /** When no route stops the scan, every continuing route's callback is
      called once, in registration order, and the pass ends in 404. */
  lemma {:induction false} DispatchWithoutStop(routes: seq<Route>, req: Request, env: Env)
    requires forall j :: 0 <= j < |routes| ==> !ScanStep(routes[j], req, env).Stop?
    ensures Dispatch(routes, req, env) == Verdict(Continued(routes, req, env), NotFound)
  {
    if routes != [] {
      var rest := routes[1..];
      forall j | 0 <= j < |rest| ensures !ScanStep(rest[j], req, env).Stop? {
        assert rest[j] == routes[j + 1];
      }
      DispatchWithoutStop(rest, req, env);
      assert !ScanStep(routes[0], req, env).Stop?;
    }
  }

  // ---------------------------------------------------------------------
  // Path matching

  /** A route whose path differs from the request path is skipped without a trace. */
  lemma OtherPathIsSkipped(r: Route, req: Request, env: Env)
    requires r.uri != req.path
    ensures ScanStep(r, req, env) == Skip && StepEvents(ScanStep(r, req, env)) == []
  {
  }

  /** Only the routes registered for exactly the request path influence the pass. */
  lemma {:induction false} OnlyRoutesOnPathMatter(routes: seq<Route>, req: Request, env: Env)
    ensures Dispatch(routes, req, env) == Dispatch(OnPath(routes, req.path), req, env)
  {
    if routes != [] {
      OnlyRoutesOnPathMatter(routes[1..], req, env);
      if routes[0].uri == req.path {
        var on := OnPath(routes, req.path);
        assert on[0] == routes[0] && on[1..] == OnPath(routes[1..], req.path);
      }
    }
  }

  /** Route `r` is registered for the request's path and method with callback `c`. */
  predicate Serves(r: Route, req: Request, c: Callback)
  {
    r.callback == c && IsCurrentUri(r.uri, req.path) && MethodMatches(req, r.verb)
  }

  /** A callback is called only if it exists and belongs to a route registered
      for exactly the request path under the request's method. */
  lemma {:induction false} CalledCallbacksMatch(routes: seq<Route>, req: Request, env: Env)
    ensures forall c :: c in Dispatch(routes, req, env).called ==>
      c in env.existing && exists j :: 0 <= j < |routes| && Serves(routes[j], req, c)
  {
    if routes != [] {
      var rest := routes[1..];
      CalledCallbacksMatch(rest, req, env);
      forall c | c in Dispatch(routes, req, env).called
        ensures c in env.existing
        ensures exists j :: 0 <= j < |routes| && Serves(routes[j], req, c)
      {
        if c in Dispatch(rest, req, env).called {
          var j :| 0 <= j < |rest| && Serves(rest[j], req, c);
          assert routes[j + 1] == rest[j];
        } else {
          assert Serves(routes[0], req, c);
        }
      }
    }
  }

  /** With no route registered for the request path, the pass is a bare 404. */
  lemma NoRouteOnPathIsNotFound(routes: seq<Route>, req: Request, env: Env)
    requires forall j :: 0 <= j < |routes| ==> routes[j].uri != req.path
    ensures Dispatch(routes, req, env) == Verdict([], NotFound)
    ensures Trace(Dispatch(routes, req, env)) == Frame(Message("Not Found"), 404)
  {
    DispatchWithoutStop(routes, req, env);
    NoneContinue(routes, req, env);
    assert Calls([]) == [];
  }

  /** The upper-case form of an ASCII lower-case letter. */
  function UpperAscii(c: char): (u: char)
    requires 'a' <= c <= 'z'
    ensures 'A' <= u <= 'Z' && u != c
  {
    (c as int - 32) as char
  }

  /** Matching is byte-exact: appending a trailing slash, or turning any one
      lower-case letter of the path into upper case, gives a path that does not match. */
  lemma PathMatchIsExact(path: string, k: nat)
    ensures !IsCurrentUri(path + "/", path) && !IsCurrentUri(path, path + "/")
    ensures k < |path| && 'a' <= path[k] <= 'z' ==>
      !IsCurrentUri(path[k := UpperAscii(path[k])], path) &&
      !IsCurrentUri(path, path[k := UpperAscii(path[k])])
  {
    assert |path + "/"| != |path|;
    if k < |path| && 'a' <= path[k] <= 'z' {
      assert path[k := UpperAscii(path[k])][k] != path[k];
    }
  }

  // ---------------------------------------------------------------------
  // The four endings, at the first route registered for the request path

  /** The first route on the request path whose verb differs from the request's
      ends the pass with a 405 that names the ROUTE's verb; later routes are not
      examined. */
  lemma FirstRouteOnPathWithOtherVerb(routes: seq<Route>, req: Request, env: Env, k: nat)
    requires k < |routes| && routes[k].uri == req.path
    requires forall j :: 0 <= j < k ==> routes[j].uri != req.path
    requires req.verb != Value(routes[k].verb)
    ensures Dispatch(routes, req, env) == Verdict([], MethodNotAllowed(routes[k].verb))
    ensures Dispatch(routes, req, env) == Dispatch(routes[..k + 1], req, env)
    ensures Trace(Dispatch(routes, req, env)) ==
      Frame(Message(Value(routes[k].verb) + " method is not allowed for this route."), 405)
  {
    FirstOnPathStops(routes, req, env, k);
    assert Calls([]) == [];
  }

  /** The first route on the request path, with the request's verb and a
      callback that does not exist, ends the pass with a 500. */
  lemma FirstRouteOnPathWithoutCallback(routes: seq<Route>, req: Request, env: Env, k: nat)
    requires k < |routes| && routes[k].uri == req.path
    requires forall j :: 0 <= j < k ==> routes[j].uri != req.path
    requires req.verb == Value(routes[k].verb) && routes[k].callback !in env.existing
    ensures Dispatch(routes, req, env) == Verdict([], HandlerMissing)
    ensures Trace(Dispatch(routes, req, env)) ==
      Frame(Message("The specified function does not exist"), 500)
  {
    FirstOnPathStops(routes, req, env, k);
    assert Calls([]) == [];
  }

  lemma FirstOnPathStops(routes: seq<Route>, req: Request, env: Env, k: nat)
    requires k < |routes| && routes[k].uri == req.path
    requires forall j :: 0 <= j < k ==> routes[j].uri != req.path
    requires ScanStep(routes[k], req, env).Stop?
    ensures Dispatch(routes, req, env) == ScanStep(routes[k], req, env).verdict
    ensures Dispatch(routes, req, env) == Dispatch(routes[..k + 1], req, env)
  {
    assert FirstStop(routes, req, env, k);
    DispatchAtFirstStop(routes, req, env, k);
    NoneContinue(routes[..k], req, env);
  }

  lemma {:induction false} NoneContinue(routes: seq<Route>, req: Request, env: Env)
    requires forall j :: 0 <= j < |routes| ==> routes[j].uri != req.path
    ensures Continued(routes, req, env) == []
  {
    if routes != [] {
      assert routes[0].uri != req.path;
      NoneContinue(routes[1..], req, env);
    }
  }

  /** A route on the request path with the request's verb and an existing
      callback calls that callback; if it returns, the scan goes on. */
  lemma MatchingRouteCallsItsCallback(r: Route, req: Request, env: Env)
    requires r.uri == req.path && req.verb == Value(r.verb) && r.callback in env.existing
    ensures r.callback !in env.replies ==> ScanStep(r, req, env) == Continue(r.callback)
    ensures r.callback in env.replies ==>
      ScanStep(r, req, env) == Stop(Verdict([r.callback], Handled(env.replies[r.callback])))
  {
  }

  /** A pass in which every callback that ran returned still ends in 404. */
  lemma ReturningCallbacksEndInNotFound(routes: seq<Route>, req: Request, env: Env)
    requires forall j :: 0 <= j < |routes| && routes[j].uri == req.path ==>
      req.verb == Value(routes[j].verb) &&
      routes[j].callback in env.existing && routes[j].callback !in env.replies
    ensures Dispatch(routes, req, env).ending == NotFound
    ensures Dispatch(routes, req, env).called == Continued(routes, req, env)
  {
    DispatchWithoutStop(routes, req, env);
  }

  // ---------------------------------------------------------------------
  // Registration order

  /** Routes registered later matter only when the earlier ones ended in 404:
      an outcome the earlier routes decided is never changed by later ones. */
  lemma {:induction false} DispatchOfConcatenation(a: seq<Route>, b: seq<Route>, req: Request, env: Env)
    ensures Dispatch(a + b, req, env) ==
      if Dispatch(a, req, env).ending.NotFound?
      then Prepend(Dispatch(a, req, env).called, Dispatch(b, req, env))
      else Dispatch(a, req, env)
  {
    if a == [] {
      assert a + b == b;
      assert [] + Dispatch(b, req, env).called == Dispatch(b, req, env).called;
    } else {
      assert (a + b)[0] == a[0] && (a + b)[1..] == a[1..] + b;
      DispatchOfConcatenation(a[1..], b, req, env);
      match ScanStep(a[0], req, env)
      case Skip =>
      case Stop(_) =>
      case Continue(c) =>
        var v := Dispatch(a[1..], req, env);
        if v.ending.NotFound? {
          var w := Dispatch(b, req, env);
          assert [c] + (v.called + w.called) == ([c] + v.called) + w.called;
        }
    }
  }

  /** Registering one more route leaves every pass that did not end in 404 as it was. */
  lemma RegisteringKeepsDecidedOutcomes(routes: seq<Route>, r: Route, req: Request, env: Env)
    requires !Dispatch(routes, req, env).ending.NotFound?
    ensures Dispatch(routes + [r], req, env) == Dispatch(routes, req, env)
  {
    DispatchOfConcatenation(routes, [r], req, env);
  }

  /** A route registered for another path changes no pass. */
  lemma RegisteringOtherPathChangesNothing(routes: seq<Route>, r: Route, req: Request, env: Env)
    requires r.uri != req.path
    ensures Dispatch(routes + [r], req, env) == Dispatch(routes, req, env)
  {
    DispatchOfConcatenation(routes, [r], req, env);
    var v := Dispatch(routes, req, env);
    assert Dispatch([r], req, env) == Verdict([], NotFound);
    assert v.called + [] == v.called;
  }

  // ---------------------------------------------------------------------
  // The trace of a pass

  lemma {:induction false} CallsAt(callbacks: seq<Callback>)
    ensures |Calls(callbacks)| == |callbacks|
    ensures forall i :: 0 <= i < |callbacks| ==> Calls(callbacks)[i] == Call(callbacks[i])
  {
    if callbacks != [] {
      CallsAt(callbacks[1..]);
      forall i | 1 <= i < |callbacks|
        ensures Calls(callbacks)[i] == Call(callbacks[i])
      {
        assert Calls(callbacks)[i] == Calls(callbacks[1..])[i - 1];
      }
    }
  }

  /** Every pass writes the callbacks' calls, then exactly one response: one
      status, set after the five headers, and one body, which is the last event. */
  lemma ExactlyOneResponse(v: Verdict)
    ensures |Trace(v)| == |v.called| + 7
    ensures forall i :: 0 <= i < |v.called| ==> Trace(v)[i] == Call(v.called[i])
    ensures Trace(v)[|v.called|..] == Frame(EndingPayload(v.ending), EndingStatus(v.ending))
    ensures forall i :: 0 <= i < |Trace(v)| ==> (Trace(v)[i].Status? <==> i == |v.called| + 5)
    ensures forall i :: 0 <= i < |Trace(v)| ==> (Trace(v)[i].Body? <==> i == |Trace(v)| - 1)
    ensures Trace(v)[|Trace(v)| - 1] == Body(EndingPayload(v.ending))
  {
    CallsAt(v.called);
    var t := Trace(v);
    var n := |v.called|;
    var f := Frame(EndingPayload(v.ending), EndingStatus(v.ending));
    assert t[n..] == f;
    forall i | 0 <= i < |t|
      ensures t[i].Status? <==> i == n + 5
      ensures t[i].Body? <==> i == |t| - 1
    {
      if i >= n {
        assert t[i] == f[i - n];
      }
    }
  }

  /** The response of each ending, as the source emits it. */
  lemma EndingResponses(m: HttpMethod, reply: Reply)
    ensures EndingPayload(NotFound) == Message("Not Found") && EndingStatus(NotFound) == 404
    ensures EndingPayload(MethodNotAllowed(m)) ==
      Message(Value(m) + " method is not allowed for this route.")
    ensures EndingStatus(MethodNotAllowed(m)) == 405
    ensures EndingPayload(HandlerMissing) == Message("The specified function does not exist")
    ensures EndingStatus(HandlerMissing) == 500
    ensures EndingPayload(Handled(reply)) == reply.data && EndingStatus(Handled(reply)) == reply.statusCode
  {
  }

  // ---------------------------------------------------------------------
  // Scenarios

  /** A later route on the same path with another verb answers 405 even after
      an earlier route's callback ran and returned. */
  lemma LaterRouteWithOtherVerbAnswers405(path: string, m1: HttpMethod, m2: HttpMethod, a: Callback, b: Callback, env: Env)
    requires m1 != m2 && a in env.existing && a !in env.replies
    ensures Dispatch([Route(m1, path, a), Route(m2, path, b)], Request(Value(m1), path), env) ==
      Verdict([a], MethodNotAllowed(m2))
  {
    ValueInjective(m1, m2);
    var routes := [Route(m1, path, a), Route(m2, path, b)];
    assert routes[1..] == [Route(m2, path, b)];
    assert routes[1..][1..] == [];
  }

  /** Registered (GET, "/users", a); a POST to /users gets a 405 whose message
      names GET, the route's verb. */
  lemma PostToGetRoute(a: Callback, env: Env)
    ensures Dispatch([Route(GET, "/users", a)], Request("POST", "/users"), env) ==
      Verdict([], MethodNotAllowed(GET))
  {
    assert Value(GET) != "POST";
  }

  lemma NotAllowedMessageOfGet()
    ensures NotAllowedMessage(GET) == "GET method is not allowed for this route."
  {
  }

  /** Registered (GET, "/users", a); GET /users calls a; GET /missing is a 404. */
  lemma GetUsersScenarios(a: Callback, env: Env)
    requires a in env.existing
    ensures Dispatch([Route(GET, "/users", a)], Request("GET", "/users"), env).called == [a]
    ensures a in env.replies ==>
      Dispatch([Route(GET, "/users", a)], Request("GET", "/users"), env).ending == Handled(env.replies[a])
    ensures Dispatch([Route(GET, "/users", a)], Request("GET", "/missing"), env) == Verdict([], NotFound)
  {
    assert "/users" != "/missing";
  }

  /** Registered (GET, "/x", a) where a does not exist; GET /x is a 500. */
  lemma MissingCallbackScenario(a: Callback, env: Env)
    requires a !in env.existing
    ensures Dispatch([Route(GET, "/x", a)], Request("GET", "/x"), env) == Verdict([], HandlerMissing)
  {
  }
}

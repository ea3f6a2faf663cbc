# Request dispatch of a PHP API starter, modelled in Dafny

This project models the request-dispatch core of a small PHP API starter:

- **`HttpMethod`** (`HttpMethod.dfy`, module `HttpMethods`): the nine string-backed verbs.
  `Value` gives a case's backing string and `TryFrom` maps a string back to a case.
- **`Controller::sendJSONResponse`** (`Controller.dfy`, module `Controller`): the process
  output is a `Response` object. It holds a trace of events (`header()`,
  `http_response_code()`, the body written by `exit`, and a route callback starting)
  and an `exited` flag. Every effect requires `!exited`, so nothing can run after a response.
  `Frame(data, code)` is the exact sequence of events one call writes.
- **`Router`** (`Router.dfy`, module `Routing`): class `Router` holds the registry as a
  `seq<Route>`. `Request` appends to it. `Listen` is the `foreach` loop, and it is proved
  against `Dispatch`. `Dispatch` is a recursive function that computes a `Verdict`: the
  callbacks called in order, and the one `Ending` (404, 405, 500, or the callback's own
  reply). `ScanStep` is one iteration of the loop over one route.
  `RouterProperties.dfy` proves the properties of `Dispatch`.
- **the autoloader** (`Autoload.dfy`, module `Autoload`): class name → file path, and the
  include-or-throw outcome.

The environment is passed in as parameters:
- The request is `Request(verb, path)`. `verb` is the raw method token. `path` is the
  already-extracted URI path.
- `Env.existing` is the set of callbacks for which `method_exists` returns true. A callback
  outside it is one whose class is loaded or loadable but lacks the method (see "## Left out").
- `Env.replies` maps each callback that ends the process with its own JSON response to
  that response. Every other callback returns normally.
- For the autoloader, `BASEDIR` is a string parameter and the files that exist are a set.

Behaviours of the code that the model keeps as written:
- The 405 body names the verb the **route** was registered under
  (`$method->value` in `checkMethod`), not the verb of the request. So registering
  `(GET, "/users")` and sending `POST /users` yields
  `"GET method is not allowed for this route."` (`PostToGetRoute`, `NotAllowedMessageOfGet`).
- After a callback returns, the loop goes on. When it ends, 404 is sent even if a
  callback already ran (`ReturningCallbacksEndInNotFound`). The doc comment of `listen`
  (App/Modules/Router.php:86-88) speaks of 404 only when no match is found; the model
  follows the code.
- A later route on the same path with another verb still answers 405 after an earlier
  callback returned (`LaterRouteWithOtherVerbAnswers405`).
- `sendJSONResponse` sends the five headers first, then the status code, then the body.

## Model

| member | source | states |
|---|---|---|
| `HttpMethods.Value` | App/Modules/HttpMethod.php:13-21 | the backing string of each case; `ValueInjective`, `ValueIsUpperCase` and `TryFromValue` prove its properties |
| `HttpMethods.TryFrom` | App/Modules/HttpMethod.php:11-21 | the case found has exactly the given backing string; when none is found, no case has that string |
| `HttpMethods.CasesAreExactlyTheNine` | App/Modules/HttpMethod.php:13-21 | the enum has exactly nine cases, each listed once |
| `HttpMethods.ValueInjective` | App/Modules/HttpMethod.php:13-21 | distinct cases have distinct backing strings |
| `HttpMethods.TryFromValue` | App/Modules/HttpMethod.php:11-21 | case → string → case is the identity, and a string maps to a case iff it is that case's backing string |
| `HttpMethods.ValueIsUpperCase` | App/Modules/HttpMethod.php:13-21 | every backing string is non-empty upper-case ASCII |
| `HttpMethods.LowerCaseTokenIsNoMethod` | App/Modules/HttpMethod.php:13-21 | a token with any lower-case letter (such as "get") is no case's backing string |
| `Controller.Line` | App/Controller/Controller.php:8-12 | the header line each class constant holds; `FrameLayout` states each line |
| `Controller.StandardHeaders` | App/Controller/Controller.php:31-41 | the five header events of `setResponseHeaders`, in call order; `SetResponseHeaders` is proved to write exactly these |
| `Controller.Frame` | App/Controller/Controller.php:20-26 | everything one `sendJSONResponse` writes; `SendJSONResponse` is proved to write it, and `FrameLayout` gives its layout |
| `Controller.Response.SendHeader` | App/Controller/Controller.php:34-40 | `header()` appends one header event and the process goes on |
| `Controller.Response.SetStatus` | App/Controller/Controller.php:23 | `http_response_code()` appends the status event |
| `Controller.Response.Exit` | App/Controller/Controller.php:25 | `exit` appends the body and ends the process |
| `Controller.Response.EnterCallback` | App/Modules/Router.php:100 | calling a route callback is recorded in the trace |
| `Controller.SetResponseHeaders` | App/Controller/Controller.php:31-41 | appends exactly the five fixed headers, in source order |
| `Controller.SendJSONResponse` | App/Controller/Controller.php:20-26 | appends the headers, then the status given (200 by default), then the body, and ends the process |
| `Controller.FrameLayout` | App/Controller/Controller.php:8-41 | a response is 7 events; the first five are the same five constant header lines for any payload or status; then the status, then the body |
| `Controller.DefaultStatusIsOk` | App/Controller/Controller.php:20 | a call without a status code sends status 200 |
| `Routing.IsCurrentUri` | App/Modules/Router.php:43-46 | byte-exact equality of the route path and the request path; `PathMatchIsExact` shows no normalisation |
| `Routing.MethodMatches` | App/Modules/Router.php:29 | the request token equals the route's backing string; `CheckMethod` is proved to answer 405 exactly when it fails |
| `Routing.NotAllowedMessage` | App/Modules/Router.php:31 | the 405 message built from the route's verb; `NotAllowedMessageOfGet` gives it for GET |
| `Routing.ScanStep` | App/Modules/Router.php:95-104 | one loop iteration over one route: skip, call and continue, or stop with 405, 500 or the callback's reply; `ScanRoute` is proved to do exactly this |
| `Routing.Dispatch` | App/Modules/Router.php:92-108 | the outcome of `listen` over the registry in order; `Listen` is proved against it, and `DispatchAtFirstStop`, `DispatchWithoutStop` and `CalledCallbacksMatch` characterise it |
| `Routing.CheckMethod` | App/Modules/Router.php:27-35 | strict verb comparison; on a mismatch, a 405 that names the route's verb and the end of the process; otherwise nothing |
| `Routing.HandleNotFound` | App/Modules/Router.php:69-74 | sends `{"message": "Not Found"}` with 404 and ends the process |
| `Routing.HandleServerError` | App/Modules/Router.php:76-81 | sends `{"message": "The specified function does not exist"}` with 500 and ends the process |
| `Routing.RunCallback` | App/Modules/Router.php:99-101 | the callback's call is recorded; the process ends exactly when the callback replies, and then with its reply |
| `Routing.ScanRoute` | App/Modules/Router.php:95-104 | one loop iteration writes exactly the events of `ScanStep`, and it stops the scan exactly when `ScanStep` stops |
| `Routing.DispatchAt` | App/Modules/Router.php:94-105 | the invariant of the loop: after a stopping route the trace is complete, otherwise the scan resumes at the next route with the calls so far |
| `Routing.Router.constructor` | App/Modules/Router.php:18 | the registry starts empty |
| `Routing.Router.Request` | App/Modules/Router.php:55-62 | the registry becomes the old registry plus one route at the end |
| `Routing.Router.Listen` | App/Modules/Router.php:92-108 | leaves the registry unchanged, ends the process, and appends exactly `Trace(Dispatch(routes, request, env))` |
| `RouterProperties.DispatchAtFirstStop` | App/Modules/Router.php:92-108 | with a first stopping route k: the calls of the continuing routes before k, then k's ending; routes after k have no effect |
| `RouterProperties.DispatchWithoutStop` | App/Modules/Router.php:94-107 | with no stopping route: each continuing callback is called once, in order, then 404 |
| `RouterProperties.OtherPathIsSkipped` | App/Modules/Router.php:95 | a route whose path differs is skipped and writes nothing |
| `RouterProperties.OnlyRoutesOnPathMatter` | App/Modules/Router.php:94-95 | dispatch over all routes equals dispatch over the routes registered for exactly the request path |
| `RouterProperties.NoRouteOnPathIsNotFound` | App/Modules/Router.php:107 | with no route on the path: no call, and the trace is exactly the 404 response |
| `RouterProperties.CalledCallbacksMatch` | App/Modules/Router.php:95-101 | every callback a pass calls exists and belongs to a route registered for exactly the request path under the request's method |
| `RouterProperties.PathMatchIsExact` | App/Modules/Router.php:43-46 | for every path: adding a trailing slash, or making any one lower-case letter upper-case, gives a path that does not match (in either direction) |
| `RouterProperties.FirstRouteOnPathWithOtherVerb` | App/Modules/Router.php:27-35 | first route on the path with another verb: exactly a 405 naming the route's verb; later routes are not examined |
| `RouterProperties.FirstRouteOnPathWithoutCallback` | App/Modules/Router.php:99-103 | first route on the path with the request's verb and a missing callback: exactly the 500 response |
| `RouterProperties.MatchingRouteCallsItsCallback` | App/Modules/Router.php:97-101 | path, verb and existing callback match: the callback is called, and the scan continues iff it returns |
| `RouterProperties.ReturningCallbacksEndInNotFound` | App/Modules/Router.php:101-107 | if every callback on the path returns, the pass still ends in 404 after calling them |
| `RouterProperties.DispatchOfConcatenation` | App/Modules/Router.php:55-62 | routes registered later matter only if the earlier ones ended in 404 |
| `RouterProperties.RegisteringKeepsDecidedOutcomes` | App/Modules/Router.php:57 | appending a route never changes an outcome other than 404 |
| `RouterProperties.RegisteringOtherPathChangesNothing` | App/Modules/Router.php:57 | appending a route for another path changes no pass |
| `RouterProperties.ExactlyOneResponse` | App/Modules/Router.php:92-108 | every pass writes the calls, then exactly one status (after the five headers) and one body, which is the last event |
| `RouterProperties.EndingResponses` | App/Modules/Router.php:69-81 | the body and status of each ending: 404 "Not Found", 405 with the route's verb, 500, or the callback's reply |
| `RouterProperties.LaterRouteWithOtherVerbAnswers405` | App/Modules/Router.php:94-104 | (m1, p, a) then (m2, p, b) with m1 ≠ m2, request m1 p, a returns: a is called, then 405 naming m2 |
| `RouterProperties.PostToGetRoute` | App/Modules/Router.php:29-32 | (GET, /users) and request POST /users: 405 naming GET, no call |
| `RouterProperties.NotAllowedMessageOfGet` | App/Modules/Router.php:31 | the 405 message for GET is "GET method is not allowed for this route." |
| `RouterProperties.GetUsersScenarios` | App/Modules/Router.php:92-108 | (GET, /users, a): GET /users calls a once (and ends with a's reply if it replies); GET /missing is a bare 404 |
| `RouterProperties.MissingCallbackScenario` | App/Modules/Router.php:99-103 | (GET, /x, a) with a missing: GET /x is exactly a 500 |
| `Autoload.ReplaceChar` | App/autoload.php:17 | same length; each position replaced iff it held the searched character |
| `Autoload.NamespaceToPath` | App/autoload.php:17 | same length, no backslash left, every other character kept at its position |
| `Autoload.FilePath` | App/autoload.php:17-20 | the path is `BASEDIR + "/"`, then exactly the converted class name `NamespaceToPath(className)`, then `.php` |
| `Autoload.Load` | App/autoload.php:15-29 | includes exactly when the computed path exists, and then that path; otherwise logs "File not found. Path: <path>" and throws "File not found: <path>" |
| `Autoload.FilePathRoundTrip` | App/autoload.php:17-20 | a class name without `/` is recovered from its file path |
| `Autoload.FilePathInjective` | App/autoload.php:17-20 | distinct class names give distinct file paths |
| `Autoload.IncludesOnlyExistingPath` | App/autoload.php:23-24 | an included path exists, and it is the file of the requested class |

## Left out

- `parse_url` (App/Modules/Router.php:45): the request path is an input that is already extracted.
- `json_encode` and its pretty-printing: a body is the payload value itself. Error bodies
  are `Message(text)`. What a callback sends is an opaque `Data` value.
- `$_SERVER`, `header()`, `http_response_code()`, `exit`, `include`, `error_log` and
  `file_exists` are events or parameters, not real I/O.
- Callback bodies are opaque. The model gives each callback one of two behaviours:
  it returns, or it sends one JSON response and ends the process.
  - A callback's behaviour depends only on the callback, so a callback registered twice
    behaves the same both times.
  - A callback that exits without `sendJSONResponse`, or that writes other output, is not modelled.
- The `exit` at App/Modules/Router.php:33 cannot be reached, because `sendJSONResponse`
  has already ended the process. The model has no separate step for it.
- `HttpMethods.TryFrom` models PHP's built-in `HttpMethod::tryFrom`. The dispatcher itself
  only compares the request token with `$method->value`.
- App/DAO/DAO.php, App/Model/Model.php and App/config.php are not part of this model.
  They are database plumbing, an untyped property, and environment loading.
- `method_exists` (App/Modules/Router.php:99) runs the autoloader when the controller class
  is not loaded yet. If the class file is missing, the autoloader logs and throws
  (App/autoload.php:27-28), and the pass ends in an uncaught exception: no headers and no
  JSON body. The model treats every callback outside `Env.existing` as a class that loads but
  lacks the method, which gives the JSON 500. The autoloader itself is modelled
  (`Autoload.Load`), but it is not connected to the dispatcher.
- A callback that throws, or raises an error when called (App/Modules/Router.php:100), is
  not modelled: a callback either returns or sends one JSON response.

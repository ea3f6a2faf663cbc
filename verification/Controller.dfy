/** The JSON response framer (App\Controller\Controller) and the observable
    output of the PHP process it writes to. The process-level effects
    `header()`, `http_response_code()`, `exit()` and a handler call are events
    appended to a trace; `exit` also sets a flag after which nothing may run. */
module Controller {

  /** What `json_encode` receives. Error bodies are `["message" => ...]`;
      what a handler sends is opaque here. */
  datatype Payload = Message(text: string) | Data(json: string)

  /** A route callback `[ControllerClass::class, 'action']`. */
  datatype Callback = Callback(controller: string, action: string)

  /** The class constants passed to `header()`. */
  datatype HeaderConstant =
    | AccessControlAllowOrigin  // ACCESS_CONTROL_ALLOW_ORIGIN
    | ContentTypeJson           // CONTENT_TYPE_JSON
    | CacheControlNoCache       // CACHE_CONTROL_NO_CACHE
    | ExpiresHeader             // EXPIRES_HEADER
    | PragmaNoCache             // PRAGMA_NO_CACHE

  /** The header line each constant holds. */
  function Line(h: HeaderConstant): string
  {
    match h
    case AccessControlAllowOrigin => "Access-Control-Allow-Origin: *"
    case ContentTypeJson => "Content-Type: application/json; charset=UTF-8"
    case CacheControlNoCache => "Cache-Control: no-cache, must-revalidate"
    case ExpiresHeader => "Expires: Mon, 26 Jul 1997 05:00:00 GMT"
    case PragmaNoCache => "Pragma: no-cache"
  }

  datatype Event =
    | Header(header: HeaderConstant)  // header(self::<constant>)
    | Status(code: int)         // http_response_code($code)
    | Body(data: Payload)       // exit(json_encode($data, JSON_PRETTY_PRINT))
    | Call(callback: Callback)  // $callback()

  /** The header events `setResponseHeaders` produces, in call order. */
  function StandardHeaders(): seq<Event>
  {
    [ Header(AccessControlAllowOrigin), Header(ContentTypeJson),
      Header(CacheControlNoCache), Header(ExpiresHeader), Header(PragmaNoCache) ]
  }

  /** Everything one `sendJSONResponse($data, $statusCode)` writes. */
  function Frame(data: Payload, statusCode: int): seq<Event>
  {
    StandardHeaders() + [Status(statusCode), Body(data)]
  }

  /** The output of the running PHP process. */
  class Response {
    var events: seq<Event>
    var exited: bool

    constructor ()
      ensures events == [] && !exited
    {
      events := [];
      exited := false;
    }

    /** `header(Line(h))` */
    method SendHeader(h: HeaderConstant)
      requires !exited
      modifies this
      ensures events == old(events) + [Header(h)] && !exited
    {
      events := events + [Header(h)];
    }

    /** `http_response_code($code)` */
    method SetStatus(code: int)
      requires !exited
      modifies this
      ensures events == old(events) + [Status(code)] && !exited
    {
      events := events + [Status(code)];
    }

    /** `exit(json_encode($data))`: writes the body and ends the process. */
    method Exit(data: Payload)
      requires !exited
      modifies this
      ensures events == old(events) + [Body(data)] && exited
    {
      events := events + [Body(data)];
      exited := true;
    }

    /** Records that a route callback starts running. */
    method EnterCallback(callback: Callback)
      requires !exited
      modifies this
      ensures events == old(events) + [Call(callback)] && !exited
    {
      events := events + [Call(callback)];
    }
  }

  /** `setResponseHeaders`: the five fixed headers, in order. */
  method SetResponseHeaders(out: Response)
    requires !out.exited
    modifies out
    ensures out.events == old(out.events) + StandardHeaders() && !out.exited
  {
    out.SendHeader(AccessControlAllowOrigin);
    out.SendHeader(ContentTypeJson);
    out.SendHeader(CacheControlNoCache);
    out.SendHeader(ExpiresHeader);
    out.SendHeader(PragmaNoCache);
  }

  /** `sendJSONResponse($data, $statusCode = 200)`: headers, then the status,
      then the body, then the process ends. */
  method SendJSONResponse(out: Response, data: Payload, statusCode: int := 200)
    requires !out.exited
    modifies out
    ensures out.events == old(out.events) + Frame(data, statusCode)
    ensures out.exited
  {
    SetResponseHeaders(out);
    out.SetStatus(statusCode);
    out.Exit(data);
  }

  /** Every frame is the same five headers followed by the status and then the
      body; the headers depend on neither the payload nor the status code. */
  lemma FrameLayout(data: Payload, statusCode: int, otherData: Payload, otherCode: int)
    ensures |Frame(data, statusCode)| == 7
    ensures Frame(data, statusCode)[..5] == Frame(otherData, otherCode)[..5]
    ensures forall i :: 0 <= i < 5 ==> Frame(data, statusCode)[i].Header?
    ensures Line(Frame(data, statusCode)[0].header) == "Access-Control-Allow-Origin: *"
    ensures Line(Frame(data, statusCode)[1].header) == "Content-Type: application/json; charset=UTF-8"
    ensures Line(Frame(data, statusCode)[2].header) == "Cache-Control: no-cache, must-revalidate"
    ensures Line(Frame(data, statusCode)[3].header) == "Expires: Mon, 26 Jul 1997 05:00:00 GMT"
    ensures Line(Frame(data, statusCode)[4].header) == "Pragma: no-cache"
    ensures Frame(data, statusCode)[5] == Status(statusCode)
    ensures Frame(data, statusCode)[6] == Body(data)
  {
  }

  /** Calling without a status code sends status 200. */
  method DefaultStatusIsOk(out: Response, data: Payload)
    requires !out.exited
    modifies out
    ensures out.events == old(out.events) + Frame(data, 200)
  {
    SendJSONResponse(out, data);
  }
}

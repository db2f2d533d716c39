/** backend/local.js: the development server's request listener. It turns a
    Node request into a `Request`, runs `processRequest` with the local
    override hook, and copies the result onto the Node response. */
module Local {
  import opened Base
  import opened Strings
  import opened Constants
  import opened Cache
  import opened FileSystem
  import opened Http
  import opened Logger
  import opened Bundler
  import opened Localhost
  import opened S3
  import opened Override
  import opened ProcessRequest

  /** A header value of a Node request: a string (possibly missing) or,
      for a repeated header, the list of its values. */
  datatype HeaderValue = Single(value: Option<string>) | Multiple(values: seq<string>)

  /** The fields of the Node request the listener reads. */
  datatype IncomingMessage = IncomingMessage(headers: Option<map<string, HeaderValue>>, httpMethod: Option<string>, url: Option<string>)

  /** The encoding `res.write` is given. */
  datatype Encoding = Utf8 | Base64

  /** What the listener has done to the Node response: the headers set,
      the status code, the chunks written and whether it was ended. */
  datatype ServerState = ServerState(headers: map<string, string>, statusCode: int, written: seq<(Body, Encoding)>, ended: bool)

  /** `Array.isArray(value) ? value.join(',') : value ?? ''`. */
  function Flatten(v: HeaderValue): string
  {
    match v
    case Multiple(values) => Join(values, ",")
    case Single(value) => match value case Some(s) => s case None => ""
  }

  /** A repeated header whose values hold no comma splits back into them. */
  lemma FlattenSplits(values: seq<string>)
    requires |values| >= 1 && forall i :: 0 <= i < |values| ==> ',' !in values[i]
    ensures SplitOn(Flatten(Multiple(values)), ',') == values
  {
    SplitOnJoin(values, ',');
  }

  /** The header record of the request: the same names, each value
      flattened; no headers give an empty record. */
  function FlattenedHeaders(h: Option<map<string, HeaderValue>>): (r: map<string, string>)
    ensures h.None? ==> r == map[]
    ensures h.Some? ==> r.Keys == h.value.Keys
    ensures h.Some? ==> forall k :: k in r ==> r[k] == Flatten(h.value[k])
  {
    match h
    case None => map[]
    case Some(m) => map k | k in m :: Flatten(m[k])
  }

  /** `req.method || 'GET'`. */
  function MethodOf(m: Option<string>): (r: string)
    ensures Present(m) ==> r == m.value
    ensures !Present(m) ==> r == "GET"
  {
    if Present(m) then m.value else "GET"
  }

  /** The `Request` the listener builds (it has no body), or the error
      `new URL(req.url || '', ...)` throws. */
  function ListenerRequest(msg: IncomingMessage, rt: Runtime): (r: Result<Request>)
    ensures var headers := FlattenedHeaders(msg.headers);
      r.Ok? <==> rt.parseUrl(if Present(msg.url) then msg.url.value else "", BaseUrl(headers)).Some?
    ensures r.Ok? ==> r.value.headers == FlattenedHeaders(msg.headers)
    ensures r.Ok? ==> r.value.httpMethod == MethodOf(msg.httpMethod) && r.value.body.None?
  {
    var headers := FlattenedHeaders(msg.headers);
    match rt.parseUrl(if Present(msg.url) then msg.url.value else "", BaseUrl(headers))
    case None => Err(InvalidUrl)
    case Some(url) => Ok(Request(MethodOf(msg.httpMethod), headers, url, None))
  }

  /** The write encoding: base64 exactly when there are headers and their
      `Content-Type` (this spelling only) starts with `image`. */
  function EncodingOf(headers: Option<map<string, string>>): (e: Encoding)
    ensures e == Base64 <==> headers.Some? && "Content-Type" in headers.value && StartsWith(headers.value["Content-Type"], "image")
  {
    if headers.Some? && "Content-Type" in headers.value && StartsWith(headers.value["Content-Type"], "image") then Base64
    else Utf8
  }

  /** `response.body || ''`. */
  function WrittenBody(b: Body): (r: Body)
    ensures Truthy(b) ==> r == b
    ensures !Truthy(b) ==> r == Text("")
  {
    if Truthy(b) then b else Text("")
  }

  /** The Node response after the result is copied onto it: every header
      set (overriding one of the same name), the status, one write and
      the end. */
  function Delivered(headers: Option<map<string, string>>, status: int, body: Body, sr: ServerState): ServerState
  {
    ServerState(
      match headers case Some(h) => sr.headers + h case None => sr.headers,
      status,
      sr.written + [(WrittenBody(body), EncodingOf(headers))],
      true)
  }

  /** `requestListener(req, res)` run to completion: the error it rejects
      with, if any, the Node response and the world after it. */
  function ListenerOf(msg: IncomingMessage, sr: ServerState, w: World, sv: Services, rt: Runtime,
                      isLocalHost: string -> bool, build: string -> BuildResult): (Option<string>, ServerState, World)
  {
    match ListenerRequest(msg, rt)
    case Err(m) => (Some(m), sr, w)
    case Ok(req) =>
      var (reply, w2) := ProcessOf(req, LocalOverride(isLocalHost, build), w, sv, rt);
      var (error, sr2) := DeliverOf(reply, sr);
      (error, sr2, w2)
  }

  /** What the listener does with what `processRequest` resolved with. */
  function DeliverOf(reply: Reply, sr: ServerState): (Option<string>, ServerState)
  {
    match reply
    case Rejected(m) => (Some(m), sr)
    case Replied(f) => (None, Delivered(Some(f.headers), f.status, f.body, sr))
    case Bare(status, body) => (None, Delivered(None, status, Text(body), sr))
  }

  /** A file the development handler reads as base64 text (an image that is
      not a binary extension) is written with the base64 encoding, so the
      browser gets its bytes back; any other mime type is written as UTF-8. */
  lemma LocalImagesAreBase64(res: ResFields, file: string, mimeType: string, body: Body)
    ensures EncodingOf(Some(Ok200(res, mimeType, body).headers)) == Base64 <==> StartsWith(mimeType, "image")
    ensures ReadModeOf(file, mimeType) == Base64Text ==> EncodingOf(Some(Ok200(res, mimeType, body).headers)) == Base64
  {
  }

  /** The bare `/api/test` record and a response without `Content-Type`
      (the S3 handler writes `content-type`) are written as UTF-8. */
  lemma Utf8WithoutContentType(headers: Option<map<string, string>>)
    requires headers.None? || "Content-Type" !in headers.value
    ensures EncodingOf(headers) == Utf8
  {
  }

  /** Without a `host` header every non-preflight request whose cookie
      reads is rejected by the hook, and nothing is written. */
  lemma MissingHostRejects(msg: IncomingMessage, sr: ServerState, w: World, sv: Services, rt: Runtime,
                           isLocalHost: string -> bool, build: string -> BuildResult)
    requires ListenerRequest(msg, rt).Ok?
    requires var req := ListenerRequest(msg, rt).value;
      "host" !in req.headers && req.httpMethod != "OPTIONS" && ThemeOf(req, rt).Ok?
    ensures var (error, sr2, _) := ListenerOf(msg, sr, w, sv, rt, isLocalHost, build);
      error == Some(MissingHostMessage) && sr2 == sr
  {
  }

  /** The listener writes exactly one chunk, never `undefined`, and ends
      the response when `processRequest` resolves, and leaves the response
      alone when it rejects. */
  lemma OneWritePerRequest(msg: IncomingMessage, sr: ServerState, w: World, sv: Services, rt: Runtime,
                           isLocalHost: string -> bool, build: string -> BuildResult)
    ensures var (error, sr2, _) := ListenerOf(msg, sr, w, sv, rt, isLocalHost, build);
      && (error.Some? ==> sr2 == sr)
      && (error.None? ==> sr2.ended && |sr2.written| == |sr.written| + 1 && sr2.written[..|sr.written|] == sr.written)
      && (error.None? ==> Truthy(sr2.written[|sr.written|].0) || sr2.written[|sr.written|].0 == Text(""))
  {
  }

  /** Node's `ServerResponse`, as far as the listener uses it. */
  class ServerResponse {
    var headers: map<string, string>
    var statusCode: int
    var written: seq<(Body, Encoding)>
    var ended: bool

    function State(): ServerState
      reads this
    {
      ServerState(headers, statusCode, written, ended)
    }

    /** A fresh response: no headers, status 200, nothing written. */
    constructor ()
      ensures State() == ServerState(map[], 200, [], false)
    {
      headers := map[];
      statusCode := 200;
      written := [];
      ended := false;
    }

    method SetHeader(key: string, value: string)
      modifies this`headers
      ensures headers == old(headers)[key := value]
    {
      headers := headers[key := value];
    }

    method Write(body: Body, encoding: Encoding)
      modifies this`written
      ensures written == old(written) + [(body, encoding)]
    {
      written := written + [(body, encoding)];
    }

    method End()
      modifies this`ended
      ensures ended
    {
      ended := true;
    }
  }

  /** The loop that flattens the request headers. */
  method FlattenHeaders(h: Option<map<string, HeaderValue>>) returns (headers: map<string, string>)
    ensures headers == FlattenedHeaders(h)
  {
    headers := map[];
    if h.Some? {
      var remaining := h.value.Keys;
      while remaining != {}
        invariant remaining <= h.value.Keys
        invariant headers.Keys == h.value.Keys - remaining
        invariant forall k :: k in headers ==> headers[k] == Flatten(h.value[k])
        decreases remaining
      {
        var key :| key in remaining;
        headers := headers[key := Flatten(h.value[key])];
        remaining := remaining - {key};
      }
    }
  }

  /** The loop that calls `res.setHeader` for every response header. */
  method CopyHeaders(h: map<string, string>, res: ServerResponse)
    modifies res`headers
    ensures res.headers == old(res.headers) + h
  {
    var remaining := h.Keys;
    while remaining != {}
      invariant remaining <= h.Keys
      invariant res.headers.Keys == old(res.headers).Keys + (h.Keys - remaining)
      invariant forall k :: k in res.headers ==>
        res.headers[k] == if k in h.Keys - remaining then h[k] else old(res.headers)[k]
      decreases remaining
    {
      var key :| key in remaining;
      res.SetHeader(key, h[key]);
      remaining := remaining - {key};
    }
  }

  /** `requestListener(req, res)`; `error` is what it rejects with. */
  method RequestListener(msg: IncomingMessage, res: ServerResponse, app: ApplicationCache, disk: Disk, logger: Logger,
                         sv: Services, rt: Runtime, isLocalHost: string -> bool, build: string -> BuildResult)
    returns (error: Option<string>)
    modifies res, app, disk, logger
    ensures (error, res.State(), World(app.Snapshot(), disk.State(), logger.State()))
         == ListenerOf(msg, old(res.State()), World(old(app.Snapshot()), old(disk.State()), old(logger.State())),
                       sv, rt, isLocalHost, build)
  {
    var headers := FlattenHeaders(msg.headers);
    var url := rt.parseUrl(if Present(msg.url) then msg.url.value else "", BaseUrl(headers));
    if url.None? {
      return Some(InvalidUrl);
    }
    var request := Request(MethodOf(msg.httpMethod), headers, url.value, None);
    var reply := ProcessRequest.ProcessRequest(request, LocalOverride(isLocalHost, build), app, disk, logger, sv, rt);
    assert ListenerRequest(msg, rt) == Ok(request);
    error := Deliver(reply, res);
  }

  /** Copies a resolved result onto the Node response. */
  method Deliver(reply: Reply, res: ServerResponse) returns (error: Option<string>)
    modifies res
    ensures (error, res.State()) == DeliverOf(reply, old(res.State()))
  {
    var responseHeaders: Option<map<string, string>>;
    var status: int;
    var body: Body;
    match reply {
      case Rejected(m) =>
        return Some(m);
      case Replied(f) =>
        responseHeaders, status, body := Some(f.headers), f.status, f.body;
      case Bare(s, b) =>
        responseHeaders, status, body := None, s, Text(b);
    }
    if responseHeaders.Some? {
      CopyHeaders(responseHeaders.value, res);
    }
    res.statusCode := status;
    var encoding := if responseHeaders.Some? && "Content-Type" in responseHeaders.value
                       && StartsWith(responseHeaders.value["Content-Type"], "image") then Base64 else Utf8;
    res.Write(if Truthy(body) then body else Text(""), encoding);
    res.End();
    return None;
  }
}

/** backend/handlers/s3_handler.js: serves a built file from the
    `lambda.site` bucket, under the folder of the deployed version, and maps
    any failure to status 500 with one ERROR log line. */
module S3 {
  import opened Base
  import opened Strings
  import opened Http
  import opened Logger

  const Bucket := "lambda.site"

  /** What the `GetObjectCommand` call gives: the HTTP status of the call,
      the object's content type and its bytes (each possibly missing), or
      the message of the error it throws. */
  datatype StoreReply =
    | StoreObject(statusCode: Option<int>, contentType: Option<string>, body: Option<seq<Byte>>)
    | StoreError(message: string)

  /** The deployment the handler runs in: `process.env.VERSION_HASH`, the S3
      call on a bucket and a key, and the clock and `JSON.stringify` of
      strings the logger uses. */
  datatype Services = Services(
    versionHash: Option<string>,
    send: (string, string) -> StoreReply,
    now: string,
    quote: string -> string)

  /** A template literal shows a missing variable as `undefined`. */
  function VersionText(v: Option<string>): string
  {
    match v
    case Some(h) => h
    case None => "undefined"
  }

  /** `s.substring(1)`: everything after the first character. */
  function DropFirst(s: string): (r: string)
    ensures s != [] ==> s == [s[0]] + r
    ensures s == [] ==> r == []
  {
    if s == [] then [] else s[1..]
  }

  /** The object key of a decoded request path: `/` stands for
      `/index.html`, and the path loses its first character under the
      version folder. */
  function ObjectKey(versionHash: Option<string>, file: string): (key: string)
    ensures StartsWith(key, "/" + VersionText(versionHash) + "/")
    ensures file == "/" ==> key == "/" + VersionText(versionHash) + "/index.html"
    ensures file != "/" ==> key == "/" + VersionText(versionHash) + "/" + DropFirst(file)
  {
    var f := if file == "/" then "/index.html" else file;
    var prefix := "/" + VersionText(versionHash) + "/";
    assert (prefix + DropFirst(f))[..|prefix|] == prefix;
    prefix + DropFirst(f)
  }

  /** Two request paths (each starting with `/`) name the same object
      exactly when they are equal or are `/` and `/index.html`. */
  lemma ObjectKeyInjective(versionHash: Option<string>, a: string, b: string)
    requires StartsWith(a, "/") && StartsWith(b, "/")
    ensures ObjectKey(versionHash, a) == ObjectKey(versionHash, b)
        <==> a == b || (a == "/" && b == "/index.html") || (a == "/index.html" && b == "/")
  {
    var prefix := "/" + VersionText(versionHash) + "/";
    var fa := if a == "/" then "/index.html" else a;
    var fb := if b == "/" then "/index.html" else b;
    assert ObjectKey(versionHash, a) == prefix + DropFirst(fa);
    assert ObjectKey(versionHash, b) == prefix + DropFirst(fb);
    if ObjectKey(versionHash, a) == ObjectKey(versionHash, b) {
      SamePrefixSameRest(prefix, DropFirst(fa), DropFirst(fb));
      assert fa[0] == '/' && fb[0] == '/';
      assert fa == [fa[0]] + DropFirst(fa) && fb == [fb[0]] + DropFirst(fb);
      assert fa == fb;
    }
  }

  lemma SamePrefixSameRest(p: string, x: string, y: string)
    requires p + x == p + y
    ensures x == y
  {
    assert x == (p + x)[|p|..];
    assert y == (p + y)[|p|..];
  }

  /** `s3Res.$metadata.httpStatusCode || 200`: a missing or zero status is 200. */
  function StatusOr200(code: Option<int>): (s: int)
    ensures s != 0
    ensures code.Some? && code.value != 0 ==> s == code.value
  {
    if code.Some? && code.value != 0 then code.value else 200
  }

  /** `s3Res.ContentType || 'text/html'`. */
  function ContentTypeOr(ctype: Option<string>): (t: string)
    ensures t != ""
    ensures Present(ctype) ==> t == ctype.value
  {
    if Present(ctype) then ctype.value else "text/html"
  }

  /** `JSON.stringify({ error: 'Internal Server Error', message })`. */
  function ErrorBody(message: string, rt: Runtime): string
  {
    "{\"error\":\"Internal Server Error\",\"message\":" + rt.jsonString(message) + "}"
  }

  /** The log call a failure makes. */
  function FailureEntry(message: string): LogArgs
  {
    Entry("FRONTEND FILE request failed: " + message, Some(Error), Some("express.frontEndFilesRequest"), None, None, None)
  }

  /** The object the handler fetches, or the message of the error thrown on
      the way: a path `decodeURI` rejects, or a failed S3 call. */
  function FetchOf(req: Request, sv: Services, rt: Runtime): (r: Result<StoreReply>)
    ensures r.Ok? ==> r.value.StoreObject?
  {
    match rt.decodeUri(req.url.pathname)
    case None => Err(UriMalformed)
    case Some(file) =>
      match sv.send(Bucket, ObjectKey(sv.versionHash, file))
      case StoreError(m) => Err(m)
      case StoreObject(code, ctype, body) => Ok(StoreObject(code, ctype, body))
  }

  /** The response `s3Handler(req, res)` returns, and the message it logs
      when it fails. */
  function S3Of(req: Request, res: ResFields, sv: Services, rt: Runtime): (r: (ResFields, Option<string>))
    ensures r.0.cookies == res.cookies
    ensures r.1 == (if FetchOf(req, sv, rt).Err? then Some(FetchOf(req, sv, rt).message) else None)
  {
    match FetchOf(req, sv, rt)
    case Err(m) => (res.(status := 500, body := Text(ErrorBody(m, rt))), Some(m))
    case Ok(reply) =>
      var body := if reply.body.Some? then Stream(reply.body.value) else NoBody;
      (res.(status := StatusOr200(reply.statusCode),
            headers := res.headers["content-type" := ContentTypeOr(reply.contentType)],
            body := body), None)
  }

  /** A fetched object is served with its status (200 when missing or 0),
      its content type (`text/html` when missing) and its bytes as a
      stream, and nothing is logged. */
  lemma S3ServesObject(req: Request, res: ResFields, sv: Services, rt: Runtime, file: string,
                       code: Option<int>, ctype: Option<string>, bytes: Option<seq<Byte>>)
    requires rt.decodeUri(req.url.pathname) == Some(file)
    requires sv.send(Bucket, ObjectKey(sv.versionHash, file)) == StoreObject(code, ctype, bytes)
    ensures var (r, failure) := S3Of(req, res, sv, rt);
      && failure.None?
      && r.status == (if code.Some? && code.value != 0 then code.value else 200)
      && r.headers == res.headers["content-type" := if Present(ctype) then ctype.value else "text/html"]
      && r.body == (if bytes.Some? then Stream(bytes.value) else NoBody)
  {
  }

  /** A path that does not decode, or an S3 call that fails, gives status
      500 with the JSON error body, keeps the headers, and is logged. */
  lemma S3FailureIs500(req: Request, res: ResFields, sv: Services, rt: Runtime)
    requires rt.decodeUri(req.url.pathname).None?
          || sv.send(Bucket, ObjectKey(sv.versionHash, rt.decodeUri(req.url.pathname).value)).StoreError?
    ensures var (r, failure) := S3Of(req, res, sv, rt);
      && failure.Some?
      && (rt.decodeUri(req.url.pathname).None? ==> failure.value == UriMalformed)
      && r == res.(status := 500, body := Text(ErrorBody(failure.value, rt)))
  {
  }

  /** Only `content-type` may change among the headers. */
  lemma S3KeepsOtherHeaders(req: Request, res: ResFields, sv: Services, rt: Runtime, k: string)
    requires k in res.headers && k != "content-type"
    ensures var r := S3Of(req, res, sv, rt).0;
      k in r.headers && r.headers[k] == res.headers[k]
  {
  }

  /** The one line a failure logs is on the error console. */
  lemma FailureLogsOneError(s: LogState, m: string, sv: Services)
    ensures var r := LogOf(s, FailureEntry(m), sv.now, sv.quote);
      && r.lines[..|s.lines|] == s.lines && |r.lines| == |s.lines| + 1
      && r.lines[|s.lines|].sink == ConsoleError
  {
  }

  /** `s3Handler(req, res)`: updates `res` in place (the object it returns)
      and logs one ERROR line when it fails. */
  method S3Handler(req: Request, res: Response, logger: Logger, sv: Services, rt: Runtime)
    modifies res, logger
    ensures res.Fields() == S3Of(req, old(res.Fields()), sv, rt).0
    ensures var failure := S3Of(req, old(res.Fields()), sv, rt).1;
      logger.State() == if failure.Some? then LogOf(old(logger.State()), FailureEntry(failure.value), sv.now, sv.quote)
                        else old(logger.State())
  {
    var failure: Option<string> := None;
    var decoded := rt.decodeUri(req.url.pathname);
    if decoded.None? {
      failure := Some(UriMalformed);
    } else {
      var file := decoded.value;
      if file == "/" {
        file := "/index.html";
      }
      file := "/" + VersionText(sv.versionHash) + "/" + DropFirst(file);
      assert file == ObjectKey(sv.versionHash, decoded.value);
      var reply := sv.send(Bucket, file);
      match reply {
        case StoreError(m) =>
          failure := Some(m);
        case StoreObject(code, ctype, bytes) =>
          res.status := StatusOr200(code);
          res.headers := res.headers["content-type" := ContentTypeOr(ctype)];
          res.body := if bytes.Some? then Stream(bytes.value) else NoBody;
      }
    }
    if failure.Some? {
      logger.Log(FailureEntry(failure.value), sv.now, sv.quote);
      res.status := 500;
      res.body := Text(ErrorBody(failure.value, rt));
    }
  }
}

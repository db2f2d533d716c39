/** backend/lambda.js: the AWS Lambda entry point behind an application load
    balancer. It turns the event into a `Request`, runs `processRequest`
    without a hook, and shapes the result for the load balancer. */
module Lambda {
  import opened Base
  import opened Strings
  import opened Cache
  import opened FileSystem
  import opened Http
  import opened Logger
  import opened S3
  import opened Override
  import opened ProcessRequest

  /** The fields of the load balancer event the handler reads: the headers
      (a value may be missing), the query parameters in iteration order,
      the method, the path, the body and whether it is base64. */
  datatype AlbEvent = AlbEvent(
    headers: Option<map<string, Option<string>>>,
    queryStringParameters: Option<seq<(string, string)>>,
    httpMethod: string,
    path: string,
    body: Option<string>,
    isBase64Encoded: bool)

  /** The object the handler resolves with; `headers` is missing for the
      bare `/api/test` record. */
  datatype AlbResult = AlbResult(isBase64Encoded: bool, statusCode: int, headers: Option<map<string, string>>, body: Body)

  /** `value || ''`. */
  function HeaderValue(v: Option<string>): (r: string)
    ensures v.Some? ==> r == v.value
    ensures v.None? ==> r == ""
  {
    match v
    case Some(s) => s
    case None => ""
  }

  /** The header record the request gets: the same names, a missing value
      becoming `''`; no headers at all give an empty record. */
  function NormalizedHeaders(h: Option<map<string, Option<string>>>): (r: map<string, string>)
    ensures h.None? ==> r == map[]
    ensures h.Some? ==> r.Keys == h.value.Keys
    ensures h.Some? ==> forall k :: k in r ==> r[k] == HeaderValue(h.value[k])
  {
    match h
    case None => map[]
    case Some(m) => map k | k in m :: HeaderValue(m[k])
  }

  /** One query parameter as the builder writes it. */
  function Pair(p: (string, string)): string
  {
    p.0 + "=" + p.1
  }

  function Pairs(ps: seq<(string, string)>): (r: seq<string>)
    ensures |r| == |ps| && forall i :: 0 <= i < |ps| ==> r[i] == Pair(ps[i])
  {
    seq(|ps|, i requires 0 <= i < |ps| => Pair(ps[i]))
  }

  /** The query string: `?`, then `&key=value` per parameter in order. */
  function QueryString(ps: seq<(string, string)>): (q: string)
    ensures StartsWith(q, "?")
    decreases |ps|
  {
    if ps == [] then "?"
    else
      var q := QueryString(ps[..|ps| - 1]) + "&" + Pair(ps[|ps| - 1]);
      assert q[..1] == QueryString(ps[..|ps| - 1])[..1];
      q
  }

  lemma {:induction false} JoinSnoc(parts: seq<string>, sep: string, last: string)
    requires |parts| >= 1
    ensures Join(parts + [last], sep) == Join(parts, sep) + sep + last
    decreases |parts|
  {
    if |parts| > 1 {
      assert (parts + [last])[1..] == parts[1..] + [last];
      JoinSnoc(parts[1..], sep, last);
    } else {
      assert (parts + [last])[1..] == [last];
    }
  }

  /** The query string is `?` and the pairs, joined by `&`. */
  lemma {:induction false} QueryStringIsJoin(ps: seq<(string, string)>)
    ensures QueryString(ps) == Join(["?"] + Pairs(ps), "&")
    decreases |ps|
  {
    if ps != [] {
      var init := ps[..|ps| - 1];
      QueryStringIsJoin(init);
      assert Pairs(ps) == Pairs(init) + [Pair(ps[|ps| - 1])];
      assert ["?"] + Pairs(ps) == (["?"] + Pairs(init)) + [Pair(ps[|ps| - 1])];
      JoinSnoc(["?"] + Pairs(init), "&", Pair(ps[|ps| - 1]));
    }
  }

  /** When no key or value holds `&`, splitting the query string on `&`
      gives back `?` (the empty first entry a URL parser skips) and every
      `key=value` pair in order. */
  lemma QueryStringSplits(ps: seq<(string, string)>)
    requires forall i :: 0 <= i < |ps| ==> '&' !in ps[i].0 && '&' !in ps[i].1
    ensures SplitOn(QueryString(ps), '&') == ["?"] + Pairs(ps)
  {
    QueryStringIsJoin(ps);
    var pairs := Pairs(ps);
    forall i | 0 <= i < |pairs|
      ensures '&' !in pairs[i]
    {
      PairWithout(ps[i], '&');
    }
    var parts := ["?"] + pairs;
    assert forall i :: 0 <= i < |parts| ==> '&' !in parts[i] by {
      forall i | 0 <= i < |parts|
        ensures '&' !in parts[i]
      {
        if i > 0 {
          assert parts[i] == pairs[i - 1];
        }
      }
    }
    SplitOnJoin(parts, '&');
  }

  lemma PairWithout(p: (string, string), c: char)
    requires c !in p.0 && c !in p.1 && c != '='
    ensures c !in Pair(p)
  {
    assert forall j :: 0 <= j < |Pair(p)| ==> Pair(p)[j] != c by {
      forall j | 0 <= j < |Pair(p)|
        ensures Pair(p)[j] != c
      {
        if j < |p.0| {
          assert Pair(p)[j] == p.0[j];
        } else if j == |p.0| {
          assert Pair(p)[j] == '=';
        } else {
          assert Pair(p)[j] == p.1[j - |p.0| - 1];
        }
      }
    }
  }

  /** `event.body ?? ''`, base64-decoded when the event says so. */
  function DecodedBody(event: AlbEvent, rt: Runtime): string
  {
    var raw := match event.body case Some(b) => b case None => "";
    if event.isBase64Encoded then rt.base64DecodeToString(raw) else raw
  }

  /** The `Request` the handler builds, or the error `new URL` throws. */
  function LambdaRequest(event: AlbEvent, rt: Runtime): (r: Result<Request>)
    ensures var headers := NormalizedHeaders(event.headers);
      var ps := match event.queryStringParameters case Some(p) => p case None => [];
      r.Ok? <==> rt.parseUrl(event.path + QueryString(ps), BaseUrl(headers)).Some?
    ensures r.Ok? ==> r.value.headers == NormalizedHeaders(event.headers) && r.value.httpMethod == event.httpMethod
    ensures r.Ok? && !event.isBase64Encoded ==> r.value.body == Some(if event.body.Some? then event.body.value else "")
    ensures r.Ok? && event.isBase64Encoded ==>
      r.value.body == Some(rt.base64DecodeToString(if event.body.Some? then event.body.value else ""))
  {
    var headers := NormalizedHeaders(event.headers);
    var ps := match event.queryStringParameters case Some(p) => p case None => [];
    match rt.parseUrl(event.path + QueryString(ps), BaseUrl(headers))
    case None => Err(InvalidUrl)
    case Some(url) => Ok(Request(event.httpMethod, headers, url, Some(DecodedBody(event, rt))))
  }

  /** The load balancer's result for what `processRequest` resolved with. */
  function ResultOf(reply: Reply): (r: Result<AlbResult>)
    ensures r.Ok? ==> !r.value.isBase64Encoded
    ensures reply.Replied? ==> r == Ok(AlbResult(false, reply.res.status, Some(reply.res.headers), reply.res.body))
    ensures reply.Bare? ==> r == Ok(AlbResult(false, reply.status, None, Text(reply.body)))
    ensures reply.Rejected? ==> r == Err(reply.message)
  {
    match reply
    case Replied(f) => Ok(AlbResult(false, f.status, Some(f.headers), f.body))
    case Bare(status, body) => Ok(AlbResult(false, status, None, Text(body)))
    case Rejected(m) => Err(m)
  }

  /** `lambdaHandler(event, context)` run to completion. */
  function LambdaOf(event: AlbEvent, w: World, sv: Services, rt: Runtime): (Result<AlbResult>, World)
  {
    match LambdaRequest(event, rt)
    case Err(m) => (Err(m), w)
    case Ok(req) =>
      var (reply, w2) := ProcessOf(req, NoHook, w, sv, rt);
      (ResultOf(reply), w2)
  }

  /** The Lambda entry point never runs the development hook: it never
      changes the artifact cache or the disk, and what it returns is the
      production routing's response with `isBase64Encoded` false. */
  lemma LambdaIsProduction(event: AlbEvent, w: World, sv: Services, rt: Runtime)
    ensures var (r, w2) := LambdaOf(event, w, sv, rt);
      && w2.maps.cache == w.maps.cache && w2.disk == w.disk
      && (r.Ok? ==> !r.value.isBase64Encoded)
      && (LambdaRequest(event, rt).Ok? ==> r == ResultOf(ProcessOf(LambdaRequest(event, rt).value, NoHook, w, sv, rt).0))
  {
    if LambdaRequest(event, rt).Ok? {
      NoHookLeavesArtifacts(LambdaRequest(event, rt).value, w, sv, rt);
    }
  }

  /** The header loop. */
  method NormalizeHeaders(h: Option<map<string, Option<string>>>) returns (headers: map<string, string>)
    ensures headers == NormalizedHeaders(h)
  {
    headers := map[];
    if h.Some? {
      var remaining := h.value.Keys;
      while remaining != {}
        invariant remaining <= h.value.Keys
        invariant headers.Keys == h.value.Keys - remaining
        invariant forall k :: k in headers ==> headers[k] == HeaderValue(h.value[k])
        decreases remaining
      {
        var key :| key in remaining;
        headers := headers[key := HeaderValue(h.value[key])];
        remaining := remaining - {key};
      }
    }
  }

  /** The `forEach` over the query parameters. */
  method BuildQueryString(ps: Option<seq<(string, string)>>) returns (queryString: string)
    ensures queryString == QueryString(match ps case Some(p) => p case None => [])
  {
    queryString := "?";
    if ps.Some? {
      var i := 0;
      while i < |ps.value|
        invariant 0 <= i <= |ps.value|
        invariant queryString == QueryString(ps.value[..i])
      {
        assert ps.value[..i + 1][..i] == ps.value[..i];
        queryString := queryString + "&" + ps.value[i].0 + "=" + ps.value[i].1;
        i := i + 1;
      }
      assert ps.value[..i] == ps.value;
    }
  }

  /** `lambdaHandler(event, context)` on the process-wide state. */
  method LambdaHandler(event: AlbEvent, app: ApplicationCache, disk: Disk, logger: Logger,
                       sv: Services, rt: Runtime) returns (r: Result<AlbResult>)
    modifies app, disk, logger
    ensures (r, World(app.Snapshot(), disk.State(), logger.State()))
         == LambdaOf(event, World(old(app.Snapshot()), old(disk.State()), old(logger.State())), sv, rt)
  {
    var headers := NormalizeHeaders(event.headers);
    var queryString := BuildQueryString(event.queryStringParameters);
    var raw := match event.body case Some(b) => b case None => "";
    var body := if event.isBase64Encoded then rt.base64DecodeToString(raw) else raw;
    var url := rt.parseUrl(event.path + queryString, BaseUrl(headers));
    if url.None? {
      return Err(InvalidUrl);
    }
    var response := ProcessRequest.ProcessRequest(Request(event.httpMethod, headers, url.value, Some(body)), NoHook, app, disk, logger, sv, rt);
    return ResultOf(response);
  }
}

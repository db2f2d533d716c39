/** backend/process_request.js: the router every transport calls. It runs an
    ordered chain on a fresh response: the CORS preflight, the global
    header, the `theme` cookie middleware, the optional hook, then the
    static, page and `/api/test` routes and the 404 fallback. */
module ProcessRequest {
  import opened Base
  import opened Strings
  import opened Constants
  import opened Cache
  import opened FileSystem
  import opened Http
  import opened Logger
  import opened Localhost
  import opened Render
  import opened S3
  import opened Override

  /** Everything a request can change besides its response: the three cache
      maps, the disk and the logger. */
  datatype World = World(maps: CacheMaps, disk: DiskState, log: LogState)

  /** What `processRequest` resolves with: the response object, the bare
      record of `/api/test` (no headers, no cookies), or the error it
      rejects with. */
  datatype Reply =
    | Replied(res: ResFields)
    | Bare(status: int, body: string)
    | Rejected(message: string)

  const CorsHeaders: map<string, string> := map[
    "Access-Control-Allow-Origin" := "*",
    "Access-Control-Allow-Headers" := "*",
    "Access-Control-Allow-Methods" := "*"]

  const AppHeader := "kora-application"
  const AppName := "hal.handle.me"
  const ApiTestBody := "Successful request to the backend API"

  /** The response of a preflight request. */
  function Preflight(): ResFields
  {
    ResFields(NoBody, CorsHeaders, [], 200)
  }

  /** The fresh response, once stamped with the global header. */
  function Stamped(): ResFields
  {
    ResFields(NoBody, map[AppHeader := AppName], [], 200)
  }

  /** The `theme` cookie, read before any route. */
  function ThemeOf(req: Request, rt: Runtime): Result<Option<string>>
  {
    GetCookie(req.headers, "theme", rt.decodeUriComponent)
  }

  /** The middleware: a truthy theme goes into both contexts. */
  function WithTheme(m: CacheMaps, theme: Option<string>): (r: CacheMaps)
    ensures r.cache == m.cache
    ensures Present(theme) ==> r.context == m.context["theme" := theme.value]
    ensures Present(theme) ==> r.publicContext == m.publicContext["theme" := theme.value]
    ensures !Present(theme) ==> r == m
  {
    if Present(theme) then
      m.(context := m.context["theme" := theme.value], publicContext := m.publicContext["theme" := theme.value])
    else m
  }

  datatype Route = StaticRoute | PageRoute | ApiRoute | NotFoundRoute

  /** The production route of a path, tried in source order. */
  function RouteOf(pathname: string): (r: Route)
    ensures r == StaticRoute <==> IsLocalExtension(ExtName(pathname))
    ensures r == PageRoute <==> pathname == "/"
    ensures r == ApiRoute <==> pathname == "/api/test"
  {
    RootIsNotStatic();
    ApiTestIsNotStatic();
    if IsLocalExtension(ExtName(pathname)) then StaticRoute
    else if pathname == "/" then PageRoute
    else if pathname == "/api/test" then ApiRoute
    else NotFoundRoute
  }

  lemma ApiTestIsNotStatic()
    ensures ExtName("/api/test") == ""
  {
    assert TrimTrailingSlashes("/api/test") == "/api/test";
    assert LastIndexOfChar("/api/test", '/') == Some(4);
    assert "/api/test"[5..] == "test";
    assert LastIndexOfChar("test", '.') == None;
  }

  /** The 404 fallback's response. */
  function NotFound(res: ResFields): ResFields
  {
    res.(body := Text("Not Found"),
         headers := res.headers["Content-Type" := "text/plain"]["X-Component" := "process_request"],
         status := 404)
  }

  /** The production routes, on the response the hook left. */
  function RouteReply(req: Request, res: ResFields, w: World, sv: Services, rt: Runtime): (Reply, World)
  {
    match RouteOf(req.url.pathname)
    case StaticRoute =>
      var (r, failure) := S3Of(req, res, sv, rt);
      (Replied(r), w.(log := if failure.Some? then LogOf(w.log, FailureEntry(failure.value), sv.now, sv.quote) else w.log))
    case PageRoute =>
      (match RenderOf(req, res, w.maps.publicContext, w.disk, rt)
       case Err(m) => (Rejected(m), w)
       case Ok(f) => (Replied(f), w))
    case ApiRoute => (Bare(200, ApiTestBody), w)
    case NotFoundRoute => (Replied(NotFound(res)), w.(maps := w.maps.(context := map[])))
  }

  /** The world after the middleware, for a theme that was read. */
  function AfterTheme(w: World, theme: Option<string>): World
  {
    w.(maps := WithTheme(w.maps, theme))
  }

  /** The world after the hook. */
  function AfterHook(w: World, s: Served): World
  {
    w.(maps := w.maps.(cache := s.cache), disk := s.disk)
  }

  /** `processRequest(req, handler)` run to completion. */
  function ProcessOf(req: Request, hook: Hook, w: World, sv: Services, rt: Runtime): (Reply, World)
  {
    if req.httpMethod == "OPTIONS" then (Replied(Preflight()), w)
    else
      match ThemeOf(req, rt)
      case Err(m) => (Rejected(m), w)
      case Ok(theme) =>
        var w1 := AfterTheme(w, theme);
        match HookOf(req, hook, Stamped(), w1.maps.cache, w1.disk, rt)
        case Err(m) => (Rejected(m), w1)
        case Ok(s) =>
          if s.handled then (Replied(s.res), AfterHook(w1, s))
          else RouteReply(req, s.res, AfterHook(w1, s), sv, rt)
  }

  /** A preflight request gets the three CORS headers and status 200, and
      nothing else happens: no global header, no cookie read, no hook. */
  lemma PreflightShortCircuits(req: Request, hook: Hook, w: World, sv: Services, rt: Runtime)
    requires req.httpMethod == "OPTIONS"
    ensures ProcessOf(req, hook, w, sv, rt) == (Replied(ResFields(NoBody, CorsHeaders, [], 200)), w)
    ensures AppHeader !in CorsHeaders && |CorsHeaders| == 3
    ensures forall k :: k in CorsHeaders ==> CorsHeaders[k] == "*"
  {
  }

  /** The production routes keep the public context, the artifact cache
      and the disk, and a response they return keeps the cookies and every
      header other than the ones the route sets. */
  lemma RouteReplyKeeps(req: Request, res: ResFields, w: World, sv: Services, rt: Runtime)
    ensures var (reply, w2) := RouteReply(req, res, w, sv, rt);
      && w2.maps.publicContext == w.maps.publicContext
      && w2.maps.cache == w.maps.cache
      && w2.disk == w.disk
      && (reply.Replied? ==> reply.res.cookies == res.cookies)
      && (reply.Replied? && AppHeader in res.headers ==>
            AppHeader in reply.res.headers && reply.res.headers[AppHeader] == res.headers[AppHeader])
  {
    if RouteOf(req.url.pathname) == StaticRoute && AppHeader in res.headers {
      S3KeepsOtherHeaders(req, res, sv, rt, AppHeader);
    }
  }

  /** The hook keeps the cookies and the global header of the response. */
  lemma HookKeeps(req: Request, hook: Hook, res: ResFields, cache: map<string, Body>, d: DiskState, rt: Runtime)
    requires AppHeader in res.headers
    ensures var h := HookOf(req, hook, res, cache, d, rt);
      h.Ok? ==>
        AppHeader in h.value.res.headers && h.value.res.headers[AppHeader] == res.headers[AppHeader]
        && h.value.res.cookies == res.cookies
  {
    match hook {
      case NoHook =>
      case LocalOverride(_, build) =>
        LocalhostKeepsOtherHeaders(req, res, cache, d, rt, build, AppHeader);
    }
  }

  /** Every response object a non-preflight request resolves with carries
      the global header, and no cookie. */
  lemma GlobalHeaderIsStamped(req: Request, hook: Hook, w: World, sv: Services, rt: Runtime)
    requires req.httpMethod != "OPTIONS"
    ensures var reply := ProcessOf(req, hook, w, sv, rt).0;
      reply.Replied? ==> AppHeader in reply.res.headers && reply.res.headers[AppHeader] == AppName && reply.res.cookies == []
  {
    match ThemeOf(req, rt)
    case Err(_) =>
    case Ok(theme) =>
      var w1 := AfterTheme(w, theme);
      var res := Stamped();
      HookKeeps(req, hook, res, w1.maps.cache, w1.disk, rt);
      match HookOf(req, hook, res, w1.maps.cache, w1.disk, rt)
      case Err(_) =>
      case Ok(s) =>
        if !s.handled {
          RouteReplyKeeps(req, s.res, AfterHook(w1, s), sv, rt);
        }
  }

  /** The theme middleware: on every outcome after the cookie was read, the
      public context holds a truthy theme (and is unchanged otherwise), and
      the cache maps see no other middleware write. */
  lemma ThemeIsPublished(req: Request, hook: Hook, w: World, sv: Services, rt: Runtime)
    requires req.httpMethod != "OPTIONS" && ThemeOf(req, rt).Ok?
    ensures var theme := ThemeOf(req, rt).value;
      var maps := ProcessOf(req, hook, w, sv, rt).1.maps;
      && (Present(theme) ==> maps.publicContext == w.maps.publicContext["theme" := theme.value])
      && (!Present(theme) ==> maps.publicContext == w.maps.publicContext)
  {
    var w1 := AfterTheme(w, ThemeOf(req, rt).value);
    match HookOf(req, hook, Stamped(), w1.maps.cache, w1.disk, rt)
    case Err(_) =>
    case Ok(s) =>
      if !s.handled {
        RouteReplyKeeps(req, s.res, AfterHook(w1, s), sv, rt);
      }
  }

  /** A cookie header that does not decode makes the request reject before
      anything changes. */
  lemma BadCookieRejects(req: Request, hook: Hook, w: World, sv: Services, rt: Runtime)
    requires req.httpMethod != "OPTIONS" && ThemeOf(req, rt).Err?
    ensures ProcessOf(req, hook, w, sv, rt) == (Rejected(ThemeOf(req, rt).message), w)
  {
  }

  /** A hook that handles the request gets its response returned as it left
      it: no route runs, nothing is logged and the context is not reset. */
  lemma HandledHookWins(req: Request, hook: Hook, w: World, sv: Services, rt: Runtime)
    requires req.httpMethod != "OPTIONS" && ThemeOf(req, rt).Ok?
    requires var w1 := AfterTheme(w, ThemeOf(req, rt).value);
      var h := HookOf(req, hook, Stamped(), w1.maps.cache, w1.disk, rt);
      h.Ok? && h.value.handled
    ensures var w1 := AfterTheme(w, ThemeOf(req, rt).value);
      var s := HookOf(req, hook, Stamped(), w1.maps.cache, w1.disk, rt).value;
      var (reply, w2) := ProcessOf(req, hook, w, sv, rt);
      && reply == Replied(s.res)
      && w2.log == w.log
      && w2.maps.context == w1.maps.context
  {
  }

  /** Without a handling hook, a static extension goes to the S3 handler,
      before the `/` and `/api/test` routes are tried. */
  lemma StaticPathGoesToS3(req: Request, hook: Hook, w: World, sv: Services, rt: Runtime)
    requires req.httpMethod != "OPTIONS" && ThemeOf(req, rt).Ok?
    requires var w1 := AfterTheme(w, ThemeOf(req, rt).value);
      var h := HookOf(req, hook, Stamped(), w1.maps.cache, w1.disk, rt);
      h.Ok? && !h.value.handled
    requires IsLocalExtension(ExtName(req.url.pathname))
    ensures var w1 := AfterTheme(w, ThemeOf(req, rt).value);
      var s := HookOf(req, hook, Stamped(), w1.maps.cache, w1.disk, rt).value;
      var (reply, w2) := ProcessOf(req, hook, w, sv, rt);
      && reply == Replied(S3Of(req, s.res, sv, rt).0)
      && w2.maps == AfterHook(w1, s).maps
  {
  }

  /** `/api/test` gets the bare success record and changes nothing more. */
  lemma ApiTestIsBare(req: Request, hook: Hook, w: World, sv: Services, rt: Runtime)
    requires req.httpMethod != "OPTIONS" && ThemeOf(req, rt).Ok? && req.url.pathname == "/api/test"
    requires var w1 := AfterTheme(w, ThemeOf(req, rt).value);
      HookOf(req, hook, Stamped(), w1.maps.cache, w1.disk, rt).Ok?
    ensures var w1 := AfterTheme(w, ThemeOf(req, rt).value);
      var s := HookOf(req, hook, Stamped(), w1.maps.cache, w1.disk, rt).value;
      ProcessOf(req, hook, w, sv, rt) == (Bare(200, ApiTestBody), AfterHook(w1, s))
  {
    var w1 := AfterTheme(w, ThemeOf(req, rt).value);
    ApiTestIsNotStatic();
    NotLocalExtensions();
    assert !HookOf(req, hook, Stamped(), w1.maps.cache, w1.disk, rt).value.handled;
  }

  /** The fallback: status 404, `Not Found` as plain text from this
      component, an empty context, and the public context and the cache
      as the hook left them. */
  lemma UnknownPathIsNotFound(req: Request, hook: Hook, w: World, sv: Services, rt: Runtime)
    requires req.httpMethod != "OPTIONS" && ThemeOf(req, rt).Ok?
    requires var w1 := AfterTheme(w, ThemeOf(req, rt).value);
      var h := HookOf(req, hook, Stamped(), w1.maps.cache, w1.disk, rt);
      h.Ok? && !h.value.handled
    requires RouteOf(req.url.pathname) == NotFoundRoute
    ensures var w1 := AfterTheme(w, ThemeOf(req, rt).value);
      var s := HookOf(req, hook, Stamped(), w1.maps.cache, w1.disk, rt).value;
      var (reply, w2) := ProcessOf(req, hook, w, sv, rt);
      && reply.Replied?
      && reply.res.status == 404 && reply.res.body == Text("Not Found")
      && reply.res.headers["Content-Type"] == "text/plain"
      && reply.res.headers["X-Component"] == "process_request"
      && w2.maps.context == map[]
      && w2.maps.publicContext == w1.maps.publicContext
      && w2.maps.cache == s.cache
  {
  }

  /** The context is emptied on the 404 path and on no other: every other
      outcome leaves it as the middleware left it (or untouched, when the
      request rejects at the cookie or is a preflight). */
  lemma ContextResetOnlyOnNotFound(req: Request, hook: Hook, w: World, sv: Services, rt: Runtime)
    ensures var w2 := ProcessOf(req, hook, w, sv, rt).1;
      if req.httpMethod == "OPTIONS" || ThemeOf(req, rt).Err? then w2.maps.context == w.maps.context
      else
        var w1 := AfterTheme(w, ThemeOf(req, rt).value);
        var h := HookOf(req, hook, Stamped(), w1.maps.cache, w1.disk, rt);
        if h.Ok? && !h.value.handled && RouteOf(req.url.pathname) == NotFoundRoute then w2.maps.context == map[]
        else w2.maps.context == w1.maps.context
  {
  }

  /** Without a hook (the Lambda entry point) neither the artifact cache nor
      the disk ever changes. */
  lemma NoHookLeavesArtifacts(req: Request, w: World, sv: Services, rt: Runtime)
    ensures var w2 := ProcessOf(req, NoHook, w, sv, rt).1;
      w2.maps.cache == w.maps.cache && w2.disk == w.disk
  {
    if req.httpMethod != "OPTIONS" && ThemeOf(req, rt).Ok? {
      var w1 := AfterTheme(w, ThemeOf(req, rt).value);
      RouteReplyKeeps(req, Stamped(), AfterHook(w1, Served(false, Stamped(), w1.maps.cache, w1.disk)), sv, rt);
    }
  }

  /** Only a failing S3 fetch writes to the log. */
  lemma OnlyS3FailureLogs(req: Request, hook: Hook, w: World, sv: Services, rt: Runtime)
    ensures var w2 := ProcessOf(req, hook, w, sv, rt).1;
      w2.log == w.log || RouteOf(req.url.pathname) == StaticRoute
  {
  }

  /** `processRequest(req, handler)`: builds a fresh response and runs the
      chain, with the cache, the disk and the logger changed as
      `ProcessOf` says. */
  method ProcessRequest(req: Request, hook: Hook, app: ApplicationCache, disk: Disk, logger: Logger,
                        sv: Services, rt: Runtime) returns (reply: Reply)
    modifies app, disk, logger
    ensures (reply, World(app.Snapshot(), disk.State(), logger.State()))
         == ProcessOf(req, hook, World(old(app.Snapshot()), old(disk.State()), old(logger.State())), sv, rt)
  {
    ghost var w := World(app.Snapshot(), disk.State(), logger.State());
    var res := new Response(ResponseInit(NoBody, Some(map[]), None, None));
    if req.httpMethod == "OPTIONS" {
      res.headers := res.headers["Access-Control-Allow-Origin" := "*"];
      res.headers := res.headers["Access-Control-Allow-Headers" := "*"];
      res.headers := res.headers["Access-Control-Allow-Methods" := "*"];
      res.status := 200;
      return Replied(res.Fields());
    }
    res.headers := res.headers[AppHeader := AppName];
    assert res.Fields() == Stamped();
    var theme := req.GetCookieOf("theme", rt.decodeUriComponent);
    if theme.Err? {
      return Rejected(theme.message);
    }
    if Present(theme.value) {
      app.context := app.context["theme" := theme.value.value];
      app.publicContext := app.publicContext["theme" := theme.value.value];
    }
    ghost var w1 := AfterTheme(w, theme.value);
    assert World(app.Snapshot(), disk.State(), logger.State()) == w1;
    var handled := RunHook(req, hook, res, app, disk, rt);
    if handled.Err? {
      return Rejected(handled.message);
    }
    ghost var s := HookOf(req, hook, Stamped(), w1.maps.cache, w1.disk, rt).value;
    assert World(app.Snapshot(), disk.State(), logger.State()) == AfterHook(w1, s);
    if handled.value {
      return Replied(res.Fields());
    }
    if IsLocalExtension(ExtName(req.url.pathname)) {
      S3Handler(req, res, logger, sv, rt);
      return Replied(res.Fields());
    }
    if req.url.pathname == "/" {
      var error := RenderHandler(req, res, app, disk, rt);
      if error.Some? {
        return Rejected(error.value);
      }
      return Replied(res.Fields());
    }
    if req.url.pathname == "/api/test" {
      return Bare(200, ApiTestBody);
    }
    res.body := Text("Not Found");
    res.headers := res.headers["Content-Type" := "text/plain"];
    res.headers := res.headers["X-Component" := "process_request"];
    res.status := 404;
    app.context := map[];
    return Replied(res.Fields());
  }
}

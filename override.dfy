/** The hook `processRequest` may be given (backend/local.js passes one,
    backend/lambda.js none): in development it lets `localhostHandler`
    serve source files to a browser on the same machine. */
module Override {
  import opened Base
  import opened Strings
  import opened Constants
  import opened Cache
  import opened FileSystem
  import opened Http
  import opened Bundler
  import opened Localhost

  /** The hook argument of `processRequest`: none, or the closure of the
      local server, given `isLocalHost` (which helpers/constants.js does not
      define) and the bundler's build tool. */
  datatype Hook = NoHook | LocalOverride(isLocalHost: string -> bool, build: string -> BuildResult)

  /** The message of the TypeError `undefined.split(':')` throws. */
  const MissingHostMessage := "Cannot read properties of undefined (reading 'split')"

  /** `hostHeader.split(':')[0]`: the host name without its port. */
  function HostName(host: string): (name: string)
    ensures ':' !in name && StartsWith(host, name)
  {
    var parts := SplitOn(host, ':');
    JoinSplitOn(host, ':');
    JoinHead(parts, ":");
    parts[0]
  }

  /** A joined sequence starts with its first part. */
  lemma JoinHead(parts: seq<string>, sep: string)
    requires |parts| >= 1
    ensures StartsWith(Join(parts, sep), parts[0])
  {
    if |parts| > 1 {
      assert Join(parts, sep) == parts[0] + sep + Join(parts[1..], sep);
      assert (parts[0] + sep + Join(parts[1..], sep))[..|parts[0]|] == parts[0];
    }
  }

  /** Whether the local server's hook hands the request to
      `localhostHandler`: the host before `:` is local and the path's
      extension is a static one. Without a `host` header it throws. */
  function OverrideOf(headers: map<string, string>, pathname: string, isLocalHost: string -> bool): (r: Result<bool>)
    ensures r.Err? <==> "host" !in headers
    ensures r.Ok? ==> (r.value <==> isLocalHost(HostName(headers["host"])) && IsLocalExtension(ExtName(pathname)))
  {
    if "host" !in headers then Err(MissingHostMessage)
    else Ok(isLocalHost(HostName(headers["host"])) && IsLocalExtension(ExtName(pathname)))
  }

  /** The port does not matter: `localhost:4077` and `localhost` decide
      alike. */
  lemma PortIsIgnored(headers: map<string, string>, pathname: string, isLocalHost: string -> bool, name: string, port: string)
    requires ':' !in name && "host" in headers && headers["host"] == name + ":" + port
    ensures OverrideOf(headers, pathname, isLocalHost)
         == OverrideOf(headers["host" := name], pathname, isLocalHost)
  {
    IndexOfCharAfterPrefix(name, ':', port);
    assert SplitOn(name + ":" + port, ':')[0] == name;
    assert SplitOn(name, ':') == [name];
  }

  /** What running the hook does: whether it handled the request, the
      response and the artifacts it leaves, or what it throws. */
  function HookOf(req: Request, hook: Hook, res: ResFields, cache: map<string, Body>, d: DiskState, rt: Runtime): (r: Result<Served>)
    ensures hook.NoHook? ==> r == Ok(Served(false, res, cache, d))
    ensures r.Err? ==> hook.LocalOverride? && "host" !in req.headers
    ensures r.Ok? && r.value.handled ==> hook.LocalOverride? && IsLocalExtension(ExtName(req.url.pathname))
    ensures hook.LocalOverride? && r.Ok? && r.value.handled
         ==> OverrideOf(req.headers, req.url.pathname, hook.isLocalHost) == Ok(true)
    ensures hook.LocalOverride? && OverrideOf(req.headers, req.url.pathname, hook.isLocalHost) == Ok(false)
         ==> r == Ok(Served(false, res, cache, d))
    ensures hook.LocalOverride? && OverrideOf(req.headers, req.url.pathname, hook.isLocalHost) == Ok(true)
         ==> r == Ok(LocalhostOf(req, res, cache, d, rt, hook.build))
  {
    match hook
    case NoHook => Ok(Served(false, res, cache, d))
    case LocalOverride(isLocalHost, build) =>
      match OverrideOf(req.headers, req.url.pathname, isLocalHost)
      case Err(m) => Err(m)
      case Ok(applies) =>
        if applies then Ok(LocalhostOf(req, res, cache, d, rt, build))
        else Ok(Served(false, res, cache, d))
  }

  /** `handler(req, res)` on the response, the artifact cache and the disk;
      a thrown error is `Err`, after which nothing has changed. */
  method RunHook(req: Request, hook: Hook, res: Response, app: ApplicationCache, disk: Disk, rt: Runtime)
    returns (r: Result<bool>)
    modifies res, app`cache, disk
    ensures match HookOf(req, hook, old(res.Fields()), old(app.cache), old(disk.State()), rt)
      case Err(m) => r == Err(m) && res.Fields() == old(res.Fields()) && app.cache == old(app.cache) && disk.State() == old(disk.State())
      case Ok(s) => r == Ok(s.handled) && Served(s.handled, res.Fields(), app.cache, disk.State()) == s
    ensures app.context == old(app.context) && app.publicContext == old(app.publicContext)
  {
    match hook {
      case NoHook =>
        return Ok(false);
      case LocalOverride(isLocalHost, build) =>
        if "host" !in req.headers {
          return Err(MissingHostMessage);
        }
        if isLocalHost(HostName(req.headers["host"])) && IsLocalExtension(ExtName(req.url.pathname)) {
          var handled := LocalhostHandler(req, res, app, disk, rt, build);
          return Ok(handled);
        }
        return Ok(false);
    }
  }
}

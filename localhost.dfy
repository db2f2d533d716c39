/** backend/handlers/localhost_handler.js: the development handler, which
    maps a URL path to a source path, serves it from the artifact cache,
    bundles JavaScript on a miss, and otherwise reads the file from disk in
    a mode chosen by its extension and mime type. */
module Localhost {
  import opened Base
  import opened Strings
  import opened Constants
  import opened FileSystem
  import opened Cache
  import opened Http
  import opened Bundler

  /** The source path for a URL path: a leading `/node_modules` loses its
      slash, otherwise a leading `@` gets `node_modules/` in front; then
      anything outside `node_modules/` is looked up under `frontend`. */
  function RewritePath(p: string): (file: string)
    ensures StartsWith(p, "/node_modules/") ==> file == p[1..]
    ensures StartsWith(p, "/node_modules") && !StartsWith(p, "/node_modules/") ==> file == "frontend" + p[1..]
    ensures !StartsWith(p, "/node_modules") && StartsWith(p, "@") ==> file == "node_modules/" + p
    ensures !StartsWith(p, "/node_modules") && !StartsWith(p, "@") ==>
      file == (if StartsWith(p, "node_modules/") then p else "frontend" + p)
    ensures StartsWith(file, "node_modules/") || StartsWith(file, "frontend")
  {
    var f := if StartsWith(p, "/node_modules") then p[1..]
             else if StartsWith(p, "@") then "node_modules/" + p
             else p;
    assert StartsWith(p, "/node_modules") ==> (StartsWith(p[1..], "node_modules/") <==> StartsWith(p, "/node_modules/")) by {
      if StartsWith(p, "/node_modules") {
        StartsWithAfterHead(p, "node_modules/");
      }
    }
    if StartsWith(f, "node_modules/") then f else "frontend" + f
  }

  lemma StartsWithAfterHead(p: string, q: string)
    requires p != []
    ensures StartsWith(p[1..], q) <==> StartsWith(p, [p[0]] + q)
  {
    if StartsWith(p[1..], q) {
      assert p[..|q| + 1] == [p[0]] + p[1..][..|q|];
    }
    if StartsWith(p, [p[0]] + q) {
      assert p[1..][..|q|] == p[..|q| + 1][1..];
    }
  }

  /** A page script is looked up under `frontend`. */
  lemma RewritePageScript()
    ensures RewritePath("/main.js") == "frontend/main.js"
  {
    assert "/main.js"[..1][0] != "@"[0];
  }

  /** A package file keeps its `node_modules` path without the slash. */
  lemma RewritePackageFile()
    ensures RewritePath("/node_modules/lit/index.js") == "node_modules/lit/index.js"
  {
    assert StartsWith("/node_modules/lit/index.js", "/node_modules/");
  }

  /** A scoped bare import is looked up under `node_modules/`. */
  lemma RewriteScopedImport()
    ensures RewritePath("@lit/core") == "node_modules/@lit/core"
  {
    var p := "@lit/core";
    assert StartsWith(p, "@") && !StartsWith(p, "/node_modules");
    assert "node_modules/" + p == "node_modules/@lit/core";
  }

  /** A path that only begins with the letters `/node_modules` loses its
      slash and then lands under `frontend`. */
  lemma RewriteLookalike()
    ensures RewritePath("/node_modulesx.js") == "frontendnode_modulesx.js"
  {
    assert StartsWith("/node_modulesx.js", "/node_modules");
    assert "/node_modulesx.js"[..14][13] != "/node_modules/"[13];
  }

  const BinaryTypes: seq<string> := [".glb", ".wasm", ".ttf"]

  /** `file.slice(file.lastIndexOf('.'))`: from the last dot, or, with no
      dot, the last character (a slice from -1). */
  function DotSlice(file: string): (ext: string)
    ensures '.' in file ==> |ext| >= 1 && ext[0] == '.' && '.' !in ext[1..] && EndsWith(file, ext)
    ensures '.' !in file ==> ext == (if file == [] then [] else [file[|file| - 1]])
  {
    match LastIndexOfChar(file, '.')
    case Some(i) => file[i..]
    case None => if file == [] then [] else file[|file| - 1..]
  }

  /** A file whose name ends in a dot name has exactly that name as its
      slice: every `.glb`, `.wasm` and `.ttf` file is read raw. */
  lemma DotSliceOfSuffix(stem: string, e: string)
    requires DotName(e)
    ensures DotSlice(stem + e) == e
  {
    assert LastIndexOfChar(e, '.') == Some(0) by {
      assert e == [e[0]] + e[1..];
      LastIndexAppendWithout([e[0]], e[1..], '.');
    }
    LastIndexAppendWith(stem, e, '.');
    assert (stem + e)[|stem|..] == e;
  }

  datatype ReadMode = RawBytes | Base64Text | Utf8Text

  /** A binary extension is read as a buffer, otherwise an image mime type
      as base64 text, and anything else as UTF-8 text. */
  function ReadModeOf(file: string, mimeType: string): (m: ReadMode)
    ensures m == RawBytes <==> DotSlice(file) in BinaryTypes
    ensures m == Base64Text <==> DotSlice(file) !in BinaryTypes && StartsWith(mimeType, "image")
  {
    if DotSlice(file) in BinaryTypes then RawBytes
    else if StartsWith(mimeType, "image") then Base64Text
    else Utf8Text
  }

  function ReadBody(mode: ReadMode, bytes: seq<Byte>, rt: Runtime): Body
  {
    match mode
    case RawBytes => Bytes(bytes)
    case Base64Text => Text(rt.base64Encode(bytes))
    case Utf8Text => Text(rt.utf8Decode(bytes))
  }

  /** `mime.getType(pathname) || 'application/octet-stream'`. */
  function MimeOf(rt: Runtime, pathname: string): (m: string)
    ensures m != ""
    ensures Present(rt.mimeType(pathname)) ==> m == rt.mimeType(pathname).value
  {
    match rt.mimeType(pathname)
    case Some(t) => if t == "" then "application/octet-stream" else t
    case None => "application/octet-stream"
  }

  /** The outcome of a call: whether it handled the request, and the
      response, artifact cache and disk it leaves. */
  datatype Served = Served(handled: bool, res: ResFields, cache: map<string, Body>, disk: DiskState)

  function Ok200(res: ResFields, mimeType: string, body: Body): ResFields
  {
    res.(status := 200, headers := res.headers["Content-Type" := mimeType], body := body)
  }

  /** `localhostHandler(req, res)` with `build` the bundler; every exception
      sets status 500 and gives false. */
  function LocalhostOf(req: Request, res: ResFields, cache: map<string, Body>, d: DiskState,
                       rt: Runtime, build: string -> BuildResult): Served
  {
    var mimeType := MimeOf(rt, req.url.pathname);
    match rt.decodeUri(req.url.pathname)
    case None => Served(false, res.(status := 500), cache, d)
    case Some(decoded) =>
      var file := RewritePath(decoded);
      if file in cache && Truthy(cache[file]) then Served(true, Ok200(res, mimeType, cache[file]), cache, d)
      else if EndsWith(file, ".js") then
        var b := BundleOf(file, build, rt.utf8Encode, cache, d);
        match b.result
        case Err(_) => Served(false, res.(status := 500), b.cache, b.disk)
        case Ok(code) => Served(true, Ok200(res, mimeType, Text(code)), b.cache[file := Text(code)], b.disk)
      else if !Exists(d, file) then Served(true, res.(status := 404, body := Text("Not Found")), cache, d)
      else match ReadOf(d, file)
        case Err(_) => Served(false, res.(status := 500), cache, d)
        case Ok(bytes) =>
          var body := ReadBody(ReadModeOf(file, mimeType), bytes, rt);
          Served(true, Ok200(res, mimeType, body), cache[file := body], d)
  }

  /** A truthy cached value is served as it is, with status 200 and the mime
      type, and nothing is bundled, read or cached. */
  lemma CacheHitIsServed(req: Request, res: ResFields, cache: map<string, Body>, d: DiskState,
                         rt: Runtime, build: string -> BuildResult)
    requires rt.decodeUri(req.url.pathname).Some?
    requires var file := RewritePath(rt.decodeUri(req.url.pathname).value); file in cache && Truthy(cache[file])
    ensures var s := LocalhostOf(req, res, cache, d, rt, build);
      var file := RewritePath(rt.decodeUri(req.url.pathname).value);
      && s.handled && s.res.status == 200 && s.res.body == cache[file]
      && s.res.headers == res.headers["Content-Type" := MimeOf(rt, req.url.pathname)]
      && s.res.cookies == res.cookies && s.cache == cache && s.disk == d
  {
  }

  /** A JavaScript miss is bundled; the bundle's first chunk is served and
      cached under the source path as well as under the chunk names, and a
      failed bundle gives false with status 500. */
  lemma ScriptMissIsBundled(req: Request, res: ResFields, cache: map<string, Body>, d: DiskState,
                            rt: Runtime, build: string -> BuildResult)
    requires rt.decodeUri(req.url.pathname).Some?
    requires var file := RewritePath(rt.decodeUri(req.url.pathname).value);
      !(file in cache && Truthy(cache[file])) && EndsWith(file, ".js")
    ensures var s := LocalhostOf(req, res, cache, d, rt, build);
      var file := RewritePath(rt.decodeUri(req.url.pathname).value);
      var b := BundleOf(file, build, rt.utf8Encode, cache, d);
      && s.disk == b.disk
      && (b.result.Ok? ==> s.handled && s.res.status == 200 && s.res.body == Text(b.result.value)
                           && s.cache == b.cache[file := Text(b.result.value)])
      && (b.result.Err? ==> !s.handled && s.res == res.(status := 500) && s.cache == b.cache)
  {
  }

  /** A miss for a file that does not exist gives 404 `Not Found`, with the
      headers, the cache and the disk unchanged. */
  lemma MissingFileIsNotFound(req: Request, res: ResFields, cache: map<string, Body>, d: DiskState,
                              rt: Runtime, build: string -> BuildResult)
    requires rt.decodeUri(req.url.pathname).Some?
    requires var file := RewritePath(rt.decodeUri(req.url.pathname).value);
      !(file in cache && Truthy(cache[file])) && !EndsWith(file, ".js") && !Exists(d, file)
    ensures LocalhostOf(req, res, cache, d, rt, build) == Served(true, res.(status := 404, body := Text("Not Found")), cache, d)
  {
  }

  /** Any other existing file is read in its mode, served with status 200
      and cached under its source path; a directory cannot be read and
      gives false with status 500. */
  lemma ExistingFileIsRead(req: Request, res: ResFields, cache: map<string, Body>, d: DiskState,
                           rt: Runtime, build: string -> BuildResult)
    requires rt.decodeUri(req.url.pathname).Some?
    requires var file := RewritePath(rt.decodeUri(req.url.pathname).value);
      !(file in cache && Truthy(cache[file])) && !EndsWith(file, ".js") && Exists(d, file)
    ensures var s := LocalhostOf(req, res, cache, d, rt, build);
      var file := RewritePath(rt.decodeUri(req.url.pathname).value);
      var mimeType := MimeOf(rt, req.url.pathname);
      && s.disk == d
      && (file in d.files && file !in d.dirs ==>
            var body := ReadBody(ReadModeOf(file, mimeType), d.files[file], rt);
            s.handled && s.res == Ok200(res, mimeType, body) && s.cache == cache[file := body])
      && (file in d.dirs ==> !s.handled && s.res == res.(status := 500) && s.cache == cache)
  {
  }

  /** The handler answers false exactly when it set status 500, and then
      the body, headers and cookies are the ones it was given; when it
      answers true, the status is 200 or 404. */
  lemma FailureIsStatus500(req: Request, res: ResFields, cache: map<string, Body>, d: DiskState,
                           rt: Runtime, build: string -> BuildResult)
    requires res.status != 500
    ensures var s := LocalhostOf(req, res, cache, d, rt, build);
      && (!s.handled <==> s.res.status == 500)
      && (!s.handled ==> s.res == res.(status := 500))
      && (s.handled ==> s.res.status == 200 || s.res.status == 404)
      && s.res.cookies == res.cookies
  {
  }

  /** A URL path that cannot be decoded gives false with status 500 and
      changes nothing else. */
  lemma MalformedPathFails(req: Request, res: ResFields, cache: map<string, Body>, d: DiskState,
                           rt: Runtime, build: string -> BuildResult)
    requires rt.decodeUri(req.url.pathname).None?
    ensures LocalhostOf(req, res, cache, d, rt, build) == Served(false, res.(status := 500), cache, d)
  {
  }

  /** Only `Content-Type`, the status and the body of the response may
      change; the cookies and every other header stay. */
  lemma LocalhostKeepsOtherHeaders(req: Request, res: ResFields, cache: map<string, Body>, d: DiskState,
                                   rt: Runtime, build: string -> BuildResult, k: string)
    requires k in res.headers && k != "Content-Type"
    ensures var s := LocalhostOf(req, res, cache, d, rt, build);
      k in s.res.headers && s.res.headers[k] == res.headers[k] && s.res.cookies == res.cookies
  {
  }

  /** `localhostHandler(req, res)` on the response, the artifact cache and
      the disk. */
  method LocalhostHandler(req: Request, res: Response, app: ApplicationCache, disk: Disk,
                          rt: Runtime, build: string -> BuildResult) returns (handled: bool)
    modifies res, app`cache, disk
    ensures Served(handled, res.Fields(), app.cache, disk.State())
         == LocalhostOf(req, old(res.Fields()), old(app.cache), old(disk.State()), rt, build)
    ensures app.context == old(app.context) && app.publicContext == old(app.publicContext)
  {
    var mimeType := MimeOf(rt, req.url.pathname);
    var decoded := rt.decodeUri(req.url.pathname);
    if decoded.None? {
      res.status := 500;
      return false;
    }
    var file := RewritePath(decoded.value);
    var responseText: Body;
    if file in app.cache && Truthy(app.cache[file]) {
      responseText := app.cache[file];
    } else if EndsWith(file, ".js") {
      var bundled := GenerateBundle(file, build, rt.utf8Encode, app, disk);
      if bundled.Err? {
        res.status := 500;
        return false;
      }
      responseText := Text(bundled.value);
    } else {
      var found := disk.ExistsSync(file);
      if !found {
        res.status := 404;
        res.body := Text("Not Found");
        return true;
      }
      var read := disk.ReadFileSync(file);
      if read.Err? {
        res.status := 500;
        return false;
      }
      responseText := ReadBody(ReadModeOf(file, mimeType), read.value, rt);
    }
    app.cache := app.cache[file := responseText];
    res.status := 200;
    res.headers := res.headers["Content-Type" := mimeType];
    res.body := responseText;
    return true;
  }
}

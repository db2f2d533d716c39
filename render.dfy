/** backend/handlers/render_handler.js: serves the page template with the
    public context injected as a script in place of its placeholder. */
module Render {
  import opened Base
  import opened Strings
  import opened FileSystem
  import opened Cache
  import opened Http

  const Placeholder := "<!--ApplicationContext-->"

  /** The template for a request: the development copy when the `host`
      header mentions `localhost`, the built one otherwise (no header
      included). */
  function TemplatePath(headers: map<string, string>): (path: string)
    ensures path == "./frontend/index.html" <==> "host" in headers && Contains(headers["host"], "localhost")
    ensures path == "./frontend/index.html" || path == "./index.html"
  {
    if "host" in headers && Contains(headers["host"], "localhost") then "./frontend/index.html" else "./index.html"
  }

  /** The script that replaces the placeholder, for the serialised context. */
  function ContextScript(json: string): string
  {
    "window.ApplicationContext = " + json + ";"
  }

  /** The replacement text `String.prototype.replace` inserts for a string
      pattern: `$$` is a dollar, `$&` the matched text, `` $` `` the text
      before the match and `$'` the text after it; any other `$` is kept. */
  function Expand(rep: string, matched: string, before: string, after: string): string
  {
    if rep == [] then []
    else if rep[0] == '$' && |rep| >= 2 && rep[1] in "$&`'" then
      (if rep[1] == '$' then "$" else if rep[1] == '&' then matched else if rep[1] == '`' then before else after)
      + Expand(rep[2..], matched, before, after)
    else [rep[0]] + Expand(rep[1..], matched, before, after)
  }

  /** Without a `$` the replacement is inserted as it is. */
  lemma {:induction false} ExpandLiteral(rep: string, matched: string, before: string, after: string)
    requires '$' !in rep
    ensures Expand(rep, matched, before, after) == rep
    decreases |rep|
  {
    if rep != [] {
      ExpandLiteral(rep[1..], matched, before, after);
      assert rep == [rep[0]] + rep[1..];
    }
  }

  /** `$&` and `$'` in the replacement insert the placeholder itself and the
      rest of the template: a context value holding them is not injected
      as written. */
  lemma ExpandPatterns(matched: string, before: string, after: string)
    ensures Expand("$&", matched, before, after) == matched
    ensures Expand("$'", matched, before, after) == after
    ensures Expand("$$", matched, before, after) == "$"
    ensures Expand("$1", matched, before, after) == "$1"
  {
    assert "$&"[2..] == [] && "$'"[2..] == [] && "$$"[2..] == [];
    assert "$1"[1..] == "1" && "1"[1..] == [];
  }

  /** `s.replace(pattern, rep)` for a string pattern: only the first
      occurrence is replaced; with none, `s` is returned. */
  function ReplaceFirst(s: string, pattern: string, rep: string): (r: string)
    ensures IndexOf(s, pattern).None? ==> r == s
    ensures IndexOf(s, pattern).Some? ==>
      var i := IndexOf(s, pattern).value;
      r == s[..i] + Expand(rep, pattern, s[..i], s[i + |pattern|..]) + s[i + |pattern|..]
  {
    match IndexOf(s, pattern)
    case None => s
    case Some(i) => s[..i] + Expand(rep, pattern, s[..i], s[i + |pattern|..]) + s[i + |pattern|..]
  }

  /** Replacing the first placeholder with a dollar-free script keeps the
      template before it, which has no placeholder, and everything after
      it, later placeholders included. */
  lemma ReplaceFirstOnlyFirst(s: string, pattern: string, rep: string, j: int)
    requires '$' !in rep && IndexOf(s, pattern).Some?
    ensures var i := IndexOf(s, pattern).value;
      && ReplaceFirst(s, pattern, rep) == s[..i] + rep + s[i + |pattern|..]
      && (forall k :: 0 <= k < i ==> !OccursAt(s[..i], pattern, k))
      && (i + |pattern| <= j && OccursAt(s, pattern, j) ==> OccursAt(ReplaceFirst(s, pattern, rep), pattern, j - |pattern| + |rep|))
  {
    var i := IndexOf(s, pattern).value;
    ExpandLiteral(rep, pattern, s[..i], s[i + |pattern|..]);
    var r := s[..i] + rep + s[i + |pattern|..];
    forall k | 0 <= k < i
      ensures !OccursAt(s[..i], pattern, k)
    {
      assert !OccursAt(s, pattern, k);
      if k + |pattern| <= i {
        assert s[..i][k..k + |pattern|] == s[k..k + |pattern|];
      }
    }
    if i + |pattern| <= j && OccursAt(s, pattern, j) {
      var j' := j - |pattern| + |rep|;
      var t := s[i + |pattern|..];
      assert r == (s[..i] + rep) + t;
      SliceOfSuffix(s[..i] + rep, t, j', j' + |pattern|);
      assert t[j - i - |pattern|..j - i] == s[j..j + |pattern|];
    }
  }

  lemma SliceOfSuffix(a: string, b: string, m: int, n: int)
    requires |a| <= m <= n <= |a| + |b|
    ensures (a + b)[m..n] == b[m - |a|..n - |a|]
  {
  }

  /** What `renderHandler(req, res)` leaves in the response, with the
      template read from disk as UTF-8 and the public context serialised by
      `JSON.stringify`; a template that cannot be read throws. */
  function RenderOf(req: Request, res: ResFields, publicContext: map<string, string>, d: DiskState, rt: Runtime): (r: Result<ResFields>)
    ensures r.Ok? <==> ReadOf(d, TemplatePath(req.headers)).Ok?
    ensures r.Ok? ==>
      r.value.status == 200 && r.value.headers == res.headers["content-type" := "text/html"] && r.value.cookies == res.cookies
  {
    match ReadOf(d, TemplatePath(req.headers))
    case Err(m) => Err(m)
    case Ok(bytes) =>
      var index := rt.utf8Decode(bytes);
      var appContext := ContextScript(rt.jsonObject(publicContext));
      Ok(res.(headers := res.headers["content-type" := "text/html"], status := 200,
              body := Text(ReplaceFirst(index, Placeholder, appContext))))
  }

  /** The page is the template with its first placeholder replaced by the
      context script (whose `$` patterns are expanded), or the template
      unchanged when it has no placeholder. */
  lemma RenderBody(req: Request, res: ResFields, publicContext: map<string, string>, d: DiskState, rt: Runtime)
    requires ReadOf(d, TemplatePath(req.headers)).Ok?
    ensures var index := rt.utf8Decode(d.files[TemplatePath(req.headers)]);
      var script := ContextScript(rt.jsonObject(publicContext));
      var body := RenderOf(req, res, publicContext, d, rt).value.body;
      && (IndexOf(index, Placeholder).None? ==> body == Text(index))
      && (IndexOf(index, Placeholder).Some? && '$' !in script ==>
            var i := IndexOf(index, Placeholder).value;
            body == Text(index[..i] + script + index[i + |Placeholder|..]))
  {
    var index := rt.utf8Decode(d.files[TemplatePath(req.headers)]);
    var script := ContextScript(rt.jsonObject(publicContext));
    if IndexOf(index, Placeholder).Some? && '$' !in script {
      ReplaceFirstOnlyFirst(index, Placeholder, script, 0);
    }
  }

  /** `renderHandler(req, res)`: `error` is what it throws, in which case
      the response is untouched. It reads the public context and writes
      none of the cache maps. */
  method RenderHandler(req: Request, res: Response, app: ApplicationCache, disk: Disk, rt: Runtime)
    returns (error: Option<string>)
    modifies res
    ensures match RenderOf(req, old(res.Fields()), app.publicContext, disk.State(), rt)
      case Ok(f) => error.None? && res.Fields() == f
      case Err(m) => error == Some(m) && res.Fields() == old(res.Fields())
  {
    var indexFile := TemplatePath(req.headers);
    var read := disk.ReadFileSync(indexFile);
    if read.Err? {
      return Some(read.message);
    }
    var index := rt.utf8Decode(read.value);
    res.headers := res.headers["content-type" := "text/html"];
    res.status := 200;
    var appContext := ContextScript(rt.jsonObject(app.publicContext));
    res.body := Text(ReplaceFirst(index, Placeholder, appContext));
    return None;
  }
}

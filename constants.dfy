/** helpers/constants.js: the static-extension allow-list and the `basePath`
    rule, with `path.extname` (POSIX rules), which decides membership. */
module Constants {
  import opened Base
  import opened Strings

  /** The extensions served as static files, in source order. */
  const LocalExtensions: seq<string> := [".html", ".js", ".jpg", ".png", ".svg", ".css", ".ico", ".glb"]

  /** `localExtensions.includes(ext)`: exact string equality with one entry. */
  predicate IsLocalExtension(ext: string)
  {
    ext in LocalExtensions
  }

  /** A dot followed by a name without dots or slashes. */
  predicate DotName(e: string)
  {
    |e| >= 2 && e[0] == '.' && '.' !in e[1..] && '/' !in e
  }

  /** Each listed extension is a dot name, so it is exactly what `ExtName`
      can return for a file. */
  lemma LocalExtensionsShape()
    ensures |LocalExtensions| == 8
    ensures forall e :: IsLocalExtension(e) ==> DotName(e)
  {
    assert DotName(".html") && DotName(".js") && DotName(".jpg") && DotName(".png");
    assert DotName(".svg") && DotName(".css") && DotName(".ico") && DotName(".glb");
  }

  /** Membership is exact equality: no case folding, no prefix match. */
  lemma NotLocalExtensions()
    ensures !IsLocalExtension("") && !IsLocalExtension(".JS") && !IsLocalExtension(".jpeg")
  {
  }

  function TrimTrailingSlashes(p: string): (r: string)
    ensures |r| <= |p| && r == p[..|r|]
    ensures r == [] || r[|r| - 1] != '/'
  {
    if p != [] && p[|p| - 1] == '/' then TrimTrailingSlashes(p[..|p| - 1]) else p
  }

  /** The last path component, after trailing slashes are dropped. */
  function BaseName(p: string): (r: string)
    ensures '/' !in r
  {
    var t := TrimTrailingSlashes(p);
    match LastIndexOfChar(t, '/')
    case None => t
    case Some(i) => t[i + 1..]
  }

  /** `path.extname(p)`: from the last `.` of the last component to its end,
      or `''` when that component has no `.`, starts with its only `.`, or
      is `..`. */
  function ExtName(p: string): (r: string)
    ensures r == [] || (r[0] == '.' && '.' !in r[1..] && '/' !in r)
  {
    var b := BaseName(p);
    match LastIndexOfChar(b, '.')
    case None => ""
    case Some(d) => if d == 0 || b == ".." then "" else b[d..]
  }

  /** The path `/` has no extension, so it never takes the static route. */
  lemma RootIsNotStatic()
    ensures ExtName("/") == "" && !IsLocalExtension(ExtName("/"))
    ensures ExtName("") == ""
  {
  }

  lemma {:induction false} LastIndexAppendWith(a: string, b: string, c: char)
    requires c in b
    ensures LastIndexOfChar(b, c).Some?
    ensures LastIndexOfChar(a + b, c) == Some(|a| + LastIndexOfChar(b, c).value)
    decreases |b|
  {
    var s := a + b;
    if b[|b| - 1] != c {
      assert s[..|s| - 1] == a + b[..|b| - 1];
      assert c in b[..|b| - 1] by {
        var k :| 0 <= k < |b| && b[k] == c;
        assert b[..|b| - 1][k] == c;
      }
      LastIndexAppendWith(a, b[..|b| - 1], c);
    }
  }

  lemma {:induction false} LastIndexAppendWithout(a: string, b: string, c: char)
    requires c !in b
    ensures LastIndexOfChar(a + b, c) == LastIndexOfChar(a, c)
    decreases |b|
  {
    if b != [] {
      var s := a + b;
      assert s[..|s| - 1] == a + b[..|b| - 1];
      LastIndexAppendWithout(a, b[..|b| - 1], c);
    } else {
      assert a + b == a;
    }
  }

  lemma {:induction false} BaseNameAfterSlash(dir: string, base: string)
    requires base != [] && base[|base| - 1] != '/' && '/' !in base
    ensures BaseName(dir + "/" + base) == base
  {
    var p := dir + "/" + base;
    assert p[|p| - 1] == base[|base| - 1];
    assert TrimTrailingSlashes(p) == p;
    assert p == (dir + "/") + base;
    LastIndexAppendWithout(dir + "/", base, '/');
    assert (dir + "/")[|dir|] == '/';
    assert LastIndexOfChar(dir + "/", '/') == Some(|dir|);
    assert p[|dir| + 1..] == base;
  }

  /** A file `stem + e` in any directory, with `e` an allow-listed extension
      and a non-empty stem, has extension exactly `e`: the static route is
      taken by every path that ends in one of the listed extensions. */
  lemma {:induction false} ExtNameOfStaticFile(dir: string, stem: string, e: string)
    requires IsLocalExtension(e)
    requires stem != [] && '/' !in stem
    ensures ExtName(dir + "/" + stem + e) == e
  {
    LocalExtensionsShape();
    assert DotName(e);
    var base := stem + e;
    assert base[|base| - 1] == e[|e| - 1];
    assert '/' !in base;
    assert dir + "/" + stem + e == dir + "/" + base;
    BaseNameAfterSlash(dir, base);
    assert LastIndexOfChar(e, '.') == Some(0) by {
      assert e == [e[0]] + e[1..];
      LastIndexAppendWithout([e[0]], e[1..], '.');
    }
    LastIndexAppendWith(stem, e, '.');
    assert base[|stem|..] == e;
  }

  /** `basePath`: on a server, `BASE_FOLDER` when it is set (even to `''`),
      otherwise `''`; in a browser, `/lore` exactly when the location's
      path starts with `/lore`, otherwise `''`. */
  function BasePath(isServer: bool, baseFolder: Option<string>, locationPathname: Option<string>): (r: string)
    ensures isServer && baseFolder.Some? ==> r == baseFolder.value
    ensures isServer && baseFolder.None? ==> r == ""
    ensures !isServer ==> (r == "/lore" <==> locationPathname.Some? && StartsWith(locationPathname.value, "/lore"))
    ensures !isServer ==> r == "/lore" || r == ""
  {
    if isServer then
      match baseFolder
      case Some(folder) => folder
      case None => ""
    else if locationPathname.Some? && StartsWith(locationPathname.value, "/lore") then "/lore"
    else ""
  }
}

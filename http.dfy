/** helpers/http.js: the `Request` value with its cookie lookup, and the
    `Response` object whose fields handlers update in place. */
module Http {
  import opened Base
  import opened Strings

  /** An inbound request; never changed after construction. */
  datatype Request = Request(httpMethod: string, headers: map<string, string>, url: Url, body: Option<string>)
  {
    /** `getCookie` on the request's own headers. */
    function GetCookieOf(key: string, decode: string -> Option<string>): Result<Option<string>>
    {
      GetCookie(headers, key, decode)
    }
  }

  /** The base URL both transports give `new URL`: `http://` and the
      `host` header, which a template literal shows as `undefined` when it
      is missing. */
  function BaseUrl(headers: map<string, string>): (base: string)
    ensures "host" in headers ==> base == "http://" + headers["host"]
    ensures "host" !in headers ==> base == "http://undefined"
  {
    "http://" + if "host" in headers then headers["host"] else "undefined"
  }

  /** The characters `\s` matches in a JavaScript regular expression. */
  predicate IsJsWhitespace(c: char)
  {
    c == '\t' || c == '\n' || c == '\U{000B}' || c == '\U{000C}' || c == '\r' || c == ' '
    || c == '\U{00A0}' || c == '\U{1680}' || ('\U{2000}' <= c <= '\U{200A}')
    || c == '\U{2028}' || c == '\U{2029}' || c == '\U{202F}' || c == '\U{205F}'
    || c == '\U{3000}' || c == '\U{FEFF}'
  }

  function DropOneWhitespace(s: string): string
  {
    if s != [] && IsJsWhitespace(s[0]) then s[1..] else s
  }

  /** `cookies.split(/;\s?/)`: the pieces between semicolons, where each
      semicolon also consumes at most one whitespace character after it. */
  function CookieSegments(s: string): (segments: seq<string>)
    ensures |segments| >= 1
    ensures forall i :: 0 <= i < |segments| ==> ';' !in segments[i]
    decreases |s|
  {
    match IndexOfChar(s, ';')
    case None => [s]
    case Some(i) => [s[..i]] + CookieSegments(DropOneWhitespace(s[i + 1..]))
  }

  /** Segments joined by `; ` split back into the same segments. */
  lemma {:induction false} CookieSegmentsOfJoin(segments: seq<string>)
    requires |segments| >= 1
    requires forall i :: 0 <= i < |segments| ==> ';' !in segments[i]
    ensures CookieSegments(Join(segments, "; ")) == segments
    decreases |segments|
  {
    if |segments| > 1 {
      var tail := Join(segments[1..], "; ");
      var s := Join(segments, "; ");
      assert s == segments[0] + [';'] + (" " + tail);
      IndexOfCharAfterPrefix(segments[0], ';', " " + tail);
      assert s[..|segments[0]|] == segments[0];
      assert s[|segments[0]| + 1..] == " " + tail;
      assert DropOneWhitespace(" " + tail) == tail;
      CookieSegmentsOfJoin(segments[1..]);
      assert CookieSegments(s) == [segments[0]] + segments[1..];
    }
  }

  /** Replacing every `c` by `r` is joining the pieces between the `c`s with `r`. */
  lemma {:induction false} ReplaceCharIsJoin(s: string, c: char, r: string)
    ensures ReplaceChar(s, c, r) == Join(SplitOn(s, c), r)
    decreases |s|
  {
    if s != [] {
      ReplaceCharIsJoin(s[1..], c, r);
      var tailParts := SplitOn(s[1..], c);
      if s[0] == c {
        assert IndexOfChar(s, c) == Some(0);
        assert SplitOn(s, c) == [""] + tailParts;
        assert Join(SplitOn(s, c), r) == "" + r + Join(tailParts, r);
      } else {
        assert s == [s[0]] + s[1..];
        match IndexOfChar(s[1..], c)
        case None =>
          assert IndexOfChar(s, c) == None;
          assert ReplaceChar(s[1..], c, r) == s[1..];
        case Some(i) =>
          assert IndexOfChar(s, c) == Some(i + 1);
          assert s[..i + 1] == [s[0]] + s[1..][..i];
          assert s[i + 2..] == s[1..][i + 1..];
          assert SplitOn(s[1..], c) == [s[1..][..i]] + SplitOn(s[1..][i + 1..], c);
          assert SplitOn(s, c) == [[s[0]] + s[1..][..i]] + SplitOn(s[1..][i + 1..], c);
          JoinConsHead(s[0], tailParts, r);
      }
    }
  }

  lemma JoinConsHead(x: char, parts: seq<string>, sep: string)
    requires |parts| >= 1
    ensures Join([[x] + parts[0]] + parts[1..], sep) == [x] + Join(parts, sep)
  {
    var ps := [[x] + parts[0]] + parts[1..];
    assert ps[1..] == parts[1..];
  }

  /** A multicookiejar value `a=1|b=2`, once every `|` becomes `; `, splits
      into the jar's `|`-separated entries. */
  lemma JarSegments(jar: string)
    requires ';' !in jar
    ensures CookieSegments(ReplaceChar(jar, '|', "; ")) == SplitOn(jar, '|')
  {
    ReplaceCharIsJoin(jar, '|', "; ");
    var parts := SplitOn(jar, '|');
    forall i | 0 <= i < |parts| ensures ';' !in parts[i] {
      SplitOnPartsAreInfixes(jar, '|', i);
    }
    CookieSegmentsOfJoin(parts);
  }

  lemma {:induction false} SplitOnPartsAreInfixes(s: string, c: char, i: nat)
    requires i < |SplitOn(s, c)|
    ensures forall ch :: ch in SplitOn(s, c)[i] ==> ch in s
    decreases |s|
  {
    match IndexOfChar(s, c)
    case None =>
    case Some(k) =>
      if i > 0 {
        SplitOnPartsAreInfixes(s[k + 1..], c, i - 1);
        assert forall ch :: ch in s[k + 1..] ==> ch in s;
      } else {
        assert forall ch :: ch in s[..k] ==> ch in s;
      }
  }

  /** `cookie.toLowerCase().startsWith(key.toLowerCase())`. */
  predicate SegmentMatches(segment: string, key: string)
  {
    StartsWith(Lower(segment), Lower(key))
  }

  /** Segment `i` is the first that matches `key`. */
  predicate FirstMatch(segments: seq<string>, key: string, i: int)
  {
    0 <= i < |segments| && SegmentMatches(segments[i], key)
    && forall j :: 0 <= j < i ==> !SegmentMatches(segments[j], key)
  }

  /** `Array.prototype.find` over the segments, as an index. */
  function FindSegment(segments: seq<string>, key: string): (r: Option<nat>)
    ensures r.Some? ==> FirstMatch(segments, key, r.value)
    ensures r.None? ==> forall j :: 0 <= j < |segments| ==> !SegmentMatches(segments[j], key)
  {
    if segments == [] then None
    else if SegmentMatches(segments[0], key) then Some(0)
    else match FindSegment(segments[1..], key)
      case None => None
      case Some(i) => Some(i + 1)
  }

  /** `Request._searchCookie`: the text after the first `=` (up to the next
      `=`) of the first segment that starts, ignoring ASCII case, with `key`. */
  function SearchCookie(cookies: Option<string>, key: string): (r: Option<string>)
    ensures cookies.None? ==> r.None?
    ensures cookies.Some? ==>
      var segments := CookieSegments(cookies.value);
      (r.Some? <==> exists i :: FirstMatch(segments, key, i) && '=' in segments[i])
      && (r.Some? ==> exists i :: FirstMatch(segments, key, i) && r.value == SplitOn(segments[i], '=')[1])
  {
    match cookies
    case None => None
    case Some(c) =>
      var segments := CookieSegments(c);
      match FindSegment(segments, key)
      case None => None
      case Some(i) =>
        var fields := SplitOn(segments[i], '=');
        assert '=' in segments[i] <==> |fields| > 1 by {
          JoinSplitOn(segments[i], '=');
          if |fields| == 1 {
            assert segments[i] == fields[0];
          } else {
            assert segments[i] == fields[0] + "=" + Join(fields[1..], "=");
            assert segments[i][|fields[0]|] == '=';
          }
        }
        if |fields| > 1 then Some(fields[1]) else None
  }

  /** The cookie header `getCookie` reads: `Cookie`, or `cookie` when
      `Cookie` is absent or empty. */
  function CookieHeader(headers: map<string, string>): (r: Option<string>)
    ensures "Cookie" in headers && headers["Cookie"] != "" ==> r == Some(headers["Cookie"])
    ensures !("Cookie" in headers && headers["Cookie"] != "") ==>
      r == (if "cookie" in headers then Some(headers["cookie"]) else None)
  {
    if "Cookie" in headers && headers["Cookie"] != "" then Some(headers["Cookie"])
    else if "cookie" in headers then Some(headers["cookie"])
    else None
  }

  /** `Request.getCookie`: a direct lookup, and only when that gives nothing
      (undefined or `''`), a second lookup in the URI-decoded
      `multicookiejar` cookie whose `|` separators become `; `. A jar that
      does not decode makes the lookup throw. */
  function GetCookie(headers: map<string, string>, key: string, decode: string -> Option<string>): (r: Result<Option<string>>)
    ensures var direct := SearchCookie(CookieHeader(headers), key);
      Present(direct) ==> r == Ok(direct)
    ensures var jar := SearchCookie(CookieHeader(headers), "multicookiejar");
      !Present(SearchCookie(CookieHeader(headers), key)) ==>
        if !Present(jar) then r == Ok(None)
        else match decode(jar.value)
          case None => r.Err?
          case Some(decoded) => r == Ok(SearchCookie(Some(ReplaceChar(decoded, '|', "; ")), key))
  {
    var cookies := CookieHeader(headers);
    var cookie := SearchCookie(cookies, key);
    if Present(cookie) then Ok(cookie)
    else
      var jar := SearchCookie(cookies, "multicookiejar");
      if !Present(jar) then Ok(SearchCookie(None, key))
      else match decode(jar.value)
        case None => Err(UriMalformed)
        case Some(decoded) => Ok(SearchCookie(Some(ReplaceChar(decoded, '|', "; ")), key))
  }

  /** The options `setCookie` understands. */
  datatype CookieOptions = CookieOptions(domain: Option<string>, maxAge: Option<int>, path: Option<string>)

  function DomainPart(o: Option<CookieOptions>): string
  {
    if o.Some? && Present(o.value.domain) then "Domain=" + o.value.domain.value + "; " else ""
  }

  /** `Max-Age` is written only for a truthy number, so 0 is left out. */
  function MaxAgePart(o: Option<CookieOptions>): string
  {
    if o.Some? && o.value.maxAge.Some? && o.value.maxAge.value != 0
    then "Max-Age=" + IntToString(o.value.maxAge.value) + "; " else ""
  }

  function PathPart(o: Option<CookieOptions>): string
  {
    if o.Some? && Present(o.value.path) then "Path=" + o.value.path.value + "; " else ""
  }

  /** The exact string `setCookie` appends. */
  function CookieString(key: string, value: string, o: Option<CookieOptions>): string
  {
    key + "=" + value + OptionsText(o)
  }

  /** Everything after `key=value` in the template of `setCookie`. */
  function OptionsText(o: Option<CookieOptions>): string
  {
    "; " + DomainPart(o) + MaxAgePart(o) + PathPart(o) + "Secure; HttpOnly"
  }

  /** The cookie attributes the string carries, in order. */
  function CookieAttributes(o: Option<CookieOptions>): (avs: seq<string>)
    ensures |avs| >= 2 && avs[|avs| - 2..] == ["Secure", "HttpOnly"]
  {
    DomainAttribute(o) + MaxAgeAttribute(o) + PathAttribute(o) + ["Secure", "HttpOnly"]
  }

  function DomainAttribute(o: Option<CookieOptions>): seq<string>
  {
    if o.Some? && Present(o.value.domain) then ["Domain=" + o.value.domain.value] else []
  }

  function MaxAgeAttribute(o: Option<CookieOptions>): seq<string>
  {
    if o.Some? && o.value.maxAge.Some? && o.value.maxAge.value != 0
    then ["Max-Age=" + IntToString(o.value.maxAge.value)] else []
  }

  function PathAttribute(o: Option<CookieOptions>): seq<string>
  {
    if o.Some? && Present(o.value.path) then ["Path=" + o.value.path.value] else []
  }

  /** The grammar of section 4.1 of RFC 6265:
      `set-cookie-string = cookie-pair *( "; " cookie-av )`. */
  function SetCookieString(pair: string, avs: seq<string>): string
  {
    pair + AttributeList(avs)
  }

  function AttributeList(avs: seq<string>): string
  {
    if avs == [] then "" else "; " + avs[0] + AttributeList(avs[1..])
  }

  lemma {:induction false} AttributeListAppend(a: seq<string>, b: seq<string>)
    ensures AttributeList(a + b) == AttributeList(a) + AttributeList(b)
    decreases |a|
  {
    if a != [] {
      assert (a + b)[1..] == a[1..] + b;
      AttributeListAppend(a[1..], b);
    } else {
      assert a + b == b;
    }
  }

  lemma OptionalPiece(x: seq<string>, part: string)
    requires (x == [] && part == "") || (|x| == 1 && part == x[0] + "; ")
    ensures "; " + part == AttributeList(x) + "; "
  {
    if x != [] {
      assert x[1..] == [];
    }
  }

  lemma ShiftSeparators(a: string, b: string, c: string, x: string, y: string, z: string)
    requires "; " + x == a + "; " && "; " + y == b + "; " && "; " + z == c + "; "
    ensures "; " + x + y + z + "Secure; HttpOnly" == a + b + c + "; Secure; HttpOnly"
  {
    calc {
      "; " + x + y + z + "Secure; HttpOnly";
      ("; " + x) + y + z + "Secure; HttpOnly";
      a + ("; " + y) + z + "Secure; HttpOnly";
      a + b + ("; " + z) + "Secure; HttpOnly";
      a + b + c + "; " + "Secure; HttpOnly";
    }
  }

  /** What `setCookie` writes is a Set-Cookie string in the form of section
      4.1 of RFC 6265: the pair `key=value`, then each present attribute
      after `; `, ending with `Secure` and `HttpOnly`. */
  lemma CookieStringIsSetCookie(key: string, value: string, o: Option<CookieOptions>)
    ensures CookieString(key, value, o) == SetCookieString(key + "=" + value, CookieAttributes(o))
  {
    OptionsTextIsAttributeList(o);
  }

  lemma OptionsTextIsAttributeList(o: Option<CookieOptions>)
    ensures OptionsText(o) == AttributeList(CookieAttributes(o))
  {
    var d, m, p := DomainAttribute(o), MaxAgeAttribute(o), PathAttribute(o);
    var tail: seq<string> := ["Secure", "HttpOnly"];
    assert CookieAttributes(o) == d + m + p + tail;
    AttributeListAppend(d + m + p, tail);
    AttributeListAppend(d + m, p);
    AttributeListAppend(d, m);
    assert AttributeList(tail) == "; Secure; HttpOnly" by {
      assert tail[1..] == ["HttpOnly"];
      assert tail[1..][1..] == [];
    }
    OptionalPiece(d, DomainPart(o));
    OptionalPiece(m, MaxAgePart(o));
    OptionalPiece(p, PathPart(o));
    ShiftSeparators(AttributeList(d), AttributeList(m), AttributeList(p), DomainPart(o), MaxAgePart(o), PathPart(o));
  }

  /** Without options, or with only falsy ones (`maxAge: 0`, empty
      strings), the string is `key=value; Secure; HttpOnly`. */
  lemma CookieStringWithoutOptions(key: string, value: string, o: Option<CookieOptions>)
    requires o.None? || (!Present(o.value.domain) && !Present(o.value.path)
                         && (o.value.maxAge.None? || o.value.maxAge.value == 0))
    ensures CookieString(key, value, o) == key + "=" + value + "; Secure; HttpOnly"
  {
  }

  /** The fields of a `Response`, as a value. */
  datatype ResFields = ResFields(body: Body, headers: map<string, string>, cookies: seq<string>, status: int)

  /** The argument of `new Response(...)`; a missing field is `None`. */
  datatype ResponseInit = ResponseInit(
    body: Body,
    headers: Option<map<string, string>>,
    cookies: Option<seq<string>>,
    status: Option<int>)

  class Response {
    var body: Body
    var headers: map<string, string>
    var cookies: seq<string>
    var status: int

    function Fields(): ResFields
      reads this
    {
      ResFields(body, headers, cookies, status)
    }

    /** Missing headers, cookies and status default to `{}`, `[]` and 200;
        a given status, 0 included, is kept. */
    constructor (init: ResponseInit)
      ensures body == init.body
      ensures headers == (match init.headers case Some(h) => h case None => map[])
      ensures cookies == (match init.cookies case Some(c) => c case None => [])
      ensures status == (match init.status case Some(s) => s case None => 200)
    {
      body := init.body;
      headers := match init.headers case Some(h) => h case None => map[];
      cookies := match init.cookies case Some(c) => c case None => [];
      status := match init.status case Some(s) => s case None => 200;
    }

    /** Appends one Set-Cookie string and changes nothing else. */
    method SetCookie(key: string, value: string, options: Option<CookieOptions>)
      modifies this`cookies
      ensures cookies == old(cookies) + [CookieString(key, value, options)]
      ensures body == old(body) && headers == old(headers) && status == old(status)
    {
      cookies := cookies + [CookieString(key, value, options)];
    }
  }
}

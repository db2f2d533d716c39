/** helpers/logger.js: the static `Logger`, which writes one JSON-shaped entry per
    call to the console sink its category selects, and initialises the
    application name on first use. The console is the `lines` field: each
    entry is the sink and the text handed to it. */
module Logger {
  import opened Base
  import opened Strings

  const Debug := "DEBUG"
  const Info := "INFO"
  const Metric := "METRIC"
  const Warn := "WARN"
  const Error := "ERROR"
  const Fatal := "FATAL"
  const Notify := "NOTIFY"

  /** The console functions a line can be written with. */
  datatype Sink = ConsoleLog | ConsoleDebug | ConsoleWarn | ConsoleError

  datatype LogLine = LogLine(sink: Sink, text: string)

  /** The argument of `Logger.log`: a bare string, or a record whose absent
      properties are None. */
  datatype LogArgs =
    | Message(text: string)
    | Entry(message: string, category: Option<string>, event: Option<string>,
            milliseconds: Option<int>, count: Option<int>, dimensions: Option<seq<string>>)

  /** The sink the `switch` of `log_entry` picks: DEBUG and WARN have their
      own, ERROR, FATAL and NOTIFY go to `console.error`, every other
      category (INFO, METRIC, anything unknown) to `console.log`. */
  function SinkOf(category: string): (s: Sink)
    ensures s == ConsoleDebug <==> category == Debug
    ensures s == ConsoleWarn <==> category == Warn
    ensures s == ConsoleError <==> category in {Error, Fatal, Notify}
    ensures s == ConsoleLog <==> category !in {Debug, Warn, Error, Fatal, Notify}
  {
    if category == Debug then ConsoleDebug
    else if category == Warn then ConsoleWarn
    else if category == Error || category == Fatal || category == Notify then ConsoleError
    else ConsoleLog
  }

  // ---------------------------------------------------------------------
  // Escaping of the message

  /** The two global replaces of `log_entry`: every backslash doubled,
      then every double quote preceded by a backslash. */
  function Escape(m: string): string
  {
    ReplaceChar(ReplaceChar(m, '\\', "\\\\"), '"', "\\\"")
  }

  /** The escaped form of one character. */
  function EscapeChar(c: char): string
  {
    if c == '\\' || c == '"' then ['\\', c] else [c]
  }

  /** Character-by-character escaping, the reference for `Escape`. */
  function EscapeEach(m: string): string
  {
    if m == [] then [] else EscapeChar(m[0]) + EscapeEach(m[1..])
  }

  /** Reads a JSON string body back: `\x` stands for `x`. */
  function Unescape(s: string): string
  {
    if s == [] then []
    else if s[0] == '\\' && |s| >= 2 then [s[1]] + Unescape(s[2..])
    else [s[0]] + Unescape(s[1..])
  }

  /** A string that can sit between two double quotes of a JSON text: every
      backslash starts a two-character escape of a backslash or a quote, and
      no quote stands alone. */
  predicate WellEscaped(s: string)
  {
    if s == [] then true
    else if s[0] == '\\' then |s| >= 2 && (s[1] == '\\' || s[1] == '"') && WellEscaped(s[2..])
    else s[0] != '"' && WellEscaped(s[1..])
  }

  /** The number of backslashes and double quotes in `m`. */
  function Specials(m: string): nat
  {
    if m == [] then 0 else (if m[0] == '\\' || m[0] == '"' then 1 else 0) + Specials(m[1..])
  }

  lemma {:induction false} ReplaceCharAppend(a: string, b: string, c: char, r: string)
    ensures ReplaceChar(a + b, c, r) == ReplaceChar(a, c, r) + ReplaceChar(b, c, r)
    decreases |a|
  {
    if a != [] {
      assert (a + b)[1..] == a[1..] + b;
      ReplaceCharAppend(a[1..], b, c, r);
    } else {
      assert a + b == b;
    }
  }

  /** The two passes escape each character on its own: doubling backslashes
      first means the second pass never meets a backslash it introduced
      next to a quote. */
  lemma {:induction false} EscapeIsPerCharacter(m: string)
    ensures Escape(m) == EscapeEach(m)
    decreases |m|
  {
    if m != [] {
      var head := if m[0] == '\\' then "\\\\" else [m[0]];
      assert ReplaceChar(m, '\\', "\\\\") == head + ReplaceChar(m[1..], '\\', "\\\\");
      ReplaceCharAppend(head, ReplaceChar(m[1..], '\\', "\\\\"), '"', "\\\"");
      assert ReplaceChar(head, '"', "\\\"") == EscapeChar(m[0]) by {
        if m[0] == '\\' {
          assert ReplaceChar(head, '"', "\\\"") == ['\\'] + ReplaceChar(['\\'], '"', "\\\"");
        }
      }
      EscapeIsPerCharacter(m[1..]);
    }
  }

  lemma {:induction false} UnescapeEscapeEach(m: string)
    ensures Unescape(EscapeEach(m)) == m
    ensures WellEscaped(EscapeEach(m))
    ensures |EscapeEach(m)| == |m| + Specials(m)
    decreases |m|
  {
    if m != [] {
      var e := EscapeEach(m);
      var tail := EscapeEach(m[1..]);
      UnescapeEscapeEach(m[1..]);
      assert e == EscapeChar(m[0]) + tail;
      if m[0] == '\\' || m[0] == '"' {
        assert e[2..] == tail;
      } else {
        assert e[1..] == tail;
      }
      assert m == [m[0]] + m[1..];
    }
  }

  /** Escaping loses nothing: reading the escaped message back gives the
      message. */
  lemma EscapeRoundTrip(m: string)
    ensures Unescape(Escape(m)) == m
  {
    EscapeIsPerCharacter(m);
    UnescapeEscapeEach(m);
  }

  /** The escaped message cannot end the `"message"` string early, and it
      grows by one character per backslash or quote. */
  lemma EscapeIsWellFormed(m: string)
    ensures WellEscaped(Escape(m))
    ensures |Escape(m)| == |m| + Specials(m)
  {
    EscapeIsPerCharacter(m);
    UnescapeEscapeEach(m);
  }

  // ---------------------------------------------------------------------
  // The line

  /** `${Logger.application}`. */
  function ApplicationText(application: Option<string>): string
  {
    match application
    case Some(a) => a
    case None => "undefined"
  }

  /** The template up to the closing quote of the message. */
  function HeadText(application: Option<string>, category: string, message: string): string
  {
    "{\"application\": \"" + ApplicationText(application) + "\""
      + ", \"category\": \"" + category + "\""
      + ", \"message\": \"" + Escape(message) + "\""
  }

  /** `log_event`: present only for a truthy event. */
  function EventText(event: Option<string>): string
  {
    if Present(event) then ", \"event\": \"" + event.value + "\"" else ""
  }

  function TimestampText(now: string): string
  {
    ", \"timestamp\": \"" + now + "\""
  }

  /** `log_milliseconds` and `log_count`: present when the number is not
      `undefined`/`null`, so a 0 is printed. */
  function NumberText(name: string, v: Option<int>): string
  {
    match v
    case Some(n) => ", \"" + name + "\": " + IntToString(n)
    case None => ""
  }

  /** `JSON.stringify` of an array of strings, with each element quoted by
      `quote`. */
  function JsonArray(items: seq<string>, quote: string -> string): string
  {
    "[" + Join(seq(|items|, i requires 0 <= i < |items| => quote(items[i])), ",") + "]"
  }

  /** `log_dimensions`: present for a non-empty array. */
  function DimensionsText(dimensions: Option<seq<string>>, quote: string -> string): string
  {
    if dimensions.Some? && |dimensions.value| > 0 then ", \"dimensions\": " + JsonArray(dimensions.value, quote) else ""
  }

  /** The text `log_entry` hands to the console, the pieces in source order. */
  function EntryText(application: Option<string>, category: string, message: string, event: Option<string>,
                     milliseconds: Option<int>, count: Option<int>, dimensions: Option<seq<string>>,
                     now: string, quote: string -> string): string
  {
    HeadText(application, category, message) + EventText(event) + TimestampText(now)
      + NumberText("milliseconds", milliseconds) + NumberText("count", count)
      + DimensionsText(dimensions, quote) + " }"
  }

  // A JSON object described member by member, the reference for `EntryText`.

  /** A member of a JSON object: its key and its value as JSON text. */
  datatype Member = Member(key: string, json: string)

  function MemberText(m: Member): string
  {
    "\"" + m.key + "\": " + m.json
  }

  /** `{` and the members separated by `, `, without the closing brace. */
  function ObjectOpen(ms: seq<Member>): string
  {
    if |ms| == 0 then "{"
    else if |ms| == 1 then "{" + MemberText(ms[0])
    else ObjectOpen(ms[..|ms| - 1]) + (", " + MemberText(ms[|ms| - 1]))
  }

  function ObjectText(ms: seq<Member>): string
  {
    ObjectOpen(ms) + " }"
  }

  function Keys(ms: seq<Member>): (ks: seq<string>)
    ensures |ks| == |ms|
  {
    seq(|ms|, i requires 0 <= i < |ms| => ms[i].key)
  }

  function Quoted(s: string): string
  {
    "\"" + s + "\""
  }

  function HeadMembers(application: Option<string>, category: string, message: string): seq<Member>
  {
    [Member("application", Quoted(ApplicationText(application))), Member("category", Quoted(category)),
     Member("message", Quoted(Escape(message)))]
  }

  function EventMember(event: Option<string>): seq<Member>
  {
    if Present(event) then [Member("event", Quoted(event.value))] else []
  }

  function NumberMember(name: string, v: Option<int>): seq<Member>
  {
    match v
    case Some(n) => [Member(name, IntToString(n))]
    case None => []
  }

  function DimensionsMember(dimensions: Option<seq<string>>, quote: string -> string): seq<Member>
  {
    if dimensions.Some? && |dimensions.value| > 0 then [Member("dimensions", JsonArray(dimensions.value, quote))] else []
  }

  /** The members of a log line: application, category and message always,
      then the event when it is truthy, the timestamp always, milliseconds
      and count when they are given, dimensions when the array is non-empty. */
  function EntryMembers(application: Option<string>, category: string, message: string, event: Option<string>,
                        milliseconds: Option<int>, count: Option<int>, dimensions: Option<seq<string>>,
                        now: string, quote: string -> string): seq<Member>
  {
    HeadMembers(application, category, message) + EventMember(event) + [Member("timestamp", Quoted(now))]
      + NumberMember("milliseconds", milliseconds) + NumberMember("count", count)
      + DimensionsMember(dimensions, quote)
  }

  /** The text after the members so far: nothing, or `, ` and the member. */
  function OptionalText(opt: seq<Member>): string
    requires |opt| <= 1
  {
    if opt == [] then "" else ", " + MemberText(opt[0])
  }

  lemma ObjectOpenAppend(a: seq<Member>, opt: seq<Member>)
    requires |a| >= 1 && |opt| <= 1
    ensures ObjectOpen(a + opt) == ObjectOpen(a) + OptionalText(opt)
  {
    if opt == [] {
      assert a + opt == a;
    } else {
      assert (a + opt)[..|a|] == a;
    }
  }

  lemma Assoc(a: string, b: string, c: string)
    ensures a + (b + c) == (a + b) + c
  {
  }

  /** A member with a raw JSON value after its separator. */
  lemma RawMemberText(sep: string, k: string, j: string)
    ensures sep + MemberText(Member(k, j)) == sep + "\"" + k + "\": " + j
  {
    Assoc(sep, "\"" + k + "\": ", j);
    Assoc(sep, "\"" + k, "\": ");
    Assoc(sep, "\"", k);
  }

  /** A member with a string value after its separator. */
  lemma QuotedMemberText(sep: string, k: string, v: string)
    ensures sep + MemberText(Member(k, Quoted(v))) == sep + "\"" + k + "\": \"" + v + "\""
  {
    RawMemberText(sep, k, Quoted(v));
    var p := sep + "\"" + k;
    Assoc(p + "\": ", "\"" + v, "\"");
    Assoc(p + "\": ", "\"", v);
    Assoc(p, "\": ", "\"");
  }

  lemma ObjectOpenThree(x: Member, y: Member, z: Member)
    ensures ObjectOpen([x, y, z]) == "{" + MemberText(x) + (", " + MemberText(y)) + (", " + MemberText(z))
  {
    assert [x, y, z][..2] == [x, y];
    assert [x, y][..1] == [x];
    assert ObjectOpen([x]) == "{" + MemberText(x);
    assert ObjectOpen([x, y]) == "{" + MemberText(x) + (", " + MemberText(y));
  }

  lemma HeadTextIsMembers(application: Option<string>, category: string, message: string)
    ensures HeadText(application, category, message) == ObjectOpen(HeadMembers(application, category, message))
  {
    var ms := HeadMembers(application, category, message);
    var a, c, m := ApplicationText(application), category, Escape(message);
    ObjectOpenThree(ms[0], ms[1], ms[2]);
    assert ms == [ms[0], ms[1], ms[2]];
    QuotedMemberText("{", "application", a);
    QuotedMemberText(", ", "category", c);
    QuotedMemberText(", ", "message", m);
    assert "{" + "\"" + "application" + "\": \"" == "{\"application\": \"";
    assert ", " + "\"" + "category" + "\": \"" == ", \"category\": \"";
    assert ", " + "\"" + "message" + "\": \"" == ", \"message\": \"";
    var x := "{\"application\": \"" + a + "\"";
    var y := ", \"category\": \"" + c + "\"";
    Assoc(x, ", \"category\": \"" + c, "\"");
    Assoc(x, ", \"category\": \"", c);
    Assoc(x + y, ", \"message\": \"" + m, "\"");
    Assoc(x + y, ", \"message\": \"", m);
  }

  /** Assembling the object from its pieces: the head and five optional
      members, each with its text. */
  lemma ObjectOfPieces(h: seq<Member>, e: seq<Member>, t: seq<Member>, ms: seq<Member>, c: seq<Member>, d: seq<Member>,
                       head: string, eText: string, tText: string, msText: string, cText: string, dText: string)
    requires |h| >= 1 && |e| <= 1 && |t| <= 1 && |ms| <= 1 && |c| <= 1 && |d| <= 1
    requires ObjectOpen(h) == head && OptionalText(e) == eText && OptionalText(t) == tText
    requires OptionalText(ms) == msText && OptionalText(c) == cText && OptionalText(d) == dText
    ensures head + eText + tText + msText + cText + dText + " }" == ObjectText(h + e + t + ms + c + d)
  {
    ObjectOpenAppend(h, e);
    ObjectOpenAppend(h + e, t);
    ObjectOpenAppend(h + e + t, ms);
    ObjectOpenAppend(h + e + t + ms, c);
    ObjectOpenAppend(h + e + t + ms + c, d);
  }

  lemma EventTextIsMember(event: Option<string>)
    ensures OptionalText(EventMember(event)) == EventText(event)
  {
    if Present(event) {
      QuotedMemberText(", ", "event", event.value);
      assert ", " + "\"" + "event" + "\": \"" == ", \"event\": \"";
    }
  }

  lemma TimestampTextIsMember(now: string)
    ensures OptionalText([Member("timestamp", Quoted(now))]) == TimestampText(now)
  {
    QuotedMemberText(", ", "timestamp", now);
    assert ", " + "\"" + "timestamp" + "\": \"" == ", \"timestamp\": \"";
  }

  lemma NumberTextIsMember(name: string, v: Option<int>)
    ensures |NumberMember(name, v)| <= 1
    ensures OptionalText(NumberMember(name, v)) == NumberText(name, v)
  {
    if v.Some? {
      RawMemberText(", ", name, IntToString(v.value));
      assert ", " + "\"" == ", \"";
    }
  }

  lemma DimensionsTextIsMember(dimensions: Option<seq<string>>, quote: string -> string)
    ensures OptionalText(DimensionsMember(dimensions, quote)) == DimensionsText(dimensions, quote)
  {
    if dimensions.Some? && |dimensions.value| > 0 {
      RawMemberText(", ", "dimensions", JsonArray(dimensions.value, quote));
      assert ", " + "\"" + "dimensions" + "\": " == ", \"dimensions\": ";
    }
  }

  /** Every log line is the `{ … }` text of its members, so an optional
      field is either there in full or not there at all. The message is
      escaped; the event, category and application are written as given. */
  lemma EntryTextIsObject(application: Option<string>, category: string, message: string, event: Option<string>,
                          milliseconds: Option<int>, count: Option<int>, dimensions: Option<seq<string>>,
                          now: string, quote: string -> string)
    ensures EntryText(application, category, message, event, milliseconds, count, dimensions, now, quote)
         == ObjectText(EntryMembers(application, category, message, event, milliseconds, count, dimensions, now, quote))
  {
    HeadTextIsMembers(application, category, message);
    EventTextIsMember(event);
    TimestampTextIsMember(now);
    NumberTextIsMember("milliseconds", milliseconds);
    NumberTextIsMember("count", count);
    DimensionsTextIsMember(dimensions, quote);
    ObjectOfPieces(HeadMembers(application, category, message), EventMember(event), [Member("timestamp", Quoted(now))],
                   NumberMember("milliseconds", milliseconds), NumberMember("count", count), DimensionsMember(dimensions, quote),
                   HeadText(application, category, message), EventText(event), TimestampText(now),
                   NumberText("milliseconds", milliseconds), NumberText("count", count), DimensionsText(dimensions, quote));
  }

  lemma KeysAppend(a: seq<Member>, b: seq<Member>)
    ensures Keys(a + b) == Keys(a) + Keys(b)
  {
  }

  /** The keys of a line with the given optional members. */
  function LineKeys(hasEvent: bool, hasMilliseconds: bool, hasCount: bool, hasDimensions: bool): seq<string>
  {
    ["application", "category", "message"] + (if hasEvent then ["event"] else []) + ["timestamp"]
      + (if hasMilliseconds then ["milliseconds"] else []) + (if hasCount then ["count"] else [])
      + (if hasDimensions then ["dimensions"] else [])
  }

  /** The keys of a line, piece by piece. */
  lemma EntryKeys(application: Option<string>, category: string, message: string, event: Option<string>,
                  milliseconds: Option<int>, count: Option<int>, dimensions: Option<seq<string>>,
                  now: string, quote: string -> string)
    ensures Keys(EntryMembers(application, category, message, event, milliseconds, count, dimensions, now, quote))
         == LineKeys(Present(event), milliseconds.Some?, count.Some?, dimensions.Some? && |dimensions.value| > 0)
  {
    var h := HeadMembers(application, category, message);
    var e := EventMember(event);
    var t := [Member("timestamp", Quoted(now))];
    var ms := NumberMember("milliseconds", milliseconds);
    var c := NumberMember("count", count);
    var d := DimensionsMember(dimensions, quote);
    KeysAppend(h, e);
    KeysAppend(h + e, t);
    KeysAppend(h + e + t, ms);
    KeysAppend(h + e + t + ms, c);
    KeysAppend(h + e + t + ms + c, d);
    assert Keys(h) == ["application", "category", "message"];
  }

  lemma PiecesMembership(x: string, h: seq<string>, e: seq<string>, t: seq<string>, ms: seq<string>, c: seq<string>, d: seq<string>)
    ensures x in h + e + t + ms + c + d <==> x in h || x in e || x in t || x in ms || x in c || x in d
  {
  }

  lemma LineKeysFacts(hasEvent: bool, hasMilliseconds: bool, hasCount: bool, hasDimensions: bool)
    ensures var ks := LineKeys(hasEvent, hasMilliseconds, hasCount, hasDimensions);
      && |ks| >= 4 && ks[..3] == ["application", "category", "message"]
      && "timestamp" in ks
      && ("event" in ks <==> hasEvent)
      && ("milliseconds" in ks <==> hasMilliseconds)
      && ("count" in ks <==> hasCount)
      && ("dimensions" in ks <==> hasDimensions)
  {
    var h: seq<string> := ["application", "category", "message"];
    var e: seq<string> := if hasEvent then ["event"] else [];
    var t: seq<string> := ["timestamp"];
    var ms: seq<string> := if hasMilliseconds then ["milliseconds"] else [];
    var c: seq<string> := if hasCount then ["count"] else [];
    var d: seq<string> := if hasDimensions then ["dimensions"] else [];
    assert (h + e + t + ms + c + d)[..3] == h;
    assert "event" !in h + t + ms + c + d by {
      assert "event"[0] != "count"[0];
    }
    assert "count" !in h + e + t + ms + d by {
      assert "event"[0] != "count"[0];
    }
    assert "milliseconds" !in h + e + t + c + d;
    assert "dimensions" !in h + e + t + ms + c;
    PiecesMembership("timestamp", h, e, t, ms, c, d);
    PiecesMembership("event", h, e, t, ms, c, d);
    PiecesMembership("count", h, e, t, ms, c, d);
    PiecesMembership("milliseconds", h, e, t, ms, c, d);
    PiecesMembership("dimensions", h, e, t, ms, c, d);
  }

  /** Which members a line has: the event only when truthy, the numbers
      whenever given (0 included), the dimensions only when given and
      non-empty; application, category and message first, and always a
      timestamp. */
  lemma EntryMemberPresence(application: Option<string>, category: string, message: string, event: Option<string>,
                            milliseconds: Option<int>, count: Option<int>, dimensions: Option<seq<string>>,
                            now: string, quote: string -> string)
    ensures var ks := Keys(EntryMembers(application, category, message, event, milliseconds, count, dimensions, now, quote));
      && |ks| >= 4 && ks[..3] == ["application", "category", "message"]
      && "timestamp" in ks
      && ("event" in ks <==> Present(event))
      && ("milliseconds" in ks <==> milliseconds.Some?)
      && ("count" in ks <==> count.Some?)
      && ("dimensions" in ks <==> dimensions.Some? && |dimensions.value| > 0)
  {
    EntryKeys(application, category, message, event, milliseconds, count, dimensions, now, quote);
    LineKeysFacts(Present(event), milliseconds.Some?, count.Some?, dimensions.Some? && |dimensions.value| > 0);
  }

  // ---------------------------------------------------------------------
  // Calls and initialisation

  /** The logger's state: the environment it runs in (whether NODE_ENV is
      `test`, and the name environment probing would find, None for none),
      the application name, whether initialisation completed, and the
      console. */
  datatype LogState = LogState(testEnv: bool, discoveredName: Option<string>, application: Option<string>,
                               isInitialized: bool, lines: seq<LogLine>)

  /** `Logger.initialize()` run to completion: true when it resolves, false
      when it rejects (no application and nothing found), which leaves the
      state as it was. */
  function InitOf(s: LogState): (r: (bool, LogState))
    ensures r.1.lines == s.lines && r.1.testEnv == s.testEnv && r.1.discoveredName == s.discoveredName
    ensures s.testEnv ==> r.0 && r.1.application == Some("TEST") && r.1.isInitialized
    ensures !s.testEnv && Present(s.application) ==> r.0 && r.1 == s.(isInitialized := true)
    ensures !r.0 <==> !s.testEnv && !Present(s.application) && !Present(s.discoveredName)
    ensures !r.0 ==> r.1 == s
    ensures r.0 ==> r.1.isInitialized && Present(r.1.application)
  {
    if s.testEnv then (true, s.(application := Some("TEST"), isInitialized := true))
    else if Present(s.application) then (true, s.(isInitialized := true))
    else if Present(s.discoveredName) then (true, s.(application := s.discoveredName, isInitialized := true))
    else (false, s)
  }

  /** Whether `initialize` suspends before it changes anything: outside
      tests with no application, it awaits environment probing, so the
      line of the call that started it is written first. */
  predicate Deferred(s: LogState)
  {
    !s.testEnv && !Present(s.application)
  }

  /** The category, message and optional fields `log` passes on: a string
      is an INFO message, a record's missing category is INFO. */
  function Normalize(args: LogArgs): (string, string, Option<string>, Option<int>, Option<int>, Option<seq<string>>)
  {
    match args
    case Message(text) => (Info, text, None, None, None, None)
    case Entry(message, category, event, ms, count, dims) =>
      (match category case Some(c) => c case None => Info, message, event, ms, count, dims)
  }

  function Append(s: LogState, args: LogArgs, now: string, quote: string -> string): LogState
  {
    var (category, message, event, ms, count, dims) := Normalize(args);
    s.(lines := s.lines + [LogLine(SinkOf(category), EntryText(s.application, category, message, event, ms, count, dims, now, quote))])
  }

  /** `Logger.log(args)` at time `now`, with its initialisation run to
      completion: before the line when `initialize` does not suspend,
      after it when it does. */
  function LogOf(s: LogState, args: LogArgs, now: string, quote: string -> string): (r: LogState)
    ensures |r.lines| == |s.lines| + 1 && r.lines[..|s.lines|] == s.lines
    ensures r.testEnv == s.testEnv && r.discoveredName == s.discoveredName
    ensures s.isInitialized ==> r == Append(s, args, now, quote)
    ensures r.lines[|s.lines|].sink == SinkOf(Normalize(args).0)
  {
    if s.isInitialized then Append(s, args, now, quote)
    else if Deferred(s) then InitOf(Append(s, args, now, quote)).1
    else Append(InitOf(s).1, args, now, quote)
  }

  /** The application name the line of a `log` call shows: the one before
      the call, unless `initialize` ran to completion first. */
  function LineApplication(s: LogState): Option<string>
  {
    if s.isInitialized || Deferred(s) then s.application else InitOf(s).1.application
  }

  /** The line `log` appends: the sink and text of `log_entry` for the
      normalised arguments, with the application name of `LineApplication`. */
  lemma LogLineOf(s: LogState, args: LogArgs, now: string, quote: string -> string)
    ensures var (category, message, event, ms, count, dims) := Normalize(args);
      LogOf(s, args, now, quote).lines[|s.lines|]
        == LogLine(SinkOf(category), EntryText(LineApplication(s), category, message, event, ms, count, dims, now, quote))
  {
  }

  /** A bare string, and a record without a category, are logged as INFO
      on `console.log`; a bare string has no optional member. */
  lemma MissingCategoryIsInfo(s: LogState, m: string, now: string, quote: string -> string,
                              event: Option<string>, ms: Option<int>, count: Option<int>, dims: Option<seq<string>>)
    ensures LogOf(s, Message(m), now, quote).lines[|s.lines|]
         == LogLine(ConsoleLog, EntryText(LineApplication(s), Info, m, None, None, None, None, now, quote))
    ensures LogOf(s, Entry(m, None, event, ms, count, dims), now, quote).lines[|s.lines|]
         == LogLine(ConsoleLog, EntryText(LineApplication(s), Info, m, event, ms, count, dims, now, quote))
  {
    LogLineOf(s, Message(m), now, quote);
    LogLineOf(s, Entry(m, None, event, ms, count, dims), now, quote);
  }

  /** After a call the logger is initialised unless no name can be found;
      in tests every line after the first call is under `TEST`, and the
      first line of a deferred initialisation still shows the old name. */
  lemma LogInitialises(s: LogState, args: LogArgs, now: string, quote: string -> string)
    ensures var r := LogOf(s, args, now, quote);
      && (r.isInitialized <==> s.isInitialized || s.testEnv || Present(s.application) || Present(s.discoveredName))
      && (s.testEnv && !s.isInitialized ==> r.application == Some("TEST") && LineApplication(s) == Some("TEST"))
      && (!s.isInitialized && Deferred(s) ==> LineApplication(s) == s.application)
  {
  }

  /** The static fields of `Logger` and the console it writes to; the
      environment (NODE_ENV and the discoverable name) is fixed at
      construction. */
  class Logger {
    const testEnv: bool
    const discoveredName: Option<string>
    var application: Option<string>
    var isInitialized: bool
    var lines: seq<LogLine>

    function State(): LogState
      reads this
    {
      LogState(testEnv, discoveredName, application, isInitialized, lines)
    }

    /** The class at module load: no application, not initialised. */
    constructor (testEnv: bool, discoveredName: Option<string>)
      ensures State() == LogState(testEnv, discoveredName, None, false, [])
    {
      this.testEnv := testEnv;
      this.discoveredName := discoveredName;
      application := None;
      isInitialized := false;
      lines := [];
    }

    /** `Logger.initialize()`; `ok` is false when it throws. */
    method Initialize() returns (ok: bool)
      modifies this
      ensures (ok, State()) == InitOf(old(State()))
    {
      if !testEnv {
        if !Present(application) {
          if !Present(discoveredName) {
            return false;
          }
          application := discoveredName;
        }
      } else {
        application := Some("TEST");
      }
      isInitialized := true;
      return true;
    }

    /** `Logger.log_entry`: picks the sink and writes one line. */
    method LogEntry(category: string, message: string, event: Option<string>, milliseconds: Option<int>,
                    count: Option<int>, dimensions: Option<seq<string>>, now: string, quote: string -> string)
      modifies this`lines
      ensures lines == old(lines) + [LogLine(SinkOf(category),
        EntryText(application, category, message, event, milliseconds, count, dimensions, now, quote))]
    {
      var sink := ConsoleLog;
      if category == Debug {
        sink := ConsoleDebug;
      } else if category == Warn {
        sink := ConsoleWarn;
      } else if category == Error || category == Fatal || category == Notify {
        sink := ConsoleError;
      }
      lines := lines + [LogLine(sink, EntryText(application, category, message, event, milliseconds, count, dimensions, now, quote))];
    }

    /** `Logger.log(args)` at time `now`. */
    method Log(args: LogArgs, now: string, quote: string -> string)
      modifies this
      ensures State() == LogOf(old(State()), args, now, quote)
    {
      ghost var s0 := State();
      var deferred := false;
      if !isInitialized {
        if !testEnv && !Present(application) {
          deferred := true;
        } else {
          var ok := Initialize();
        }
      }
      assert State() == if s0.isInitialized || deferred then s0 else InitOf(s0).1;
      match args {
        case Message(text) =>
          LogEntry(Info, text, None, None, None, None, now, quote);
        case Entry(message, category, event, ms, count, dims) =>
          var c := match category case Some(c) => c case None => Info;
          LogEntry(c, message, event, ms, count, dims, now, quote);
      }
      assert State() == Append(if s0.isInitialized || deferred then s0 else InitOf(s0).1, args, now, quote);
      if deferred {
        var ok := Initialize();
      }

    }
  }
}

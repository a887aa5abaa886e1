/**
  The conversation logger: each logged item becomes a record (a chat
  message, or any other content), rendered as a coloured console line or
  as an HTML fragment; the logger keeps the records in memory until they
  are saved, and only one logger may ever be created.
 */
module Logger {
  import opened Wrappers
  import opened Exceptions
  import opened BaseWrapper
  import PyStr

  // ---------------------------------------------------------------------------
  // Colours
  // ---------------------------------------------------------------------------

  const ESC: char := '\U{1B}'

  /** An ANSI colour code: escape, `[`, the parameters and `m`. */
  function ColorCode(params: string): string
  {
    [ESC] + "[" + params + "m"
  }

  const RESET_CONSOLE_COLOR: string := ColorCode("00")
  const OTHER_COLOR: string := ColorCode("1;34")

  /** The parameters of `CONSOLE_COLOR_MAP[role]`: bold and plain in the
      role's colour. */
  function ConsoleParams(role: Role): (string, string)
  {
    match role
    case System => ("1;35", "35")
    case User => ("1;33", "33")
    case Assistant => ("1;31", "31")
  }

  /** `CONSOLE_COLOR_MAP[role]`: the colour of the role name and of the
      content. */
  function ConsoleColors(role: Role): (string, string)
  {
    (ColorCode(ConsoleParams(role).0), ColorCode(ConsoleParams(role).1))
  }

  // ---------------------------------------------------------------------------
  // html.escape
  // ---------------------------------------------------------------------------

  /** `html.escape` of one character, with `quote=True`. */
  function EscapeChar(c: char): string
  {
    if c == '&' then "&amp;"
    else if c == '<' then "&lt;"
    else if c == '>' then "&gt;"
    else if c == '"' then "&quot;"
    else if c == '\'' then "&#x27;"
    else [c]
  }

  /** `html.escape(s)` */
  function HtmlEscape(s: string): (r: string)
    ensures |r| >= |s|
  {
    if s == [] then [] else EscapeChar(s[0]) + HtmlEscape(s[1..])
  }

  predicate Markup(c: char)
  {
    c == '<' || c == '>' || c == '"' || c == '\''
  }

  /** Escaped text holds no markup character. */
  lemma {:induction false} EscapedHasNoMarkup(s: string)
    ensures forall i :: 0 <= i < |HtmlEscape(s)| ==> !Markup(HtmlEscape(s)[i])
  {
    if s != [] {
      EscapedHasNoMarkup(s[1..]);
      var head := EscapeChar(s[0]);
      var r := HtmlEscape(s);
      forall i | 0 <= i < |r| ensures !Markup(r[i]) {
        if i >= |head| {
          assert r[i] == HtmlEscape(s[1..])[i - |head|];
        }
      }
    }
  }

  /** The inverse of `HtmlEscape` on what it produces (`html.unescape`
      restricted to the five entities `html.escape` writes). */
  function HtmlUnescape(s: string): string
    decreases |s|
  {
    if s == [] then []
    else if PyStr.StartsWith(s, "&amp;") then "&" + HtmlUnescape(s[5..])
    else if PyStr.StartsWith(s, "&lt;") then "<" + HtmlUnescape(s[4..])
    else if PyStr.StartsWith(s, "&gt;") then ">" + HtmlUnescape(s[4..])
    else if PyStr.StartsWith(s, "&quot;") then "\"" + HtmlUnescape(s[6..])
    else if PyStr.StartsWith(s, "&#x27;") then "'" + HtmlUnescape(s[6..])
    else [s[0]] + HtmlUnescape(s[1..])
  }

  /** A string that differs from `prefix` at `i` does not start with it. */
  lemma DiffersAt(s: string, prefix: string, i: nat)
    requires i < |s| && i < |prefix| && s[i] != prefix[i]
    ensures !PyStr.StartsWith(s, prefix)
  {
  }

  lemma UnescapeStep(c: char, rest: string)
    ensures HtmlUnescape(EscapeChar(c) + rest) == [c] + HtmlUnescape(rest)
  {
    var e := EscapeChar(c);
    var s := e + rest;
    assert s[..|e|] == e;
    if c == '&' {
      assert s[5..] == rest;
    } else if c == '<' {
      DiffersAt(s, "&amp;", 1);
      assert s[4..] == rest;
    } else if c == '>' {
      DiffersAt(s, "&amp;", 1);
      DiffersAt(s, "&lt;", 1);
      assert s[4..] == rest;
    } else if c == '"' {
      DiffersAt(s, "&amp;", 1);
      DiffersAt(s, "&lt;", 1);
      DiffersAt(s, "&gt;", 1);
      assert s[6..] == rest;
    } else if c == '\'' {
      DiffersAt(s, "&amp;", 1);
      DiffersAt(s, "&lt;", 1);
      DiffersAt(s, "&gt;", 1);
      DiffersAt(s, "&quot;", 1);
      assert s[6..] == rest;
    } else {
      DiffersAt(s, "&amp;", 0);
      DiffersAt(s, "&lt;", 0);
      DiffersAt(s, "&gt;", 0);
      DiffersAt(s, "&quot;", 0);
      DiffersAt(s, "&#x27;", 0);
      assert s[1..] == rest;
    }
  }

  /** Escaping loses nothing: the text is recovered from its escaped form. */
  lemma {:induction false} EscapeRoundTrip(s: string)
    ensures HtmlUnescape(HtmlEscape(s)) == s
  {
    if s != [] {
      EscapeRoundTrip(s[1..]);
      UnescapeStep(s[0], HtmlEscape(s[1..]));
      assert [s[0]] + s[1..] == s;
    }
  }

  // ---------------------------------------------------------------------------
  // Records
  // ---------------------------------------------------------------------------

  /** The clock reading `datetime.now` gives when a record is made. */
  type Timestamp = int

  /** `json.dumps(obj, sort_keys=True, indent=4)`, supplied by the caller. */
  type JsonDumps = Value -> string

  /** What the logger is called with: a chat message, or other content. */
  datatype LogInput = ChatInput(message: ChatMessage) | OtherInput(content: Value)

  datatype LogRecord =
    | LogMessage(content: Value, timestamp: Timestamp, observation: Option<string>)
    | LogChatMessage(chatMessage: ChatMessage, timestamp: Timestamp, observation: Option<string>)

  /** `LogMessage._stringfy`: lists and dicts as JSON, booleans as
      "True"/"False", strings as they are, anything else through `str`. */
  function Stringify(v: Value, dumps: JsonDumps): (r: string)
    ensures v.Str? ==> r == v.s
    ensures v.Bool? ==> r == (if v.b then "True" else "False")
    ensures v.List? || v.Dict? ==> r == dumps(v)
  {
    match v
    case Str(s) => s
    case Bool(b) => if b then "True" else "False"
    case Int(i) => PyStr.IntToString(i)
    case NoneValue => "None"
    case List(_) => dumps(v)
    case Dict(_) => dumps(v)
  }

  /** An integer is written so that `int()` reads it back. */
  lemma StringifyIntRoundTrip(i: int, dumps: JsonDumps)
    ensures PyStr.ParseInt(Stringify(Int(i), dumps)) == Ok(i)
  {
    PyStr.IntRoundTrip(i);
  }

  /** `role.upper()`: the role name as the log shows it. */
  function RoleTag(role: Role): string
  {
    match role
    case System => "SYSTEM"
    case User => "USER"
    case Assistant => "ASSISTANT"
  }

  lemma RoleTagIsUpper(role: Role)
    ensures RoleTag(role) == PyStr.Upper(RoleName(role))
  {
    var u := PyStr.Upper(RoleName(role));
    assert |u| == |RoleTag(role)|;
    forall i | 0 <= i < |u| ensures u[i] == RoleTag(role)[i] {
    }
  }

  /** `to_console` of either record kind. */
  function ToConsole(record: LogRecord, dumps: JsonDumps): (r: string)
    ensures |r| > 0 && r[0] == ESC
    ensures PyStr.EndsWith(r, RESET_CONSOLE_COLOR)
  {
    match record
    case LogMessage(content, _, _) => OTHER_COLOR + Stringify(content, dumps) + RESET_CONSOLE_COLOR
    case LogChatMessage(m, _, _) =>
      var (roleColor, contentColor) := ConsoleColors(m.role);
      roleColor + (RoleTag(m.role) + (RESET_CONSOLE_COLOR + ("> " + (contentColor + (m.content + RESET_CONSOLE_COLOR)))))
  }

  /** `f"<b>{role.upper()}</b>> "`: the head of a chat message's HTML line. */
  function ChatHead(role: Role): string
  {
    "<b>" + RoleTag(role) + "</b>> "
  }

  /** `to_html` of either record kind. */
  function ToHtml(record: LogRecord, dumps: JsonDumps): (r: string)
    ensures record.LogChatMessage? ==> ParseChatHtml(r) == Some(record.chatMessage)
  {
    match record
    case LogMessage(content, _, _) => HtmlEscape(Stringify(content, dumps))
    case LogChatMessage(m, _, _) =>
      ParseChatLine(m.role, HtmlEscape(m.content));
      EscapeRoundTrip(m.content);
      ChatHead(m.role) + HtmlEscape(m.content)
  }

  // ---------------------------------------------------------------------------
  // Reading the lines back
  // ---------------------------------------------------------------------------

  /** The text a terminal shows: every colour code removed. */
  function StripColors(s: string): string
    decreases |s|
  {
    if s == [] then []
    else if s[0] != ESC then [s[0]] + StripColors(s[1..])
    else
      match PyStr.IndexOf(s, "m", 0)
      case None => []
      case Some(k) =>
        PyStr.IndexOfFound(s, "m", 0);
        StripColors(s[k + 1..])
  }

  predicate NoEscape(s: string)
  {
    forall i :: 0 <= i < |s| ==> s[i] != ESC
  }

  lemma {:induction false} StripPlain(a: string, rest: string)
    requires NoEscape(a)
    ensures StripColors(a + rest) == a + StripColors(rest)
  {
    if a != [] {
      StripPlain(a[1..], rest);
      var s := a + rest;
      assert s[0] == a[0] && s[1..] == a[1..] + rest;
      assert StripColors(s) == [a[0]] + StripColors(a[1..] + rest);
      assert [a[0]] + (a[1..] + StripColors(rest)) == a + StripColors(rest);
    } else {
      assert a + rest == rest;
    }
  }

  lemma StripCode(params: string, rest: string)
    requires forall i :: 0 <= i < |params| ==> params[i] != 'm'
    ensures StripColors(ColorCode(params) + rest) == StripColors(rest)
  {
    var s := ColorCode(params) + rest;
    var k := |params| + 2;
    assert PyStr.OccursAt(s, "m", k);
    forall j | 0 <= j < k ensures !PyStr.OccursAt(s, "m", j) {
      assert s[j..j + 1] == [s[j]];
    }
    PyStr.FirstOccurrence(s, "m", k);
    assert s[k + 1..] == rest;
  }

  /** A coloured stretch closed by the reset code shows as its text. */
  lemma StripColored(params: string, text: string)
    requires forall i :: 0 <= i < |params| ==> params[i] != 'm'
    requires NoEscape(text)
    ensures StripColors(ColorCode(params) + (text + RESET_CONSOLE_COLOR)) == text
  {
    StripCode("00", []);
    assert RESET_CONSOLE_COLOR + [] == RESET_CONSOLE_COLOR;
    StripPlain(text, RESET_CONSOLE_COLOR);
    StripCode(params, text + RESET_CONSOLE_COLOR);
    assert text + [] == text;
  }

  /** Two coloured stretches separated by "> " show as the two texts. */
  lemma StripTwoColored(p1: string, x: string, p2: string, y: string)
    requires forall i :: 0 <= i < |p1| ==> p1[i] != 'm'
    requires forall i :: 0 <= i < |p2| ==> p2[i] != 'm'
    requires NoEscape(x) && NoEscape(y)
    ensures StripColors(ColorCode(p1) + (x + (RESET_CONSOLE_COLOR + ("> " + (ColorCode(p2) + (y + RESET_CONSOLE_COLOR))))))
         == x + "> " + y
  {
    var r := RESET_CONSOLE_COLOR;
    var c := ColorCode(p2) + (y + r);
    StripColored(p2, y);
    var d := "> " + c;
    StripPlain("> ", c);
    assert StripColors(d) == "> " + y;
    var e := r + d;
    StripCode("00", d);
    assert StripColors(e) == "> " + y;
    StripPlain(x, e);
    StripCode(p1, x + e);
    assert x + ("> " + y) == x + "> " + y;
  }

  /** With its colours removed, a chat message's console line reads
      "ROLE> content". */
  lemma ChatConsoleText(m: ChatMessage, timestamp: Timestamp, observation: Option<string>, dumps: JsonDumps)
    requires NoEscape(m.content)
    ensures StripColors(ToConsole(LogChatMessage(m, timestamp, observation), dumps)) == RoleTag(m.role) + "> " + m.content
  {
    var (p1, p2) := ConsoleParams(m.role);
    assert forall i :: 0 <= i < |p1| ==> p1[i] != 'm';
    assert forall i :: 0 <= i < |p2| ==> p2[i] != 'm';
    assert NoEscape(RoleTag(m.role));
    StripTwoColored(p1, RoleTag(m.role), p2, m.content);
  }

  /** With its colours removed, any other record's console line is its
      text. */
  lemma OtherConsoleText(v: Value, timestamp: Timestamp, observation: Option<string>, dumps: JsonDumps)
    requires NoEscape(Stringify(v, dumps))
    ensures StripColors(ToConsole(LogMessage(v, timestamp, observation), dumps)) == Stringify(v, dumps)
  {
    var text := Stringify(v, dumps);
    assert ToConsole(LogMessage(v, timestamp, observation), dumps) == ColorCode("1;34") + (text + RESET_CONSOLE_COLOR);
    StripColored("1;34", text);
  }

  /** The role and message of a chat line of the HTML log. */
  function ParseChatHtml(line: string): Option<ChatMessage>
  {
    if PyStr.StartsWith(line, ChatHead(System)) then Some(ChatMessage(System, HtmlUnescape(line[|ChatHead(System)|..])))
    else if PyStr.StartsWith(line, ChatHead(Assistant)) then Some(ChatMessage(Assistant, HtmlUnescape(line[|ChatHead(Assistant)|..])))
    else if PyStr.StartsWith(line, ChatHead(User)) then Some(ChatMessage(User, HtmlUnescape(line[|ChatHead(User)|..])))
    else None
  }

  /** The heads differ at their fourth character, the role's initial. */
  lemma ChatHeadsDiffer(a: Role, b: Role)
    requires a != b
    ensures |ChatHead(a)| > 3 && |ChatHead(b)| > 3 && ChatHead(a)[3] != ChatHead(b)[3]
  {
  }

  /** A line made of a role's head and an escaped body parses as that role
      with the unescaped body. */
  lemma ParseChatLine(role: Role, body: string)
    ensures ParseChatHtml(ChatHead(role) + body) == Some(ChatMessage(role, HtmlUnescape(body)))
  {
    var head := ChatHead(role);
    var line := head + body;
    assert line[|head|..] == body;
    assert PyStr.StartsWith(line, head);
    if role != System {
      ChatHeadsDiffer(role, System);
      assert line[3] == head[3];
      DiffersAt(line, ChatHead(System), 3);
    }
    if role == User {
      ChatHeadsDiffer(role, Assistant);
      assert line[3] == head[3];
      DiffersAt(line, ChatHead(Assistant), 3);
    }
  }

  /** A chat message's HTML line gives back the message. */
  lemma ChatHtmlRoundTrip(m: ChatMessage, timestamp: Timestamp, observation: Option<string>, dumps: JsonDumps)
    ensures ParseChatHtml(ToHtml(LogChatMessage(m, timestamp, observation), dumps)) == Some(m)
  {
    ParseChatLine(m.role, HtmlEscape(m.content));
    EscapeRoundTrip(m.content);
  }

  // ---------------------------------------------------------------------------
  // The logger
  // ---------------------------------------------------------------------------

  /** The record a logger call makes: a chat record for a chat message and
      a plain record for anything else, keeping the observation. */
  function MakeRecord(input: LogInput, timestamp: Timestamp, observation: Option<string>): (r: LogRecord)
    ensures r.LogChatMessage? <==> input.ChatInput?
    ensures r.timestamp == timestamp && r.observation == observation
  {
    match input
    case ChatInput(m) => LogChatMessage(m, timestamp, observation)
    case OtherInput(v) => LogMessage(v, timestamp, observation)
  }

  const SINGLETON_ERROR: string := "Logger should not be instantiated out of this file!"

  /** The class attribute `_Logger._counter`, shared by every instance. */
  class LoggerRegistry {
    var counter: int

    constructor ()
      ensures counter == 0
    {
      counter := 0;
    }
  }

  /** `_Logger` */
  class Logger {
    const printStdout: bool
    var logMessages: seq<LogRecord>

    constructor (printStdout: bool)
      ensures this.printStdout == printStdout && logMessages == []
    {
      this.printStdout := printStdout;
      logMessages := [];
    }

    /** `_Logger.__init__`: the shared counter is incremented first, so
        only the very first instantiation passes the assertion, and every
        later one fails it. */
    static method Create(registry: LoggerRegistry, printStdout: bool) returns (r: Result<Logger, Error>)
      modifies registry
      ensures registry.counter == old(registry.counter) + 1
      ensures r.Ok? <==> old(registry.counter) == 0
      ensures r.Err? ==> r.error == AssertionError(SINGLETON_ERROR)
      ensures r.Ok? ==> fresh(r.value) && r.value.printStdout == printStdout && r.value.logMessages == []
    {
      registry.counter := registry.counter + 1;
      if registry.counter != 1 {
        return Err(AssertionError(SINGLETON_ERROR));
      }
      var l := new Logger(printStdout);
      r := Ok(l);
    }

    /** `_Logger.__call__`: exactly one record is appended; the console
        line is returned when the logger prints to standard output. */
    method Log(input: LogInput, observation: Option<string>, timestamp: Timestamp, dumps: JsonDumps)
      returns (printed: Option<string>)
      modifies this
      ensures logMessages == old(logMessages) + [MakeRecord(input, timestamp, observation)]
      ensures printed == (if printStdout then Some(ToConsole(MakeRecord(input, timestamp, observation), dumps)) else None)
    {
      var record := MakeRecord(input, timestamp, observation);
      printed := if printStdout then Some(ToConsole(record, dumps)) else None;
      logMessages := logMessages + [record];
    }

    /** `_Logger.save`: the template renders the records, and the buffer is
        emptied. */
    method Save(render: seq<LogRecord> -> string) returns (output: string)
      modifies this
      ensures output == render(old(logMessages))
      ensures logMessages == []
    {
      output := render(logMessages);
      logMessages := [];
    }
  }

  /** Two loggers cannot both be created from one registry. */
  method SecondLoggerFails(printStdout: bool) returns (first: Result<Logger, Error>, second: Result<Logger, Error>)
    ensures first.Ok? && second == Err(AssertionError(SINGLETON_ERROR))
  {
    var registry := new LoggerRegistry();
    first := Logger.Create(registry, printStdout);
    second := Logger.Create(registry, printStdout);
  }
}

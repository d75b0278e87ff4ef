/**
 * The event vocabulary of an agent run (lib/events.ts, repeated in lib/codex.ts)
 * and its wire form. JSON.stringify is modelled for exactly these five object
 * shapes: keys in insertion order, no whitespace, strings quoted as ECMAScript's
 * QuoteJSONString does. Parse is the reading direction for that layout.
 */
module Events {
  import opened Wrappers
  import opened Text

  datatype CodexEvent =
    | Plan(content: string)
    | FileChange(path: string, status: string)
    | Message(content: string)
    | Error(message: string)
    | Done

  /** `done` and `error` end a run. */
  predicate IsTerminal(e: CodexEvent) {
    e.Error? || e.Done?
  }

  function HexDigit(d: nat): (c: char)
    requires d < 16
  {
    if d < 10 then DigitChar(d) else ('a' as int + d - 10) as char
  }

  /** One character inside a JSON string literal. */
  function EscapeChar(c: char): (r: string)
    ensures r != [] && (r[0] == '\\' || r == [c])
  {
    if c == '"' then "\\\""
    else if c == '\\' then "\\\\"
    else if c == '\U{8}' then "\\b"
    else if c == '\t' then "\\t"
    else if c == '\n' then "\\n"
    else if c == '\U{C}' then "\\f"
    else if c == '\r' then "\\r"
    else if c < ' ' then "\\u00" + [HexDigit(c as int / 16), HexDigit(c as int % 16)]
    else [c]
  }

  function Escape(s: string): string {
    if s == [] then [] else EscapeChar(s[0]) + Escape(s[1..])
  }

  // The fixed text JSON.stringify writes around each event's string fields.
  const PlanHead := "{\"type\":\"plan\",\"content\":\""
  const FileChangeHead := "{\"type\":\"file_change\",\"path\":\""
  const StatusKey := ",\"status\":\""
  const MessageHead := "{\"type\":\"message\",\"content\":\""
  const ErrorHead := "{\"type\":\"error\",\"message\":\""
  const Close := "\"}"
  const DoneJson := "{\"type\":\"done\"}"

  /** JSON.stringify of an event object. */
  function ToJson(e: CodexEvent): string {
    match e
    case Plan(c) => PlanHead + Escape(c) + Close
    case FileChange(p, s) => FileChangeHead + (Escape(p) + "\"" + (StatusKey + Escape(s) + Close))
    case Message(c) => MessageHead + Escape(c) + Close
    case Error(m) => ErrorHead + Escape(m) + Close
    case Done => DoneJson
  }

  /** One server-sent-events record: `data: <json>\n\n` (lib/events.ts toSseEvent). */
  function ToSseEvent(e: CodexEvent): string {
    "data: " + ToJson(e) + "\n\n"
  }

  // ----- reading direction -----

  function Expect(lit: string, s: string): (r: Option<string>)
    ensures r.Some? ==> s == lit + r.value
  {
    if StartsWith(s, lit) then
      assert s == s[..|lit|] + s[|lit|..];
      Some(s[|lit|..])
    else None
  }

  function HexValue(c: char): Option<nat> {
    if '0' <= c <= '9' then Some(c as int - '0' as int)
    else if 'a' <= c <= 'f' then Some(c as int - 'a' as int + 10)
    else if 'A' <= c <= 'F' then Some(c as int - 'A' as int + 10)
    else None
  }

  /** The escape after a backslash: the character it stands for and how many characters it uses. */
  function ReadEscape(t: string): (r: Option<(char, nat)>)
    ensures r.Some? ==> 1 <= r.value.1 <= |t|
  {
    if t == [] then None
    else if t[0] == '"' then Some(('"', 1))
    else if t[0] == '\\' then Some(('\\', 1))
    else if t[0] == '/' then Some(('/', 1))
    else if t[0] == 'b' then Some(('\U{8}', 1))
    else if t[0] == 'f' then Some(('\U{C}', 1))
    else if t[0] == 'n' then Some(('\n', 1))
    else if t[0] == 'r' then Some(('\r', 1))
    else if t[0] == 't' then Some(('\t', 1))
    else if t[0] == 'u' && |t| >= 5 then
      match (HexValue(t[1]), HexValue(t[2]), HexValue(t[3]), HexValue(t[4]))
      case (Some(a), Some(b), Some(c), Some(d)) =>
        var v := ((a * 16 + b) * 16 + c) * 16 + d;
        // a lone surrogate half has no scalar value of its own
        if 0xD800 <= v < 0xE000 || v >= 0x11_0000 then None else Some((v as char, 5))
      case _ => None
    else None
  }

  /** The body of a string literal up to its closing quote: the decoded text and what follows. */
  function ReadString(s: string): Option<(string, string)>
    decreases |s|
  {
    if s == [] then None
    else if s[0] == '"' then Some(("", s[1..]))
    else if s[0] == '\\' then
      match ReadEscape(s[1..])
      case None => None
      case Some((c, k)) =>
        match ReadString(s[1 + k..])
        case None => None
        case Some((v, rest)) => Some(([c] + v, rest))
    else if s[0] < ' ' then None
    else
      match ReadString(s[1..])
      case None => None
      case Some((v, rest)) => Some(([s[0]] + v, rest))
  }

  /** One string field after `head`, closed by `"}`. */
  function ReadLast(head: string, s: string): Option<string>
    requires StartsWith(s, head)
  {
    match ReadString(s[|head|..])
    case None => None
    case Some((v, rest)) => if rest == "}" then Some(v) else None
  }

  /** JSON.parse of an event payload; None for any text that is not one of the five shapes. */
  function Parse(s: string): Option<CodexEvent> {
    if StartsWith(s, PlanHead) then
      match ReadLast(PlanHead, s) case None => None case Some(v) => Some(Plan(v))
    else if StartsWith(s, FileChangeHead) then
      match ReadString(s[|FileChangeHead|..])
      case None => None
      case Some((p, rest)) =>
        if StartsWith(rest, StatusKey) then
          match ReadLast(StatusKey, rest) case None => None case Some(st) => Some(FileChange(p, st))
        else None
    else if StartsWith(s, MessageHead) then
      match ReadLast(MessageHead, s) case None => None case Some(v) => Some(Message(v))
    else if StartsWith(s, ErrorHead) then
      match ReadLast(ErrorHead, s) case None => None case Some(v) => Some(Error(v))
    else if s == DoneJson then Some(Done)
    else None
  }

  // ----- properties of the wire form -----

  lemma HexRoundTrip(d: nat)
    requires d < 16
    ensures HexValue(HexDigit(d)) == Some(d)
  {
  }

  /** Reading one escaped character back gives the character. */
  lemma ReadEscapedChar(c: char, more: string)
    ensures EscapeChar(c)[0] == '\\' ==>
      ReadEscape(EscapeChar(c)[1..] + more) == Some((c, |EscapeChar(c)| - 1))
    ensures EscapeChar(c)[0] != '\\' ==> EscapeChar(c) == [c] && c != '"' && c != '\\' && c >= ' '
  {
    if c < ' ' && c != '\U{8}' && c != '\t' && c != '\n' && c != '\U{C}' && c != '\r' {
      var hi, lo := c as int / 16, c as int % 16;
      HexRoundTrip(hi);
      HexRoundTrip(lo);
      var t := EscapeChar(c)[1..] + more;
      assert t[..5] == "u00" + [HexDigit(hi), HexDigit(lo)];
      assert ((0 * 16 + 0) * 16 + hi) * 16 + lo == c as int;
    }
  }

  /** The string reader inverts Escape, stopping exactly at the closing quote. */
  lemma ReadStringEscape(x: string, rest: string)
    ensures ReadString(Escape(x) + "\"" + rest) == Some((x, rest))
  {
    var more := "\"" + rest;
    assert more[0] == '"' && more[1..] == rest;
    assert ReadString(more) == Some(("", rest));
    ReadEscapedThen(x, more, "", rest);
    assert Escape(x) + "\"" + rest == Escape(x) + more;
    assert x + "" == x;
  }

  /** Escaped text followed by the rest of a literal reads as the text, then the rest. */
  lemma {:induction false} ReadEscapedThen(x: string, more: string, v: string, rest: string)
    requires ReadString(more) == Some((v, rest))
    ensures ReadString(Escape(x) + more) == Some((x + v, rest))
  {
    if x == [] {
      assert Escape(x) + more == more;
      assert x + v == v;
    } else {
      var tail := Escape(x[1..]) + more;
      ReadEscapedThen(x[1..], more, v, rest);
      EscapeCons(x, more);
      ReadEscapedCharThen(x[0], tail, x[1..] + v, rest);
      ConsAppend(x, v);
    }
  }

  lemma ConsAppend(x: string, v: string)
    requires x != []
    ensures [x[0]] + (x[1..] + v) == x + v
  {
    assert x == [x[0]] + x[1..];
  }

  lemma EscapeCons(x: string, more: string)
    requires x != []
    ensures Escape(x) + more == EscapeChar(x[0]) + (Escape(x[1..]) + more)
  {
  }

  /** One escaped character followed by the rest of a literal reads as that character and the rest. */
  lemma ReadEscapedCharThen(c: char, tail: string, v: string, rest: string)
    requires ReadString(tail) == Some((v, rest))
    ensures ReadString(EscapeChar(c) + tail) == Some(([c] + v, rest))
  {
    var s := EscapeChar(c) + tail;
    ReadEscapedChar(c, tail);
    if EscapeChar(c)[0] == '\\' {
      var k := |EscapeChar(c)| - 1;
      assert s[1..] == EscapeChar(c)[1..] + tail;
      assert s[1 + k..] == tail;
    } else {
      assert s[0] == c && s[1..] == tail;
    }
  }

  lemma ReadLastOf(head: string, v: string)
    ensures StartsWith(head + Escape(v) + Close, head)
    ensures ReadLast(head, head + Escape(v) + Close) == Some(v)
  {
    var s := head + Escape(v) + Close;
    assert s[..|head|] == head;
    assert s[|head|..] == Escape(v) + "\"" + "}";
    ReadStringEscape(v, "}");
  }

  lemma ParsePlan(c: string)
    ensures Parse(ToJson(Plan(c))) == Some(Plan(c))
  {
    ReadLastOf(PlanHead, c);
  }

  lemma ParseFileChange(p: string, st: string)
    ensures Parse(ToJson(FileChange(p, st))) == Some(FileChange(p, st))
  {
    var s := ToJson(FileChange(p, st));
    var rest := StatusKey + Escape(st) + Close;
    var body := Escape(p) + "\"" + rest;
    HeadSplit(FileChangeHead, body);
    assert !StartsWith(s, PlanHead) by { assert s[9] == FileChangeHead[9] != PlanHead[9]; }
    ReadStringEscape(p, rest);
    ReadLastOf(StatusKey, st);
  }

  lemma HeadSplit(head: string, body: string)
    ensures StartsWith(head + body, head) && (head + body)[|head|..] == body
  {
    assert (head + body)[..|head|] == head;
  }

  lemma ParseMessage(c: string)
    ensures Parse(ToJson(Message(c))) == Some(Message(c))
  {
    var s := ToJson(Message(c));
    assert !StartsWith(s, PlanHead) by { assert s[9] != PlanHead[9]; }
    assert !StartsWith(s, FileChangeHead) by { assert s[9] != FileChangeHead[9]; }
    ReadLastOf(MessageHead, c);
  }

  lemma ParseError(m: string)
    ensures Parse(ToJson(Error(m))) == Some(Error(m))
  {
    var s := ToJson(Error(m));
    assert !StartsWith(s, PlanHead) by { assert s[9] != PlanHead[9]; }
    assert !StartsWith(s, FileChangeHead) by { assert s[9] != FileChangeHead[9]; }
    assert !StartsWith(s, MessageHead) by { assert s[9] != MessageHead[9]; }
    ReadLastOf(ErrorHead, m);
  }

  lemma ParseDone()
    ensures Parse(ToJson(Done)) == Some(Done)
  {
    var s := ToJson(Done);
    assert !StartsWith(s, PlanHead) by { assert s[9] != PlanHead[9]; }
    assert !StartsWith(s, FileChangeHead) by { assert s[9] != FileChangeHead[9]; }
    assert !StartsWith(s, MessageHead) by { assert s[9] != MessageHead[9]; }
    assert !StartsWith(s, ErrorHead) by { assert s[9] != ErrorHead[9]; }
  }

  /** Parsing a serialised event gives the event back; so ToJson is injective. */
  lemma ParseToJson(e: CodexEvent)
    ensures Parse(ToJson(e)) == Some(e)
  {
    match e
    case Plan(c) => ParsePlan(c);
    case FileChange(p, st) => ParseFileChange(p, st);
    case Message(c) => ParseMessage(c);
    case Error(m) => ParseError(m);
    case Done => ParseDone();
  }

  lemma ToJsonInjective(e1: CodexEvent, e2: CodexEvent)
    requires ToJson(e1) == ToJson(e2)
    ensures e1 == e2
  {
    ParseToJson(e1);
    ParseToJson(e2);
  }

  predicate NoNewline(s: string) {
    forall i :: 0 <= i < |s| ==> s[i] != '\n'
  }

  lemma NoNewlineAppend(a: string, b: string)
    requires NoNewline(a) && NoNewline(b)
    ensures NoNewline(a + b)
  {
    forall i | 0 <= i < |a + b| ensures (a + b)[i] != '\n' {
      if i >= |a| { assert (a + b)[i] == b[i - |a|]; }
    }
  }

  lemma {:induction false} EscapeNoNewline(s: string)
    ensures NoNewline(Escape(s))
  {
    if s != [] {
      EscapeNoNewline(s[1..]);
      NoNewlineAppend(EscapeChar(s[0]), Escape(s[1..]));
    }
  }

  /** The serialised payload has no raw newline and ends with its closing brace. */
  lemma ToJsonShape(e: CodexEvent)
    ensures NoNewline(ToJson(e))
    ensures |ToJson(e)| > 0 && ToJson(e)[|ToJson(e)| - 1] == '}'
  {
    HeadsNoNewline();
    match e
    case Plan(c) => FieldShape(PlanHead, c);
    case Message(c) => FieldShape(MessageHead, c);
    case Error(m) => FieldShape(ErrorHead, m);
    case FileChange(p, st) => FileChangeShape(p, st);
    case Done =>
  }

  lemma HeadsNoNewline()
    ensures NoNewline(PlanHead) && NoNewline(MessageHead) && NoNewline(ErrorHead)
    ensures NoNewline(FileChangeHead) && NoNewline(StatusKey) && NoNewline("\"")
  {
  }

  lemma FileChangeShape(p: string, st: string)
    requires NoNewline(FileChangeHead) && NoNewline(StatusKey) && NoNewline("\"")
    ensures NoNewline(FileChangeHead + (Escape(p) + "\"" + (StatusKey + Escape(st) + Close)))
    ensures LastOf(FileChangeHead + (Escape(p) + "\"" + (StatusKey + Escape(st) + Close))) == '}'
  {
    FieldShape(StatusKey, st);
    var tail := StatusKey + Escape(st) + Close;
    EscapeNoNewline(p);
    NoNewlineAppend(Escape(p), "\"");
    NoNewlineAppend(Escape(p) + "\"", tail);
    NoNewlineAppend(FileChangeHead, Escape(p) + "\"" + tail);
    LastOfAppend(Escape(p) + "\"", tail);
    LastOfAppend(FileChangeHead, Escape(p) + "\"" + tail);
  }

  function LastOf(s: string): char
    requires s != []
  {
    s[|s| - 1]
  }

  lemma LastOfAppend(a: string, b: string)
    requires b != []
    ensures LastOf(a + b) == LastOf(b)
  {
  }

  /** A head without newlines, an escaped string and the closing `"}`. */
  lemma FieldShape(head: string, v: string)
    requires NoNewline(head)
    ensures NoNewline(head + Escape(v) + Close)
    ensures LastOf(head + Escape(v) + Close) == '}'
  {
    assert NoNewline(Close);
    EscapeNoNewline(v);
    NoNewlineAppend(head, Escape(v));
    NoNewlineAppend(head + Escape(v), Close);
  }

  /**
   * A frame begins with `data: `, ends with a blank line, and that blank line is
   * the only pair of adjacent newlines in it.
   */
  lemma FrameShape(e: CodexEvent)
    ensures StartsWith(ToSseEvent(e), "data: ")
    ensures EndsWith(ToSseEvent(e), "\n\n")
    ensures forall i :: 0 <= i < |ToSseEvent(e)| - 1 && ToSseEvent(e)[i] == '\n' && ToSseEvent(e)[i + 1] == '\n' ==>
      i == |ToSseEvent(e)| - 2
  {
    ToJsonShape(e);
    var f := ToSseEvent(e);
    var j := ToJson(e);
    forall i | 0 <= i < |f| - 1 && f[i] == '\n' && f[i + 1] == '\n' ensures i == |f| - 2 {
    }
  }
}

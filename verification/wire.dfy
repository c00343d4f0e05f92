/** The body the `/api/chat` handler streams back. It borrows the
    `data: <json>\n\n` event framing of Server-Sent Events (WHATWG HTML
    Living Standard, section 9.2) for progress and status frames, and
    interleaves raw reply text between them, so the body is a sequence of
    writes, each either a frame or raw text. */
module Wire {
  import opened Text
  import opened Domain

  /** A frame's JSON payload: `{type:'progress',stage,details}`,
      `{type:'done'}` or `{type:'error'}`. */
  datatype Frame = Progress(stage: string, details: string) | Done | Error

  /** One `res.write`: a framed event or raw text. */
  datatype Write = Event(frame: Frame) | Raw(text: string)

  function HexDigit(n: nat): char
    requires n < 16
  {
    "0123456789abcdef"[n]
  }

  /** How `JSON.stringify` writes one character inside a string literal. */
  function EscapeChar(c: char): (r: string)
    ensures |r| >= 1
  {
    if c == '"' then "\\\""
    else if c == '\\' then "\\\\"
    else if c == '\U{0008}' then "\\b"
    else if c == '\t' then "\\t"
    else if c == '\n' then "\\n"
    else if c == '\U{000C}' then "\\f"
    else if c == '\r' then "\\r"
    else if c < ' ' then "\\u00" + [HexDigit(c as int / 16), HexDigit(c as int % 16)]
    else [c]
  }

  /** The body of a JSON string literal for `s`: no control character
      survives, so in particular no line feed. */
  function Escape(s: string): (r: string)
    ensures forall i :: 0 <= i < |r| ==> r[i] >= ' '
  {
    if |s| == 0 then "" else EscapeChar(s[0]) + Escape(s[1..])
  }

  function JsonString(s: string): string {
    "\"" + Escape(s) + "\""
  }

  /** `JSON.stringify` of a frame's payload object, keys in insertion order. */
  function FrameJson(f: Frame): string {
    match f
    case Progress(stage, details) =>
      "{\"type\":\"progress\",\"stage\":" + JsonString(stage) + ",\"details\":" + JsonString(details) + "}"
    case Done => "{\"type\":\"done\"}"
    case Error => "{\"type\":\"error\"}"
  }

  /** The line a frame occupies on the wire. */
  function FrameLine(f: Frame): (line: string)
    ensures StartsWith(line, "data: ")
    ensures '\n' !in line
  {
    var j := FrameJson(f);
    assert forall i :: 0 <= i < |j| ==> j[i] != '\n';
    "data: " + j
  }

  /** `data: <json>\n\n`. */
  function FrameText(f: Frame): string {
    FrameLine(f) + "\n\n"
  }

  function WriteText(w: Write): string {
    match w
    case Event(f) => FrameText(f)
    case Raw(t) => t
  }

  /** Everything the client receives, in write order. */
  function WireText(ws: seq<Write>): string {
    if |ws| == 0 then "" else WriteText(ws[0]) + WireText(ws[1..])
  }

  /** The raw text writes only, concatenated. */
  function Content(ws: seq<Write>): string {
    if |ws| == 0 then "" else (if ws[0].Raw? then ws[0].text else "") + Content(ws[1..])
  }

  function CountDone(ws: seq<Write>): nat {
    if |ws| == 0 then 0 else (if ws[0] == Event(Done) then 1 else 0) + CountDone(ws[1..])
  }

  function CountError(ws: seq<Write>): nat {
    if |ws| == 0 then 0 else (if ws[0] == Event(Error) then 1 else 0) + CountError(ws[1..])
  }

  /** No frame follows raw text. */
  predicate FramesBeforeText(ws: seq<Write>) {
    forall i, j :: 0 <= i < j < |ws| && ws[i].Raw? ==> ws[j].Raw?
  }

  predicate AllProgress(ws: seq<Write>) {
    forall i :: 0 <= i < |ws| ==> ws[i].Event? && ws[i].frame.Progress?
  }

  predicate AllRaw(ws: seq<Write>) {
    forall i :: 0 <= i < |ws| ==> ws[i].Raw?
  }

  lemma {:induction false} WireAppend(a: seq<Write>, b: seq<Write>)
    ensures WireText(a + b) == WireText(a) + WireText(b)
    ensures Content(a + b) == Content(a) + Content(b)
    ensures CountDone(a + b) == CountDone(a) + CountDone(b)
    ensures CountError(a + b) == CountError(a) + CountError(b)
  {
    if |a| > 0 {
      assert (a + b)[1..] == a[1..] + b;
      WireAppend(a[1..], b);
    } else {
      assert a + b == b;
    }
  }

  /** A run of progress frames carries no content and no terminal frame. */
  lemma {:induction false} ProgressOnly(ws: seq<Write>)
    requires AllProgress(ws)
    ensures Content(ws) == ""
    ensures CountDone(ws) == 0 && CountError(ws) == 0
  {
    if |ws| > 0 {
      ProgressOnly(ws[1..]);
    }
  }

  /** Raw writes alone carry no frame, and their content is their text. */
  lemma {:induction false} RawOnly(ws: seq<Write>)
    requires AllRaw(ws)
    ensures CountDone(ws) == 0 && CountError(ws) == 0
    ensures Content(ws) == WireText(ws)
  {
    if |ws| > 0 {
      RawOnly(ws[1..]);
    }
  }

  /** The value of a hexadecimal digit written by `HexDigit`. */
  function HexValue(c: char): Option<nat> {
    if '0' <= c <= '9' then Some(c as int - '0' as int)
    else if 'a' <= c <= 'f' then Some(c as int - 'a' as int + 10)
    else None
  }

  /** The character a two-character escape stands for. */
  function SimpleEscape(e: char): Option<char> {
    if e == '"' then Some('"') else if e == '\\' then Some('\\')
    else if e == 'b' then Some('\U{0008}') else if e == 't' then Some('\t')
    else if e == 'n' then Some('\n') else if e == 'f' then Some('\U{000C}')
    else if e == 'r' then Some('\r') else None
  }

  function Prepend(c: char, r: Option<string>): Option<string> {
    match r
    case Some(rest) => Some([c] + rest)
    case None => None
  }

  /** The inverse of `Escape`, as `JSON.parse` reads a string literal body
      (escapes of code points above U+00FF are outside this reader). */
  function Unescape(t: string): Option<string>
    decreases |t|
  {
    if |t| == 0 then Some("")
    else if t[0] != '\\' then Prepend(t[0], Unescape(t[1..]))
    else if |t| < 2 then None
    else if SimpleEscape(t[1]).Some? then Prepend(SimpleEscape(t[1]).value, Unescape(t[2..]))
    else if t[1] == 'u' && |t| >= 6 && t[2] == '0' && t[3] == '0'
            && HexValue(t[4]).Some? && HexValue(t[5]).Some? then
      Prepend((HexValue(t[4]).value * 16 + HexValue(t[5]).value) as char, Unescape(t[6..]))
    else None
  }

  lemma UnescapePlain(c: char, t: string)
    requires c != '\\'
    ensures Unescape([c] + t) == Prepend(c, Unescape(t))
  {
    assert ([c] + t)[1..] == t;
  }

  lemma UnescapeSimple(c: char, e: char, t: string)
    requires SimpleEscape(e) == Some(c)
    ensures Unescape(['\\', e] + t) == Prepend(c, Unescape(t))
  {
    assert (['\\', e] + t)[2..] == t;
  }

  lemma UnescapeControl(c: char, t: string)
    requires c < ' '
    ensures Unescape("\\u00" + [HexDigit(c as int / 16), HexDigit(c as int % 16)] + t) == Prepend(c, Unescape(t))
  {
    var e := "\\u00" + [HexDigit(c as int / 16), HexDigit(c as int % 16)] + t;
    assert e[6..] == t;
    assert HexValue(e[4]) == Some(c as int / 16);
    assert HexValue(e[5]) == Some(c as int % 16);
    assert SimpleEscape(e[1]) == None;
  }

  lemma EscapeCharThenRest(c: char, rest: string)
    ensures Unescape(EscapeChar(c) + Escape(rest)) == Prepend(c, Unescape(Escape(rest)))
  {
    var t := Escape(rest);
    if c == '"' {
      UnescapeSimple(c, '"', t);
    } else if c == '\\' {
      UnescapeSimple(c, '\\', t);
    } else if c == '\U{0008}' {
      UnescapeSimple(c, 'b', t);
    } else if c == '\t' {
      UnescapeSimple(c, 't', t);
    } else if c == '\n' {
      UnescapeSimple(c, 'n', t);
    } else if c == '\U{000C}' {
      UnescapeSimple(c, 'f', t);
    } else if c == '\r' {
      UnescapeSimple(c, 'r', t);
    } else if c < ' ' {
      UnescapeControl(c, t);
    } else {
      UnescapePlain(c, t);
    }
  }

  /** Reading an escaped string back yields the original: frames carry
      their stage and details text unaltered. */
  lemma {:induction false} EscapeRoundTrip(s: string)
    ensures Unescape(Escape(s)) == Some(s)
  {
    if |s| > 0 {
      EscapeRoundTrip(s[1..]);
      EscapeCharThenRest(s[0], s[1..]);
      assert [s[0]] + s[1..] == s;
    }
  }
}

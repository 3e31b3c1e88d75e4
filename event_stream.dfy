/** The text the streaming route writes: each piece of content as the JSON
    object `{"content": ...}` in a `data:` event of the Server-Sent Events
    format (section 9.2 of the WHATWG HTML Living Standard), and the final
    `data: [DONE]` event.

    `JSON.stringify` of a one-field object is written out for string values
    as section 25.5.2.3 (QuoteJSONString) of ECMA-262 defines it. Bytes are
    not modelled: a frame is the text that `TextEncoder` would encode. The
    decoder reads back the subset of the event-stream format that the route
    produces and is the partner of the encoder. */
module EventStream {
  import opened Basics

  /** The lower-case hexadecimal digit of `n`. */
  function HexDigit(n: nat): (c: char)
    requires n < 16
    ensures IsHexDigit(c) && HexValue(c) == n
  {
    if n < 10 then (48 + n) as char else (87 + n) as char
  }

  predicate IsHexDigit(c: char) {
    '0' <= c <= '9' || 'a' <= c <= 'f' || 'A' <= c <= 'F'
  }

  function HexValue(c: char): (n: nat)
    requires IsHexDigit(c)
    ensures n < 16
  {
    if '0' <= c <= '9' then c as int - 48
    else if 'a' <= c <= 'f' then c as int - 87
    else c as int - 55
  }

  /** QuoteJSONString's treatment of one code point. */
  function EscapeChar(c: char): (e: string)
    ensures |e| >= 1
    ensures '\n' !in e && '\r' !in e
  {
    match c
    case '"' => "\\\""
    case '\\' => "\\\\"
    case '\U{8}' => "\\b"
    case '\t' => "\\t"
    case '\n' => "\\n"
    case '\U{C}' => "\\f"
    case '\r' => "\\r"
    case _ =>
      if c < ' ' then "\\u00" + [HexDigit(c as int / 16), HexDigit(c as int % 16)]
      else [c]
  }

  /** The characters between the quotes of `JSON.stringify(s)`. */
  function Escape(s: string): (e: string)
    ensures |e| >= |s|
    ensures '\n' !in e && '\r' !in e
  {
    if s == [] then [] else EscapeChar(s[0]) + Escape(s[1..])
  }

  /** The value of a JSON string body (the text between its quotes), or
      `None` when it is not a valid one. Surrogate escapes are refused. */
  function Unescape(e: string): (r: Option<string>)
    decreases |e|
  {
    if e == [] then Some([])
    else if e[0] == '"' || e[0] < ' ' then None
    else if e[0] != '\\' then Prepend(e[0], Unescape(e[1..]))
    else if |e| < 2 then None
    else
      var k := e[1];
      if k == 'u' then
        if |e| < 6 || !IsHexDigit(e[2]) || !IsHexDigit(e[3]) || !IsHexDigit(e[4]) || !IsHexDigit(e[5]) then None
        else
          var v := HexValue(e[2]) * 4096 + HexValue(e[3]) * 256 + HexValue(e[4]) * 16 + HexValue(e[5]);
          if 0xD800 <= v < 0xE000 then None else Prepend(v as char, Unescape(e[6..]))
      else if k == '"' || k == '\\' || k == '/' then Prepend(k, Unescape(e[2..]))
      else if k == 'b' then Prepend('\U{8}', Unescape(e[2..]))
      else if k == 'f' then Prepend('\U{C}', Unescape(e[2..]))
      else if k == 'n' then Prepend('\n', Unescape(e[2..]))
      else if k == 'r' then Prepend('\r', Unescape(e[2..]))
      else if k == 't' then Prepend('\t', Unescape(e[2..]))
      else None
  }

  function Prepend(c: char, r: Option<string>): Option<string> {
    if r.Some? then Some([c] + r.value) else None
  }

  /** Reading one escaped character back gives the character and leaves the
      rest of the text to be read. */
  lemma UnescapeChar(c: char, t: string)
    ensures Unescape(EscapeChar(c) + t) == Prepend(c, Unescape(t))
  {
    if c == '"' || c == '\\' || c == '\U{8}' || c == '\t' || c == '\n' || c == '\U{C}' || c == '\r' {
      UnescapeShort(c, t);
    } else if c < ' ' {
      UnescapeControl(c, t);
    } else {
      var e := EscapeChar(c) + t;
      assert e[0] == c && e[1..] == t;
    }
  }

  lemma UnescapeShort(c: char, t: string)
    requires c == '"' || c == '\\' || c == '\U{8}' || c == '\t' || c == '\n' || c == '\U{C}' || c == '\r'
    ensures Unescape(EscapeChar(c) + t) == Prepend(c, Unescape(t))
  {
    var e := EscapeChar(c) + t;
    assert e[2..] == t;
  }

  /** The other control characters go through the six-character `\u00XX`
      form. */
  lemma UnescapeControl(c: char, t: string)
    requires c < ' ' && c != '\U{8}' && c != '\t' && c != '\n' && c != '\U{C}' && c != '\r'
    ensures Unescape(EscapeChar(c) + t) == Prepend(c, Unescape(t))
  {
    var e := EscapeChar(c) + t;
    var hi, lo := c as int / 16, c as int % 16;
    assert e == "\\u00" + [HexDigit(hi), HexDigit(lo)] + t;
    assert e[6..] == t;
    assert HexValue(e[4]) * 16 + HexValue(e[5]) == c as int;
  }

  /** Escaping round-trips: the JSON string body produced for `s` reads back
      as `s`. */
  lemma {:induction false} UnescapeEscape(s: string)
    ensures Unescape(Escape(s)) == Some(s)
  {
    if s != [] {
      UnescapeEscape(s[1..]);
      UnescapeChar(s[0], Escape(s[1..]));
      assert [s[0]] + s[1..] == s;
    }
  }

  const DataField := "data: "
  const PayloadHead := "{\"content\":\""
  const PayloadTail := "\"}"
  const DoneSentinel := "[DONE]"
  const DoneFrame := "data: [DONE]\n\n"

  /** `JSON.stringify({ content })` for a string `content`. */
  function Payload(content: string): (p: string)
    ensures '\n' !in p && '\r' !in p
    ensures p != DoneSentinel
  {
    var p := PayloadHead + Escape(content) + PayloadTail;
    assert p[0] == '{';
    p
  }

  /** The event carrying one piece of content. */
  function Frame(content: string): (f: string)
    ensures f == DataField + Payload(content) + "\n\n"
    ensures f != DoneFrame
  {
    var f := DataField + Payload(content) + "\n\n";
    assert f[6] == '{' && DoneFrame[6] == '[';
    f
  }

  function Frames(contents: seq<string>): (fs: seq<string>)
    ensures |fs| == |contents|
  {
    if contents == [] then [] else Frames(contents[..|contents| - 1]) + [Frame(contents[|contents| - 1])]
  }

  lemma {:induction false} FramesAt(contents: seq<string>, i: nat)
    requires i < |contents|
    ensures Frames(contents)[i] == Frame(contents[i])
  {
    if i < |contents| - 1 {
      FramesAt(contents[..|contents| - 1], i);
    }
  }

  lemma AppendAssoc<T>(a: seq<T>, b: seq<T>, c: seq<T>)
    ensures a + b + c == a + (b + c)
  {
  }

  lemma FramesSnoc(init: seq<string>, last: string)
    ensures Frames(init + [last]) == Frames(init) + [Frame(last)]
  {
    assert (init + [last])[..|init|] == init;
  }

  lemma {:induction false} FramesAppend(a: seq<string>, b: seq<string>)
    ensures Frames(a + b) == Frames(a) + Frames(b)
  {
    if b == [] {
      assert a + b == a;
    } else {
      var init, last := b[..|b| - 1], b[|b| - 1];
      assert b == init + [last];
      AppendAssoc(a, init, [last]);
      FramesAppend(a, init);
      FramesSnoc(a + init, last);
      FramesSnoc(init, last);
      AppendAssoc(Frames(a), Frames(init), [Frame(last)]);
    }
  }

  /** The response body: the frames one after another. */
  function Concat(frames: seq<string>): string {
    if frames == [] then [] else frames[0] + Concat(frames[1..])
  }

  lemma {:induction false} ConcatAppend(a: seq<string>, b: seq<string>)
    ensures Concat(a + b) == Concat(a) + Concat(b)
  {
    if a != [] {
      ConcatAppend(a[1..], b);
      assert (a + b)[1..] == a[1..] + b;
    } else {
      assert a + b == b;
    }
  }

  /** The index of the first line feed of `s`, or `|s|` when there is none. */
  function LineEnd(s: string): (k: nat)
    ensures k <= |s|
    ensures '\n' !in s[..k]
    ensures k < |s| ==> s[k] == '\n'
  {
    if s == [] || s[0] == '\n' then 0
    else
      var k := LineEnd(s[1..]) + 1;
      assert s[..k] == [s[0]] + s[1..][..k - 1];
      k
  }

  lemma LineEndAfter(p: string, t: string)
    requires '\n' !in p
    ensures LineEnd(p + "\n" + t) == |p|
  {
    var s := p + "\n" + t;
    assert s[|p|] == '\n';
    assert s[..|p|] == p;
  }

  /** One event of the form `data: <value>` followed by a blank line: its
      value and the text after it. */
  function NextEvent(s: string): Option<(string, string)> {
    if |s| < |DataField| || s[..|DataField|] != DataField then None
    else
      var line := s[|DataField|..];
      var k := LineEnd(line);
      if k + 2 <= |line| && line[k + 1] == '\n' then Some((line[..k], line[k + 2..])) else None
  }

  /** An event whose value has no line feed is read back whole, and
      reading stops right after its blank line. */
  lemma NextEventOf(v: string, t: string)
    requires '\n' !in v
    ensures NextEvent(DataField + v + "\n\n" + t) == Some((v, t))
  {
    var s := DataField + v + "\n\n" + t;
    assert s[..|DataField|] == DataField;
    var line := s[|DataField|..];
    assert line == v + "\n" + ("\n" + t);
    LineEndAfter(v, "\n" + t);
    assert line[|v| + 1] == '\n';
    assert line[..|v|] == v;
    assert line[|v| + 2..] == t;
  }

  lemma NextEventOfFrame(content: string, t: string)
    ensures NextEvent(Frame(content) + t) == Some((Payload(content), t))
  {
    NextEventOf(Payload(content), t);
  }

  lemma NextEventOfDone()
    ensures NextEvent(DoneFrame) == Some((DoneSentinel, ""))
  {
    assert DoneFrame == DataField + DoneSentinel + "\n\n" + "";
    NextEventOf(DoneSentinel, "");
  }

  /** The content carried by one event value, if it is a `{"content": ...}`
      object with a valid string. */
  function ParsePayload(p: string): Option<string> {
    var h, t := |PayloadHead|, |PayloadTail|;
    if |p| < h + t || p[..h] != PayloadHead || p[|p| - t..] != PayloadTail then None
    else Unescape(p[h..|p| - t])
  }

  lemma ParsePayloadOf(content: string)
    ensures ParsePayload(Payload(content)) == Some(content)
  {
    var e := Escape(content);
    var p := Payload(content);
    assert p[..|PayloadHead|] == PayloadHead;
    assert p[|p| - |PayloadTail|..] == PayloadTail;
    assert p[|PayloadHead|..|p| - |PayloadTail|] == e;
    UnescapeEscape(content);
  }

  /** What a reader of the body learns: the contents in order, and whether
      the `[DONE]` event ended the stream. */
  datatype Decoded = Decoded(contents: seq<string>, done: bool)

  /** A reader for bodies made of content events, optionally ended by the
      `[DONE]` event. */
  function DecodeStream(s: string): Option<Decoded>
    decreases |s|
  {
    if s == [] then Some(Decoded([], false))
    else
      match NextEvent(s)
      case None => None
      case Some((value, rest)) =>
        if value == DoneSentinel then (if rest == [] then Some(Decoded([], true)) else None)
        else if |rest| >= |s| then None
        else
          match ParsePayload(value)
          case None => None
          case Some(c) =>
            match DecodeStream(rest)
            case None => None
            case Some(d) => Some(Decoded([c] + d.contents, d.done))
  }

  /** A content event in front of a decodable body adds its content in
      front of what the body decodes to. */
  lemma DecodeFrameThen(c: string, rest: string, d: Decoded)
    requires DecodeStream(rest) == Some(d)
    ensures DecodeStream(Frame(c) + rest) == Some(Decoded([c] + d.contents, d.done))
  {
    NextEventOfFrame(c, rest);
    ParsePayloadOf(c);
  }

  lemma ConcatFramesCons(c: string, cs: seq<string>)
    ensures Concat(Frames([c] + cs)) == Frame(c) + Concat(Frames(cs))
  {
    var fcs := Frames(cs);
    FramesAppend([c], cs);
    assert Frames([c]) == [Frame(c)];
    assert ([Frame(c)] + fcs)[1..] == fcs;
  }

  /** Decoding the frames of `contents`, optionally followed by the `[DONE]`
      event, gives back `contents` and reports whether `[DONE]` was there. */
  lemma {:induction false} DecodeFrames(contents: seq<string>, done: bool)
    ensures DecodeStream(Concat(Frames(contents)) + (if done then DoneFrame else "")) == Some(Decoded(contents, done))
  {
    var tail := if done then DoneFrame else "";
    if contents == [] {
      assert Concat(Frames(contents)) + tail == tail;
      if done { NextEventOfDone(); }
    } else {
      var c, cs := contents[0], contents[1..];
      assert [c] + cs == contents;
      ConcatFramesCons(c, cs);
      var rest := Concat(Frames(cs)) + tail;
      AppendAssoc(Frame(c), Concat(Frames(cs)), tail);
      DecodeFrames(cs, done);
      DecodeFrameThen(c, rest, Decoded(cs, done));
    }
  }
}

/** Value-level helpers shared by every part of the model: optional values,
    results, and the few JavaScript string operations the application relies on
    (truthiness, `trim`, `includes`, `split`/`join`, `toLowerCase`, decimal
    rendering of a number). */
module Basics {

  datatype Option<+T> = None | Some(value: T)

  datatype Result<+T, +E> = Ok(value: T) | Err(error: E)

  /** JavaScript truthiness of a value that is either absent or a string:
      `undefined` and `''` are falsy, every other string is truthy. */
  predicate Truthy(s: Option<string>) {
    s.Some? && s.value != ""
  }

  /** `s || fallback` for an optional string. */
  function OrElse(s: Option<string>, fallback: string): (r: string)
    ensures Truthy(s) ==> r == s.value
    ensures !Truthy(s) ==> r == fallback
  {
    if Truthy(s) then s.value else fallback
  }

  /** `s ?? fallback`: only an absent value is replaced (a JavaScript default
      parameter or destructuring default behaves this way). */
  function Default<T>(s: Option<T>, fallback: T): T {
    match s
    case Some(v) => v
    case None => fallback
  }

  /** A caught JavaScript error: its `status` property (set by HTTP client
      libraries), its `message`, and what `String(error)` renders. */
  datatype Thrown = Thrown(status: Option<int>, message: string, text: string)

  // ---------------------------------------------------------------------------
  // String.prototype.trim

  /** The characters ECMAScript's `trim` removes: WhiteSpace (tab, vertical tab,
      form feed, byte order mark and every space separator) and LineTerminator. */
  predicate IsWhitespace(c: char) {
    c == '\t' || c == '\U{B}' || c == '\U{C}' || c == ' ' || c == '\U{A0}' ||
    c == '\U{FEFF}' || c == '\U{1680}' || ('\U{2000}' <= c <= '\U{200A}') ||
    c == '\U{202F}' || c == '\U{205F}' || c == '\U{3000}' ||
    c == '\n' || c == '\r' || c == '\U{2028}' || c == '\U{2029}'
  }

  /** A string made only of whitespace (the empty string included). */
  predicate IsBlank(s: string) {
    forall i :: 0 <= i < |s| ==> IsWhitespace(s[i])
  }

  function TrimStart(s: string): (r: string)
    ensures |r| <= |s| && r == s[|s| - |r|..]
    ensures r == [] || !IsWhitespace(r[0])
    ensures forall i :: 0 <= i < |s| - |r| ==> IsWhitespace(s[i])
    ensures r == [] <==> IsBlank(s)
  {
    if s != [] && IsWhitespace(s[0]) then TrimStart(s[1..]) else s
  }

  function TrimEnd(s: string): (r: string)
    ensures |r| <= |s| && r == s[..|r|]
    ensures r == [] || !IsWhitespace(r[|r| - 1])
    ensures forall i :: |r| <= i < |s| ==> IsWhitespace(s[i])
    ensures r == [] <==> IsBlank(s)
  {
    if s != [] && IsWhitespace(s[|s| - 1]) then TrimEnd(s[..|s| - 1]) else s
  }

  function Trim(s: string): string {
    TrimEnd(TrimStart(s))
  }

  /** `!s.trim()` holds exactly for the blank strings. */
  lemma {:induction false} TrimEmptyIffBlank(s: string)
    ensures Trim(s) == "" <==> IsBlank(s)
  {
    var t := TrimStart(s);
    assert IsBlank(t) <==> t == [];
  }
  /** `!s.trim()`: the text trims to nothing exactly when it is blank. */
  function TrimsToEmpty(s: string): (b: bool)
    ensures b <==> IsBlank(s)
  {
    TrimEmptyIffBlank(s);
    Trim(s) == ""
  }


  // ---------------------------------------------------------------------------
  // String.prototype.includes

  /** `sub` occurs in `s` starting at index `i`. */
  predicate OccursAt(s: string, sub: string, i: nat) {
    i + |sub| <= |s| && s[i..i + |sub|] == sub
  }

  /** `s.includes(sub)`, computed by sliding a window along `s`. */
  function Includes(s: string, sub: string): (b: bool)
    ensures b <==> exists i: nat :: OccursAt(s, sub, i)
    decreases |s|
  {
    if |s| < |sub| then false
    else if s[..|sub|] == sub then assert OccursAt(s, sub, 0); true
    else
      var b := Includes(s[1..], sub);
      assert b ==> exists i: nat :: OccursAt(s, sub, i) by {
        if b {
          var j: nat :| OccursAt(s[1..], sub, j);
          assert s[j + 1..j + 1 + |sub|] == s[1..][j..j + |sub|];
          assert OccursAt(s, sub, j + 1);
        }
      }
      assert (exists i: nat :: OccursAt(s, sub, i)) ==> b by {
        if exists i: nat :: OccursAt(s, sub, i) {
          var i: nat :| OccursAt(s, sub, i);
          assert i != 0;
          assert s[1..][i - 1..i - 1 + |sub|] == s[i..i + |sub|];
          assert OccursAt(s[1..], sub, i - 1);
        }
      }
      b
  }

  // ---------------------------------------------------------------------------
  // String.prototype.toLowerCase, ASCII letters only

  function LowerChar(c: char): char {
    if 'A' <= c <= 'Z' then (c as int + 32) as char else c
  }

  function LowerAscii(s: string): (r: string)
    ensures |r| == |s|
    ensures forall i :: 0 <= i < |s| ==> r[i] == LowerChar(s[i])
  {
    if s == [] then [] else [LowerChar(s[0])] + LowerAscii(s[1..])
  }

  // ---------------------------------------------------------------------------
  // String.prototype.split and Array.prototype.join with a one-character separator

  /** `s.split(sep)`: the pieces between occurrences of `sep`; always at least one
      piece, since `''.split(' ')` is `['']`. */
  function Split(s: string, sep: char): (r: seq<string>)
    ensures |r| >= 1
    ensures forall i :: 0 <= i < |r| ==> sep !in r[i]
  {
    if s == [] then [""]
    else
      var rest := Split(s[1..], sep);
      if s[0] == sep then [""] + rest
      else [[s[0]] + rest[0]] + rest[1..]
  }

  /** `parts.join(sep)`. */
  function Join(parts: seq<string>, sep: char): string {
    if |parts| == 0 then ""
    else if |parts| == 1 then parts[0]
    else parts[0] + [sep] + Join(parts[1..], sep)
  }

  lemma {:induction false} JoinSplit(s: string, sep: char)
    ensures Join(Split(s, sep), sep) == s
  {
    if s != [] {
      JoinSplit(s[1..], sep);
      var rest := Split(s[1..], sep);
      if s[0] == sep {
        assert Split(s, sep) == [""] + rest;
        assert ([""] + rest)[1..] == rest;
      } else {
        var parts := [[s[0]] + rest[0]] + rest[1..];
        assert Split(s, sep) == parts;
        if |rest| == 1 {
          assert Join(parts, sep) == [s[0]] + rest[0];
        } else {
          assert parts[1..] == rest[1..];
          assert Join(rest, sep) == rest[0] + [sep] + Join(rest[1..], sep);
          assert Join(parts, sep) == [s[0]] + rest[0] + [sep] + Join(rest[1..], sep);
        }
      }
    }
  }

  lemma {:induction false} SplitJoin(parts: seq<string>, sep: char)
    requires |parts| >= 1
    requires forall i :: 0 <= i < |parts| ==> sep !in parts[i]
    ensures Split(Join(parts, sep), sep) == parts
  {
    if |parts| == 1 {
      SplitWithoutSeparator(parts[0], sep);
    } else {
      var tail := Join(parts[1..], sep);
      SplitJoin(parts[1..], sep);
      SplitPrefix(parts[0], [sep] + tail, sep);
      assert ([sep] + tail)[1..] == tail;
      assert Join(parts, sep) == parts[0] + ([sep] + tail);
      assert ([sep] + tail)[0] == sep;
      var st := Split([sep] + tail, sep);
      assert st == [""] + parts[1..];
      assert st[0] == "" && st[1..] == parts[1..];
      assert parts[0] + st[0] == parts[0];
      assert [parts[0]] + parts[1..] == parts;
    }
  }

  lemma {:induction false} SplitWithoutSeparator(s: string, sep: char)
    requires sep !in s
    ensures Split(s, sep) == [s]
  {
    if s != [] {
      assert s[0] in s;
      assert forall c :: c in s[1..] ==> c in s;
      SplitWithoutSeparator(s[1..], sep);
      assert [s[0]] + s[1..] == s;
    }
  }

  /** Splitting `w + t`, where `w` has no separator, glues `w` onto the first piece of `t`. */
  lemma {:induction false} SplitPrefix(w: string, t: string, sep: char)
    requires sep !in w
    ensures var st := Split(t, sep);
      Split(w + t, sep) == [w + st[0]] + st[1..]
  {
    var st := Split(t, sep);
    if w != [] {
      assert w[0] in w;
      assert forall c :: c in w[1..] ==> c in w;
      SplitPrefix(w[1..], t, sep);
      assert (w + t)[1..] == w[1..] + t;
      assert (w + t)[0] == w[0];
      var rest := Split(w[1..] + t, sep);
      assert rest == [w[1..] + st[0]] + st[1..];
      assert rest[0] == w[1..] + st[0] && rest[1..] == st[1..];
      assert [w[0]] + (w[1..] + st[0]) == w + st[0];
    } else {
      assert w + t == t;
      assert w + st[0] == st[0];
      assert [st[0]] + st[1..] == st;
    }
  }

  /** Joining the first `k` pieces of a split yields a prefix of the string. */
  lemma {:induction false} JoinPrefixOfSplit(s: string, sep: char, k: nat)
    requires 1 <= k <= |Split(s, sep)|
    ensures var p := Join(Split(s, sep)[..k], sep); |p| <= |s| && p == s[..|p|]
  {
    var parts := Split(s, sep);
    JoinSplit(s, sep);
    JoinTakeIsPrefix(parts, sep, k);
  }

  lemma {:induction false} JoinTakeIsPrefix(parts: seq<string>, sep: char, k: nat)
    requires 1 <= k <= |parts|
    ensures var p := Join(parts[..k], sep); var q := Join(parts, sep);
      |p| <= |q| && p == q[..|p|]
  {
    if k < |parts| {
      if k == 1 {
        assert parts[..1] == [parts[0]];
      } else {
        JoinTakeIsPrefix(parts[1..], sep, k - 1);
        assert parts[..k][1..] == parts[1..][..k - 1];
        var p' := Join(parts[1..][..k - 1], sep);
        var q' := Join(parts[1..], sep);
        assert Join(parts[..k], sep) == parts[0] + [sep] + p';
        assert Join(parts, sep) == parts[0] + [sep] + q';
        assert (parts[0] + [sep] + q')[..|parts[0]| + 1 + |p'|] == parts[0] + [sep] + q'[..|p'|];
      }
    } else {
      assert parts[..k] == parts;
    }
  }

  // ---------------------------------------------------------------------------
  // Number.prototype.toString() for non-negative integers

  function DigitChar(d: nat): char
    requires d < 10
  {
    ('0' as int + d) as char
  }

  function NatToString(n: nat): (r: string)
    ensures |r| >= 1
    ensures forall i :: 0 <= i < |r| ==> '0' <= r[i] <= '9'
  {
    if n < 10 then [DigitChar(n)] else NatToString(n / 10) + [DigitChar(n % 10)]
  }

  // ---------------------------------------------------------------------------
  // UTF-16: what JavaScript's `length` and `charAt` count

  /** One UTF-16 code unit. */
  newtype CodeUnit = n: int | 0 <= n < 0x1_0000

  /** A character of the Basic Multilingual Plane, which takes one code unit. */
  predicate InBmp(c: char) {
    c as int < 0x1_0000
  }

  /** The code units of one character: the character itself inside the Basic
      Multilingual Plane, otherwise its surrogate pair, which decodes back to
      the character. */
  function CharUnits(c: char): (u: seq<CodeUnit>)
    ensures |u| == if InBmp(c) then 1 else 2
    ensures InBmp(c) ==> u[0] as int == c as int
    ensures !InBmp(c) ==> 0xD800 <= u[0] as int < 0xDC00 <= u[1] as int < 0xE000
    ensures !InBmp(c) ==> (u[0] as int - 0xD800) * 0x400 + (u[1] as int - 0xDC00) + 0x1_0000 == c as int
  {
    if InBmp(c) then [c as int as CodeUnit]
    else
      var v := c as int - 0x1_0000;
      assert v < 0x10_0000;
      [(0xD800 + v / 0x400) as CodeUnit, (0xDC00 + v % 0x400) as CodeUnit]
  }

  /** A string as JavaScript stores it: its UTF-16 code units, so that
      `s.length` is `|Utf16(s)|`. It is longer than the string exactly when
      some character lies outside the Basic Multilingual Plane. */
  function Utf16(s: string): (u: seq<CodeUnit>)
    ensures |u| >= |s|
    ensures |u| == |s| <==> forall i :: 0 <= i < |s| ==> InBmp(s[i])
  {
    if s == [] then []
    else
      var rest := Utf16(s[1..]);
      assert (forall i :: 0 <= i < |s| ==> InBmp(s[i])) <==>
             InBmp(s[0]) && forall i :: 0 <= i < |s[1..]| ==> InBmp(s[1..][i]) by {
        if forall i :: 0 <= i < |s[1..]| ==> InBmp(s[1..][i]) {
          forall i | 1 <= i < |s| ensures InBmp(s[i]) { assert s[i] == s[1..][i - 1]; }
        }
      }
      CharUnits(s[0]) + rest
  }
}

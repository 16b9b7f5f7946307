/** Reply lines of the vault helper (main.rs): a JSON string escaper with its exact length, against a
    reader of JSON strings (section 7 of RFC 8259). */
module VaultEscape {
  import opened Common
  import Utf8

  const HEX: string := "0123456789abcdef"

  // ---- Reading ----------------------------------------------------------------------------------

  function HexValue(c: char): Option<nat> {
    if '0' <= c <= '9' then Some(c as int - '0' as int)
    else if 'a' <= c <= 'f' then Some(c as int - 'a' as int + 10)
    else if 'A' <= c <= 'F' then Some(c as int - 'A' as int + 10)
    else None
  }

  /** Four hexadecimal digits. */
  function ReadHex(s: string): Option<nat> {
    if |s| < 4 then None else
    var a, b, c, d := HexValue(s[0]), HexValue(s[1]), HexValue(s[2]), HexValue(s[3]);
    if a.None? || b.None? || c.None? || d.None? then None
    else Some(((a.value * 16 + b.value) * 16 + c.value) * 16 + d.value)
  }

  function ShortForm(c: char): Option<char> {
    if c == '"' then Some('"')
    else if c == '\\' then Some('\\')
    else if c == '/' then Some('/')
    else if c == 'b' then Some(8 as char)
    else if c == 'f' then Some(12 as char)
    else if c == 'n' then Some('\n')
    else if c == 'r' then Some('\r')
    else if c == 't' then Some('\t')
    else None
  }

  /** One character of a string body, and what follows it. A character outside the basic plane is
      a pair of escapes. */
  function ReadChar(s: string): (r: Option<(char, string)>)
    ensures r.Some? ==> |r.value.1| < |s|
  {
    if s == "" || s[0] == '"' || s[0] < ' ' then None
    else if s[0] != '\\' then Some((s[0], s[1..]))
    else if |s| < 2 then None
    else if s[1] != 'u' then
      match ShortForm(s[1])
      case None => None
      case Some(c) => Some((c, s[2..]))
    else
      match ReadHex(s[2..])
      case None => None
      case Some(n) =>
        if n < 0xD800 || 0xE000 <= n < 0x1_0000 then Some((n as char, s[6..]))
        else if n < 0xDC00 && |s| >= 12 && s[6] == '\\' && s[7] == 'u' then
          match ReadHex(s[8..])
          case None => None
          case Some(low) =>
            var code := 0x1_0000 + (n - 0xD800) * 0x400 + (low - 0xDC00);
            if 0xDC00 <= low < 0xE000 && code < 0x11_0000 then Some((code as char, s[12..])) else None
        else None
  }

  /** A string body up to its closing quote, and what follows. */
  function ReadBody(s: string): Option<(string, string)>
    decreases |s|
  {
    if s != "" && s[0] == '"' then Some(("", s[1..])) else
    match ReadChar(s)
    case None => None
    case Some((c, rest)) =>
      match ReadBody(rest)
      case None => None
      case Some((value, after)) => Some(([c] + value, after))
  }

  function ReadString(s: string): Option<(string, string)> {
    if s != "" && s[0] == '"' then ReadBody(s[1..]) else None
  }

  // ---- Escaping ---------------------------------------------------------------------------------

  function EscapeChar(c: char): string {
    if c == '"' then ['\\', '"']
    else if c == '\\' then ['\\', '\\']
    else if c == 8 as char then ['\\', 'b']
    else if c == 12 as char then ['\\', 'f']
    else if c == '\n' then ['\\', 'n']
    else if c == '\r' then ['\\', 'r']
    else if c == '\t' then ['\\', 't']
    else if c < ' ' then ['\\', 'u', '0', '0', HEX[c as int / 16], HEX[c as int % 16]]
    else [c]
  }

  function Escape(value: string): string {
    if value == "" then "" else Escape(value[..|value| - 1]) + EscapeChar(value[|value| - 1])
  }

  function EscapedCharLen(c: char): nat {
    if c == '"' || c == '\\' || c == 8 as char || c == 12 as char || c == '\n' || c == '\r' || c == '\t' then 2
    else if c < ' ' then 6
    else Utf8.CharLen(c)
  }

  method EscapedLen(value: string) returns (n: nat)
    ensures n == Utf8.ByteLen(Escape(value))
  {
    n := 0;
    var i := 0;
    while i < |value|
      invariant i <= |value| && n == Utf8.ByteLen(Escape(value[..i]))
    {
      assert value[..i + 1][..i] == value[..i];
      EscapedCharIsExact(value[i]);
      BytesAdd(Escape(value[..i]), EscapeChar(value[i]));
      n := n + EscapedCharLen(value[i]);
      i := i + 1;
    }
    assert value[..i] == value;
  }

  /** Appends the body of a JSON string, character by character. */
  method EscapeInto(out: string, value: string) returns (r: string)
    ensures r == out + Escape(value)
  {
    hide EscapeChar;
    r := out;
    var i := 0;
    while i < |value|
      invariant i <= |value| && r == out + Escape(value[..i])
    {
      assert value[..i + 1][..i] == value[..i];
      ghost var before := Escape(value[..i]);
      r := PushEscaped(r, value[i]);
      assert r == out + (before + EscapeChar(value[i]));
      i := i + 1;
    }
    assert value[..i] == value;
  }

  method PushEscaped(out: string, c: char) returns (r: string)
    ensures r == out + EscapeChar(c)
  {
    if c == '"' {
      r := out + ['\\', '"'];
    } else if c == '\\' {
      r := out + ['\\', '\\'];
    } else if c == 8 as char {
      r := out + ['\\', 'b'];
    } else if c == 12 as char {
      r := out + ['\\', 'f'];
    } else if c == '\n' {
      r := out + ['\\', 'n'];
    } else if c == '\r' {
      r := out + ['\\', 'r'];
    } else if c == '\t' {
      r := out + ['\\', 't'];
    } else if c < ' ' {
      r := out + ['\\', 'u', '0', '0'];
      r := r + [HEX[c as int / 16]];
      r := r + [HEX[c as int % 16]];
    } else {
      r := out + [c];
    }
  }

  // ---- Length -----------------------------------------------------------------------------------

  lemma {:induction false} BytesAdd(a: string, b: string)
    ensures Utf8.ByteLen(a + b) == Utf8.ByteLen(a) + Utf8.ByteLen(b)
    decreases |a|
  {
    if a == "" {
      assert a + b == b;
    } else {
      BytesAdd(a[1..], b);
      assert (a + b)[1..] == a[1..] + b;
    }
  }

  lemma {:induction false} PlainBytes(s: string)
    requires forall i :: 0 <= i < |s| ==> s[i] as int < 0x80
    ensures Utf8.ByteLen(s) == |s|
    decreases |s|
  {
    if s != "" {
      PlainBytes(s[1..]);
    }
  }

  lemma HexIsPlain(i: nat)
    requires i < 16
    ensures HEX[i] as int < 0x80 && HexValue(HEX[i]) == Some(i) && HEX[i] >= ' '
  {
  }

  lemma EscapedCharIsExact(c: char)
    ensures Utf8.ByteLen(EscapeChar(c)) == EscapedCharLen(c)
  {
    if EscapedCharLen(c) == 2 && |EscapeChar(c)| == 2 {
      PlainBytes(EscapeChar(c));
    } else if c < ' ' {
      HexIsPlain(c as int / 16);
      HexIsPlain(c as int % 16);
      PlainBytes(EscapeChar(c));
    } else {
      assert EscapeChar(c) == [c] && [c][1..] == "";
    }
  }

  // ---- Reading back -----------------------------------------------------------------------------

  lemma CharReadsBack(c: char, rest: string)
    ensures ReadChar(EscapeChar(c) + rest) == Some((c, rest))
    ensures EscapeChar(c)[0] != '"'
  {
    var s := EscapeChar(c) + rest;
    assert s[|EscapeChar(c)|..] == rest;
    if c < ' ' && |EscapeChar(c)| == 6 {
      HexReadsBack(c as int, s[2..]);
      hide ReadHex;
    }
  }

  lemma HexReadsBack(n: nat, s: string)
    requires n < 256 && |s| >= 4 && s[..4] == ['0', '0', HEX[n / 16], HEX[n % 16]]
    ensures ReadHex(s) == Some(n)
  {
    HexIsPlain(n / 16);
    HexIsPlain(n % 16);
    assert s[0] == s[..4][0] && s[1] == s[..4][1] && s[2] == s[..4][2] && s[3] == s[..4][3];
  }

  /** Every string, escaped and quoted, reads back as itself, whatever comes after it in the line. */
  lemma {:induction false} BodyReadsBack(value: string, done: nat, rest: string)
    requires done <= |value|
    ensures ReadBody(EscapeFrom(value, done) + ['"'] + rest) == Some((value[done..], rest))
    decreases |value| - done
  {
    hide ReadChar, EscapeChar;
    var s := EscapeFrom(value, done) + ['"'] + rest;
    if done == |value| {
      assert value[done..] == "";
      assert s == ['"'] + rest && s[1..] == rest;
    } else {
      var next := EscapeFrom(value, done + 1) + ['"'] + rest;
      assert s == EscapeChar(value[done]) + next;
      CharReadsBack(value[done], next);
      BodyReadsBack(value, done + 1, rest);
      assert [value[done]] + value[done + 1..] == value[done..];
    }
  }

  /** The escaped characters from a position on. */
  function EscapeFrom(value: string, i: nat): string
    requires i <= |value|
    decreases |value| - i
  {
    if i == |value| then "" else EscapeChar(value[i]) + EscapeFrom(value, i + 1)
  }

  lemma {:induction false} EscapeSplits(value: string, i: nat)
    requires i <= |value|
    ensures Escape(value) == Escape(value[..i]) + EscapeFrom(value, i)
    decreases |value| - i
  {
    hide EscapeChar;
    if i == |value| {
      assert value[..i] == value;
      assert Escape(value) + "" == Escape(value);
    } else {
      EscapeSplits(value, i + 1);
      assert value[..i + 1][..i] == value[..i];
      var a, b, c := Escape(value[..i]), EscapeChar(value[i]), EscapeFrom(value, i + 1);
      assert (a + b) + c == a + (b + c);
    }
  }

  lemma StringReadsBack(value: string, rest: string)
    ensures ReadString(['"'] + Escape(value) + ['"'] + rest) == Some((value, rest))
  {
    hide EscapeFrom, EscapeChar, ReadChar, ReadBody;
    EscapeSplits(value, 0);
    assert value[..0] == "" && Escape("") == "";
    hide Escape;
    var s := ['"'] + Escape(value) + ['"'] + rest;
    assert s[1..] == EscapeFrom(value, 0) + ['"'] + rest;
    BodyReadsBack(value, 0, rest);
    assert value[0..] == value;
  }

  predicate OneLine(s: string) {
    forall i :: 0 <= i < |s| ==> s[i] >= ' '
  }

  lemma {:induction false} EscapeIsOneLine(value: string)
    ensures OneLine(Escape(value))
    decreases |value|
  {
    if value != "" {
      var before, c := value[..|value| - 1], value[|value| - 1];
      EscapeIsOneLine(before);
      CharIsOneLine(c);
      hide EscapeChar;
      assert Escape(value) == Escape(before) + EscapeChar(c);
      hide Escape;
    }
  }

  lemma CharIsOneLine(c: char)
    ensures OneLine(EscapeChar(c))
  {
    if c < ' ' {
      HexIsPlain(c as int / 16);
      HexIsPlain(c as int % 16);
    }
  }

  // ---- Lines ------------------------------------------------------------------------------------

  datatype Part = Raw(text: string) | Str(text: string)

  function PartText(part: Part): string {
    match part
    case Raw(text) => text
    case Str(text) => ['"'] + Escape(text) + ['"']
  }

  function LineOf(parts: seq<Part>): string {
    if parts == [] then "" else LineOf(parts[..|parts| - 1]) + PartText(parts[|parts| - 1])
  }

  /** A reply line built into a buffer sized up front; the buffer is exactly filled. */
  method JsonLine(parts: seq<Part>) returns (line: string, capacity: nat)
    ensures line == LineOf(parts)
    ensures Utf8.ByteLen(line) == capacity
  {
    hide PartText;
    capacity := LineLength(parts);
    line := "";
    var i := 0;
    while i < |parts|
      invariant i <= |parts| && line == LineOf(parts[..i])
      invariant Utf8.ByteLen(line) <= capacity
    {
      assert parts[..i + 1][..i] == parts[..i];
      line := PushPart(line, parts[i]);
      PrefixFits(parts, i + 1);
      i := i + 1;
    }
    assert parts[..i] == parts;
  }

  method PushPart(line: string, part: Part) returns (r: string)
    ensures r == line + PartText(part)
  {
    hide Escape;
    match part
    case Raw(text) => r := line + text;
    case Str(text) =>
      r := line + ['"'];
      r := EscapeInto(r, text);
      r := r + ['"'];
  }

  method LineLength(parts: seq<Part>) returns (n: nat)
    ensures n == Utf8.ByteLen(LineOf(parts))
  {
    n := 0;
    var i := 0;
    while i < |parts|
      invariant i <= |parts| && n == Utf8.ByteLen(LineOf(parts[..i]))
    {
      assert parts[..i + 1][..i] == parts[..i];
      BytesAdd(LineOf(parts[..i]), PartText(parts[i]));
      match parts[i] {
        case Raw(text) => n := n + Utf8.ByteLen(text);
        case Str(text) =>
          var length := EscapedLen(text);
          QuotedLength(text);
          n := n + (length + 2);
      }
      i := i + 1;
    }
    assert parts[..i] == parts;
  }

  lemma QuotedLength(text: string)
    ensures Utf8.ByteLen(['"'] + Escape(text) + ['"']) == Utf8.ByteLen(Escape(text)) + 2
  {
    BytesAdd(['"'] + Escape(text), ['"']);
    BytesAdd(['"'], Escape(text));
    assert ['"'][1..] == "";
  }

  lemma {:induction false} PrefixFits(parts: seq<Part>, i: nat)
    requires i <= |parts|
    ensures Utf8.ByteLen(LineOf(parts[..i])) <= Utf8.ByteLen(LineOf(parts))
    decreases |parts|
  {
    if i == |parts| {
      assert parts[..i] == parts;
    } else {
      PrefixFits(parts[..|parts| - 1], i);
      assert parts[..|parts| - 1][..i] == parts[..i];
      BytesAdd(LineOf(parts[..|parts| - 1]), PartText(parts[|parts| - 1]));
    }
  }

  /** A reply whose raw parts hold no line break is one line, whatever the strings in it hold. */
  lemma {:induction false} LineIsOneLine(parts: seq<Part>)
    requires forall i :: 0 <= i < |parts| && parts[i].Raw? ==> OneLine(parts[i].text)
    ensures OneLine(LineOf(parts))
    decreases |parts|
  {
    if parts != [] {
      LineIsOneLine(parts[..|parts| - 1]);
      PartIsOneLine(parts[|parts| - 1]);
      hide PartText;
    }
  }

  lemma PartIsOneLine(part: Part)
    requires part.Raw? ==> OneLine(part.text)
    ensures OneLine(PartText(part))
  {
    hide Escape;
    if part.Str? {
      EscapeIsOneLine(part.text);
    }
  }

  /** Every string in a line can be read back from it where it stands. */
  lemma {:induction false} PartReadsBack(parts: seq<Part>, k: nat)
    requires k < |parts| && parts[k].Str?
    ensures var at := |LineOf(parts[..k])|;
            at <= |LineOf(parts)| && ReadString(LineOf(parts)[at..]).Some?
            && ReadString(LineOf(parts)[at..]).value.0 == parts[k].text
    decreases |parts|
  {
    hide ReadString, Escape;
    LineSplits(parts, k);
    var at := |LineOf(parts[..k])|;
    var after := LineFrom(parts, k + 1);
    assert LineOf(parts)[at..] == ['"'] + Escape(parts[k].text) + ['"'] + after;
    StringReadsBack(parts[k].text, after);
  }

  function LineFrom(parts: seq<Part>, k: nat): string
    requires k <= |parts|
    decreases |parts| - k
  {
    if k == |parts| then "" else PartText(parts[k]) + LineFrom(parts, k + 1)
  }

  lemma {:induction false} LineSplits(parts: seq<Part>, k: nat)
    requires k <= |parts|
    ensures LineOf(parts) == LineOf(parts[..k]) + LineFrom(parts, k)
    decreases |parts| - k
  {
    hide PartText;
    if k == |parts| {
      assert parts[..k] == parts;
      assert LineOf(parts) + "" == LineOf(parts);
    } else {
      LineSplits(parts, k + 1);
      assert parts[..k + 1][..k] == parts[..k];
      var a, b, c := LineOf(parts[..k]), PartText(parts[k]), LineFrom(parts, k + 1);
      assert (a + b) + c == a + (b + c);
    }
  }
}

/** Numbers of four bytes and strings with their length in front (section 5 of RFC 4251). */
module WireStrings {
  import opened Common

  function Ascii(s: string): (b: Bytes)
    requires forall i :: 0 <= i < |s| ==> s[i] as int < 128
    ensures |b| == |s| && forall i :: 0 <= i < |s| ==> b[i] == s[i] as int
  {
    seq(|s|, i requires 0 <= i < |s| => s[i] as int)
  }

  function EncodeU32(n: nat): (b: Bytes)
    requires n <= U32_MAX
    ensures |b| == 4
  {
    [n / 0x100 / 0x100 / 0x100, n / 0x100 / 0x100 % 0x100, n / 0x100 % 0x100, n % 0x100]
  }

  function ReadU32(b: Bytes): nat
    requires |b| >= 4
  {
    ((b[0] as int * 0x100 + b[1]) * 0x100 + b[2]) * 0x100 + b[3]
  }

  function EncodeString(s: Bytes): (b: Bytes)
    requires |s| <= U32_MAX
    ensures |b| == 4 + |s|
  {
    EncodeU32(|s|) + s
  }

  function DecodeU8(b: Bytes): Option<(byte, Bytes)> {
    if b == [] then None else Some((b[0], b[1..]))
  }

  function DecodeU32(b: Bytes): Option<(nat, Bytes)> {
    if |b| < 4 then None else Some((ReadU32(b), b[4..]))
  }

  function DecodeString(b: Bytes): Option<(Bytes, Bytes)> {
    if |b| < 4 || ReadU32(b) > |b| - 4 then None
    else Some((b[4..4 + ReadU32(b)], b[4 + ReadU32(b)..]))
  }

  lemma U32RoundTrip(n: nat, rest: Bytes)
    requires n <= U32_MAX
    ensures ReadU32(EncodeU32(n) + rest) == n
  {
  }

  lemma U32OnlyEncoding(b: Bytes)
    requires |b| >= 4
    ensures ReadU32(b) <= U32_MAX && EncodeU32(ReadU32(b)) == b[..4]
  {
  }

  lemma StringRoundTrip(s: Bytes, rest: Bytes)
    requires |s| <= U32_MAX
    ensures DecodeString(EncodeString(s) + rest) == Some((s, rest))
  {
    var b := EncodeString(s) + rest;
    assert b == EncodeU32(|s|) + (s + rest);
    U32RoundTrip(|s|, s + rest);
    assert b[4..4 + |s|] == s;
    assert b[4 + |s|..] == rest;
  }

  lemma StringOnlyEncoding(b: Bytes)
    requires DecodeString(b).Some?
    ensures var (s, rest) := DecodeString(b).value;
            |s| <= U32_MAX && b == EncodeString(s) + rest
  {
    U32OnlyEncoding(b);
    var (s, rest) := DecodeString(b).value;
    assert b == b[..4] + (s + rest);
  }
}

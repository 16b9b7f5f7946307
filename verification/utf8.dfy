/** UTF-8 (RFC 3629), strictly: the bytes of text, and the text of bytes that have one. */
module Utf8 {
  import opened Common

  /** How many bytes a character takes, `char::len_utf8`. */
  function CharLen(c: char): nat {
    var n := c as int;
    if n < 0x80 then 1 else if n < 0x800 then 2 else if n < 0x1_0000 then 3 else 4
  }

  /** Six bits at a time, the low ones last. */
  function EncodeChar(c: char): (b: Bytes)
    ensures |b| == CharLen(c)
  {
    var n := c as int;
    var n1 := n / 0x40;
    var n2 := n1 / 0x40;
    if n < 0x80 then [n]
    else if n < 0x800 then [0xC0 + n1, 0x80 + n % 0x40]
    else if n < 0x1_0000 then [0xE0 + n2, 0x80 + n1 % 0x40, 0x80 + n % 0x40]
    else [0xF0 + n2 / 0x40, 0x80 + n2 % 0x40, 0x80 + n1 % 0x40, 0x80 + n % 0x40]
  }

  function Encode(s: string): Bytes {
    if s == [] then [] else EncodeChar(s[0]) + Encode(s[1..])
  }

  function ByteLen(s: string): nat {
    if s == [] then 0 else CharLen(s[0]) + ByteLen(s[1..])
  }

  lemma {:induction false} EncodeLength(s: string)
    ensures |Encode(s)| == ByteLen(s)
    decreases |s|
  {
    if s != [] {
      EncodeLength(s[1..]);
    }
  }

  predicate Continuation(b: byte) {
    0x80 <= b < 0xC0
  }

  predicate Scalar(n: int) {
    0 <= n < 0xD800 || 0xE000 <= n < 0x11_0000
  }

  /** What a lead byte's payload and one more continuation byte stand for. */
  function Push(high: int, low: byte): int {
    high * 0x40 + (low as int - 0x80)
  }

  /** The first character and what follows it; shortest forms only, and no surrogate. */
  function DecodeChar(b: Bytes): Option<(char, Bytes)> {
    if b == [] then None
    else if b[0] < 0x80 then Some((b[0] as char, b[1..]))
    else if 0xC2 <= b[0] < 0xE0 && |b| >= 2 && Continuation(b[1]) then
      Some((Push(b[0] - 0xC0, b[1]) as char, b[2..]))
    else if 0xE0 <= b[0] < 0xF0 && |b| >= 3 && Continuation(b[1]) && Continuation(b[2]) then
      var n := Push(Push(b[0] - 0xE0, b[1]), b[2]);
      if n >= 0x800 && Scalar(n) then Some((n as char, b[3..])) else None
    else if 0xF0 <= b[0] < 0xF8 && |b| >= 4 && Continuation(b[1]) && Continuation(b[2]) && Continuation(b[3]) then
      var n := Push(Push(Push(b[0] - 0xF0, b[1]), b[2]), b[3]);
      if n >= 0x1_0000 && Scalar(n) then Some((n as char, b[4..])) else None
    else None
  }

  lemma DecodeShorter(b: Bytes)
    ensures DecodeChar(b).Some? ==> |DecodeChar(b).value.1| < |b|
  {
  }

  function Decode(b: Bytes): Option<string>
    decreases |b|
  {
    if b == [] then Some([]) else
    DecodeShorter(b);
    match DecodeChar(b)
    case None => None
    case Some((c, rest)) =>
      match Decode(rest)
      case None => None
      case Some(s) => Some([c] + s)
  }

  lemma PushSplits(n: int)
    requires n >= 0
    ensures 0x80 <= 0x80 + n % 0x40 < 0xC0 && Push(n / 0x40, 0x80 + n % 0x40) == n
  {
  }

  lemma SplitPushes(high: int, low: byte)
    requires Continuation(low)
    ensures Push(high, low) / 0x40 == high && 0x80 + Push(high, low) % 0x40 == low
  {
  }

  lemma CharRoundTrip(c: char, rest: Bytes)
    ensures DecodeChar(EncodeChar(c) + rest) == Some((c, rest))
  {
    var b := EncodeChar(c) + rest;
    var n := c as int;
    assert b[|EncodeChar(c)|..] == rest;
    PushSplits(n);
    PushSplits(n / 0x40);
    PushSplits(n / 0x40 / 0x40);
    hide Push;
  }

  lemma CharOnlyEncoding(b: Bytes)
    requires DecodeChar(b).Some?
    ensures b == EncodeChar(DecodeChar(b).value.0) + DecodeChar(b).value.1
  {
    if b[0] < 0x80 {
      assert b == [b[0]] + b[1..];
    } else if b[0] < 0xE0 {
      SplitPushes(b[0] - 0xC0, b[1]);
      assert b == [b[0], b[1]] + b[2..];
    } else if b[0] < 0xF0 {
      var n1 := Push(b[0] - 0xE0, b[1]);
      SplitPushes(b[0] - 0xE0, b[1]);
      SplitPushes(n1, b[2]);
      assert b == [b[0], b[1], b[2]] + b[3..];
    } else {
      var n2 := Push(b[0] - 0xF0, b[1]);
      var n1 := Push(n2, b[2]);
      SplitPushes(b[0] - 0xF0, b[1]);
      SplitPushes(n2, b[2]);
      SplitPushes(n1, b[3]);
      assert b == [b[0], b[1], b[2], b[3]] + b[4..];
    }
  }

  lemma {:induction false} RoundTrip(s: string)
    ensures Decode(Encode(s)) == Some(s)
    decreases |s|
  {
    if s != [] {
      CharRoundTrip(s[0], Encode(s[1..]));
      RoundTrip(s[1..]);
      assert [s[0]] + s[1..] == s;
    }
  }

  lemma {:induction false} OnlyEncoding(b: Bytes)
    ensures Decode(b).Some? ==> Encode(Decode(b).value) == b
    decreases |b|
  {
    if b != [] && Decode(b).Some? {
      DecodeShorter(b);
      CharOnlyEncoding(b);
      var (c, rest) := DecodeChar(b).value;
      OnlyEncoding(rest);
      assert Decode(b).value == [c] + Decode(rest).value;
      assert Decode(b).value[1..] == Decode(rest).value;
    }
  }

  /** Text and its bytes determine each other. */
  lemma EncodeInjective(s: string, t: string)
    requires Encode(s) == Encode(t)
    ensures s == t
  {
    RoundTrip(s);
    RoundTrip(t);
  }

  // ---- Cutting text -----------------------------------------------------------------------------

  /** As many characters from the front as fit a number of bytes. */
  function Fitting(s: string, room: nat): string {
    if s == "" || CharLen(s[0]) > room then "" else [s[0]] + Fitting(s[1..], room - CharLen(s[0]))
  }

  /** It is the longest prefix that fits. */
  lemma {:induction false} FittingIsLongest(s: string, room: nat, n: nat)
    requires n <= |s|
    ensures |Fitting(s, room)| <= |s| && Fitting(s, room) == s[..|Fitting(s, room)|]
    ensures ByteLen(s[..n]) <= room <==> n <= |Fitting(s, room)|
    decreases |s|
  {
    assert s[..0] == "";
    if s != "" {
      assert n > 0 ==> s[..n][0] == s[0] && s[..n][1..] == s[1..][..n - 1];
      if CharLen(s[0]) <= room {
        FittingIsLongest(s[1..], room - CharLen(s[0]), if n > 0 then n - 1 else 0);
        var rest := Fitting(s[1..], room - CharLen(s[0]));
        assert Fitting(s, room) == [s[0]] + rest && s[..1 + |rest|] == [s[0]] + s[1..][..|rest|];
      }
    }
  }

  /** Where a character begins, or the end. */
  predicate Boundary(b: Bytes, i: nat)
    requires i <= |b|
  {
    i == |b| || !Continuation(b[i])
  }

  lemma CharBoundaries(c: char, i: nat)
    requires i < CharLen(c)
    ensures Continuation(EncodeChar(c)[i]) <==> i > 0
  {
  }

  lemma {:induction false} FittingEndsAtBoundary(s: string, room: nat)
    requires room < |Encode(s)|
    ensures var end := |Encode(Fitting(s, room))|;
            && end <= room && Encode(Fitting(s, room)) == Encode(s)[..end] && Boundary(Encode(s), end)
            && forall i :: end < i <= room ==> !Boundary(Encode(s), i)
    decreases |s|
  {
    hide EncodeChar, Continuation;
    var head, tail := EncodeChar(s[0]), Encode(s[1..]);
    assert Encode(s) == head + tail;
    CharBoundaries(s[0], 0);
    if CharLen(s[0]) > room {
      forall i | 0 < i <= room
        ensures !Boundary(Encode(s), i)
      {
        CharBoundaries(s[0], i);
        assert Encode(s)[i] == head[i];
      }
    } else {
      var rest := Fitting(s[1..], room - CharLen(s[0]));
      FittingEndsAtBoundary(s[1..], room - CharLen(s[0]));
      assert ([s[0]] + rest)[1..] == rest;
      var end := |Encode(rest)|;
      assert Encode(s)[..|head| + end] == head + tail[..end];
      assert Encode(s)[|head| + end] == tail[end];
      forall i | |head| + end < i <= room
        ensures !Boundary(Encode(s), i)
      {
        assert Encode(s)[i] == tail[i - |head|] && !Boundary(tail, i - |head|);
      }
    }
  }

  /** Cuts text that is too long, back from the limit to where a character begins. */
  method Truncate(s: string, limit: nat) returns (r: string)
    ensures r == Fitting(s, limit)
  {
    var bytes := Encode(s);
    if |bytes| <= limit {
      EncodeLength(s);
      FittingIsLongest(s, limit, |s|);
      assert s[..|s|] == s;
      return s;
    }
    FittingEndsAtBoundary(s, limit);
    ghost var fitting := |Encode(Fitting(s, limit))|;
    var end := limit;
    while end > 0 && !Boundary(bytes, end)
      invariant fitting <= end <= limit
    {
      end := end - 1;
    }
    assert end == fitting;
    RoundTrip(Fitting(s, limit));
    r := Decode(bytes[..end]).value;
  }
}

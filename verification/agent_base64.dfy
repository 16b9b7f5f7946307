/** Strict base64 (load.rs): section 4 of RFC 4648, canonical as its section 3.5 allows. */
module Base64 {
  import opened Common

  const PAD: byte := 61

  function Sextet(b: byte): Option<nat> {
    if 65 <= b <= 90 then Some(b - 65)
    else if 97 <= b <= 122 then Some(b - 97 + 26)
    else if 48 <= b <= 57 then Some(b - 48 + 52)
    else if b == 43 then Some(62)
    else if b == 47 then Some(63)
    else None
  }

  /** The character of a sextet. */
  function Symbol(n: nat): byte
    requires n < 64
  {
    if n < 26 then 65 + n
    else if n < 52 then 97 + n - 26
    else if n < 62 then 48 + n - 52
    else if n == 62 then 43
    else 47
  }

  lemma SymbolRoundTrip(n: nat)
    requires n < 64
    ensures Sextet(Symbol(n)) == Some(n) && Symbol(n) != PAD
  {
  }

  lemma SextetOnlySymbol(b: byte)
    requires Sextet(b).Some?
    ensures Sextet(b).value < 64 && Symbol(Sextet(b).value) == b && b != PAD
  {
  }

  // ---- The canonical encoding -------------------------------------------------------------------

  /** Four characters for 24 bits. */
  function Quad(n: nat): (text: Bytes)
    requires n < 0x100_0000
    ensures |text| == 4
  {
    [Symbol(n / 64 / 64 / 64), Symbol(n / 64 / 64 % 64), Symbol(n / 64 % 64), Symbol(n % 64)]
  }

  function Number(a: byte, b: byte, c: byte): (n: nat)
    ensures n < 0x100_0000
  {
    (a as int * 0x100 + b) * 0x100 + c
  }

  /** One to three bytes as a 24-bit number, missing ones zero. */
  function Padded(b: Bytes): (n: nat)
    requires 1 <= |b| <= 3
    ensures n < 0x100_0000
  {
    Number(b[0], if |b| > 1 then b[1] else 0, if |b| > 2 then b[2] else 0)
  }

  /** One to three bytes as four characters, padded at the end. */
  function Group(b: Bytes): (text: Bytes)
    requires 1 <= |b| <= 3
    ensures |text| == 4
  {
    Quad(Padded(b))[..|b| + 1] + [PAD, PAD][..3 - |b|]
  }

  function Encode(bytes: Bytes): Bytes {
    if bytes == [] then []
    else if |bytes| <= 3 then Group(bytes)
    else Group(bytes[..3]) + Encode(bytes[3..])
  }

  lemma {:induction false} EncodeLength(bytes: Bytes)
    ensures |Encode(bytes)| == 4 * ((|bytes| + 2) / 3)
    decreases |bytes|
  {
    hide Group;
    if |bytes| > 3 {
      EncodeLength(bytes[3..]);
    }
  }

  // ---- Decoding ---------------------------------------------------------------------------------

  /** Trailing padding characters of a group. */
  function Padding(group: Bytes): (p: nat)
    requires |group| == 4
    ensures p <= 4
    ensures forall i :: 4 - p <= i < 4 ==> group[i] == PAD
    ensures p < 4 ==> group[3 - p] != PAD
  {
    if group[3] != PAD then 0
    else if group[2] != PAD then 1
    else if group[1] != PAD then 2
    else if group[0] != PAD then 3
    else 4
  }

  /** The sextets of a run of characters as one number, if they are all in the alphabet. */
  function Bits(chars: Bytes): Option<nat> {
    if chars == [] then Some(0) else
    var last := Sextet(chars[|chars| - 1]);
    match Bits(chars[..|chars| - 1])
    case None => None
    case Some(high) => if last.None? then None else Some(high * 64 + last.value)
  }

  function Power64(p: nat): nat {
    if p == 0 then 1 else 64 * Power64(p - 1)
  }

  /** The bytes of one group: three, or fewer when it is padded and the bits left over are zero. */
  function DecodeGroup(group: Bytes): Option<Bytes>
    requires |group| == 4
  {
    var padding := Padding(group);
    if padding > 2 then None else
    match Bits(group[..4 - padding])
    case None => None
    case Some(bits) =>
      Kept(bits * Power64(padding), padding)
  }

  /** The leading bytes of a 24-bit number, if the dropped ones are zero. */
  function Kept(n: nat, padding: nat): Option<Bytes>
    requires padding <= 2
  {
    var b := [n / 0x100 / 0x100 % 0x100, n / 0x100 % 0x100, n % 0x100];
    if exists i :: 3 - padding <= i < 3 && b[i] != 0 then None else Some(b[..3 - padding])
  }

  function Joined(bytes: Bytes, rest: Option<Bytes>): Option<Bytes> {
    match rest
    case None => None
    case Some(r) => Some(bytes + r)
  }

  lemma JoinedNext(bytes: Bytes, part: Bytes, rest: Option<Bytes>)
    ensures Joined([], rest) == rest
    ensures Joined(bytes, Joined(part, rest)) == Joined(bytes + part, rest)
  {
    if rest.Some? {
      assert [] + rest.value == rest.value;
      assert bytes + (part + rest.value) == bytes + part + rest.value;
    }
  }

  /** The groups in order; only the last may be padded. */
  function DecodeGroups(text: Bytes): Option<Bytes>
    requires |text| % 4 == 0
    decreases |text|
  {
    if text == [] then Some([]) else
    match DecodeGroup(text[..4])
    case None => None
    case Some(b) =>
      if |b| < 3 && |text| > 4 then None else Joined(b, DecodeGroups(text[4..]))
  }

  function Decoded(text: Bytes): Option<Bytes> {
    if text == [] || |text| % 4 != 0 then None else DecodeGroups(text)
  }

  /** The sextets of a run of characters, shifted in one at a time. */
  method ReadBits(chars: Bytes) returns (bits: Option<nat>)
    ensures bits == Bits(chars)
  {
    hide Sextet;
    var n, i := 0, 0;
    while i < |chars|
      invariant i <= |chars| && Bits(chars[..i]) == Some(n)
    {
      assert chars[..i + 1][..i] == chars[..i];
      var s := Sextet(chars[i]);
      if s.None? {
        NoBits(chars, i);
        return None;
      }
      n := n * 64 + s.value;
      i := i + 1;
    }
    assert chars[..i] == chars;
    return Some(n);
  }

  method CountPadding(group: Bytes) returns (padding: nat)
    requires |group| == 4
    ensures padding == Padding(group)
  {
    padding := 0;
    while padding < 4 && group[3 - padding] == PAD
      invariant padding <= 4 && forall i :: 4 - padding <= i < 4 ==> group[i] == PAD
    {
      padding := padding + 1;
    }
  }

  /** A group that is not the last one must be whole. */
  function Placed(bytes: Option<Bytes>, isLast: bool): Option<Bytes> {
    if bytes.Some? && |bytes.value| < 3 && !isLast then None else bytes
  }

  method ReadGroup(group: Bytes, isLast: bool) returns (bytes: Option<Bytes>)
    requires |group| == 4
    ensures bytes == Placed(DecodeGroup(group), isLast)
  {
    hide Sextet, Bits;
    var padding := CountPadding(group);
    if padding > 2 || (padding > 0 && !isLast) {
      return None;
    }
    var chars := ReadBits(group[..4 - padding]);
    if chars.None? {
      return None;
    }
    var bits := chars.value * Power64(padding);
    var b := [bits / 0x100 / 0x100 % 0x100, bits / 0x100 % 0x100, bits % 0x100];
    var count := 3 - padding;
    if exists j :: count <= j < 3 && b[j] != 0 {
      return None;
    }
    return Some(b[..count]);
  }

  lemma {:induction false} NoBits(chars: Bytes, i: nat)
    requires i < |chars| && Sextet(chars[i]).None?
    ensures Bits(chars).None?
    decreases |chars|
  {
    if i < |chars| - 1 {
      NoBits(chars[..|chars| - 1], i);
    }
  }

  method DecodeText(encoded: Bytes) returns (out: Option<Bytes>)
    ensures out == Decoded(encoded)
  {
    hide DecodeGroup;
    if encoded == [] || |encoded| % 4 != 0 {
      return None;
    }
    var bytes: Bytes := [];
    var last := |encoded| / 4 - 1;
    var index := 0;
    assert encoded[4 * index..] == encoded;
    JoinedNext([], [], DecodeGroups(encoded));
    while index <= last
      invariant index <= last + 1
      invariant Joined(bytes, DecodeGroups(encoded[4 * index..])) == DecodeGroups(encoded)
    {
      var rest := encoded[4 * index..];
      var group := rest[..4];
      assert rest[4..] == encoded[4 * (index + 1)..];
      var part := ReadGroup(group, index == last);
      if part.None? {
        return None;
      }
      JoinedNext(bytes, part.value, DecodeGroups(rest[4..]));
      bytes := bytes + part.value;
      index := index + 1;
    }
    assert encoded[4 * index..] == [];
    assert bytes + [] == bytes;
    return Some(bytes);
  }

  // ---- One text for each value ------------------------------------------------------------------

  lemma BitsOf4(c: Bytes)
    requires |c| == 4 && forall i :: 0 <= i < 4 ==> Sextet(c[i]).Some?
    ensures Bits(c) ==
            Some(((Sextet(c[0]).value * 64 + Sextet(c[1]).value) * 64 + Sextet(c[2]).value) * 64 + Sextet(c[3]).value)
  {
    hide Sextet;
    var c3, c2, c1 := c[..3], c[..2], c[..1];
    assert c3[..2] == c2 && c2[..1] == c1 && c1[..0] == [];
    assert Bits(c1) == Some(Sextet(c[0]).value);
    assert Bits(c2) == Some(Sextet(c[0]).value * 64 + Sextet(c[1]).value);
    assert Bits(c3) == Some((Sextet(c[0]).value * 64 + Sextet(c[1]).value) * 64 + Sextet(c[2]).value);
  }

  lemma BitsOf3(c: Bytes)
    requires |c| == 3 && forall i :: 0 <= i < 3 ==> Sextet(c[i]).Some?
    ensures Bits(c) == Some((Sextet(c[0]).value * 64 + Sextet(c[1]).value) * 64 + Sextet(c[2]).value)
  {
    hide Sextet;
    var c2, c1 := c[..2], c[..1];
    assert c2[..1] == c1 && c1[..0] == [];
    assert Bits(c1) == Some(Sextet(c[0]).value);
    assert Bits(c2) == Some(Sextet(c[0]).value * 64 + Sextet(c[1]).value);
  }

  lemma BitsOf2(c: Bytes)
    requires |c| == 2 && forall i :: 0 <= i < 2 ==> Sextet(c[i]).Some?
    ensures Bits(c) == Some(Sextet(c[0]).value * 64 + Sextet(c[1]).value)
  {
    hide Sextet;
    var c1 := c[..1];
    assert c1[..0] == [];
    assert Bits(c1) == Some(Sextet(c[0]).value);
  }

  /** A number of four sextets splits back into them. */
  lemma QuadSplits(s0: nat, s1: nat, s2: nat, s3: nat)
    requires s0 < 64 && s1 < 64 && s2 < 64 && s3 < 64
    ensures
      var n := ((s0 * 64 + s1) * 64 + s2) * 64 + s3;
      && n < 0x100_0000
      && n / 64 / 64 / 64 == s0 && n / 64 / 64 % 64 == s1 && n / 64 % 64 == s2 && n % 64 == s3
  {
    var n1 := s0 * 64 + s1;
    var n2 := n1 * 64 + s2;
    var n := n2 * 64 + s3;
    assert n / 64 == n2 && n2 / 64 == n1;
  }

  lemma NumberSplits(a: byte, b: byte, c: byte)
    ensures
      var n := Number(a, b, c);
      n / 0x100 / 0x100 % 0x100 == a && n / 0x100 % 0x100 == b && n % 0x100 == c
  {
    var n1 := a as int * 0x100 + b;
    assert Number(a, b, c) / 0x100 == n1 && n1 / 0x100 == a as int;
  }

  lemma QuadJoins(n: nat)
    requires n < 0x100_0000
    ensures n / 64 / 64 / 64 < 64
    ensures ((n / 64 / 64 / 64 * 64 + n / 64 / 64 % 64) * 64 + n / 64 % 64) * 64 + n % 64 == n
  {
  }

  /** The characters kept when `padding` are dropped still hold the number, if its low sextets are zero. */
  lemma QuadBits(n: nat, padding: nat)
    requires n < 0x100_0000 && padding <= 2
    requires padding >= 1 ==> n % 64 == 0
    requires padding >= 2 ==> n / 64 % 64 == 0
    ensures Bits(Quad(n)[..4 - padding]).Some?
    ensures Bits(Quad(n)[..4 - padding]).value * Power64(padding) == n
  {
    hide Sextet, Symbol, Bits;
    QuadJoins(n);
    SymbolRoundTrip(n % 64);
    SymbolRoundTrip(n / 64 % 64);
    SymbolRoundTrip(n / 64 / 64 % 64);
    SymbolRoundTrip(n / 64 / 64 / 64);
    var q := Quad(n);
    assert Power64(1) == 64 && Power64(2) == 4096;
    if padding == 0 {
      assert q[..4] == q;
      BitsOf4(q);
    } else if padding == 1 {
      BitsOf3(q[..3]);
    } else {
      BitsOf2(q[..2]);
    }
  }

  lemma PaddedKept(b: Bytes)
    requires 1 <= |b| <= 3
    ensures Kept(Padded(b), 3 - |b|) == Some(b)
  {
    hide Number;
    var a1, a2 := if |b| > 1 then b[1] else 0, if |b| > 2 then b[2] else 0;
    NumberSplits(b[0], a1, a2);
    var n := Number(b[0], a1, a2);
    var all := [n / 0x100 / 0x100 % 0x100, n / 0x100 % 0x100, n % 0x100];
    assert all[..|b|] == b;
  }

  lemma PaddedZeros(b: Bytes)
    requires 1 <= |b| <= 3
    ensures |b| <= 2 ==> Padded(b) % 64 == 0
    ensures |b| == 1 ==> Padded(b) / 64 % 64 == 0
  {
    var n := Padded(b);
    if |b| == 2 {
      assert n == 64 * ((b[0] as int * 0x100 + b[1]) * 4);
    } else if |b| == 1 {
      assert n == 64 * (b[0] as int * 1024);
      assert n / 64 == 64 * (b[0] as int * 16);
    }
  }

  lemma KeptPadded(n: nat, padding: nat)
    requires padding <= 2 && n < 0x100_0000 && Kept(n, padding).Some?
    ensures |Kept(n, padding).value| == 3 - padding && Padded(Kept(n, padding).value) == n
  {
    var b := [n / 0x100 / 0x100 % 0x100, n / 0x100 % 0x100, n % 0x100];
    assert padding >= 1 ==> b[2] == 0;
    assert padding >= 2 ==> b[1] == 0;
    assert n / 0x100 / 0x100 < 0x100;
  }

  lemma GroupPadding(b: Bytes)
    requires 1 <= |b| <= 3
    ensures Padding(Group(b)) == 3 - |b|
  {
    hide Symbol, Padded;
    var n := Padded(b);
    SymbolRoundTrip(n % 64);
    SymbolRoundTrip(n / 64 % 64);
    SymbolRoundTrip(n / 64 / 64 % 64);
  }

  lemma GroupRoundTrip(b: Bytes)
    requires 1 <= |b| <= 3
    ensures DecodeGroup(Group(b)) == Some(b)
  {
    hide Kept, Padding, Padded, Quad, Bits, Power64;
    PaddedKept(b);
    PaddedZeros(b);
    GroupPadding(b);
    QuadBits(Padded(b), 3 - |b|);
    assert Group(b)[..|b| + 1] == Quad(Padded(b))[..|b| + 1];
  }

  /** The characters that carry a number are those of its encoding. */
  lemma BitsQuad(c: Bytes)
    requires 2 <= |c| <= 4 && Bits(c).Some?
    ensures Bits(c).value * Power64(4 - |c|) < 0x100_0000
    ensures Quad(Bits(c).value * Power64(4 - |c|))[..|c|] == c
  {
    hide Sextet, Symbol, Bits;
    forall i | 0 <= i < |c|
      ensures Sextet(c[i]).Some? && Sextet(c[i]).value < 64 && Symbol(Sextet(c[i]).value) == c[i]
    {
      if Sextet(c[i]).None? {
        NoBits(c, i);
      }
      SextetOnlySymbol(c[i]);
    }
    var s0, s1 := Sextet(c[0]).value, Sextet(c[1]).value;
    var s2, s3 := if |c| > 2 then Sextet(c[2]).value else 0, if |c| > 3 then Sextet(c[3]).value else 0;
    QuadSplits(s0, s1, s2, s3);
    assert Power64(0) == 1 && Power64(1) == 64 && Power64(2) == 4096;
    if |c| == 4 {
      BitsOf4(c);
    } else if |c| == 3 {
      BitsOf3(c);
    } else {
      BitsOf2(c);
    }
  }

  lemma GroupOnlyEncoding(group: Bytes)
    requires |group| == 4 && DecodeGroup(group).Some?
    ensures 1 <= |DecodeGroup(group).value| <= 3 && Group(DecodeGroup(group).value) == group
  {
    hide Kept, Padded, Quad, Bits, Power64;
    var padding := Padding(group);
    var c := group[..4 - padding];
    BitsQuad(c);
    KeptPadded(Bits(c).value * Power64(padding), padding);
    assert group == c + [PAD, PAD][..padding];
  }

  /** Decoding the encoding of any nonempty bytes gives them back. */
  lemma {:induction false} RoundTrip(bytes: Bytes)
    requires bytes != []
    ensures Decoded(Encode(bytes)) == Some(bytes)
    decreases |bytes|
  {
    hide Group, DecodeGroup;
    var text := Encode(bytes);
    EncodeLength(bytes);
    if |bytes| <= 3 {
      GroupRoundTrip(bytes);
      assert text[..4] == text && text[4..] == [];
      assert DecodeGroups([]) == Some([]) && bytes + [] == bytes;
    } else {
      GroupRoundTrip(bytes[..3]);
      RoundTrip(bytes[3..]);
      assert text[..4] == Group(bytes[..3]) && text[4..] == Encode(bytes[3..]);
      assert bytes[..3] + bytes[3..] == bytes;
    }
  }

  /** Whatever is accepted is the encoding of what it decodes to, so each value has one text. */
  lemma {:induction false} OnlyEncoding(text: Bytes)
    requires Decoded(text).Some?
    ensures Decoded(text).value != [] && Encode(Decoded(text).value) == text
    decreases |text|
  {
    hide Group, DecodeGroup;
    GroupOnlyEncoding(text[..4]);
    var b := DecodeGroup(text[..4]).value;
    assert text[..4] + text[4..] == text;
    if |text| == 4 {
      assert text[4..] == [] && text[..4] == text;
      assert DecodeGroups([]) == Some([]) && b + [] == b;
    } else {
      OnlyEncoding(text[4..]);
      var rest := Decoded(text[4..]).value;
      assert (b + rest)[..3] == b && (b + rest)[3..] == rest;
    }
  }
}

/** One-time codes: the key decoder and code derivation of the vault helper (totp.rs) and of the panel
    (TotpModel.js). Truncation is section 5.3 of RFC 4226, the counter section 4 of RFC 6238. */
module Totp {
  import opened Arithmetic
  import opened Common

  // ---- The key ----------------------------------------------------------------------------------

  /** A letter or 2..7, in either case; anything else is not in the alphabet. */
  function Index(b: byte): (r: Option<nat>)
    ensures r.Some? ==> r.value < 32
  {
    if 65 <= b <= 90 then Some(b - 65)
    else if 97 <= b <= 122 then Some(b - 97)
    else if 50 <= b <= 55 then Some(b - 50 + 26)
    else None
  }

  /** The alphabet characters of a key, in order. */
  function Indices(text: Bytes): (r: seq<nat>)
    ensures forall i :: 0 <= i < |r| ==> r[i] < 32
  {
    if text == [] then [] else
    var rest := Indices(text[..|text| - 1]);
    match Index(text[|text| - 1])
    case None => rest
    case Some(i) => rest + [i]
  }

  /** The 5-bit stream as one number of any size. */
  function Stream(indices: seq<nat>): nat {
    if indices == [] then 0 else Stream(indices[..|indices| - 1]) * 32 + indices[|indices| - 1]
  }

  /** Byte `k` of a stream of `n` bits, counted from its front. */
  function StreamByte(stream: nat, n: nat, k: nat): nat
    requires 8 * (k + 1) <= n
  {
    PowerPositive(2, n - 8 * (k + 1));
    stream / Power(2, n - 8 * (k + 1)) % 256
  }

  ghost predicate WholeBytes(stream: nat, n: nat, out: Bytes) {
    && 8 * |out| <= n < 8 * |out| + 8
    && forall k :: 0 <= k < |out| ==> 8 * (k + 1) <= n && out[k] == StreamByte(stream, n, k)
  }

  /** The decoder: a 16-bit buffer, though the stream is longer. */
  method DecodeKey(text: Bytes) returns (out: Bytes)
    ensures |out| == 5 * |Indices(text)| / 8
    ensures WholeBytes(Stream(Indices(text)), 5 * |Indices(text)|, out)
  {
    hide WholeBytes, Index;
    out := [];
    var buffer, bits := 0, 0;
    ghost var seen: seq<nat> := [];
    var i := 0;
    assert WholeBytes(0, 0, []) by {
      NoBytes();
    }
    while i < |text|
      invariant i <= |text| && seen == Indices(text[..i])
      invariant bits == 5 * |seen| - 8 * |out| && 0 <= bits < 8
      invariant buffer == Stream(seen) % 0x1_0000
      invariant WholeBytes(Stream(seen), 5 * |seen|, out)
    {
      assert text[..i + 1][..i] == text[..i];
      var index := Index(text[i]);
      i := i + 1;
      if index.Some? {
        ghost var before := Stream(seen);
        seen := seen + [index.value];
        assert seen[..|seen| - 1] == Indices(text[..i - 1]);
        ghost var after := Stream(seen);
        assert after == before * 32 + index.value;
        MaskedShift(before, index.value);
        buffer := (buffer * 32 + index.value) % 0x1_0000;
        bits := bits + 5;
        if bits >= 8 {
          bits := bits - 8;
          MaskedByte(after, bits);
          var b := buffer / Power(2, bits) % 256;
          NextWhole(before, 5 * (|seen| - 1), index.value, out, b);
          out := out + [b];
        } else {
          NextPartial(before, 5 * (|seen| - 1), index.value, out);
        }
      }
    }
    assert text[..i] == text;
  }

  lemma NoBytes()
    ensures WholeBytes(0, 0, [])
  {
  }

  lemma MaskedShift(v: nat, index: nat)
    ensures (v % 0x1_0000 * 32 + index) % 0x1_0000 == (v * 32 + index) % 0x1_0000
  {
    var q := v / 0x1_0000;
    var r := v % 0x1_0000;
    assert v * 32 + index == (r * 32 + index) + 0x1_0000 * (q * 32);
    ModAdds(r * 32 + index, q * 32, 0x1_0000);
  }

  /** The byte shifted out lies within the 16 bits kept. */
  lemma MaskedByte(v: nat, bits: nat)
    requires bits <= 4
    ensures Power(2, bits) > 0 && v % 0x1_0000 / Power(2, bits) % 256 == v / Power(2, bits) % 256
  {
    assert Power(2, 0) == 1 && Power(2, 1) == 2 && Power(2, 2) == 4;
    assert Power(2, 3) == 2 * Power(2, 2) && Power(2, 4) == 2 * Power(2, 3);
    Masked(v, 0x1_0000, Power(2, bits), 256 / Power(2, bits));
  }

  lemma Masked(v: nat, whole: nat, p: nat, t: nat)
    requires p > 0 && whole > 0 && p * (256 * t) == whole
    ensures v % whole / p % 256 == v / p % 256
  {
    var q, r := v / whole, v % whole;
    var x, y := r / p, r % p;
    assert r == p * x + y;
    assert v == whole * q + r;
    assert p * (256 * (t * q)) == p * (256 * t) * q;
    assert v == p * (x + 256 * (t * q)) + y;
    QuotientIs(v, p, x + 256 * (t * q), y);
    ModAdds(x, t * q, 256);
  }

  /** Five more bits leave a byte already taken where it was. */
  lemma ByteStays(v: nat, n: nat, index: nat, k: nat)
    requires index < 32 && 8 * (k + 1) <= n
    ensures StreamByte(v * 32 + index, n + 5, k) == StreamByte(v, n, k)
  {
    var m := n - 8 * (k + 1);
    PowerPositive(2, m);
    PowerFive(m);
    ShiftDivides(v, index, Power(2, m));
  }

  lemma PowerFive(m: nat)
    ensures Power(2, m + 5) == 32 * Power(2, m)
  {
    assert Power(2, m + 5) == 2 * Power(2, m + 4);
    assert Power(2, m + 4) == 2 * Power(2, m + 3);
    assert Power(2, m + 3) == 2 * Power(2, m + 2);
    assert Power(2, m + 2) == 2 * Power(2, m + 1);
    assert Power(2, m + 1) == 2 * Power(2, m);
  }

  lemma ShiftDivides(v: nat, index: nat, p: nat)
    requires index < 32 && p > 0
    ensures 32 * p > 0 && (v * 32 + index) / (32 * p) == v / p
  {
    var q, r := v / p, v % p;
    assert v == q * p + r;
    var whole := v * 32 + index;
    var rest := r * 32 + index;
    assert rest < 32 * p;
    assert whole == (32 * p) * q + rest by {
      assert q * p * 32 == (32 * p) * q;
    }
    QuotientIs(whole, 32 * p, q, rest);
  }

  lemma NextPartial(v: nat, n: nat, index: nat, out: Bytes)
    requires index < 32 && WholeBytes(v, n, out) && n + 5 < 8 * |out| + 8
    ensures WholeBytes(v * 32 + index, n + 5, out)
  {
    hide StreamByte;
    forall k | 0 <= k < |out|
      ensures out[k] == StreamByte(v * 32 + index, n + 5, k)
    {
      ByteStays(v, n, index, k);
    }
  }

  lemma NextWhole(v: nat, n: nat, index: nat, out: Bytes, b: byte)
    requires index < 32 && WholeBytes(v, n, out) && n + 5 >= 8 * |out| + 8
    requires Power(2, n + 5 - 8 * |out| - 8) > 0 && b == (v * 32 + index) / Power(2, n + 5 - 8 * |out| - 8) % 256
    ensures WholeBytes(v * 32 + index, n + 5, out + [b])
  {
    forall k | 0 <= k < |out|
      ensures out[k] == StreamByte(v * 32 + index, n + 5, k)
    {
      ByteStays(v, n, index, k);
    }
    assert b == StreamByte(v * 32 + index, n + 5, |out|);
  }

  // ---- The counter ------------------------------------------------------------------------------

  /** `n` in `len` bytes, the high ones first. */
  function BigEndian(n: nat, len: nat): (b: Bytes)
    ensures |b| == len
  {
    if len == 0 then [] else BigEndian(n / 256, len - 1) + [n % 256]
  }

  function Number(b: Bytes): nat {
    if b == [] then 0 else Number(b[..|b| - 1]) * 256 + b[|b| - 1]
  }

  lemma {:induction false} NumberOfBigEndian(n: nat, len: nat)
    requires n < Power(256, len)
    ensures Number(BigEndian(n, len)) == n
    decreases len
  {
    if len > 0 {
      QuotientBelow(n, 256, Power(256, len - 1));
      NumberOfBigEndian(n / 256, len - 1);
      assert BigEndian(n, len)[..len - 1] == BigEndian(n / 256, len - 1);
    }
  }

  lemma QuotientBelow(n: nat, m: nat, p: nat)
    requires m > 0 && n < m * p
    ensures n / m < p
  {
    var k := n / m;
    assert n == m * k + n % m;
    assert k >= p ==> m * k >= m * p;
  }

  lemma {:induction false} DivideTwice(n: nat, a: nat, b: nat)
    requires a > 0 && b > 0
    ensures a * b > 0 && n / a / b == n / (a * b)
  {
    var q, r := n / a, n % a;
    var q2, r2 := q / b, q % b;
    assert n == a * q + r && q == b * q2 + r2;
    var rest := a * r2 + r;
    assert a * r2 <= a * (b - 1);
    assert 0 <= rest < a * b;
    assert n == (a * b) * q2 + rest by {
      assert a * (b * q2 + r2) == (a * b) * q2 + a * r2;
    }
    QuotientIs(n, a * b, q2, rest);
  }

  lemma {:induction false} BigEndianAt(n: nat, len: nat, j: nat)
    requires j < len
    ensures Power(256, len - 1 - j) > 0 && BigEndian(n, len)[j] == n / Power(256, len - 1 - j) % 256
    decreases len
  {
    PowerPositive(256, len - 1 - j);
    if j < len - 1 {
      BigEndianAt(n / 256, len - 1, j);
      PowerPositive(256, len - 2 - j);
      DivideTwice(n, 256, Power(256, len - 2 - j));
    }
  }

  /** The counter split into two 32-bit halves, each shifted out from the top (the panel's way). */
  method CounterBytes(counter: nat) returns (time: Bytes)
    requires counter < 0x1_0000_0000_0000_0000
    ensures time == BigEndian(counter, 8)
  {
    var hi := counter / 0x1_0000_0000;
    var lo := counter % 0x1_0000_0000;
    var high := HalfBytes(hi);
    var low := HalfBytes(lo);
    time := high + low;
    Halves(counter);
  }

  method HalfBytes(half: nat) returns (b: Bytes)
    requires half < 0x1_0000_0000
    ensures b == BigEndian(half, 4)
  {
    b := [];
    var i := 4;
    while i > 0
      invariant 0 <= i <= 4 && |b| == 4 - i
      invariant forall j :: 0 <= j < |b| ==> b[j] == BigEndian(half, 4)[j]
    {
      i := i - 1;
      PowerPositive(256, i);
      BigEndianAt(half, 4, 3 - i);
      b := b + [half / Power(256, i) % 256];
    }
  }

  lemma Halves(counter: nat)
    ensures BigEndian(counter, 8) == BigEndian(counter / 0x1_0000_0000, 4) + BigEndian(counter % 0x1_0000_0000, 4)
  {
    var hi, lo := BigEndian(counter / 0x1_0000_0000, 4), BigEndian(counter % 0x1_0000_0000, 4);
    assert Power(256, 0) == 1;
    assert Power(256, 1) == 256 * Power(256, 0);
    assert Power(256, 2) == 256 * Power(256, 1);
    assert Power(256, 3) == 256 * Power(256, 2);
    assert Power(256, 4) == 256 * Power(256, 3) == 0x1_0000_0000;
    forall j | 0 <= j < 8
      ensures BigEndian(counter, 8)[j] == (hi + lo)[j]
    {
      BigEndianAt(counter, 8, j);
      if j < 4 {
        BigEndianAt(counter / 0x1_0000_0000, 4, j);
        PowerPositive(256, 3 - j);
        DivideTwice(counter, 0x1_0000_0000, Power(256, 3 - j));
        PowerAdds(256, 4, 3 - j);
      } else {
        BigEndianAt(counter % 0x1_0000_0000, 4, j - 4);
        LowByte(counter, 7 - j);
      }
    }
  }

  lemma {:induction false} PowerAdds(base: nat, a: nat, b: nat)
    ensures Power(base, a + b) == Power(base, a) * Power(base, b)
    decreases a
  {
    if a > 0 {
      PowerAdds(base, a - 1, b);
      assert base * (Power(base, a - 1) * Power(base, b)) == base * Power(base, a - 1) * Power(base, b);
    }
  }

  /** The low four bytes do not see the high half. */
  lemma LowByte(n: nat, i: nat)
    requires i < 4
    ensures Power(256, i) > 0 && n / Power(256, i) % 256 == n % 0x1_0000_0000 / Power(256, i) % 256
  {
    PowerPositive(256, i);
    PowerPositive(256, 3 - i);
    PowerAdds(256, i, 4 - i);
    assert Power(256, 4 - i) == 256 * Power(256, 3 - i);
    assert Power(256, 4) == 0x1_0000_0000 by {
      assert Power(256, 0) == 1 && Power(256, 1) == 256;
      assert Power(256, 2) == 256 * Power(256, 1) && Power(256, 3) == 256 * Power(256, 2)
             && Power(256, 4) == 256 * Power(256, 3);
    }
    Masked(n, 0x1_0000_0000, Power(256, i), Power(256, 3 - i));
  }

  // ---- The code ---------------------------------------------------------------------------------

  /** Dynamic truncation: four bytes at the offset in the last nibble, without their top bit. */
  function Truncated(hash: Bytes): (binary: nat)
    requires |hash| >= 19
    ensures binary < 0x8000_0000
  {
    var offset := hash[|hash| - 1] % 16;
    hash[offset] as int % 128 * 0x100_0000 + hash[offset + 1] as int * 0x1_0000 + hash[offset + 2] as int * 0x100
    + hash[offset + 3]
  }

  lemma TruncatedIs31Bits(hash: Bytes)
    requires |hash| >= 19
    ensures var offset := hash[|hash| - 1] % 16;
            Truncated(hash) == Number(hash[offset..offset + 4]) % 0x8000_0000
  {
    var offset := hash[|hash| - 1] % 16;
    var b := hash[offset..offset + 4];
    assert b[..3][..2] == b[..2] && b[..2][..1] == b[..1] && b[..1][..0] == [];
    assert Number(b[..1]) == b[0] as int;
    assert Number(b[..2]) == b[0] as int * 256 + b[1];
    assert Number(b[..3]) == (b[0] as int * 256 + b[1]) * 256 + b[2];
    assert Number(b) == ((b[0] as int * 256 + b[1]) * 256 + b[2]) * 256 + b[3];
    var top, low := b[0] as int / 128, b[0] as int % 128;
    assert b[0] as int == top * 128 + low;
    QuotientIs(Number(b), 0x8000_0000, top, Truncated(hash));
  }

  lemma {:induction false} DecimalFits(n: nat, digits: nat)
    requires digits > 0 && n < Power(10, digits)
    ensures |Decimal(n)| <= digits
    decreases digits
  {
    if n >= 10 {
      assert digits > 1 by {
        assert Power(10, 1) == 10 * Power(10, 0);
      }
      QuotientBelow(n, 10, Power(10, digits - 1));
      DecimalFits(n / 10, digits - 1);
    }
  }

  lemma {:induction false} ZeroInFront(s: string)
    ensures Written("0" + s) == Written(s)
    decreases |s|
  {
    if s == "" {
      assert "0" + s == "0" && "0"[..0] == "";
    } else {
      ZeroInFront(s[..|s| - 1]);
      assert ("0" + s)[..|s|] == "0" + s[..|s| - 1];
    }
  }

  /** A code: exactly `digits` decimal digits writing the number modulo a power of ten. */
  ghost predicate IsCode(code: string, binary: nat, digits: nat) {
    PowerPositive(10, digits);
    |code| == digits && IsDecimal(code) && Written(code) == binary % Power(10, digits)
  }

  /** Padded with zeros one at a time, as the panel does. */
  method NumericCode(binary: nat, digits: nat) returns (otp: string)
    requires 1 <= digits
    ensures IsCode(otp, binary, digits)
  {
    PowerPositive(10, digits);
    var n := binary % Power(10, digits);
    otp := Decimal(n);
    DecimalWrites(n);
    DecimalFits(n, digits);
    while |otp| < digits
      invariant |otp| <= digits && IsDecimal(otp) && Written(otp) == n
    {
      ZeroInFront(otp);
      otp := "0" + otp;
    }
  }

  function Zeros(n: nat): string {
    seq(n, _ => '0')
  }

  /** Formatted with a width, as the helper does. */
  function Formatted(binary: nat, digits: nat): string {
    PowerPositive(10, digits);
    var text := Decimal(binary % Power(10, digits));
    if |text| < digits then Zeros(digits - |text|) + text else text
  }

  lemma {:induction false} ZerosInFront(n: nat, s: string)
    ensures Written(Zeros(n) + s) == Written(s)
    decreases n
  {
    if n == 0 {
      assert Zeros(0) + s == s;
    } else {
      ZerosInFront(n - 1, s);
      assert Zeros(n) + s == "0" + (Zeros(n - 1) + s);
      ZeroInFront(Zeros(n - 1) + s);
    }
  }

  lemma FormattedIsCode(binary: nat, digits: nat)
    requires 1 <= digits
    ensures IsCode(Formatted(binary, digits), binary, digits)
  {
    PowerPositive(10, digits);
    var n := binary % Power(10, digits);
    DecimalWrites(n);
    DecimalFits(n, digits);
    if |Decimal(n)| < digits {
      ZerosInFront(digits - |Decimal(n)|, Decimal(n));
    }
  }

  /** The helper and the panel show the same code for the same hash. */
  lemma CodesAgree(a: string, binary: nat, digits: nat)
    requires 1 <= digits && IsCode(a, binary, digits)
    ensures a == Formatted(binary, digits)
  {
    FormattedIsCode(binary, digits);
    DigitsDetermine(a, Formatted(binary, digits));
  }

  // ---- Steam codes ------------------------------------------------------------------------------

  function SteamChar(i: nat): char
    requires i < 26
  {
    "23456789BCDFGHJKMNPQRTVWXY"[i]
  }

  /** The alphabet is in ascending order, so a character has one place in it. */
  lemma {:induction false} SteamSorted(i: nat, j: nat)
    requires i < j < 26
    ensures SteamChar(i) < SteamChar(j)
    decreases j
  {
    if i < j - 1 {
      SteamSorted(i, j - 1);
    }
    SteamNeighbours(j - 1);
  }

  lemma SteamNeighbours(i: nat)
    requires i + 1 < 26
    ensures SteamChar(i) < SteamChar(i + 1)
  {
  }

  /** The place of a character in the alphabet. */
  function SteamValue(c: char): nat {
    SteamValueFrom(c, 0)
  }

  function SteamValueFrom(c: char, i: nat): nat
    requires i <= 26
    decreases 26 - i
  {
    if i == 26 || SteamChar(i) == c then i else SteamValueFrom(c, i + 1)
  }

  lemma {:induction false} SteamValueIs(i: nat, from: nat)
    requires from <= i < 26
    ensures SteamValueFrom(SteamChar(i), from) == i
    decreases i - from
  {
    hide SteamChar;
    if from < i {
      SteamSorted(from, i);
      SteamValueIs(i, from + 1);
    }
  }

  /** The number a code writes, its first character lowest. */
  function SteamWritten(code: string): nat {
    if code == "" then 0 else SteamWritten(code[..|code| - 1]) + SteamValue(code[|code| - 1]) * Power(26, |code| - 1)
  }

  method SteamCode(binary: nat, digits: nat) returns (code: string)
    ensures |code| == digits && forall i :: 0 <= i < digits ==> SteamValue(code[i]) < 26
    ensures Power(26, digits) > 0 && SteamWritten(code) == binary % Power(26, digits)
  {
    hide SteamChar, SteamSoFar, SteamValue;
    var full := binary;
    code := "";
    SteamStart(binary);
    var d := 0;
    while d < digits
      invariant d <= digits && |code| == d
      invariant forall i :: 0 <= i < d ==> SteamValue(code[i]) < 26
      invariant SteamSoFar(binary, full, code)
    {
      SteamStep(binary, full, code);
      code := code + [SteamChar(full % 26)];
      full := full / 26;
      d := d + 1;
    }
    SteamEnd(binary, full, code);
  }

  /** What is written and what is left make up the number. */
  ghost predicate SteamSoFar(binary: nat, full: nat, code: string) {
    && SteamWritten(code) < Power(26, |code|)
    && binary == Power(26, |code|) * full + SteamWritten(code)
  }

  lemma SteamStart(binary: nat)
    ensures SteamSoFar(binary, binary, "")
  {
  }

  lemma SteamStep(binary: nat, full: nat, code: string)
    requires SteamSoFar(binary, full, code)
    ensures SteamSoFar(binary, full / 26, code + [SteamChar(full % 26)])
    ensures SteamValue(SteamChar(full % 26)) == full % 26
  {
    SteamValueIs(full % 26, 0);
    hide SteamValueFrom, SteamChar;
    var more := code + [SteamChar(full % 26)];
    assert more[..|more| - 1] == code;
    SteamNext(SteamWritten(code), full, Power(26, |code|));
  }

  lemma SteamEnd(binary: nat, full: nat, code: string)
    requires SteamSoFar(binary, full, code)
    ensures Power(26, |code|) > 0 && SteamWritten(code) == binary % Power(26, |code|)
  {
    QuotientIs(binary, Power(26, |code|), full, SteamWritten(code));
  }

  lemma SteamNext(w: nat, full: nat, p: nat)
    requires w < p
    ensures w + full % 26 * p < 26 * p
    ensures p * full + w == (26 * p) * (full / 26) + (w + full % 26 * p)
  {
    var k, r := full / 26, full % 26;
    SteamSplit(w, k, r, p);
  }

  lemma SteamSplit(w: nat, k: nat, r: nat, p: nat)
    requires w < p && r < 26
    ensures w + r * p < 26 * p
    ensures p * (26 * k + r) + w == (26 * p) * k + (w + r * p)
  {
    assert r * p <= 25 * p;
  }
}

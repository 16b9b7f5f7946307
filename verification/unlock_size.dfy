/** The envelope as JSON (unlock-key, lib.rs): how long it is. */
module EnvelopeSize {
  import opened Common
  import opened Arithmetic
  import opened Envelopes
  import opened EnvelopeBinding
  import opened JsonText
  import Base64
  import Utf8
  import VaultEscape

  const NONCE_LEN: nat := 24
  const TAG_LEN: nat := 16

  /** The nonce and the ciphertext of a box. */
  type Cipher = Box -> (Bytes, Bytes)

  ghost predicate Enciphers(cipher: Cipher) {
    forall box :: |cipher(box).0| == NONCE_LEN && |cipher(box).1| == |box.plain| + TAG_LEN
  }

  // ---- The JSON ---------------------------------------------------------------------------------

  /** Bytes in base64, as text. */
  function Base64Text(b: Bytes): (s: string)
    ensures |s| == |Base64.Encode(b)|
    ensures forall i :: 0 <= i < |s| ==> s[i] as int == Base64.Encode(b)[i]
  {
    var text := Base64.Encode(b);
    seq(|text|, i requires 0 <= i < |text| => text[i] as int as char)
  }

  function SealedJson(cipher: Cipher, box: Box): seq<Field> {
    [Field("n", Text(Base64Text(cipher(box).0))), Field("c", Text(Base64Text(cipher(box).1)))]
  }

  function KdfJson(k: Kdf): Json {
    JsonText.Record([Field("alg", Text(k.alg)), Field("salt", Text(k.salt)), Field("m", Token(Decimal(k.m))),
                     Field("t", Token(Decimal(k.t))), Field("p", Token(Decimal(k.p)))])
  }

  function WrapJson(cipher: Cipher, w: PasswordWrap): Json {
    JsonText.Record([Field("kdf", KdfJson(w.kdf))] + SealedJson(cipher, w.box))
  }

  function FidoJson(cipher: Cipher, w: FidoWrap): Json {
    JsonText.Record([Field("cred", Text(w.cred)), Field("rp", Text(w.rp)), Field("salt", Text(w.salt))]
                    + SealedJson(cipher, w.box))
  }

  function FidoList(cipher: Cipher, fido: seq<FidoWrap>): seq<Json> {
    if fido == [] then [] else [FidoJson(cipher, fido[0])] + FidoList(cipher, fido[1..])
  }

  function KeyJson(key: KeyBytes): Json {
    JsonText.Record([Field("k", Text(Base64Text(key)))])
  }

  /** Ways in that are not there are not written. */
  function PinFields(cipher: Cipher, pin: Option<PasswordWrap>): seq<Field> {
    if pin.None? then [] else [Field("pin", WrapJson(cipher, pin.value))]
  }

  function FingerprintFields(fingerprint: Option<KeyBytes>): seq<Field> {
    if fingerprint.None? then [] else [Field("fingerprint", KeyJson(fingerprint.value))]
  }

  function FidoFields(cipher: Cipher, fido: seq<FidoWrap>): seq<Field> {
    if fido == [] then [] else [Field("fido", List(FidoList(cipher, fido)))]
  }

  function WrapsJson(cipher: Cipher, e: Envelope): Json {
    JsonText.Record([Field("master", WrapJson(cipher, e.master))]
                    + (PinFields(cipher, e.pin) + (FingerprintFields(e.fingerprint) + FidoFields(cipher, e.fido))))
  }

  function AccountJson(a: Account): Json {
    JsonText.Record([Field("id", Text(a.id)), Field("server", Text(a.server))])
  }

  function EnvelopeJson(cipher: Cipher, e: Envelope): Json {
    JsonText.Record([Field("v", Token(Decimal(e.version))), Field("account", AccountJson(e.account)),
                     Field("stale", Token(if e.stale then "true" else "false")),
                     Field("ct", JsonText.Record(SealedJson(cipher, e.ct))), Field("wraps", WrapsJson(cipher, e))])
  }

  // ---- Its length, from the fields alone --------------------------------------------------------

  function Base64Size(n: nat): nat {
    4 * ((n + 2) / 3)
  }

  function KdfSize(k: Kdf): nat {
    35 + Width(k.alg) + Width(k.salt) + |Decimal(k.m)| + |Decimal(k.t)| + |Decimal(k.p)|
  }

  function WrapSize(k: Kdf): nat {
    118 + KdfSize(k)
  }

  function KeySize(k: SecurityKey): nat {
    140 + Width(k.cred) + Width(k.rp) + Width(k.salt)
  }

  function KeysSize(keys: map<string, SecurityKey>, order: seq<string>): nat
    requires forall i :: 0 <= i < |order| ==> order[i] in keys
  {
    if order == [] then 0 else KeySize(keys[order[0]]) + KeysSize(keys, order[1..])
  }

  predicate AllKept(l: Ledger) {
    forall i :: 0 <= i < |l.order| ==> l.order[i] in l.fido
  }

  function OptionalSize(l: Ledger): nat
    requires AllKept(l)
  {
    (if l.pin.None? then 0 else 7 + WrapSize(l.pin.value.0))
    + (if l.fingerprint then 67 else 0)
    + (if l.order == [] then 0 else 9 + KeysSize(l.fido, l.order))
  }

  function LedgerSize(l: Ledger): nat
    requires AllKept(l)
  {
    239 + Width(l.account.id) + Width(l.account.server) + (if l.stale then 4 else 5)
    + Base64Size(|l.password| + TAG_LEN) + KdfSize(l.master.0) + OptionalSize(l)
  }

  lemma Base64Bare(b: Bytes)
    ensures Width(Base64Text(b)) == Base64Size(|b|)
  {
    Base64.EncodeLength(b);
    Base64Symbols(b);
    BareWidth(Base64Text(b));
  }

  /** A character of base64 text. */
  predicate IsBase64(b: byte) {
    Base64.Sextet(b).Some? || b == Base64.PAD
  }

  lemma GroupSymbols(b: Bytes)
    requires 1 <= |b| <= 3
    ensures forall i :: 0 <= i < 4 ==> IsBase64(Base64.Group(b)[i])
  {
    var n := Base64.Padded(b);
    hide Base64.Padded;
    Base64.SymbolRoundTrip(n / 64 / 64 / 64);
    Base64.SymbolRoundTrip(n / 64 / 64 % 64);
    Base64.SymbolRoundTrip(n / 64 % 64);
    Base64.SymbolRoundTrip(n % 64);
  }

  lemma {:induction false} Base64Symbols(b: Bytes)
    ensures forall i :: 0 <= i < |Base64.Encode(b)| ==> IsBase64(Base64.Encode(b)[i])
    decreases |b|
  {
    hide Base64.Group, IsBase64;
    if |b| > 3 {
      GroupSymbols(b[..3]);
      Base64Symbols(b[3..]);
    } else if b != [] {
      GroupSymbols(b);
    }
  }

  /** One more field, with a name that is written as it is. */
  lemma NextField(name: string, value: Json, rest: seq<Field>)
    requires forall i :: 0 <= i < |name| ==> Bare(name[i])
    ensures FieldsSize([Field(name, value)] + rest) == |name| + 4 + Size(value) + FieldsSize(rest)
  {
    hide Size;
    BareWidth(name);
    hide Width;
    OneField(name, value);
    FieldsAdd([Field(name, value)], rest);
  }

  lemma LastField(name: string, value: Json)
    requires forall i :: 0 <= i < |name| ==> Bare(name[i])
    ensures FieldsSize([Field(name, value)]) == |name| + 4 + Size(value)
  {
    BareWidth(name);
    OneField(name, value);
  }

  ghost predicate BareName(f: Field) {
    forall i :: 0 <= i < |f.name| ==> Bare(f.name[i])
  }

  function Room(f: Field): nat {
    |f.name| + 4 + Size(f.value)
  }

  lemma FiveFields(a: Field, b: Field, c: Field, d: Field, e: Field)
    requires BareName(a) && BareName(b) && BareName(c) && BareName(d) && BareName(e)
    ensures FieldsSize([a, b, c, d, e]) == Room(a) + Room(b) + Room(c) + Room(d) + Room(e)
  {
    hide Size, FieldsSize;
    LastField(e.name, e.value);
    NextField(d.name, d.value, [e]);
    NextField(c.name, c.value, [d] + [e]);
    NextField(b.name, b.value, [c] + ([d] + [e]));
    NextField(a.name, a.value, [b] + ([c] + ([d] + [e])));
    assert [a, b, c, d, e] == [a] + ([b] + ([c] + ([d] + [e])));
  }

  lemma DigitsSize(n: nat)
    ensures Size(Token(Decimal(n))) == |Decimal(n)|
  {
    DecimalWrites(n);
    VaultEscape.PlainBytes(Decimal(n));
  }

  lemma TextSize(s: string)
    ensures Size(Text(s)) == Width(s) + 2
  {
  }

  lemma RecordSize(fields: seq<Field>)
    requires fields != []
    ensures Size(JsonText.Record(fields)) == 1 + FieldsSize(fields)
  {
  }

  lemma SealedSize(cipher: Cipher, box: Box)
    requires Enciphers(cipher)
    ensures FieldsSize(SealedJson(cipher, box)) == 46 + Base64Size(|box.plain| + TAG_LEN)
  {
    hide Width, Size, FieldsSize, Base64Text;
    var n, c := Text(Base64Text(cipher(box).0)), Text(Base64Text(cipher(box).1));
    Base64Bare(cipher(box).0);
    Base64Bare(cipher(box).1);
    TextSize(n.s);
    TextSize(c.s);
    LastField("c", c);
    NextField("n", n, [Field("c", c)]);
    assert SealedJson(cipher, box) == [Field("n", n)] + [Field("c", c)];
  }

  lemma KdfJsonSize(k: Kdf)
    ensures Size(KdfJson(k)) == KdfSize(k)
  {
    hide Width, Size, FieldsSize, Decimal;
    TextSize(k.alg);
    TextSize(k.salt);
    DigitsSize(k.m);
    DigitsSize(k.t);
    DigitsSize(k.p);
    var m, t, p := Field("m", Token(Decimal(k.m))), Field("t", Token(Decimal(k.t))), Field("p", Token(Decimal(k.p)));
    var alg, salt := Field("alg", Text(k.alg)), Field("salt", Text(k.salt));
    FiveFields(alg, salt, m, t, p);
    RecordSize([alg, salt, m, t, p]);
  }

  lemma WrapJsonSize(cipher: Cipher, w: PasswordWrap)
    requires Enciphers(cipher) && |w.box.plain| == 32
    ensures Size(WrapJson(cipher, w)) == WrapSize(w.kdf)
  {
    hide Width, Size, FieldsSize, KdfJson, SealedJson, KdfSize;
    KdfJsonSize(w.kdf);
    SealedSize(cipher, w.box);
    NextField("kdf", KdfJson(w.kdf), SealedJson(cipher, w.box));
    RecordSize([Field("kdf", KdfJson(w.kdf))] + SealedJson(cipher, w.box));
  }

  lemma FidoJsonSize(cipher: Cipher, w: FidoWrap)
    requires Enciphers(cipher) && |w.box.plain| == 32
    ensures Size(FidoJson(cipher, w)) == 139 + Width(w.cred) + Width(w.rp) + Width(w.salt)
  {
    hide Width, Size, FieldsSize, SealedJson;
    TextSize(w.cred);
    TextSize(w.rp);
    TextSize(w.salt);
    var cred, rp, salt, rest := Field("cred", Text(w.cred)), Field("rp", Text(w.rp)), Field("salt", Text(w.salt)),
                                SealedJson(cipher, w.box);
    SealedSize(cipher, w.box);
    NextField("salt", salt.value, rest);
    NextField("rp", rp.value, [salt] + rest);
    NextField("cred", cred.value, [rp] + ([salt] + rest));
    assert [cred, rp, salt] + rest == [cred] + ([rp] + ([salt] + rest));
    RecordSize([cred, rp, salt] + rest);
  }

  lemma {:induction false} FidoListSize(cipher: Cipher, fido: seq<FidoWrap>, a: Account, keys: map<string, SecurityKey>,
                                        order: seq<string>, dek: KeyBytes)
    requires Enciphers(cipher) && |fido| == |order|
    requires forall i :: 0 <= i < |order| ==> order[i] in keys && fido[i] == Wrap(a, keys[order[i]], dek)
    ensures ItemsSize(FidoList(cipher, fido)) == KeysSize(keys, order)
    ensures |FidoList(cipher, fido)| == |fido|
    decreases |fido|
  {
    hide Width, Size, FidoJson, FidoAad;
    if fido != [] {
      FidoJsonSize(cipher, fido[0]);
      FidoListSize(cipher, fido[1..], a, keys, order[1..], dek);
      var items := FidoList(cipher, fido);
      assert items[0] == FidoJson(cipher, fido[0]) && items[1..] == FidoList(cipher, fido[1..]);
    }
  }

  lemma KeyJsonSize(key: KeyBytes)
    ensures Size(KeyJson(key)) == 52
  {
    hide Width, Size, FieldsSize, Base64Text;
    Base64Bare(key);
    TextSize(Base64Text(key));
    LastField("k", Text(Base64Text(key)));
    RecordSize([Field("k", Text(Base64Text(key)))]);
  }

  lemma AccountJsonSize(a: Account)
    ensures Size(AccountJson(a)) == 21 + Width(a.id) + Width(a.server)
  {
    hide Width, Size, FieldsSize;
    TextSize(a.id);
    TextSize(a.server);
    var id, server := Field("id", Text(a.id)), Field("server", Text(a.server));
    LastField("server", server.value);
    NextField("id", id.value, [server]);
    assert [id, server] == [id] + [server];
    RecordSize([id, server]);
  }

  lemma PinSize(cipher: Cipher, pin: Option<PasswordWrap>)
    requires Enciphers(cipher) && (pin.Some? ==> |pin.value.box.plain| == 32)
    ensures FieldsSize(PinFields(cipher, pin)) == if pin.None? then 0 else 7 + WrapSize(pin.value.kdf)
  {
    hide Size, WrapJson, WrapSize;
    if pin.Some? {
      WrapJsonSize(cipher, pin.value);
      LastField("pin", WrapJson(cipher, pin.value));
    }
  }

  lemma FingerprintSize(fingerprint: Option<KeyBytes>)
    ensures FieldsSize(FingerprintFields(fingerprint)) == if fingerprint.None? then 0 else 67
  {
    hide Size, KeyJson;
    if fingerprint.Some? {
      KeyJsonSize(fingerprint.value);
      LastField("fingerprint", KeyJson(fingerprint.value));
    }
  }

  lemma FidoSize(cipher: Cipher, fido: seq<FidoWrap>, a: Account, keys: map<string, SecurityKey>, order: seq<string>,
                 dek: KeyBytes)
    requires Enciphers(cipher) && FidoAgrees(fido, a, keys, order, dek)
    ensures FieldsSize(FidoFields(cipher, fido)) == if order == [] then 0 else 9 + KeysSize(keys, order)
  {
    hide Wrap, KeysSize, FidoList;
    if order != [] {
      FidoListSize(cipher, fido, a, keys, order, dek);
      var list := List(FidoList(cipher, fido));
      assert Size(list) == 1 + ItemsSize(list.items);
      hide Size;
      LastField("fido", list);
    }
  }

  lemma WrapsSum(cipher: Cipher, e: Envelope)
    ensures Size(WrapsJson(cipher, e)) == 11 + Size(WrapJson(cipher, e.master)) + FieldsSize(PinFields(cipher, e.pin))
      + FieldsSize(FingerprintFields(e.fingerprint)) + FieldsSize(FidoFields(cipher, e.fido))
  {
    hide FidoFields, PinFields, FingerprintFields, Size, FieldsSize, WrapJson;
    var pin, fingerprint, fido := PinFields(cipher, e.pin), FingerprintFields(e.fingerprint),
                                  FidoFields(cipher, e.fido);
    FieldsAdd(fingerprint, fido);
    FieldsAdd(pin, fingerprint + fido);
    NextField("master", WrapJson(cipher, e.master), pin + (fingerprint + fido));
    RecordSize([Field("master", WrapJson(cipher, e.master))] + (pin + (fingerprint + fido)));
  }

  lemma WrapsSize(cipher: Cipher, e: Envelope, l: Ledger, dek: KeyBytes)
    requires Enciphers(cipher) && Agrees(e, l, dek)
    ensures Size(WrapsJson(cipher, e)) == 11 + WrapSize(l.master.0) + OptionalSize(l)
  {
    FidoSize(cipher, e.fido, l.account, l.fido, l.order, dek);
    WrapsSum(cipher, e);
    hide FidoAgrees, FidoFields, PinFields, FingerprintFields, Size, FieldsSize, WrapJson, WrapsJson, WrapSize,
         KeysSize, WrapAad, CtAad;
    PinSize(cipher, e.pin);
    FingerprintSize(e.fingerprint);
    WrapJsonSize(cipher, e.master);
  }

  lemma EnvelopeSum(v: Json, account: Json, stale: Json, ct: Json, wraps: Json)
    ensures Size(JsonText.Record([Field("v", v), Field("account", account), Field("stale", stale), Field("ct", ct),
                                  Field("wraps", wraps)]))
      == 41 + Size(v) + Size(account) + Size(stale) + Size(ct) + Size(wraps)
  {
    hide Size, FieldsSize;
    var fields := [Field("v", v), Field("account", account), Field("stale", stale), Field("ct", ct),
                   Field("wraps", wraps)];
    FiveFields(fields[0], fields[1], fields[2], fields[3], fields[4]);
    RecordSize(fields);
  }

  lemma CtSize(cipher: Cipher, box: Box)
    requires Enciphers(cipher)
    ensures Size(JsonText.Record(SealedJson(cipher, box))) == 47 + Base64Size(|box.plain| + TAG_LEN)
  {
    SealedSize(cipher, box);
    RecordSize(SealedJson(cipher, box));
  }

  /** The text of an envelope is as long as its ledger says, whatever the nonces and ciphertexts. */
  lemma SizeAgrees(cipher: Cipher, e: Envelope, l: Ledger, dek: KeyBytes)
    requires Enciphers(cipher) && Agrees(e, l, dek)
    ensures Utf8.ByteLen(Print(EnvelopeJson(cipher, e))) == LedgerSize(l)
  {
    hide Size, FieldsSize, Print, WrapsJson, AccountJson, SealedJson, Width, Decimal, KdfSize;
    PrintSize(EnvelopeJson(cipher, e));
    EnvelopeSum(Token(Decimal(e.version)), AccountJson(e.account), Token(if e.stale then "true" else "false"),
                JsonText.Record(SealedJson(cipher, e.ct)), WrapsJson(cipher, e));
    WrapsSize(cipher, e, l, dek);
    AccountJsonSize(e.account);
    CtSize(cipher, e.ct);
    VersionSize(e.version);
    FlagSize(e.stale);
    hide OptionalSize, WrapAad, CtAad, FidoAgrees;
  }

  lemma VersionSize(version: nat)
    requires version == VERSION
    ensures Size(Token(Decimal(version))) == 1
  {
    DigitsSize(version);
  }

  lemma FlagSize(stale: bool)
    ensures Size(Token(if stale then "true" else "false")) == if stale then 4 else 5
  {
    VaultEscape.PlainBytes(if stale then "true" else "false");
  }
}

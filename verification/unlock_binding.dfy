/** What the associated data binds: an envelope that was tampered with does not open. */
module EnvelopeBinding {
  import opened Common
  import opened Arithmetic
  import opened WireStrings
  import opened Envelopes
  import Base64
  import Utf8

  // ---- Every envelope within the limits has short parts -----------------------------------------

  lemma {:induction false} TextIsShort(s: string)
    ensures |Utf8.Encode(s)| <= 4 * |s|
    decreases |s|
  {
    if s != "" {
      TextIsShort(s[1..]);
    }
  }

  lemma {:induction false} DecimalIsShort(n: nat)
    ensures |Decimal(n)| <= n + 1
    decreases n
  {
    if n >= 10 {
      DecimalIsShort(n / 10);
    }
  }

  lemma {:induction false} Base64IsShort(b: Bytes)
    ensures |Base64.Encode(b)| <= 4 * |b|
    decreases |b|
  {
    if |b| > 3 {
      Base64IsShort(b[3..]);
    }
  }

  lemma DecodedIsShort(text: string)
    requires DecodeText(text).Some? && |DecodeText(text).value| <= MAX_CREDENTIAL_BYTES
    ensures |Utf8.Encode(text)| <= 4 * MAX_CREDENTIAL_BYTES
  {
    if text != "" {
      Base64.OnlyEncoding(Utf8.Encode(text));
      Base64IsShort(DecodeText(text).value);
    }
  }

  lemma WrapPartsAreShort(a: Account, purpose: string, k: Kdf)
    requires AccountOk(a) && KdfCheck(k).None? && |purpose| <= 6
    ensures Short(WrapParts(a, purpose, k), U32_MAX)
  {
    TextIsShort(a.id);
    TextIsShort(a.server);
    TextIsShort(purpose);
    TextIsShort(k.alg);
    TextIsShort(k.salt);
    TextIsShort(Decimal(k.m));
    TextIsShort(Decimal(k.t));
    TextIsShort(Decimal(k.p));
    DecimalIsShort(k.m);
    DecimalIsShort(k.t);
    DecimalIsShort(k.p);
    hide Utf8.Encode, Decimal;
  }

  lemma FidoPartsAreShort(a: Account, cred: string, rp: string, salt: string)
    requires AccountOk(a) && FidoCheck(cred, rp, salt).None?
    ensures Short(FidoParts(a, cred, rp, salt), U32_MAX)
  {
    TextIsShort(a.id);
    TextIsShort(a.server);
    TextIsShort(rp);
    DecodedIsShort(cred);
    DecodedIsShort(salt);
    hide Utf8.Encode, DecodeText;
  }

  lemma CtPartsAreShort(a: Account)
    requires AccountOk(a)
    ensures Short([Ascii("password"), Utf8.Encode(a.id), Utf8.Encode(a.server)], U32_MAX)
  {
    TextIsShort(a.id);
    TextIsShort(a.server);
    hide Utf8.Encode;
  }

  // ---- Different things are bound differently ---------------------------------------------------

  lemma AccountIsBound(a: Account, b: Account)
    requires AccountOk(a) && AccountOk(b) && CtAad(a) == CtAad(b)
    ensures a == b
  {
    CtPartsAreShort(a);
    CtPartsAreShort(b);
    var x, y := [Ascii("password"), Utf8.Encode(a.id), Utf8.Encode(a.server)],
                [Ascii("password"), Utf8.Encode(b.id), Utf8.Encode(b.server)];
    hide Aad, Utf8.Encode;
    AadInjective(x, y);
    assert x[1] == y[1] && x[2] == y[2];
    Utf8.EncodeInjective(a.id, b.id);
    Utf8.EncodeInjective(a.server, b.server);
  }

  lemma WrapIsBound(a: Account, b: Account, purpose: string, other: string, j: Kdf, k: Kdf)
    requires AccountOk(a) && AccountOk(b) && KdfCheck(j).None? && KdfCheck(k).None? && |purpose| <= 6 && |other| <= 6
    requires WrapAad(a, purpose, j) == WrapAad(b, other, k)
    ensures a == b && purpose == other && j == k
  {
    WrapPartsAreShort(a, purpose, j);
    WrapPartsAreShort(b, other, k);
    var x, y := WrapParts(a, purpose, j), WrapParts(b, other, k);
    hide Aad, Utf8.Encode, Decimal;
    AadInjective(x, y);
    assert x[1] == y[1] && x[2] == y[2] && x[3] == y[3] && x[4] == y[4] && x[5] == y[5] && x[6] == y[6]
           && x[7] == y[7] && x[8] == y[8];
    Utf8.EncodeInjective(purpose, other);
    Utf8.EncodeInjective(a.id, b.id);
    Utf8.EncodeInjective(a.server, b.server);
    Utf8.EncodeInjective(j.alg, k.alg);
    Utf8.EncodeInjective(j.salt, k.salt);
    Utf8.EncodeInjective(Decimal(j.m), Decimal(k.m));
    Utf8.EncodeInjective(Decimal(j.t), Decimal(k.t));
    Utf8.EncodeInjective(Decimal(j.p), Decimal(k.p));
    DecimalInjective(j.m, k.m);
    DecimalInjective(j.t, k.t);
    DecimalInjective(j.p, k.p);
  }

  lemma FidoIsBound(a: Account, b: Account, cred: string, rp: string, salt: string, cred': string, rp': string,
                    salt': string)
    requires AccountOk(a) && AccountOk(b) && FidoCheck(cred, rp, salt).None? && FidoCheck(cred', rp', salt').None?
    requires FidoAad(a, cred, rp, salt) == FidoAad(b, cred', rp', salt')
    ensures a == b && cred == cred' && rp == rp' && salt == salt'
  {
    FidoPartsAreShort(a, cred, rp, salt);
    FidoPartsAreShort(b, cred', rp', salt');
    var x, y := FidoParts(a, cred, rp, salt), FidoParts(b, cred', rp', salt');
    hide Aad, Utf8.Encode;
    AadInjective(x, y);
    assert x[2] == y[2] && x[3] == y[3] && x[4] == y[4] && x[5] == y[5] && x[6] == y[6];
    Utf8.EncodeInjective(a.id, b.id);
    Utf8.EncodeInjective(a.server, b.server);
    Utf8.EncodeInjective(cred, cred');
    Utf8.EncodeInjective(rp, rp');
    Utf8.EncodeInjective(salt, salt');
  }

  // ---- Envelopes that come from operations ------------------------------------------------------

  /** Everything in the ledger is within the limits. */
  ghost predicate WithinLimits(l: Ledger) {
    && AccountOk(l.account) && PasswordOk(l.password)
    && KdfCheck(l.master.0).None?
    && (l.pin.Some? ==> KdfCheck(l.pin.value.0).None? && PinCostOk(l.pin.value.0))
    && (forall cred :: cred in l.fido ==> FidoCheck(l.fido[cred].cred, l.fido[cred].rp, l.fido[cred].salt).None?)
  }

  lemma RecordStaysWithin(l: Ledger, op: Op)
    requires WithinLimits(l)
    ensures WithinLimits(Record(l, op).0)
  {
    hide KdfCheck, FidoCheck, Admits, AccountOk, PasswordOk, PinCostOk;
  }

  lemma {:induction false} HistoryStaysWithin(l: Ledger, ops: seq<Op>)
    requires WithinLimits(l)
    ensures WithinLimits(RecordAll(l, ops))
    decreases |ops|
  {
    if ops != [] {
      HistoryStaysWithin(l, ops[..|ops| - 1]);
      hide WithinLimits, Record;
      RecordStaysWithin(RecordAll(l, ops[..|ops| - 1]), ops[|ops| - 1]);
    }
  }

  /** What `validate` refuses. */
  function Validate(e: Envelope): Option<Error> {
    if e.version != VERSION then Some(Malformed)
    else if !AccountOk(e.account) then Some(Policy)
    else if KdfCheck(e.master.kdf).Some? then KdfCheck(e.master.kdf)
    else if e.pin.Some? && KdfCheck(e.pin.value.kdf).Some? then KdfCheck(e.pin.value.kdf)
    else if |e.fido| > MAX_FIDO_WRAPS then Some(Policy)
    else ValidateFido(e.fido, 0)
  }

  function ValidateFido(fido: seq<FidoWrap>, i: nat): Option<Error>
    requires i <= |fido|
    decreases |fido| - i
  {
    if i == |fido| then None
    else if FidoCheck(fido[i].cred, fido[i].rp, fido[i].salt).Some? then
      FidoCheck(fido[i].cred, fido[i].rp, fido[i].salt)
    else if exists j :: 0 <= j < i && fido[j].cred == fido[i].cred then Some(Malformed)
    else ValidateFido(fido, i + 1)
  }

  lemma {:induction false} FidoValidates(fido: seq<FidoWrap>, i: nat)
    requires i <= |fido|
    requires forall j :: 0 <= j < |fido| ==> FidoCheck(fido[j].cred, fido[j].rp, fido[j].salt).None?
    requires forall j, k :: 0 <= j < k < |fido| ==> fido[j].cred != fido[k].cred
    ensures ValidateFido(fido, i).None?
    decreases |fido| - i
  {
    hide FidoCheck;
    if i < |fido| {
      FidoValidates(fido, i + 1);
    }
  }

  lemma AgreedValidates(e: Envelope, l: Ledger, dek: KeyBytes)
    requires Agrees(e, l, dek) && WithinLimits(l)
    ensures Validate(e).None?
  {
    hide FidoCheck, KdfCheck, AccountOk, WrapAad, CtAad, FidoAad;
    forall j | 0 <= j < |e.fido|
      ensures FidoCheck(e.fido[j].cred, e.fido[j].rp, e.fido[j].salt).None? && e.fido[j].cred == l.order[j]
    {
      assert e.fido[j] == Wrap(l.account, l.fido[l.order[j]], dek);
    }
    FidoValidates(e.fido, 0);
    hide FidoAgrees;
  }

  /** Whatever the operations make is valid. */
  lemma EveryEnvelopeValidates(account: Account, password: Bytes, kdf: Kdf, key: KeyBytes, dek: KeyBytes, ops: seq<Op>)
    requires Create(account, password, kdf, key, dek).Ok?
    ensures Validate(ApplyAll(Create(account, password, kdf, key, dek).value, ops)).None?
  {
    var e, l := Create(account, password, kdf, key, dek).value, LedgerStart(account, password, kdf, key);
    assert Agrees(e, l, dek);
    HistoryAgrees(e, l, dek, ops);
    HistoryStaysWithin(l, ops);
    hide ApplyAll, RecordAll, Agrees, WithinLimits;
    AgreedValidates(ApplyAll(e, ops), RecordAll(l, ops), dek);
  }

  // ---- Tampering --------------------------------------------------------------------------------

  lemma WrappedIsBound(a: Account, b: Account, purpose: string, k: Kdf, k': Kdf, input: KeyBytes, key: KeyBytes,
                       dek: KeyBytes)
    requires AccountOk(a) && AccountOk(b) && KdfCheck(k).None? && KdfCheck(k').None? && |purpose| <= 6
    requires a != b || k != k'
    ensures KeyFrom(Unseal(Kek(key, purpose), Wrapped(a, purpose, k, input, dek).box, WrapAad(b, purpose, k'))) ==
            Err(WrongKey)
  {
    hide WrapAad, AccountOk, KdfCheck;
    if WrapAad(a, purpose, k) == WrapAad(b, purpose, k') {
      WrapIsBound(a, b, purpose, purpose, k, k');
    }
  }

  /** In an envelope moved to another account or server, no way in opens. */
  lemma OtherAccountRefused(e: Envelope, l: Ledger, dek: KeyBytes, other: Account, via: Via)
    requires Agrees(e, l, dek) && WithinLimits(l) && AccountOk(other) && other != l.account
    ensures Open(e.(account := other), via).Err?
    ensures via.Master? || (via.Pin? && e.pin.Some?) || (via.Fingerprint? && e.fingerprint.Some?) ==>
              Open(e.(account := other), via) == Err(WrongKey)
  {
    hide WrapAad, CtAad, FidoAad, AccountOk, KdfCheck, FidoCheck, PasswordOk, PinCostOk;
    var moved := e.(account := other);
    match via
    case Master(key) =>
      WrappedIsBound(l.account, other, "master", l.master.0, l.master.0, l.master.1, key, dek);
    case Pin(key) =>
      if l.pin.Some? {
        WrappedIsBound(l.account, other, "pin", l.pin.value.0, l.pin.value.0, l.pin.value.1, key, dek);
      }
    case Fingerprint =>
      if CtAad(l.account) == CtAad(other) {
        AccountIsBound(l.account, other);
      }
    case Fido(cred, key) =>
      FoundIff(e.fido, l.account, l.fido, l.order, dek, cred);
      hide FidoAgrees;
      if cred in l.fido {
        var k := l.fido[cred];
        if FidoAad(l.account, k.cred, k.rp, k.salt) == FidoAad(other, k.cred, k.rp, k.salt) {
          FidoIsBound(l.account, other, k.cred, k.rp, k.salt, k.cred, k.rp, k.salt);
        }
      }
  }

  /** Other key-derivation parameters in the master wrap or the PIN wrap make that wrap refuse. */
  lemma OtherKdfRefused(e: Envelope, l: Ledger, dek: KeyBytes, kdf: Kdf, key: KeyBytes)
    requires Agrees(e, l, dek) && WithinLimits(l) && KdfCheck(kdf).None?
    ensures kdf != e.master.kdf ==> Open(e.(master := e.master.(kdf := kdf)), Master(key)) == Err(WrongKey)
    ensures e.pin.Some? && kdf != e.pin.value.kdf ==>
              Open(e.(pin := Some(e.pin.value.(kdf := kdf))), Pin(key)) == Err(WrongKey)
  {
    hide WrapAad, CtAad, FidoAad, AccountOk, KdfCheck, FidoCheck, PasswordOk, PinCostOk, FidoAgrees;
    if kdf != e.master.kdf {
      WrappedIsBound(l.account, l.account, "master", l.master.0, kdf, l.master.1, key, dek);
    }
    if l.pin.Some? && kdf != e.pin.value.kdf {
      WrappedIsBound(l.account, l.account, "pin", l.pin.value.0, kdf, l.pin.value.1, key, dek);
    }
  }

  /** A security-key wrap with another credential, relying party or salt refuses every key. */
  lemma OtherFidoRefused(e: Envelope, l: Ledger, dek: KeyBytes, i: nat, cred: string, rp: string, salt: string,
                         key: KeyBytes)
    requires Agrees(e, l, dek) && WithinLimits(l) && i < |e.fido| && FidoCheck(cred, rp, salt).None?
    requires cred != e.fido[i].cred || rp != e.fido[i].rp || salt != e.fido[i].salt
    requires forall j :: 0 <= j < |e.fido| && j != i ==> e.fido[j].cred != cred
    ensures var w := e.fido[i].(cred := cred, rp := rp, salt := salt);
            Open(e.(fido := e.fido[i := w]), Fido(cred, key)) == Err(WrongKey)
  {
    hide WrapAad, CtAad, FidoAad, AccountOk, KdfCheck, FidoCheck, PasswordOk, PinCostOk;
    var k := l.fido[l.order[i]];
    assert e.fido[i] == Wrap(l.account, k, dek);
    assert FidoCheck(k.cred, k.rp, k.salt).None?;
    var w := e.fido[i].(cred := cred, rp := rp, salt := salt);
    var fido := e.fido[i := w];
    hide FidoAgrees;
    assert Position(fido, cred) == i by {
      assert fido[i].cred == cred;
      assert forall j :: 0 <= j < i ==> fido[j].cred != cred;
    }
    if FidoAad(l.account, k.cred, k.rp, k.salt) == FidoAad(l.account, cred, rp, salt) {
      FidoIsBound(l.account, l.account, k.cred, k.rp, k.salt, cred, rp, salt);
    }
  }

  // ---- Boxes in another place -------------------------------------------------------------------

  /** Where an envelope keeps a box. */
  datatype Place = AtPassword | AtMaster | AtPin | AtFido(i: nat)

  predicate HasPlace(e: Envelope, p: Place) {
    (p.AtPin? ==> e.pin.Some?) && (p.AtFido? ==> p.i < |e.fido|)
  }

  function BoxAt(e: Envelope, p: Place): Box
    requires HasPlace(e, p)
  {
    match p
    case AtPassword => e.ct
    case AtMaster => e.master.box
    case AtPin => e.pin.value.box
    case AtFido(i) => e.fido[i].box
  }

  /** The parts a place binds its box to. */
  function BoundAt(e: Envelope, p: Place): seq<Bytes>
    requires HasPlace(e, p)
  {
    match p
    case AtPassword => [Ascii("password"), Utf8.Encode(e.account.id), Utf8.Encode(e.account.server)]
    case AtMaster => WrapParts(e.account, "master", e.master.kdf)
    case AtPin => WrapParts(e.account, "pin", e.pin.value.kdf)
    case AtFido(i) => FidoParts(e.account, e.fido[i].cred, e.fido[i].rp, e.fido[i].salt)
  }

  function Put(e: Envelope, p: Place, box: Box): Envelope
    requires HasPlace(e, p)
  {
    match p
    case AtPassword => e.(ct := box)
    case AtMaster => e.(master := e.master.(box := box))
    case AtPin => e.(pin := Some(e.pin.value.(box := box)))
    case AtFido(i) => e.(fido := e.fido[i := e.fido[i].(box := box)])
  }

  /** A way in that opens the box in that place. */
  predicate Through(e: Envelope, via: Via, p: Place) {
    match p
    case AtPassword => true
    case AtMaster => via.Master?
    case AtPin => via.Pin?
    case AtFido(i) => via.Fido? && Position(e.fido, via.cred) == i
  }

  lemma BoundIsShort(e: Envelope, p: Place)
    requires Validate(e).None? && HasPlace(e, p)
             && (p.AtFido? ==> FidoCheck(e.fido[p.i].cred, e.fido[p.i].rp, e.fido[p.i].salt).None?)
    ensures Short(BoundAt(e, p), U32_MAX)
  {
    hide ValidateFido, FidoCheck, KdfCheck, AccountOk, WrapParts, FidoParts;
    match p
    case AtPassword => CtPartsAreShort(e.account);
    case AtMaster => WrapPartsAreShort(e.account, "master", e.master.kdf);
    case AtPin => WrapPartsAreShort(e.account, "pin", e.pin.value.kdf);
    case AtFido(i) => FidoPartsAreShort(e.account, e.fido[i].cred, e.fido[i].rp, e.fido[i].salt);
  }

  lemma TextsDiffer(s: string, t: string)
    requires s != t
    ensures Utf8.Encode(s) != Utf8.Encode(t)
  {
    if Utf8.Encode(s) == Utf8.Encode(t) {
      Utf8.EncodeInjective(s, t);
    }
  }

  lemma PlacesDiffer(e: Envelope, p: Place, q: Place)
    requires HasPlace(e, p) && HasPlace(e, q) && p != q
    requires p.AtFido? && q.AtFido? ==> e.fido[p.i].cred != e.fido[q.i].cred
    ensures BoundAt(e, p) != BoundAt(e, q)
  {
    hide Utf8.Encode, Decimal;
    TextsDiffer("master", "pin");
    assert p.AtMaster? && q.AtPin? ==> BoundAt(e, p)[1] != BoundAt(e, q)[1];
    assert q.AtMaster? && p.AtPin? ==> BoundAt(e, p)[1] != BoundAt(e, q)[1];
    if p.AtFido? && q.AtFido? {
      TextsDiffer(e.fido[p.i].cred, e.fido[q.i].cred);
      assert BoundAt(e, p)[4] != BoundAt(e, q)[4];
    }
  }

  lemma AgreedAt(e: Envelope, l: Ledger, dek: KeyBytes, p: Place)
    requires Agrees(e, l, dek) && WithinLimits(l) && HasPlace(e, p)
    ensures BoxAt(e, p).aad == Aad(BoundAt(e, p)) && Short(BoundAt(e, p), U32_MAX)
    ensures p.AtFido? ==> e.fido[p.i].cred == l.order[p.i]
  {
    AgreedValidates(e, l, dek);
    hide Aad, WrapParts, FidoParts, AccountOk, KdfCheck, FidoCheck, PasswordOk, PinCostOk, Validate;
    if p.AtFido? {
      assert e.fido[p.i] == Wrap(l.account, l.fido[l.order[p.i]], dek);
    }
    BoundIsShort(e, p);
  }

  /** A box moved to another place of the same envelope opens there with no key. */
  lemma MovedBoxRefused(e: Envelope, l: Ledger, dek: KeyBytes, p: Place, q: Place, key: Key)
    requires Agrees(e, l, dek) && WithinLimits(l) && HasPlace(e, p) && HasPlace(e, q) && p != q
    ensures Unseal(key, BoxAt(e, p), Aad(BoundAt(e, q))) == Err(WrongKey)
  {
    AgreedAt(e, l, dek, p);
    AgreedAt(e, l, dek, q);
    assert p.AtFido? && q.AtFido? ==> l.order[p.i] != l.order[q.i];
    hide Agrees, WithinLimits, Aad, BoundAt, BoxAt, Short;
    PlacesDiffer(e, p, q);
    if Aad(BoundAt(e, p)) == Aad(BoundAt(e, q)) {
      AadInjective(BoundAt(e, p), BoundAt(e, q));
    }
  }

  lemma OpenThrough(e: Envelope, q: Place, box: Box, via: Via)
    requires HasPlace(e, q) && Through(e, via, q)
    requires forall key :: Unseal(key, box, Aad(BoundAt(e, q))).Err?
    ensures Open(Put(e, q, box), via).Err?
  {
    hide Aad, Utf8.Encode, WrapParts, FidoParts, Unseal;
    var moved := Put(e, q, box);
    match q
    case AtPassword =>
      assert Aad(BoundAt(e, q)) == CtAad(e.account);
    case AtMaster =>
      assert Unseal(Kek(via.key, "master"), box, Aad(BoundAt(e, q))).Err?;
    case AtPin =>
      assert Unseal(Kek(via.key, "pin"), box, Aad(BoundAt(e, q))).Err?;
    case AtFido(i) =>
      assert moved.fido[i].cred == e.fido[i].cred && forall j :: 0 <= j < i ==> moved.fido[j].cred == e.fido[j].cred;
      assert Position(moved.fido, via.cred) == i && moved.fido[i] == e.fido[i].(box := box);
      assert Unseal(Kek(via.key, "fido"), box, Aad(BoundAt(e, q))).Err?;
  }

  /** No way in that goes through that place opens such an envelope. */
  lemma MovedBoxDoesNotOpen(e: Envelope, l: Ledger, dek: KeyBytes, p: Place, q: Place, via: Via)
    requires Agrees(e, l, dek) && WithinLimits(l) && HasPlace(e, p) && HasPlace(e, q) && p != q && Through(e, via, q)
    ensures Open(Put(e, q, BoxAt(e, p)), via).Err?
  {
    hide Agrees, WithinLimits, Aad, BoundAt, BoxAt, Open, Put, Unseal, Through;
    forall key
      ensures Unseal(key, BoxAt(e, p), Aad(BoundAt(e, q))).Err?
    {
      MovedBoxRefused(e, l, dek, p, q, key);
    }
    OpenThrough(e, q, BoxAt(e, p), via);
  }
}

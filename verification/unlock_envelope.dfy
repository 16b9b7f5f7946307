/** The quick-unlock envelope (unlock-key, lib.rs): one data key wrapped for each way in. Encryption is
    ideal: a box opens with its own key and associated data and with no other, and key derivation gives
    each input and purpose a key of its own. */
module Envelopes {
  import opened Common
  import opened Arithmetic
  import opened WireStrings
  import Base64
  import Utf8

  const VERSION: nat := 1
  const MAX_PASSWORD_BYTES: nat := 4096
  const MAX_FIDO_WRAPS: nat := 16
  const MAX_TEXT_CHARS: nat := 1024
  const ARGON2_MIN_MEMORY_KIB: nat := 64 * 1024
  const ARGON2_MIN_ITERATIONS: nat := 3
  const PIN_ARGON2_MIN_MEMORY_KIB: nat := 256 * 1024
  const PIN_ARGON2_MIN_ITERATIONS: nat := 4
  const ARGON2_MAX_MEMORY_KIB: nat := 4 * 1024 * 1024
  const ARGON2_MAX_ITERATIONS: nat := 64
  const ARGON2_MAX_PARALLELISM: nat := 16
  const ARGON2_SALT_MIN_CHARS: nat := 22
  const ARGON2_SALT_MAX_CHARS: nat := 64
  const FIDO_SALT_LEN: nat := 32
  const MAX_CREDENTIAL_BYTES: nat := 1024
  const DOMAIN: Bytes := Ascii("qs-bitwarden-unlock-v1")

  /** 32 bytes: a data key, or what a password, a PIN or a security key comes down to. */
  type KeyBytes = b: Bytes | |b| == 32 witness seq(32, _ => 0)

  datatype Key = Raw(bytes: KeyBytes) | Kek(input: KeyBytes, purpose: string)

  datatype Error = Malformed | Policy | AccountMismatch | WrongKey | Missing

  /** A ciphertext. */
  datatype Box = Box(key: Key, plain: Bytes, aad: Bytes)

  function Seal(key: Key, plain: Bytes, aad: Bytes): Box {
    Box(key, plain, aad)
  }

  function Unseal(key: Key, box: Box, aad: Bytes): Result<Bytes, Error> {
    if box.key == key && box.aad == aad then Ok(box.plain) else Err(WrongKey)
  }

  datatype Account = Account(id: string, server: string)

  datatype Kdf = Kdf(alg: string, salt: string, m: nat, t: nat, p: nat)

  datatype PasswordWrap = PasswordWrap(kdf: Kdf, box: Box)

  datatype FidoWrap = FidoWrap(cred: string, rp: string, salt: string, box: Box)

  datatype Envelope = Envelope(
    version: nat,
    account: Account,
    stale: bool,
    ct: Box,
    master: PasswordWrap,
    pin: Option<PasswordWrap>,
    fingerprint: Option<KeyBytes>,
    fido: seq<FidoWrap>)

  /** How the data key is reached. */
  datatype Via = Master(key: KeyBytes) | Pin(key: KeyBytes) | Fingerprint | Fido(cred: string, key: KeyBytes)

  datatype Method = ThePin | TheFingerprint | TheFido(cred: string)

  // ---- Limits -----------------------------------------------------------------------------------

  predicate IsControl(c: char) {
    c as int < 0x20 || 0x7F <= c as int < 0xA0
  }

  predicate TextOk(text: string) {
    |text| <= MAX_TEXT_CHARS && forall i :: 0 <= i < |text| ==> !IsControl(text[i])
  }

  predicate AccountOk(a: Account) {
    a.id != "" && TextOk(a.id) && TextOk(a.server)
  }

  predicate SaltChar(c: char) {
    '0' <= c <= '9' || 'A' <= c <= 'Z' || 'a' <= c <= 'z' || c == '+' || c == '/' || c == '='
  }

  function KdfCheck(k: Kdf): Option<Error> {
    if k.alg != "argon2id" then Some(Malformed)
    else if
      && ARGON2_SALT_MIN_CHARS <= |k.salt| <= ARGON2_SALT_MAX_CHARS
      && (forall i :: 0 <= i < |k.salt| ==> SaltChar(k.salt[i]))
      && ARGON2_MIN_MEMORY_KIB <= k.m <= ARGON2_MAX_MEMORY_KIB
      && ARGON2_MIN_ITERATIONS <= k.t <= ARGON2_MAX_ITERATIONS
      && 1 <= k.p <= ARGON2_MAX_PARALLELISM
    then None
    else Some(Policy)
  }

  predicate PinCostOk(k: Kdf) {
    k.m >= PIN_ARGON2_MIN_MEMORY_KIB && k.t >= PIN_ARGON2_MIN_ITERATIONS
  }

  predicate PasswordOk(password: Bytes) {
    0 < |password| <= MAX_PASSWORD_BYTES
  }

  /** Base64 text, the empty one included. */
  function DecodeText(text: string): Option<Bytes> {
    if text == "" then Some([]) else Base64.Decoded(Utf8.Encode(text))
  }

  function FidoCheck(cred: string, rp: string, salt: string): Option<Error> {
    match DecodeText(cred)
    case None => Some(Malformed)
    case Some(c) =>
      if c == [] || |c| > MAX_CREDENTIAL_BYTES || rp == "" || !TextOk(rp) then Some(Policy) else
      match DecodeText(salt)
      case None => Some(Malformed)
      case Some(s) => if |s| != FIDO_SALT_LEN then Some(Policy) else None
  }

  // ---- Associated data --------------------------------------------------------------------------

  /** The length in front of a part; a length that does not fit is written as the greatest that does. */
  function Prefix(part: Bytes): Bytes {
    EncodeU32(if |part| <= U32_MAX then |part| else U32_MAX)
  }

  function Parts(parts: seq<Bytes>): Bytes {
    if parts == [] then [] else Prefix(parts[0]) + parts[0] + Parts(parts[1..])
  }

  function Aad(parts: seq<Bytes>): Bytes {
    DOMAIN + Parts(parts)
  }

  method BuildAad(parts: seq<Bytes>) returns (out: Bytes)
    ensures out == Aad(parts)
  {
    hide Prefix;
    out := DOMAIN;
    var i := 0;
    assert parts[i..] == parts;
    while i < |parts|
      invariant i <= |parts| && out + Parts(parts[i..]) == Aad(parts)
    {
      var rest := parts[i..];
      assert rest[1..] == parts[i + 1..];
      assert out + Parts(rest) == out + Prefix(rest[0]) + rest[0] + Parts(rest[1..]);
      out := out + Prefix(parts[i]);
      out := out + parts[i];
      i := i + 1;
    }
    assert parts[i..] == [];
  }

  function CtAad(a: Account): Bytes {
    Aad([Ascii("password"), Utf8.Encode(a.id), Utf8.Encode(a.server)])
  }

  function WrapParts(a: Account, purpose: string, k: Kdf): seq<Bytes> {
    [Ascii("wrap"), Utf8.Encode(purpose), Utf8.Encode(a.id), Utf8.Encode(a.server),
     Utf8.Encode(k.alg), Utf8.Encode(k.salt),
     Utf8.Encode(Decimal(k.m)), Utf8.Encode(Decimal(k.t)), Utf8.Encode(Decimal(k.p))]
  }

  function WrapAad(a: Account, purpose: string, k: Kdf): Bytes {
    Aad(WrapParts(a, purpose, k))
  }

  function FidoParts(a: Account, cred: string, rp: string, salt: string): seq<Bytes> {
    [Ascii("wrap"), Ascii("fido"), Utf8.Encode(a.id), Utf8.Encode(a.server),
     Utf8.Encode(cred), Utf8.Encode(rp), Utf8.Encode(salt)]
  }

  function FidoAad(a: Account, cred: string, rp: string, salt: string): Bytes {
    Aad(FidoParts(a, cred, rp, salt))
  }

  // ---- Part lists and their encodings -----------------------------------------------------------

  ghost predicate Short(parts: seq<Bytes>, bound: nat) {
    forall i :: 0 <= i < |parts| ==> |parts[i]| <= bound
  }

  lemma {:induction false} PartsInjective(a: seq<Bytes>, b: seq<Bytes>)
    requires Short(a, U32_MAX) && Short(b, U32_MAX) && Parts(a) == Parts(b)
    ensures a == b
    decreases |a|
  {
    hide EncodeU32, DecodeString;
    if a != [] && b != [] {
      assert Parts(a) == EncodeString(a[0]) + Parts(a[1..]);
      assert Parts(b) == EncodeString(b[0]) + Parts(b[1..]);
      StringRoundTrip(a[0], Parts(a[1..]));
      StringRoundTrip(b[0], Parts(b[1..]));
      PartsInjective(a[1..], b[1..]);
      assert a == [a[0]] + a[1..] && b == [b[0]] + b[1..];
    }
  }

  lemma AadInjective(a: seq<Bytes>, b: seq<Bytes>)
    requires Short(a, U32_MAX) && Short(b, U32_MAX) && Aad(a) == Aad(b)
    ensures a == b
  {
    hide Parts;
    assert Aad(a)[|DOMAIN|..] == Parts(a) && Aad(b)[|DOMAIN|..] == Parts(b);
    PartsInjective(a, b);
  }

  function Zeros(n: nat): (b: Bytes)
    ensures |b| == n
  {
    seq(n, _ => 0)
  }

  function Empties(n: nat): (parts: seq<Bytes>)
    ensures |parts| == n && forall i :: 0 <= i < n ==> parts[i] == []
  {
    seq(n, _ => [])
  }

  lemma {:induction false} EmptiesAreZeros(n: nat)
    ensures Parts(Empties(n)) == Zeros(4 * n)
    decreases n
  {
    if n > 0 {
      EmptiesAreZeros(n - 1);
      assert Empties(n)[1..] == Empties(n - 1);
      assert Prefix([]) == Zeros(4);
    }
  }

  /** A list with one part a byte too long for its prefix, and another list with the same encoding. */
  function TooLong(q: Bytes): seq<Bytes> {
    [q + [0], Zeros(256)]
  }

  function Confused(q: Bytes): seq<Bytes> {
    [q, [0]] + Empties(64)
  }

  lemma TooLongEncodes(q: Bytes)
    requires |q| == U32_MAX
    ensures Parts(TooLong(q)) == EncodeU32(U32_MAX) + q + [0] + EncodeU32(256) + Zeros(256)
  {
    hide EncodeU32, Zeros;
    var parts := TooLong(q);
    assert parts[1..] == [Zeros(256)] && [Zeros(256)][1..] == [];
    assert Parts([]) == [];
    assert Prefix(Zeros(256)) == EncodeU32(256) && Prefix(q + [0]) == EncodeU32(U32_MAX);
    assert Parts([Zeros(256)]) == EncodeU32(256) + Zeros(256) + [];
    assert Parts(parts) == EncodeU32(U32_MAX) + (q + [0]) + (EncodeU32(256) + Zeros(256));
  }

  lemma ConfusedEncodes(q: Bytes)
    requires |q| == U32_MAX
    ensures Parts(Confused(q)) == EncodeU32(U32_MAX) + q + EncodeU32(1) + [0] + Zeros(256)
  {
    var parts := Confused(q);
    var rest := [[0]] + Empties(64);
    assert parts[1..] == rest && rest[1..] == Empties(64);
    EmptiesAreZeros(64);
    assert Parts(rest) == EncodeU32(1) + [0] + Zeros(256);
    hide EncodeU32;
    assert Parts(parts) == EncodeU32(U32_MAX) + q + (EncodeU32(1) + [0] + Zeros(256));
  }

  lemma SameEncoding(q: Bytes)
    requires |q| == U32_MAX
    ensures Aad(TooLong(q)) == Aad(Confused(q)) && TooLong(q) != Confused(q)
  {
    TooLongEncodes(q);
    ConfusedEncodes(q);
    assert [0] + EncodeU32(256) == EncodeU32(1) + [0];
    hide EncodeU32, Parts;
    var head := EncodeU32(U32_MAX) + q;
    assert head + [0] + EncodeU32(256) + Zeros(256) == head + ([0] + EncodeU32(256)) + Zeros(256);
    assert head + EncodeU32(1) + [0] + Zeros(256) == head + (EncodeU32(1) + [0]) + Zeros(256);
    assert |TooLong(q)| != |Confused(q)|;
  }

  /** Distinct part lists never encode the same, for parts up to a bound, exactly when every length up
      to that bound fits its prefix. */
  lemma AadInjectiveIff(bound: nat)
    ensures (forall a, b :: Short(a, bound) && Short(b, bound) && Aad(a) == Aad(b) ==> a == b) <==> bound <= U32_MAX
  {
    hide Aad;
    if bound <= U32_MAX {
      forall a, b | Short(a, bound) && Short(b, bound) && Aad(a) == Aad(b)
        ensures a == b
      {
        AadInjective(a, b);
      }
    } else {
      var q := Zeros(U32_MAX);
      SameEncoding(q);
      assert Short(TooLong(q), bound) && Short(Confused(q), bound);
    }
  }

  // ---- Operations -------------------------------------------------------------------------------

  function Wrapped(a: Account, purpose: string, kdf: Kdf, input: KeyBytes, dek: KeyBytes): PasswordWrap {
    PasswordWrap(kdf, Seal(Kek(input, purpose), dek, WrapAad(a, purpose, kdf)))
  }

  function FidoWrapped(a: Account, cred: string, rp: string, salt: string, hmac: KeyBytes, dek: KeyBytes): FidoWrap {
    FidoWrap(cred, rp, salt, Seal(Kek(hmac, "fido"), dek, FidoAad(a, cred, rp, salt)))
  }

  /** A key out of opened bytes. */
  function KeyFrom(r: Result<Bytes, Error>): Result<KeyBytes, Error> {
    match r
    case Err(e) => Err(e)
    case Ok(b) => if |b| == 32 then Ok(b) else Err(Malformed)
  }

  /** The place of a credential, or the number of them. */
  function Position(fido: seq<FidoWrap>, cred: string): (i: nat)
    ensures i <= |fido| && (i < |fido| ==> fido[i].cred == cred)
    ensures forall j :: 0 <= j < i ==> fido[j].cred != cred
  {
    if fido == [] then 0 else if fido[0].cred == cred then 0 else 1 + Position(fido[1..], cred)
  }

  /** The data key, reached one way. */
  function DataKey(e: Envelope, via: Via): Result<KeyBytes, Error> {
    match via
    case Master(key) => KeyFrom(Unseal(Kek(key, "master"), e.master.box, WrapAad(e.account, "master", e.master.kdf)))
    case Pin(key) =>
      if e.pin.None? then Err(Missing)
      else KeyFrom(Unseal(Kek(key, "pin"), e.pin.value.box, WrapAad(e.account, "pin", e.pin.value.kdf)))
    case Fingerprint => if e.fingerprint.None? then Err(Missing) else Ok(e.fingerprint.value)
    case Fido(cred, key) =>
      var i := Position(e.fido, cred);
      if i == |e.fido| then Err(Missing) else
      var w := e.fido[i];
      KeyFrom(Unseal(Kek(key, "fido"), w.box, FidoAad(e.account, w.cred, w.rp, w.salt)))
  }

  function Open(e: Envelope, via: Via): Result<Bytes, Error> {
    match DataKey(e, via)
    case Err(error) => Err(error)
    case Ok(dek) => Unseal(Raw(dek), e.ct, CtAad(e.account))
  }

  function Create(account: Account, password: Bytes, kdf: Kdf, key: KeyBytes, dek: KeyBytes): Result<Envelope, Error> {
    if !AccountOk(account) then Err(Policy)
    else if KdfCheck(kdf).Some? then Err(KdfCheck(kdf).value)
    else if !PasswordOk(password) then Err(Policy)
    else Ok(Envelope(VERSION, account, false, Seal(Raw(dek), password, CtAad(account)),
                     Wrapped(account, "master", kdf, key, dek), None, None, []))
  }

  datatype Op =
    | AddPin(auth: Via, kdf: Kdf, key: KeyBytes)
    | AddFingerprint(auth: Via)
    | AddFido(auth: Via, cred: string, rp: string, salt: string, hmac: KeyBytes)
    | Remove(way: Method)
    | MarkStale
    | Rotate(auth: Via, password: Bytes, kdf: Kdf, key: KeyBytes)

  /** What refuses an operation before any key is looked at. */
  function Refusal(op: Op): Option<Error> {
    match op
    case AddPin(_, kdf, _) =>
      if KdfCheck(kdf).Some? then KdfCheck(kdf) else if !PinCostOk(kdf) then Some(Policy) else None
    case AddFido(_, cred, rp, salt, _) => FidoCheck(cred, rp, salt)
    case Rotate(_, password, kdf, _) => if !PasswordOk(password) then Some(Policy) else KdfCheck(kdf)
    case _ => None
  }

  function PutFido(fido: seq<FidoWrap>, w: FidoWrap): seq<FidoWrap> {
    var i := Position(fido, w.cred);
    if i < |fido| then fido[i := w] else fido + [w]
  }

  function DropFido(fido: seq<FidoWrap>, cred: string): seq<FidoWrap> {
    var i := Position(fido, cred);
    if i < |fido| then fido[..i] + fido[i + 1..] else fido
  }

  /** An operation with its outcome; one that fails changes nothing. */
  function Apply(e: Envelope, op: Op): (Envelope, Option<Error>) {
    if Refusal(op).Some? then (e, Refusal(op)) else
    match op
    case AddPin(auth, kdf, key) =>
      (match DataKey(e, auth)
       case Err(error) => (e, Some(error))
       case Ok(dek) => (e.(pin := Some(Wrapped(e.account, "pin", kdf, key, dek))), None))
    case AddFingerprint(auth) =>
      (match DataKey(e, auth)
       case Err(error) => (e, Some(error))
       case Ok(dek) => (e.(fingerprint := Some(dek)), None))
    case AddFido(auth, cred, rp, salt, hmac) =>
      (match DataKey(e, auth)
       case Err(error) => (e, Some(error))
       case Ok(dek) =>
         if Position(e.fido, cred) == |e.fido| && |e.fido| >= MAX_FIDO_WRAPS then (e, Some(Policy))
         else (e.(fido := PutFido(e.fido, FidoWrapped(e.account, cred, rp, salt, hmac, dek))), None))
    case Remove(ThePin) => if e.pin.None? then (e, Some(Missing)) else (e.(pin := None), None)
    case Remove(TheFingerprint) => if e.fingerprint.None? then (e, Some(Missing)) else (e.(fingerprint := None), None)
    case Remove(TheFido(cred)) =>
      if Position(e.fido, cred) == |e.fido| then (e, Some(Missing)) else (e.(fido := DropFido(e.fido, cred)), None)
    case MarkStale => (e.(stale := true), None)
    case Rotate(auth, password, kdf, key) =>
      (match DataKey(e, auth)
       case Err(error) => (e, Some(error))
       case Ok(dek) =>
         (e.(ct := Seal(Raw(dek), password, CtAad(e.account)), master := Wrapped(e.account, "master", kdf, key, dek),
             stale := false),
          None))
  }

  // ---- The ledger: what the user would expect, with no encryption in it --------------------------

  datatype SecurityKey = SecurityKey(cred: string, rp: string, salt: string, hmac: KeyBytes)

  datatype Ledger = Ledger(
    account: Account,
    password: Bytes,
    stale: bool,
    master: (Kdf, KeyBytes),
    pin: Option<(Kdf, KeyBytes)>,
    fingerprint: bool,
    fido: map<string, SecurityKey>,
    order: seq<string>)

  /** Whether a way in is there and the key is the one it was last added with. */
  function Admits(l: Ledger, via: Via): Option<Error> {
    match via
    case Master(key) => if key == l.master.1 then None else Some(WrongKey)
    case Pin(key) => if l.pin.None? then Some(Missing) else if key == l.pin.value.1 then None else Some(WrongKey)
    case Fingerprint => if l.fingerprint then None else Some(Missing)
    case Fido(cred, key) =>
      if cred !in l.fido then Some(Missing) else if key == l.fido[cred].hmac then None else Some(WrongKey)
  }

  function LedgerOpen(l: Ledger, via: Via): Result<Bytes, Error> {
    match Admits(l, via)
    case Some(error) => Err(error)
    case None => Ok(l.password)
  }

  function NotCred(cred: string): string -> bool {
    (other: string) => other != cred
  }

  function Record(l: Ledger, op: Op): (Ledger, Option<Error>) {
    if Refusal(op).Some? then (l, Refusal(op)) else
    match op
    case AddPin(auth, kdf, key) =>
      if Admits(l, auth).Some? then (l, Admits(l, auth)) else (l.(pin := Some((kdf, key))), None)
    case AddFingerprint(auth) =>
      if Admits(l, auth).Some? then (l, Admits(l, auth)) else (l.(fingerprint := true), None)
    case AddFido(auth, cred, rp, salt, hmac) =>
      if Admits(l, auth).Some? then (l, Admits(l, auth))
      else if cred !in l.fido && |l.order| >= MAX_FIDO_WRAPS then (l, Some(Policy))
      else (l.(fido := l.fido[cred := SecurityKey(cred, rp, salt, hmac)],
               order := if cred in l.fido then l.order else l.order + [cred]), None)
    case Remove(ThePin) => if l.pin.None? then (l, Some(Missing)) else (l.(pin := None), None)
    case Remove(TheFingerprint) => if !l.fingerprint then (l, Some(Missing)) else (l.(fingerprint := false), None)
    case Remove(TheFido(cred)) =>
      if cred !in l.fido then (l, Some(Missing))
      else (l.(fido := l.fido - {cred}, order := Retain(l.order, NotCred(cred))), None)
    case MarkStale => (l.(stale := true), None)
    case Rotate(auth, password, kdf, key) =>
      if Admits(l, auth).Some? then (l, Admits(l, auth))
      else (l.(password := password, master := (kdf, key), stale := false), None)
  }

  function LedgerStart(account: Account, password: Bytes, kdf: Kdf, key: KeyBytes): Ledger {
    Ledger(account, password, false, (kdf, key), None, false, map[], [])
  }

  // ---- The envelope keeps the ledger ------------------------------------------------------------

  ghost predicate FidoAgrees(fido: seq<FidoWrap>, a: Account, keys: map<string, SecurityKey>, order: seq<string>,
                             dek: KeyBytes) {
    && |fido| == |order| <= MAX_FIDO_WRAPS
    && (forall i :: 0 <= i < |order| ==>
          order[i] in keys && keys[order[i]].cred == order[i] && fido[i] == Wrap(a, keys[order[i]], dek))
    && (forall cred :: cred in keys ==> cred in order)
    && (forall i, j :: 0 <= i < j < |order| ==> order[i] != order[j])
  }

  function Wrap(a: Account, k: SecurityKey, dek: KeyBytes): (w: FidoWrap)
    ensures w.cred == k.cred
  {
    FidoWrapped(a, k.cred, k.rp, k.salt, k.hmac, dek)
  }

  /** The envelope is the ledger, sealed under one data key. */
  ghost predicate Agrees(e: Envelope, l: Ledger, dek: KeyBytes) {
    && e.version == VERSION && e.account == l.account && e.stale == l.stale
    && e.ct == Seal(Raw(dek), l.password, CtAad(l.account))
    && e.master == Wrapped(l.account, "master", l.master.0, l.master.1, dek)
    && e.pin == (if l.pin.None? then None else Some(Wrapped(l.account, "pin", l.pin.value.0, l.pin.value.1, dek)))
    && e.fingerprint == (if l.fingerprint then Some(dek) else None)
    && FidoAgrees(e.fido, l.account, l.fido, l.order, dek)
  }

  lemma FoundIff(fido: seq<FidoWrap>, a: Account, keys: map<string, SecurityKey>, order: seq<string>, dek: KeyBytes,
                 cred: string)
    requires FidoAgrees(fido, a, keys, order, dek)
    ensures cred in keys <==> Position(fido, cred) < |fido|
    ensures cred in keys ==>
              order[Position(fido, cred)] == cred && fido[Position(fido, cred)] == Wrap(a, keys[cred], dek)
    ensures |fido| == |order|
  {
    hide Wrap;
    if cred in keys {
      var i :| 0 <= i < |order| && order[i] == cred;
      assert fido[i].cred == cred;
    }
  }

  lemma DataKeyAgrees(e: Envelope, l: Ledger, dek: KeyBytes, via: Via)
    requires Agrees(e, l, dek)
    ensures DataKey(e, via) == match Admits(l, via) case None => Ok(dek) case Some(error) => Err(error)
  {
    hide CtAad, WrapAad, FidoAad;
    if via.Fido? {
      FoundIff(e.fido, l.account, l.fido, l.order, dek, via.cred);
    }
    hide FidoAgrees;
  }

  /** Every way in opens exactly the password, with exactly the key it was added with. */
  lemma OpenAgrees(e: Envelope, l: Ledger, dek: KeyBytes, via: Via)
    requires Agrees(e, l, dek)
    ensures Open(e, via) == LedgerOpen(l, via)
  {
    DataKeyAgrees(e, l, dek, via);
    hide DataKey, Admits, FidoAgrees;
  }

  lemma ReplaceAgrees(fido: seq<FidoWrap>, a: Account, keys: map<string, SecurityKey>, order: seq<string>,
                      dek: KeyBytes, k: SecurityKey)
    requires FidoAgrees(fido, a, keys, order, dek) && k.cred in keys
    ensures FidoAgrees(PutFido(fido, Wrap(a, k, dek)), a, keys[k.cred := k], order, dek)
  {
    FoundIff(fido, a, keys, order, dek, k.cred);
    var at, after := Position(fido, k.cred), keys[k.cred := k];
    hide Wrap, Position;
    assert PutFido(fido, Wrap(a, k, dek)) == fido[at := Wrap(a, k, dek)];
    hide PutFido;
    forall i | 0 <= i < |order|
      ensures after[order[i]] == if i == at then k else keys[order[i]]
    {
    }
  }

  lemma AppendAgrees(fido: seq<FidoWrap>, a: Account, keys: map<string, SecurityKey>, order: seq<string>, dek: KeyBytes,
                     k: SecurityKey)
    requires FidoAgrees(fido, a, keys, order, dek) && k.cred !in keys && |order| < MAX_FIDO_WRAPS
    ensures FidoAgrees(PutFido(fido, Wrap(a, k, dek)), a, keys[k.cred := k], order + [k.cred], dek)
  {
    FoundIff(fido, a, keys, order, dek, k.cred);
    hide Wrap, Position;
    var after := order + [k.cred];
    forall cred | cred in keys[k.cred := k]
      ensures cred in after
    {
      assert after[|order|] == k.cred;
      assert cred in keys ==> cred in order;
    }
  }

  lemma DropAgrees(fido: seq<FidoWrap>, a: Account, keys: map<string, SecurityKey>, order: seq<string>, dek: KeyBytes,
                   cred: string)
    requires FidoAgrees(fido, a, keys, order, dek) && cred in keys
    ensures FidoAgrees(DropFido(fido, cred), a, keys - {cred}, Retain(order, NotCred(cred)), dek)
  {
    FoundIff(fido, a, keys, order, dek, cred);
    var at := Position(fido, cred);
    RemoveAtIsRetain(order, at, NotCred(cred));
    DroppedAgrees(fido, a, keys, order, dek, at);
  }

  lemma DroppedAgrees(fido: seq<FidoWrap>, a: Account, keys: map<string, SecurityKey>, order: seq<string>,
                      dek: KeyBytes, at: nat)
    requires FidoAgrees(fido, a, keys, order, dek) && at < |fido|
    ensures FidoAgrees(fido[..at] + fido[at + 1..], a, keys - {order[at]}, order[..at] + order[at + 1..], dek)
  {
    hide Wrap;
    var left, after := fido[..at] + fido[at + 1..], order[..at] + order[at + 1..];
    forall i | 0 <= i < |after|
      ensures after[i] == order[if i < at then i else i + 1] && left[i] == fido[if i < at then i else i + 1]
    {
    }
    StillListed(keys, order, at);
  }

  lemma StillListed(keys: map<string, SecurityKey>, order: seq<string>, at: nat)
    requires at < |order| && forall cred :: cred in keys ==> cred in order
    ensures forall other :: other in keys - {order[at]} ==> other in order[..at] + order[at + 1..]
  {
    var after := order[..at] + order[at + 1..];
    forall other | other in keys - {order[at]}
      ensures other in after
    {
      var i :| 0 <= i < |order| && order[i] == other;
      assert after[if i < at then i else i - 1] == other;
    }
  }

  lemma ApplyAgrees(e: Envelope, l: Ledger, dek: KeyBytes, op: Op)
    requires Agrees(e, l, dek)
    ensures Agrees(Apply(e, op).0, Record(l, op).0, dek)
    ensures Apply(e, op).1 == Record(l, op).1
  {
    if Refusal(op).None? {
      if op.AddPin? || op.AddFingerprint? || op.AddFido? || op.Rotate? {
        DataKeyAgrees(e, l, dek, op.auth);
      }
      match op
      case AddFido(auth, cred, rp, salt, hmac) => AddFidoAgrees(e, l, dek, op);
      case Remove(TheFido(cred)) => RemoveFidoAgrees(e, l, dek, cred);
      case _ => ApplyOther(e, l, dek, op);
    }
  }

  lemma ApplyOther(e: Envelope, l: Ledger, dek: KeyBytes, op: Op)
    requires Agrees(e, l, dek) && Refusal(op).None? && !op.AddFido? && !(op.Remove? && op.way.TheFido?)
    requires op.AddPin? || op.AddFingerprint? || op.Rotate? ==>
               DataKey(e, op.auth) == match Admits(l, op.auth) case None => Ok(dek) case Some(error) => Err(error)
    ensures Agrees(Apply(e, op).0, Record(l, op).0, dek)
    ensures Apply(e, op).1 == Record(l, op).1
  {
    hide DataKey, Admits, Refusal, FidoAgrees, WrapAad, CtAad;
  }

  lemma AddFidoAgrees(e: Envelope, l: Ledger, dek: KeyBytes, op: Op)
    requires Agrees(e, l, dek) && op.AddFido? && Refusal(op).None?
    requires DataKey(e, op.auth) == match Admits(l, op.auth) case None => Ok(dek) case Some(error) => Err(error)
    ensures Agrees(Apply(e, op).0, Record(l, op).0, dek)
    ensures Apply(e, op).1 == Record(l, op).1
  {
    hide DataKey, Admits, Refusal, FidoAgrees, WrapAad, CtAad, PutFido, Position, FidoAad;
    FoundIff(e.fido, l.account, l.fido, l.order, dek, op.cred);
    var k := SecurityKey(op.cred, op.rp, op.salt, op.hmac);
    if op.cred in l.fido {
      ReplaceAgrees(e.fido, l.account, l.fido, l.order, dek, k);
    } else if |l.order| < MAX_FIDO_WRAPS {
      AppendAgrees(e.fido, l.account, l.fido, l.order, dek, k);
    }
  }

  lemma RemoveFidoAgrees(e: Envelope, l: Ledger, dek: KeyBytes, cred: string)
    requires Agrees(e, l, dek)
    ensures Agrees(Apply(e, Remove(TheFido(cred))).0, Record(l, Remove(TheFido(cred))).0, dek)
    ensures Apply(e, Remove(TheFido(cred))).1 == Record(l, Remove(TheFido(cred))).1
  {
    hide FidoAgrees, WrapAad, CtAad, DropFido, Position;
    FoundIff(e.fido, l.account, l.fido, l.order, dek, cred);
    if cred in l.fido {
      DropAgrees(e.fido, l.account, l.fido, l.order, dek, cred);
    }
  }

  // ---- Every history ----------------------------------------------------------------------------

  function ApplyAll(e: Envelope, ops: seq<Op>): Envelope {
    if ops == [] then e else Apply(ApplyAll(e, ops[..|ops| - 1]), ops[|ops| - 1]).0
  }

  function RecordAll(l: Ledger, ops: seq<Op>): Ledger {
    if ops == [] then l else Record(RecordAll(l, ops[..|ops| - 1]), ops[|ops| - 1]).0
  }

  lemma {:induction false} HistoryAgrees(e: Envelope, l: Ledger, dek: KeyBytes, ops: seq<Op>)
    requires Agrees(e, l, dek)
    ensures Agrees(ApplyAll(e, ops), RecordAll(l, ops), dek)
    decreases |ops|
  {
    if ops != [] {
      HistoryAgrees(e, l, dek, ops[..|ops| - 1]);
      hide Agrees;
      ApplyAgrees(ApplyAll(e, ops[..|ops| - 1]), RecordAll(l, ops[..|ops| - 1]), dek, ops[|ops| - 1]);
    }
  }

  /** For every sequence of operations on a created envelope: every way in still present opens exactly
      the password of the last create or rotate with the key it was last added with, every other key is
      refused, and every operation succeeds or fails as the ledger says. */
  lemma EveryWayInAgrees(account: Account, password: Bytes, kdf: Kdf, key: KeyBytes, dek: KeyBytes, ops: seq<Op>,
                         via: Via, op: Op)
    requires Create(account, password, kdf, key, dek).Ok?
    ensures var e := ApplyAll(Create(account, password, kdf, key, dek).value, ops);
            var l := RecordAll(LedgerStart(account, password, kdf, key), ops);
            && Open(e, via) == LedgerOpen(l, via)
            && Apply(e, op).1 == Record(l, op).1
            && |e.fido| <= MAX_FIDO_WRAPS
            && (forall i, j :: 0 <= i < j < |e.fido| ==> e.fido[i].cred != e.fido[j].cred)
  {
    var e0, l0 := Create(account, password, kdf, key, dek).value, LedgerStart(account, password, kdf, key);
    assert Agrees(e0, l0, dek);
    HistoryAgrees(e0, l0, dek, ops);
    hide ApplyAll, RecordAll;
    var e, l := ApplyAll(e0, ops), RecordAll(l0, ops);
    OpenAgrees(e, l, dek, via);
    ApplyAgrees(e, l, dek, op);
  }
}

/** What each operation on an envelope does for its owner, told only by what opens before and after it. */
module EnvelopeOutcomes {
  import opened Common
  import opened Envelopes

  /** Derivation parameters within the policy. */
  predicate GoodKdf(k: Kdf) {
    && k.alg == "argon2id" && 22 <= |k.salt| <= 64 && (forall i :: 0 <= i < |k.salt| ==> SaltChar(k.salt[i]))
    && 65536 <= k.m <= 4194304 && 3 <= k.t <= 64 && 1 <= k.p <= 16
  }

  /** A credential of one to 1024 bytes, a relying party that can be shown, and a salt of 32 bytes. */
  predicate GoodFido(cred: string, rp: string, salt: string) {
    && DecodeText(cred).Some? && 1 <= |DecodeText(cred).value| <= 1024
    && 1 <= |rp| <= 1024 && (forall i :: 0 <= i < |rp| ==> !IsControl(rp[i]))
    && DecodeText(salt).Some? && |DecodeText(salt).value| == 32
  }

  /** The way in, tried with some key, is there. */
  predicate Present(e: Envelope, way: Method, any: KeyBytes) {
    match way
    case ThePin => Open(e, Pin(any)) != Err(Missing)
    case TheFingerprint => Open(e, Fingerprint) != Err(Missing)
    case TheFido(cred) => Open(e, Fido(cred, any)) != Err(Missing)
  }

  /** The operation itself is within its limits, whatever the envelope. */
  predicate Proper(op: Op) {
    match op
    case AddPin(_, kdf, _) => GoodKdf(kdf) && kdf.m >= 262144 && kdf.t >= 4
    case AddFido(_, cred, rp, salt, _) => GoodFido(cred, rp, salt)
    case Rotate(_, password, kdf, _) => 1 <= |password| <= 4096 && GoodKdf(kdf)
    case _ => true
  }

  predicate Authorized(e: Envelope, op: Op) {
    op.AddPin? || op.AddFingerprint? || op.AddFido? || op.Rotate? ==> Open(e, op.auth).Ok?
  }

  /** There is room for what it adds, and what it removes is there. */
  predicate Possible(e: Envelope, op: Op, any: KeyBytes) {
    && (op.AddFido? ==> |e.fido| < 16 || Present(e, TheFido(op.cred), any))
    && (op.Remove? ==> Present(e, op.way, any))
  }

  predicate Uses(via: Via, way: Method) {
    match way
    case ThePin => via.Pin?
    case TheFingerprint => via.Fingerprint?
    case TheFido(cred) => via.Fido? && via.cred == cred
  }

  /** What a way in opens after an operation that succeeded. */
  function After(e: Envelope, op: Op, via: Via): Result<Bytes, Error>
    requires Authorized(e, op)
  {
    if op.AddPin? && via.Pin? then
      if via.key == op.key then Open(e, op.auth) else Err(WrongKey)
    else if op.AddFingerprint? && via.Fingerprint? then
      Open(e, op.auth)
    else if op.AddFido? && via.Fido? && via.cred == op.cred then
      if via.key == op.hmac then Open(e, op.auth) else Err(WrongKey)
    else if op.Remove? && Uses(via, op.way) then
      Err(Missing)
    else if op.Rotate? && via.Master? then
      if via.key == op.key then Ok(op.password) else Err(WrongKey)
    else if op.Rotate? && Open(e, via).Ok? then
      Ok(op.password)
    else
      Open(e, via)
  }

  /** The outcome of one operation on an envelope, for one way in. */
  ghost predicate Effect(e: Envelope, op: Op, via: Via, any: KeyBytes) {
    var (e', error) := Apply(e, op);
    && (error.None? <==> Proper(op) && Authorized(e, op) && Possible(e, op, any))
    && (error.None? ==>
          && Open(e', via) == After(e, op, via)
          && e'.stale == (op.MarkStale? || (!op.Rotate? && e.stale)))
    && (error.Some? ==> e' == e)
    && (Proper(op) && !Authorized(e, op) ==> error == Some(Open(e, op.auth).error))
    && (Proper(op) && op.Remove? && !Possible(e, op, any) ==> error == Some(Missing))
    && e'.account == e.account
  }

  /** A new envelope opens with the master key alone, and is made exactly within the limits. */
  lemma CreateEffect(account: Account, password: Bytes, kdf: Kdf, key: KeyBytes, dek: KeyBytes, via: Via)
    ensures var r := Create(account, password, kdf, key, dek);
            && (r.Ok? <==> && account.id != "" && TextOk(account.id) && TextOk(account.server)
                           && GoodKdf(kdf) && 1 <= |password| <= 4096)
            && (r.Ok? ==>
                  && !r.value.stale && r.value.account == account
                  && Open(r.value, via) == if !via.Master? then Err(Missing)
                                           else if via.key == key then Ok(password) else Err(WrongKey))
  {
    hide CtAad, WrapAad, TextOk, SaltChar;
  }

  lemma ProperIff(op: Op)
    ensures Refusal(op).None? <==> Proper(op)
  {
    hide DecodeText, SaltChar, IsControl;
  }

  lemma PresentIff(e: Envelope, l: Ledger, dek: KeyBytes, way: Method, any: KeyBytes)
    requires Agrees(e, l, dek)
    ensures Present(e, way, any) <==> match way
                                      case ThePin => l.pin.Some?
                                      case TheFingerprint => l.fingerprint
                                      case TheFido(cred) => cred in l.fido
  {
    hide Agrees, Open;
    OpenAgrees(e, l, dek, Pin(any));
    OpenAgrees(e, l, dek, Fingerprint);
    if way.TheFido? {
      OpenAgrees(e, l, dek, Fido(way.cred, any));
    }
  }

  lemma AuthorizedIff(e: Envelope, l: Ledger, dek: KeyBytes, op: Op)
    requires Agrees(e, l, dek) && (op.AddPin? || op.AddFingerprint? || op.AddFido? || op.Rotate?)
    ensures Open(e, op.auth) == match Admits(l, op.auth) case None => Ok(l.password) case Some(error) => Err(error)
  {
    hide Agrees, Open;
    OpenAgrees(e, l, dek, op.auth);
  }

  /** What fails changes nothing. */
  lemma FailsWhole(e: Envelope, op: Op)
    ensures Apply(e, op).1.Some? ==> Apply(e, op).0 == e
    ensures Apply(e, op).0.account == e.account
  {
    hide DataKey, Refusal, Wrapped, FidoWrapped, Position, CtAad;
  }

  lemma SucceedsIff(e: Envelope, l: Ledger, dek: KeyBytes, op: Op, any: KeyBytes)
    requires Agrees(e, l, dek)
    ensures Record(l, op).1.None? <==> Proper(op) && Authorized(e, op) && Possible(e, op, any)
    ensures Proper(op) && !Authorized(e, op) ==> Record(l, op).1 == Some(Open(e, op.auth).error)
    ensures Proper(op) && op.Remove? && !Possible(e, op, any) ==> Record(l, op).1 == Some(Missing)
  {
    assert |e.fido| == |l.order|;
    hide Agrees, Open, Proper, Refusal, Present;
    ProperIff(op);
    if op.Remove? {
      PresentIff(e, l, dek, op.way, any);
    } else if op.AddPin? || op.AddFingerprint? || op.AddFido? || op.Rotate? {
      AuthorizedIff(e, l, dek, op);
      if op.AddFido? {
        PresentIff(e, l, dek, TheFido(op.cred), any);
      }
    }
  }

  lemma OpensAfter(e: Envelope, l: Ledger, dek: KeyBytes, op: Op, via: Via)
    requires Agrees(e, l, dek) && Record(l, op).1.None? && Authorized(e, op)
    ensures LedgerOpen(Record(l, op).0, via) == After(e, op, via)
    ensures Record(l, op).0.stale == (op.MarkStale? || (!op.Rotate? && l.stale))
  {
    hide Agrees, Open, Refusal;
    OpenAgrees(e, l, dek, via);
    if op.AddPin? || op.AddFingerprint? || op.AddFido? || op.Rotate? {
      AuthorizedIff(e, l, dek, op);
    }
  }

  lemma EffectNow(e: Envelope, l: Ledger, dek: KeyBytes, op: Op, via: Via, any: KeyBytes)
    requires Agrees(e, l, dek)
    ensures Effect(e, op, via, any)
  {
    var (e', l') := (Apply(e, op).0, Record(l, op).0);
    FailsWhole(e, op);
    ApplyAgrees(e, l, dek, op);
    OpenAgrees(e', l', dek, via);
    SucceedsIff(e, l, dek, op, any);
    assert e'.stale == l'.stale && e.stale == l.stale;
    hide Agrees, Open, Record, Apply, Proper, Possible, LedgerOpen, After, Authorized;
    if Record(l, op).1.None? {
      OpensAfter(e, l, dek, op, via);
    }
  }

  /** After every history of operations on a created envelope, each operation succeeds exactly when it is within
      its limits, its own way in opens, and there is room or something to remove; then exactly the ways in it is
      about change, and every other opens as before, or the new password after a rotation. */
  lemma EveryEffect(account: Account, password: Bytes, kdf: Kdf, key: KeyBytes, dek: KeyBytes, ops: seq<Op>,
                    op: Op, via: Via, any: KeyBytes)
    requires Create(account, password, kdf, key, dek).Ok?
    ensures Effect(ApplyAll(Create(account, password, kdf, key, dek).value, ops), op, via, any)
  {
    var e0, l0 := Create(account, password, kdf, key, dek).value, LedgerStart(account, password, kdf, key);
    assert Agrees(e0, l0, dek);
    HistoryAgrees(e0, l0, dek, ops);
    hide ApplyAll, RecordAll, Effect, Agrees;
    EffectNow(ApplyAll(e0, ops), RecordAll(l0, ops), dek, op, via, any);
  }
}

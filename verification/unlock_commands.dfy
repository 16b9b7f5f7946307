/** The envelope between commands (unlock-key, main.rs): each command reads the JSON the last one wrote. */
module EnvelopeCommands {
  import opened Common
  import opened Arithmetic
  import opened Envelopes
  import opened EnvelopeBinding
  import opened EnvelopeSize
  import opened JsonText
  import Base64
  import Utf8

  const MAX_ENVELOPE_BYTES: nat := 64 * 1024

  /** What `parse` says of what `to_json` wrote. */
  function Parse(cipher: Cipher, e: Envelope): Option<Error> {
    if Utf8.ByteLen(Print(EnvelopeJson(cipher, e))) > MAX_ENVELOPE_BYTES then Some(Policy) else Validate(e)
  }

  // ---- Commands ---------------------------------------------------------------------------------

  datatype Call = Change(op: Op) | OpenWith(via: Via) | Inspect

  /** A command, with the account it is given. */
  datatype Command = Command(account: Account, call: Call)

  /** What an envelope holds, without its secrets. */
  datatype Summary = Summary(
    account: Account, stale: bool, master: Kdf, pin: Option<Kdf>, fingerprint: bool,
    fido: seq<(string, string, string)>)

  datatype Answer = Failed(error: Error) | Written | Opened(password: Bytes) | Inspected(summary: Summary)

  /** Whether the command is for one account only. */
  predicate ChecksAccount(call: Call) {
    match call
    case Change(op) => op.AddPin? || op.AddFingerprint? || op.AddFido? || op.Rotate?
    case OpenWith(_) => true
    case Inspect => false
  }

  /** Why a command does not get to the envelope. */
  function Unread(cipher: Cipher, e: Envelope, c: Command): Option<Error> {
    if ChecksAccount(c.call) && !AccountOk(c.account) then Some(Policy)
    else if Parse(cipher, e).Some? then Parse(cipher, e)
    else if ChecksAccount(c.call) && c.account != e.account then Some(AccountMismatch)
    else None
  }

  function SummaryOf(e: Envelope): Summary {
    Summary(e.account, e.stale, e.master.kdf, if e.pin.None? then None else Some(e.pin.value.kdf), e.fingerprint.Some?,
            seq(|e.fido|, i requires 0 <= i < |e.fido| => (e.fido[i].cred, e.fido[i].rp, e.fido[i].salt)))
  }

  /** One command: the envelope is read back and checked, the call made, and what comes of it written. */
  function Execute(cipher: Cipher, e: Envelope, c: Command): (Envelope, Answer) {
    if Unread(cipher, e, c).Some? then (e, Failed(Unread(cipher, e, c).value)) else
    match c.call
    case Change(op) =>
      var (after, error) := Apply(e, op);
      if error.Some? then (e, Failed(error.value)) else (after, Written)
    case OpenWith(via) => (e, match Open(e, via) case Ok(password) => Opened(password) case Err(error) => Failed(error))
    case Inspect => (e, Inspected(SummaryOf(e)))
  }

  function ExecuteAll(cipher: Cipher, e: Envelope, commands: seq<Command>): Envelope {
    if commands == [] then e
    else Execute(cipher, ExecuteAll(cipher, e, commands[..|commands| - 1]), commands[|commands| - 1]).0
  }

  /** The operations among the commands that are for this account. */
  function Ours(account: Account, commands: seq<Command>): seq<Op> {
    if commands == [] then [] else
    var most, c := Ours(account, commands[..|commands| - 1]), commands[|commands| - 1];
    if c.call.Change? && (ChecksAccount(c.call) ==> c.account == account) then most + [c.call.op] else most
  }

  /** What the ledger has to say to a command. */
  function LedgerAnswer(l: Ledger, c: Command): Answer
    requires AllKept(l)
  {
    if ChecksAccount(c.call) && !AccountOk(c.account) then Failed(Policy)
    else if ChecksAccount(c.call) && c.account != l.account then Failed(AccountMismatch)
    else
      match c.call
      case Change(op) =>
        var error := Envelopes.Record(l, op).1;
        if error.Some? then Failed(error.value) else Written
      case OpenWith(via) =>
        (match LedgerOpen(l, via) case Ok(password) => Opened(password) case Err(error) => Failed(error))
      case Inspect => Inspected(LedgerSummary(l))
  }

  function LedgerSummary(l: Ledger): Summary
    requires AllKept(l)
  {
    Summary(l.account, l.stale, l.master.0, if l.pin.None? then None else Some(l.pin.value.0), l.fingerprint,
            seq(|l.order|, i requires 0 <= i < |l.order| =>
              var k := l.fido[l.order[i]]; (k.cred, k.rp, k.salt)))
  }

  // ---- Read back exactly when short enough ------------------------------------------------------

  lemma AgreedReadBack(cipher: Cipher, e: Envelope, l: Ledger, dek: KeyBytes)
    requires Enciphers(cipher) && Agrees(e, l, dek) && WithinLimits(l)
    ensures AllKept(l)
    ensures Parse(cipher, e) == if LedgerSize(l) <= MAX_ENVELOPE_BYTES then None else Some(Policy)
  {
    assert FidoAgrees(e.fido, l.account, l.fido, l.order, dek) ==> AllKept(l);
    SizeAgrees(cipher, e, l, dek);
    AgreedValidates(e, l, dek);
    hide Agrees, WithinLimits, Print, EnvelopeJson, LedgerSize, Validate;
  }

  lemma HistoryReadBack(cipher: Cipher, e: Envelope, l: Ledger, dek: KeyBytes, ops: seq<Op>)
    requires Enciphers(cipher) && Agrees(e, l, dek) && WithinLimits(l)
    ensures var after := RecordAll(l, ops);
            && AllKept(after)
            && Parse(cipher, ApplyAll(e, ops)) == if LedgerSize(after) <= MAX_ENVELOPE_BYTES then None else Some(Policy)
  {
    HistoryAgrees(e, l, dek, ops);
    HistoryStaysWithin(l, ops);
    hide ApplyAll, RecordAll, Agrees, WithinLimits, Parse, LedgerSize, AllKept;
    AgreedReadBack(cipher, ApplyAll(e, ops), RecordAll(l, ops), dek);
  }

  /** After every history of operations: the envelope is read back exactly when the length its ledger
      gives is at most 64 KiB. */
  lemma ReadBackIff(cipher: Cipher, account: Account, password: Bytes, kdf: Kdf, key: KeyBytes, dek: KeyBytes,
                    ops: seq<Op>)
    requires Enciphers(cipher) && Create(account, password, kdf, key, dek).Ok?
    ensures var e := ApplyAll(Create(account, password, kdf, key, dek).value, ops);
            var l := RecordAll(LedgerStart(account, password, kdf, key), ops);
            AllKept(l) && Parse(cipher, e) == if LedgerSize(l) <= MAX_ENVELOPE_BYTES then None else Some(Policy)
  {
    var e, l := Create(account, password, kdf, key, dek).value, LedgerStart(account, password, kdf, key);
    assert Agrees(e, l, dek) && WithinLimits(l);
    hide ApplyAll, RecordAll, Agrees, WithinLimits, Parse, LedgerSize, AllKept;
    HistoryReadBack(cipher, e, l, dek, ops);
  }

  // ---- Lengths that always fit ------------------------------------------------------------------

  lemma {:induction false} DigitsBound(n: nat, d: nat)
    requires d > 0 && n < Power(10, d)
    ensures |Decimal(n)| <= d
    decreases d
  {
    assert Power(10, 0) == 1;
    if n >= 10 {
      assert Power(10, d) == 10 * Power(10, d - 1);
      assert n / 10 < Power(10, d - 1);
      DigitsBound(n / 10, d - 1);
    }
  }

  lemma Powers()
    ensures Power(10, 2) == 100 && Power(10, 7) == 10_000_000
  {
    assert Power(10, 1) == 10 && Power(10, 3) == 1000 && Power(10, 4) == 10_000 && Power(10, 5) == 100_000;
  }

  lemma KdfBound(k: Kdf)
    requires KdfCheck(k).None?
    ensures KdfSize(k) <= 118
  {
    Powers();
    DigitsBound(k.m, 7);
    DigitsBound(k.t, 2);
    DigitsBound(k.p, 2);
    assert forall i :: 0 <= i < |k.alg| ==> Bare(k.alg[i]);
    BareWidth(k.alg);
    BareWidth(k.salt);
    hide Width, Decimal;
  }

  lemma {:induction false} AsciiText(s: string)
    requires forall i :: 0 <= i < |Utf8.Encode(s)| ==> IsBase64(Utf8.Encode(s)[i])
    ensures |s| == |Utf8.Encode(s)| && forall i :: 0 <= i < |s| ==> Bare(s[i])
    decreases |s|
  {
    if s != "" {
      var head, tail := Utf8.EncodeChar(s[0]), Utf8.Encode(s[1..]);
      assert Utf8.Encode(s)[0] == head[0] && IsBase64(head[0]);
      assert forall i :: 0 <= i < |tail| ==> tail[i] == Utf8.Encode(s)[|head| + i];
      AsciiText(s[1..]);
      assert s == [s[0]] + s[1..];
    }
  }

  lemma DecodedWidth(text: string)
    requires DecodeText(text).Some?
    ensures Width(text) == Base64Size(|DecodeText(text).value|)
  {
    if text == "" {
      BareWidth(text);
    } else {
      var bytes := DecodeText(text).value;
      Base64.OnlyEncoding(Utf8.Encode(text));
      Base64Symbols(bytes);
      Base64.EncodeLength(bytes);
      AsciiText(text);
      BareWidth(text);
    }
  }

  lemma KeyBound(k: SecurityKey, chars: nat)
    requires FidoCheck(k.cred, k.rp, k.salt).None? && |k.rp| <= chars
    ensures KeySize(k) <= 1552 + 4 * chars
  {
    DecodedWidth(k.cred);
    DecodedWidth(k.salt);
    WidthBound(k.rp);
    hide Width, DecodeText;
  }

  lemma {:induction false} KeysBound(keys: map<string, SecurityKey>, order: seq<string>, chars: nat)
    requires forall i :: 0 <= i < |order| ==> order[i] in keys
    requires forall i :: 0 <= i < |order| ==>
               var k := keys[order[i]]; FidoCheck(k.cred, k.rp, k.salt).None? && |k.rp| <= chars
    ensures KeysSize(keys, order) <= |order| * (1552 + 4 * chars)
    decreases |order|
  {
    hide FidoCheck, KeySize;
    if order != [] {
      KeyBound(keys[order[0]], chars);
      KeysBound(keys, order[1..], chars);
      assert |order| * (1552 + 4 * chars) == (1552 + 4 * chars) + |order[1..]| * (1552 + 4 * chars);
    }
  }

  /** An envelope with that many security keys, and relying parties that long, is always read back. */
  lemma Fits(l: Ledger, chars: nat)
    requires WithinLimits(l) && AllKept(l)
    requires forall cred :: cred in l.fido ==> |l.fido[cred].rp| <= chars
    requires |l.order| * (1552 + 4 * chars) <= 51_000
    ensures LedgerSize(l) <= MAX_ENVELOPE_BYTES
  {
    KeysBound(l.fido, l.order, chars);
    KdfBound(l.master.0);
    if l.pin.Some? {
      KdfBound(l.pin.value.0);
    }
    WidthBound(l.account.id);
    WidthBound(l.account.server);
    hide KdfSize, Width, KeysSize, KdfCheck, FidoCheck;
  }

  // ---- Histories of commands --------------------------------------------------------------------

  /** No relying party longer than that. */
  ghost predicate ShortNames(l: Ledger, chars: nat) {
    forall cred :: cred in l.fido ==> |l.fido[cred].rp| <= chars
  }

  lemma RecordKeepsNames(l: Ledger, op: Op, chars: nat)
    requires ShortNames(l, chars) && (op.AddFido? ==> |op.rp| <= chars)
    ensures ShortNames(Envelopes.Record(l, op).0, chars)
  {
    hide Admits, Refusal;
  }

  lemma ApplyKeepsAccount(e: Envelope, op: Op)
    ensures Apply(e, op).0.account == e.account
    ensures Apply(e, op).1.Some? ==> Apply(e, op).0 == e
  {
    hide DataKey, Refusal, PutFido, DropFido, Position;
  }

  lemma {:induction false} ApplyAllKeepsAccount(e: Envelope, ops: seq<Op>)
    ensures ApplyAll(e, ops).account == e.account
    decreases |ops|
  {
    hide Apply;
    if ops != [] {
      ApplyAllKeepsAccount(e, ops[..|ops| - 1]);
      ApplyKeepsAccount(ApplyAll(e, ops[..|ops| - 1]), ops[|ops| - 1]);
    }
  }

  lemma ApplyNext(e: Envelope, ops: seq<Op>, op: Op)
    ensures ApplyAll(e, ops + [op]) == Apply(ApplyAll(e, ops), op).0
  {
    assert (ops + [op])[..|ops|] == ops;
    hide Apply;
  }

  /** A command that reads the envelope does what its operation does, if it has one for this account. */
  lemma ExecuteIsApply(cipher: Cipher, e: Envelope, ops: seq<Op>, c: Command)
    requires Parse(cipher, ApplyAll(e, ops)).None? && AccountOk(e.account)
    ensures Execute(cipher, ApplyAll(e, ops), c).0 ==
            if c.call.Change? && (ChecksAccount(c.call) ==> c.account == e.account) then ApplyAll(e, ops + [c.call.op])
            else ApplyAll(e, ops)
  {
    ApplyAllKeepsAccount(e, ops);
    if c.call.Change? {
      ApplyNext(e, ops, c.call.op);
      ApplyKeepsAccount(ApplyAll(e, ops), c.call.op);
    }
    hide ApplyAll, Apply, Open, SummaryOf, Parse, AccountOk;
  }

  /** A command on an envelope that is read back is answered as the ledger says. */
  lemma AnswerAgrees(cipher: Cipher, e: Envelope, l: Ledger, dek: KeyBytes, c: Command)
    requires Agrees(e, l, dek) && Parse(cipher, e).None? && AllKept(l)
    ensures Execute(cipher, e, c).1 == LedgerAnswer(l, c)
  {
    assert e.account == l.account;
    hide Agrees, Apply, Envelopes.Record, Open, LedgerOpen, SummaryOf, LedgerSummary, Parse, Execute, LedgerAnswer;
    match c.call {
      case Change(op) => ApplyAgrees(e, l, dek, op);
      case OpenWith(via) => OpenAgrees(e, l, dek, via);
      case Inspect => SummaryAgrees(e, l, dek);
    }
    SameAnswer(cipher, e, l, c);
  }

  lemma SameAnswer(cipher: Cipher, e: Envelope, l: Ledger, c: Command)
    requires Parse(cipher, e).None? && AllKept(l) && e.account == l.account
    requires c.call.Change? ==> Apply(e, c.call.op).1 == Envelopes.Record(l, c.call.op).1
    requires c.call.OpenWith? ==> Open(e, c.call.via) == LedgerOpen(l, c.call.via)
    requires c.call.Inspect? ==> SummaryOf(e) == LedgerSummary(l)
    ensures Execute(cipher, e, c).1 == LedgerAnswer(l, c)
  {
    hide Apply, Envelopes.Record, Open, LedgerOpen, SummaryOf, LedgerSummary, Parse, AccountOk, AllKept;
  }

  lemma SummaryAgrees(e: Envelope, l: Ledger, dek: KeyBytes)
    requires Agrees(e, l, dek) && AllKept(l)
    ensures SummaryOf(e) == LedgerSummary(l)
  {
    hide FidoAad, WrapAad, CtAad;
    forall i | 0 <= i < |e.fido|
      ensures e.fido[i] == Wrap(l.account, l.fido[l.order[i]], dek)
    {
    }
    assert SummaryOf(e).fido == LedgerSummary(l).fido;
  }

  ghost predicate ShortOps(ops: seq<Op>) {
    forall i :: 0 <= i < |ops| && ops[i].AddFido? ==> |ops[i].rp| <= 400
  }

  lemma {:induction false} ShortKeepAgreeing(e: Envelope, l: Ledger, dek: KeyBytes, ops: seq<Op>)
    requires Agrees(e, l, dek) && WithinLimits(l) && ShortNames(l, 400) && ShortOps(ops)
    ensures Agrees(ApplyAll(e, ops), RecordAll(l, ops), dek) && WithinLimits(RecordAll(l, ops))
            && ShortNames(RecordAll(l, ops), 400)
    decreases |ops|
  {
    hide Agrees, WithinLimits, ShortNames;
    if ops != [] {
      var most, last := ops[..|ops| - 1], ops[|ops| - 1];
      ShortKeepAgreeing(e, l, dek, most);
      ApplyAgrees(ApplyAll(e, most), RecordAll(l, most), dek, last);
      RecordStaysWithin(RecordAll(l, most), last);
      RecordKeepsNames(RecordAll(l, most), last, 400);
    }
  }

  lemma {:induction false} CommandsKeepAgreeing(cipher: Cipher, e: Envelope, l: Ledger, dek: KeyBytes,
                                                commands: seq<Command>)
    requires Enciphers(cipher) && Agrees(e, l, dek) && WithinLimits(l) && ShortNames(l, 400) && AccountOk(e.account)
    requires ShortOps(Ours(e.account, commands))
    ensures ExecuteAll(cipher, e, commands) == ApplyAll(e, Ours(e.account, commands))
    decreases |commands|
  {
    hide Agrees, WithinLimits, ShortNames, Parse, Execute, ChecksAccount, AccountOk;
    if commands != [] {
      var most, c := commands[..|commands| - 1], commands[|commands| - 1];
      var ops := Ours(e.account, most);
      assert ops == Ours(e.account, commands)[..|ops|];
      CommandsKeepAgreeing(cipher, e, l, dek, most);
      ShortKeepAgreeing(e, l, dek, ops);
      ShortIsReadBack(cipher, ApplyAll(e, ops), RecordAll(l, ops), dek);
      ExecuteIsApply(cipher, e, ops, c);
    }
  }

  /** Over every history of commands, those for other accounts and those that only read included, with
      relying parties of at most 400 characters: every command reads what the last one wrote, what is written
      is what the operations for this account make, and the next command is answered as their ledger says. */
  lemma CommandsAgree(cipher: Cipher, account: Account, password: Bytes, kdf: Kdf, key: KeyBytes, dek: KeyBytes,
                      commands: seq<Command>, next: Command)
    requires Enciphers(cipher) && Create(account, password, kdf, key, dek).Ok?
    requires ShortOps(Ours(account, commands))
    ensures var e := Create(account, password, kdf, key, dek).value;
            var ops := Ours(account, commands);
            var l := RecordAll(LedgerStart(account, password, kdf, key), ops);
            && ExecuteAll(cipher, e, commands) == ApplyAll(e, ops)
            && Parse(cipher, ApplyAll(e, ops)).None? && AllKept(l)
            && Execute(cipher, ApplyAll(e, ops), next).1 == LedgerAnswer(l, next)
  {
    var e, l := Create(account, password, kdf, key, dek).value, LedgerStart(account, password, kdf, key);
    assert Agrees(e, l, dek) && WithinLimits(l) && AccountOk(e.account);
    hide ApplyAll, ExecuteAll, RecordAll, Agrees, WithinLimits, Parse, Execute, LedgerAnswer, AccountOk, AllKept;
    var ops := Ours(account, commands);
    CommandsKeepAgreeing(cipher, e, l, dek, commands);
    ShortKeepAgreeing(e, l, dek, ops);
    ShortIsReadBack(cipher, ApplyAll(e, ops), RecordAll(l, ops), dek);
    AgreedReadBack(cipher, ApplyAll(e, ops), RecordAll(l, ops), dek);
    AnswerAgrees(cipher, ApplyAll(e, ops), RecordAll(l, ops), dek, next);
  }

  lemma ShortIsReadBack(cipher: Cipher, e: Envelope, l: Ledger, dek: KeyBytes)
    requires Enciphers(cipher) && Agrees(e, l, dek) && WithinLimits(l) && ShortNames(l, 400)
    ensures Parse(cipher, e).None?
  {
    AgreedReadBack(cipher, e, l, dek);
    assert |l.order| <= MAX_FIDO_WRAPS;
    hide Agrees, WithinLimits, Parse, LedgerSize;
    Fits(l, 400);
  }

  /** A history of commands is one of operations up to where the envelope is first not read back; from
      there on nothing changes. */
  lemma {:induction false} CommandsStop(cipher: Cipher, e: Envelope, commands: seq<Command>) returns (n: nat)
    requires AccountOk(e.account)
    ensures n <= |commands| && ExecuteAll(cipher, e, commands) == ApplyAll(e, Ours(e.account, commands[..n]))
    ensures n < |commands| ==> Parse(cipher, ApplyAll(e, Ours(e.account, commands[..n]))).Some?
    decreases |commands|
  {
    assert ApplyAll(e, []) == e;
    hide Parse, Apply, ApplyAll, AccountOk;
    if commands == [] {
      n := 0;
    } else {
      var most, c := commands[..|commands| - 1], commands[|commands| - 1];
      n := CommandsStop(cipher, e, most);
      assert most[..n] == commands[..n];
      if n == |most| && Parse(cipher, ApplyAll(e, Ours(e.account, most))).None? {
        assert most[..|most|] == most && commands[..|commands|] == commands;
        ExecuteIsApply(cipher, e, Ours(e.account, most), c);
        n := |commands|;
      } else {
        assert n == |most| ==> most[..n] == most;
      }
    }
  }

  // ---- Twelve keys that do not fit --------------------------------------------------------------

  /** A credential of 1024 bytes. */
  function CredentialBytes(i: nat): (b: Bytes)
    requires i < 12
    ensures |b| == MAX_CREDENTIAL_BYTES
  {
    [i as byte] + Zeros(1023)
  }

  function Credential(i: nat): string
    requires i < 12
  {
    Base64Text(CredentialBytes(i))
  }

  /** A relying party of 1024 characters outside the basic plane. */
  function LongName(): string {
    seq(MAX_TEXT_CHARS, _ => '\U{1F511}')
  }

  function SaltText(): string {
    Base64Text(Zeros(FIDO_SALT_LEN))
  }

  function LongKey(hmac: KeyBytes, i: nat): SecurityKey
    requires i < 12
  {
    SecurityKey(Credential(i), LongName(), SaltText(), hmac)
  }

  function AddLongKey(key: KeyBytes, hmac: KeyBytes, i: nat): Op
    requires i < 12
  {
    AddFido(Master(key), Credential(i), LongName(), SaltText(), hmac)
  }

  function LongKeys(key: KeyBytes, hmac: KeyBytes, n: nat): (ops: seq<Op>)
    requires n <= 12
    ensures |ops| == n && forall i :: 0 <= i < n ==> ops[i] == AddLongKey(key, hmac, i)
  {
    seq(n, i requires 0 <= i < n => AddLongKey(key, hmac, i))
  }

  lemma {:induction false} AsciiBytes(s: string, b: Bytes)
    requires |s| == |b| && forall i :: 0 <= i < |s| ==> s[i] as int == b[i] as int < 0x80
    ensures Utf8.Encode(s) == b
    decreases |s|
  {
    if s != "" {
      AsciiBytes(s[1..], b[1..]);
      assert b == [b[0]] + b[1..];
    }
  }

  lemma TextDecodes(b: Bytes)
    requires b != []
    ensures DecodeText(Base64Text(b)) == Some(b)
  {
    Base64.EncodeLength(b);
    Base64Symbols(b);
    assert forall i :: 0 <= i < |Base64.Encode(b)| ==> IsBase64(Base64.Encode(b)[i]) && Base64.Encode(b)[i] < 0x80;
    AsciiBytes(Base64Text(b), Base64.Encode(b));
    Base64.RoundTrip(b);
    assert Base64Text(b) != "";
  }

  lemma LongKeyIsOk(i: nat)
    requires i < 12
    ensures FidoCheck(Credential(i), LongName(), SaltText()).None?
  {
    TextDecodes(CredentialBytes(i));
    TextDecodes(Zeros(FIDO_SALT_LEN));
    hide DecodeText, Base64Text;
    assert LongName()[0] == '\U{1F511}';
  }

  lemma OtherCredential(i: nat, j: nat)
    requires i < 12 && j < 12 && i != j
    ensures Credential(i) != Credential(j)
  {
    TextDecodes(CredentialBytes(i));
    TextDecodes(CredentialBytes(j));
    assert CredentialBytes(i)[0] != CredentialBytes(j)[0];
  }

  lemma LongKeySize(hmac: KeyBytes, i: nat)
    requires i < 12
    ensures KeySize(LongKey(hmac, i)) == 5648
  {
    Base64Bare(CredentialBytes(i));
    Base64Bare(Zeros(FIDO_SALT_LEN));
    WideWidth(LongName());
    hide Width, Base64Text;
  }

  /** The first of those keys, in order, and no other. */
  ghost predicate HoldsLongKeys(l: Ledger, key: KeyBytes, hmac: KeyBytes, n: nat)
    requires n <= 12
  {
    && l.master.1 == key && |l.order| == n
    && (forall i :: 0 <= i < n ==>
          l.order[i] == Credential(i) && l.order[i] in l.fido && l.fido[l.order[i]] == LongKey(hmac, i))
    && (forall cred :: cred in l.fido ==> cred in l.order)
  }

  lemma NotHeld(l: Ledger, key: KeyBytes, hmac: KeyBytes, n: nat)
    requires n < 12 && HoldsLongKeys(l, key, hmac, n)
    ensures Credential(n) !in l.fido
  {
    forall i | 0 <= i < n
      ensures l.order[i] != Credential(n)
    {
      OtherCredential(i, n);
    }
    hide Credential;
  }

  lemma AddsOne(l: Ledger, key: KeyBytes, hmac: KeyBytes, n: nat)
    requires n < 12 && HoldsLongKeys(l, key, hmac, n)
    ensures Envelopes.Record(l, AddLongKey(key, hmac, n)).1.None?
    ensures HoldsLongKeys(Envelopes.Record(l, AddLongKey(key, hmac, n)).0, key, hmac, n + 1)
  {
    LongKeyIsOk(n);
    NotHeld(l, key, hmac, n);
    hide FidoCheck, Credential, LongName, SaltText;
    var after := l.(fido := l.fido[Credential(n) := LongKey(hmac, n)], order := l.order + [Credential(n)]);
    assert Envelopes.Record(l, AddLongKey(key, hmac, n)) == (after, None) by {
      assert |l.order| == n;
      hide HoldsLongKeys;
    }
    hide Envelopes.Record;
    HoldsOneMore(l, key, hmac, n, after);
  }

  lemma HoldsOneMore(l: Ledger, key: KeyBytes, hmac: KeyBytes, n: nat, after: Ledger)
    requires n < 12 && HoldsLongKeys(l, key, hmac, n) && Credential(n) !in l.fido && after.master == l.master
    requires after.fido == l.fido[Credential(n) := LongKey(hmac, n)] && after.order == l.order + [Credential(n)]
    ensures HoldsLongKeys(after, key, hmac, n + 1)
  {
    hide Credential, LongKey;
    assert after.order[n] == Credential(n);
    forall cred | cred in after.fido
      ensures cred in after.order
    {
      assert cred in l.fido ==> cred in l.order;
    }
  }

  lemma {:induction false} AddsAll(l: Ledger, key: KeyBytes, hmac: KeyBytes, n: nat)
    requires n <= 12 && HoldsLongKeys(l, key, hmac, 0)
    ensures HoldsLongKeys(RecordAll(l, LongKeys(key, hmac, n)), key, hmac, n)
    decreases n
  {
    hide HoldsLongKeys, Envelopes.Record;
    if n > 0 {
      AddsAll(l, key, hmac, n - 1);
      var ops := LongKeys(key, hmac, n);
      assert ops[..n - 1] == LongKeys(key, hmac, n - 1);
      AddsOne(RecordAll(l, ops[..n - 1]), key, hmac, n - 1);
    }
  }

  lemma {:induction false} KeysExactly(keys: map<string, SecurityKey>, order: seq<string>)
    requires forall i :: 0 <= i < |order| ==> order[i] in keys && KeySize(keys[order[i]]) == 5648
    ensures KeysSize(keys, order) == |order| * 5648
    decreases |order|
  {
    hide KeySize;
    if order != [] {
      KeysExactly(keys, order[1..]);
    }
  }

  lemma LongKeysSize(l: Ledger, key: KeyBytes, hmac: KeyBytes)
    requires AllKept(l) && HoldsLongKeys(l, key, hmac, 12)
    ensures KeysSize(l.fido, l.order) == 67_776
  {
    hide KeySize, Credential, LongName, SaltText;
    forall i | 0 <= i < 12
      ensures KeySize(l.fido[l.order[i]]) == 5648
    {
      LongKeySize(hmac, i);
    }
    KeysExactly(l.fido, l.order);
  }

  lemma LongKeysAreTooLong(l: Ledger, key: KeyBytes, hmac: KeyBytes)
    requires AllKept(l) && HoldsLongKeys(l, key, hmac, 12)
    ensures LedgerSize(l) > MAX_ENVELOPE_BYTES
  {
    LongKeysSize(l, key, hmac);
    assert |l.order| == 12;
    hide HoldsLongKeys, KeysSize, KdfSize, Width;
  }

  lemma EachIsAdded(e: Envelope, l: Ledger, dek: KeyBytes, key: KeyBytes, hmac: KeyBytes, i: nat)
    requires Agrees(e, l, dek) && HoldsLongKeys(l, key, hmac, 0) && i < 12
    ensures Apply(ApplyAll(e, LongKeys(key, hmac, 12)[..i]), LongKeys(key, hmac, 12)[i]).1.None?
  {
    hide ApplyAll, RecordAll, Agrees, HoldsLongKeys, Apply, Envelopes.Record;
    var ops := LongKeys(key, hmac, 12);
    assert ops[..i] == LongKeys(key, hmac, i);
    AddsAll(l, key, hmac, i);
    HistoryAgrees(e, l, dek, ops[..i]);
    AddsOne(RecordAll(l, ops[..i]), key, hmac, i);
    ApplyAgrees(ApplyAll(e, ops[..i]), RecordAll(l, ops[..i]), dek, ops[i]);
  }

  /** Commands that make those operations. */
  function Adding(account: Account, ops: seq<Op>): (commands: seq<Command>)
    ensures |commands| == |ops|
  {
    seq(|ops|, i requires 0 <= i < |ops| => Command(account, Change(ops[i])))
  }

  lemma {:induction false} AddingIsOurs(account: Account, ops: seq<Op>, n: nat)
    requires n <= |ops|
    ensures Ours(account, Adding(account, ops)[..n]) == ops[..n]
    decreases n
  {
    if n > 0 {
      AddingIsOurs(account, ops, n - 1);
      var commands := Adding(account, ops)[..n];
      assert commands[..n - 1] == Adding(account, ops)[..n - 1];
      assert ops[..n] == ops[..n - 1] + [ops[n - 1]];
    }
  }

  lemma TwelveStop(cipher: Cipher, e: Envelope, l: Ledger, dek: KeyBytes, key: KeyBytes, hmac: KeyBytes)
    requires Enciphers(cipher) && Agrees(e, l, dek) && WithinLimits(l) && HoldsLongKeys(l, key, hmac, 0)
    requires AccountOk(e.account)
    ensures Parse(cipher, ApplyAll(e, LongKeys(key, hmac, 12))) == Some(Policy)
    ensures Parse(cipher, ExecuteAll(cipher, e, Adding(e.account, LongKeys(key, hmac, 12)))) == Some(Policy)
  {
    hide ApplyAll, RecordAll, ExecuteAll, HoldsLongKeys, Parse, LedgerSize, Agrees, WithinLimits, AccountOk;
    var ops := LongKeys(key, hmac, 12);
    AddsAll(l, key, hmac, 12);
    HistoryReadBack(cipher, e, l, dek, ops);
    LongKeysAreTooLong(RecordAll(l, ops), key, hmac);
    var n := CommandsStop(cipher, e, Adding(e.account, ops));
    AddingIsOurs(e.account, ops, n);
    HistoryReadBack(cipher, e, l, dek, ops[..n]);
    assert n == |ops| ==> ops[..n] == ops;
  }

  lemma StuckAnswers(cipher: Cipher, e: Envelope, c: Command)
    requires Parse(cipher, e) == Some(Policy)
    ensures Execute(cipher, e, c) == (e, Failed(Policy))
  {
    hide Parse, Apply, Open, SummaryOf, AccountOk;
  }

  /** Twelve security keys within every limit, on any envelope: each is added, and then no command reads
      the envelope again. */
  lemma TwelveKeysAreNotReadBack(cipher: Cipher, account: Account, password: Bytes, kdf: Kdf, key: KeyBytes,
                                 dek: KeyBytes, hmac: KeyBytes, next: Command)
    requires Enciphers(cipher) && Create(account, password, kdf, key, dek).Ok?
    ensures var e, ops := Create(account, password, kdf, key, dek).value, LongKeys(key, hmac, 12);
            var full := ExecuteAll(cipher, e, Adding(account, ops));
            && (forall i :: 0 <= i < 12 ==> Apply(ApplyAll(e, ops[..i]), ops[i]).1.None?)
            && Parse(cipher, ApplyAll(e, ops)) == Some(Policy)
            && Execute(cipher, full, next) == (full, Failed(Policy))
  {
    var e, l := Create(account, password, kdf, key, dek).value, LedgerStart(account, password, kdf, key);
    assert Agrees(e, l, dek) && WithinLimits(l) && HoldsLongKeys(l, key, hmac, 0) && AccountOk(e.account);
    hide ApplyAll, ExecuteAll, Agrees, WithinLimits, HoldsLongKeys, Parse, LedgerStart, Create, LongKeys, Apply,
         AccountOk, Adding, Execute;
    forall i | 0 <= i < 12
      ensures Apply(ApplyAll(e, LongKeys(key, hmac, 12)[..i]), LongKeys(key, hmac, 12)[i]).1.None?
    {
      EachIsAdded(e, l, dek, key, hmac, i);
    }
    TwelveStop(cipher, e, l, dek, key, hmac);
    StuckAnswers(cipher, ExecuteAll(cipher, e, Adding(account, LongKeys(key, hmac, 12))), next);
  }
}

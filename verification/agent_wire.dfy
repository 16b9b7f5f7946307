/** SSH agent frames and signed data (protocol.rs): strings as in section 5 of RFC 4251, agent
    messages as in RFC 9987, logins as in section 7 of RFC 4252. */
module Wire {
  import opened Common
  import opened Approvals
  import opened WireStrings
  import Utf8

  const MAX_FRAME_LEN: nat := 256 * 1024
  const REQUEST_IDENTITIES: byte := 11
  const SIGN_REQUEST: byte := 13
  const EXTENSION: byte := 27
  const USERAUTH_REQUEST: byte := 50
  const MAX_SIGN_DETAIL: nat := 256
  const MAX_SESSION_ID: nat := 256
  const MAX_HOST_KEY: nat := 16 * 1024

  const SESSION_BIND: Bytes := Ascii("session-bind@openssh.com")
  const SSHSIG_PREAMBLE: Bytes := Ascii("SSHSIG")
  const SHA256: Bytes := Ascii("sha256")
  const SHA512: Bytes := Ascii("sha512")
  const PUBLICKEY: Bytes := Ascii("publickey")
  const HOSTBOUND: Bytes := Ascii("publickey-hostbound-v00@openssh.com")

  // ---- Requests ---------------------------------------------------------------------------------

  /** The SHA-256 fingerprint of a host key. The hash is taken as free of collisions, so the key
      stands for its own fingerprint. */
  function Fingerprint(hostKey: Bytes): Bytes {
    hostKey
  }

  datatype SessionBinding = SessionBinding(sessionId: Bytes, hostKey: Bytes)

  datatype AgentRequest =
    | Identities
    | Sign(blob: Bytes, message: Bytes, flags: nat)
    | SessionBind(forwarding: bool, binding: SessionBinding)

  function DecodeSign(b: Bytes): Option<AgentRequest> {
    match DecodeString(b)
    case None => None
    case Some((blob, b1)) =>
      match DecodeString(b1)
      case None => None
      case Some((message, b2)) =>
        match DecodeU32(b2)
        case None => None
        case Some((flags, b3)) => if b3 != [] then None else Some(Sign(blob, message, flags))
  }

  function DecodeSessionBind(b: Bytes): Option<AgentRequest> {
    match DecodeString(b)
    case None => None
    case Some((name, b1)) =>
      if name != SESSION_BIND then None else
      match DecodeString(b1)
      case None => None
      case Some((hostKey, b2)) =>
        match DecodeString(b2)
        case None => None
        case Some((sessionId, b3)) =>
          match DecodeString(b3)
          case None => None
          case Some((_, b4)) =>
            match DecodeU8(b4)
            case None => None
            case Some((flag, b5)) =>
              if || flag > 1 || b5 != []
                 || hostKey == [] || |hostKey| > MAX_HOST_KEY
                 || sessionId == [] || |sessionId| > MAX_SESSION_ID
              then None
              else Some(SessionBind(flag == 1, SessionBinding(sessionId, Fingerprint(hostKey))))
  }

  function DecodeRequest(frame: Bytes): Option<AgentRequest> {
    if |frame| < 4 then None else
    var declared := ReadU32(frame);
    if declared == 0 || declared > MAX_FRAME_LEN || |frame| != declared + 4 then None else
    var payload := frame[4..];
    if payload[0] == REQUEST_IDENTITIES && |payload| == 1 then Some(Identities)
    else if payload[0] == SIGN_REQUEST then DecodeSign(payload[1..])
    else if payload[0] == EXTENSION then DecodeSessionBind(payload[1..])
    else None
  }

  /** Whether a frame that was refused could have been a session bind: an extension that names it,
      or whose name cannot be read. */
  predicate MayBeSessionBind(frame: Bytes) {
    && |frame| > 4
    && frame[4] == EXTENSION
    && (DecodeString(frame[5..]).None? || DecodeString(frame[5..]).value.0 == SESSION_BIND)
  }

  function Framed(payload: Bytes): Bytes
    requires |payload| <= U32_MAX
  {
    EncodeU32(|payload|) + payload
  }

  function SignFrame(blob: Bytes, message: Bytes, flags: nat): Bytes
    requires |blob| + |message| + 13 <= U32_MAX && flags <= U32_MAX
  {
    Framed([SIGN_REQUEST] + (EncodeString(blob) + (EncodeString(message) + EncodeU32(flags))))
  }

  /** A sign request that fits a frame is read back as sent. */
  lemma SignRoundTrip(blob: Bytes, message: Bytes, flags: nat)
    requires |blob| + |message| + 13 <= MAX_FRAME_LEN && flags <= U32_MAX
    ensures DecodeRequest(SignFrame(blob, message, flags)) == Some(Sign(blob, message, flags))
  {
    hide EncodeU32, ReadU32, EncodeString, DecodeString;
    var fields := EncodeString(blob) + (EncodeString(message) + EncodeU32(flags));
    var payload := [SIGN_REQUEST] + fields;
    var frame := SignFrame(blob, message, flags);
    U32RoundTrip(|payload|, payload);
    assert frame[4..] == payload && payload[1..] == fields;
    StringRoundTrip(blob, EncodeString(message) + EncodeU32(flags));
    StringRoundTrip(message, EncodeU32(flags));
    U32RoundTrip(flags, []);
    assert EncodeU32(flags) + [] == EncodeU32(flags);
    assert EncodeU32(flags)[4..] == [];
  }

  lemma SignFieldsOnlyEncoding(b: Bytes)
    requires DecodeSign(b).Some?
    ensures var r := DecodeSign(b).value;
            && r.Sign? && |r.blob| <= U32_MAX && |r.message| <= U32_MAX && r.flags <= U32_MAX
            && b == EncodeString(r.blob) + (EncodeString(r.message) + EncodeU32(r.flags))
  {
    StringOnlyEncoding(b);
    var b1 := DecodeString(b).value.1;
    StringOnlyEncoding(b1);
    var b2 := DecodeString(b1).value.1;
    U32OnlyEncoding(b2);
    assert b2[..4] == b2;
    hide EncodeU32, ReadU32;
  }

  /** A frame read as a sign request is the one frame that sends it: no byte is ignored. */
  lemma SignOnlyFrame(frame: Bytes)
    requires DecodeRequest(frame).Some? && DecodeRequest(frame).value.Sign?
    ensures var r := DecodeRequest(frame).value;
            && |r.blob| + |r.message| + 13 <= MAX_FRAME_LEN && r.flags <= U32_MAX
            && frame == SignFrame(r.blob, r.message, r.flags)
  {
    U32OnlyEncoding(frame);
    var payload := frame[4..];
    assert frame == frame[..4] + payload;
    assert payload == [payload[0]] + payload[1..];
    assert payload[0] == SIGN_REQUEST by {
      if payload[0] == EXTENSION {
        BindIsBind(payload[1..]);
      }
    }
    SignFieldsOnlyEncoding(payload[1..]);
    hide EncodeU32, ReadU32;
  }

  lemma BindIsBind(b: Bytes)
    ensures DecodeSessionBind(b).Some? ==> DecodeSessionBind(b).value.SessionBind?
  {
  }

  function BindFields(hostKey: Bytes, sessionId: Bytes, signature: Bytes, forwarding: bool): Bytes
    requires |hostKey| <= U32_MAX && |sessionId| <= U32_MAX && |signature| <= U32_MAX
  {
    EncodeString(SESSION_BIND) +
    (EncodeString(hostKey) + (EncodeString(sessionId) + (EncodeString(signature) + [if forwarding then 1 else 0])))
  }

  predicate BindFits(binding: SessionBinding) {
    0 < |binding.hostKey| <= MAX_HOST_KEY && 0 < |binding.sessionId| <= MAX_SESSION_ID
  }

  /** A session bind within the limits is read back, its forwarding flag included. */
  lemma BindRoundTrip(binding: SessionBinding, signature: Bytes, forwarding: bool)
    requires BindFits(binding) && |signature| <= U32_MAX
    ensures DecodeSessionBind(BindFields(binding.hostKey, binding.sessionId, signature, forwarding)) ==
            Some(SessionBind(forwarding, binding))
  {
    hide EncodeString, DecodeString;
    var flag: Bytes := [if forwarding then 1 else 0];
    var b3 := EncodeString(signature) + flag;
    var b2 := EncodeString(binding.sessionId) + b3;
    var b1 := EncodeString(binding.hostKey) + b2;
    StringRoundTrip(SESSION_BIND, b1);
    StringRoundTrip(binding.hostKey, b2);
    StringRoundTrip(binding.sessionId, b3);
    StringRoundTrip(signature, flag);
  }

  /** Whatever is read as a session bind is the encoding of one within the limits. */
  lemma BindOnlyEncoding(b: Bytes)
    requires DecodeSessionBind(b).Some?
    ensures DecodeSessionBind(b).value.SessionBind? && BindFits(DecodeSessionBind(b).value.binding)
    ensures exists signature :: |signature| <= U32_MAX &&
              b == BindFields(DecodeSessionBind(b).value.binding.hostKey,
                              DecodeSessionBind(b).value.binding.sessionId, signature,
                              DecodeSessionBind(b).value.forwarding)
  {
    hide EncodeString, DecodeString;
    StringOnlyEncoding(b);
    var b1 := DecodeString(b).value.1;
    StringOnlyEncoding(b1);
    var b2 := DecodeString(b1).value.1;
    StringOnlyEncoding(b2);
    var b3 := DecodeString(b2).value.1;
    StringOnlyEncoding(b3);
    var (signature, b4) := DecodeString(b3).value;
    assert b4 == [b4[0]];
    assert b ==
           BindFields(DecodeSessionBind(b).value.binding.hostKey, DecodeSessionBind(b).value.binding.sessionId,
                      signature,
                           DecodeSessionBind(b).value.forwarding);
  }

  // ---- What the signed data is ------------------------------------------------------------------

  /** Whether a character draws as nothing or changes how its neighbours are drawn. */
  predicate Invisible(c: char) {
    var n := c as int;
    || n < 0x20 || 0x7F <= n < 0xA0
    || 0x200B <= n <= 0x200F || 0x2028 <= n <= 0x202E || 0x2066 <= n <= 0x2069 || n == 0xFEFF
  }

  /** A namespace or login fit to show and to compare: bounded text with nothing invisible in it. */
  predicate Displayable(detail: Bytes) {
    && 0 < |detail| <= MAX_SIGN_DETAIL
    && var text := Utf8.Decode(detail);
       text.Some? && forall i :: 0 <= i < |text.value| ==> !Invisible(text.value[i])
  }

  /** PROTOCOL.sshsig: the preamble, then namespace, reserved, hash algorithm and message hash. */
  function SshSigNamespace(message: Bytes): Option<Bytes> {
    if |message| < 6 || message[..6] != SSHSIG_PREAMBLE then None else
    match DecodeString(message[6..])
    case None => None
    case Some((namespace, b1)) =>
      match DecodeString(b1)
      case None => None
      case Some((_, b2)) =>
        match DecodeString(b2)
        case None => None
        case Some((hash, b3)) =>
          match DecodeString(b3)
          case None => None
          case Some((_, b4)) =>
            if b4 != [] || (hash != SHA256 && hash != SHA512) || !Displayable(namespace) then None else Some(namespace)
  }

  /** Signature data in a namespace: its other fields are carried and not shown. */
  function SshSigMessage(namespace: Bytes, reserved: Bytes, hash: Bytes, digest: Bytes): Bytes
    requires |namespace| <= U32_MAX && |reserved| <= U32_MAX && |hash| <= U32_MAX && |digest| <= U32_MAX
  {
    SSHSIG_PREAMBLE + (EncodeString(namespace) + (EncodeString(reserved) + (EncodeString(hash) + EncodeString(digest))))
  }

  /** The message is signature data in this namespace, with a hash the format allows. */
  ghost predicate IsSshSig(namespace: Bytes, message: Bytes) {
    exists reserved, hash, digest ::
      && |namespace| <= U32_MAX && |reserved| <= U32_MAX && |digest| <= U32_MAX && (hash == SHA256 || hash == SHA512)
      && message == SshSigMessage(namespace, reserved, hash, digest)
  }

  /** Signature data is read back for its namespace. */
  lemma SshSigRoundTrip(namespace: Bytes, reserved: Bytes, hash: Bytes, digest: Bytes)
    requires Displayable(namespace) && (hash == SHA256 || hash == SHA512) && |reserved| <= U32_MAX
             && |digest| <= U32_MAX
    ensures SshSigNamespace(SshSigMessage(namespace, reserved, hash, digest)) == Some(namespace)
  {
    assert |namespace| <= U32_MAX;
    hide EncodeString, DecodeString, Displayable;
    var b3 := EncodeString(digest);
    var b2 := EncodeString(hash) + b3;
    var b1 := EncodeString(reserved) + b2;
    var fields := EncodeString(namespace) + b1;
    var message := SshSigMessage(namespace, reserved, hash, digest);
    assert message[..6] == SSHSIG_PREAMBLE && message[6..] == fields;
    StringRoundTrip(namespace, b1);
    StringRoundTrip(reserved, b2);
    StringRoundTrip(hash, b3);
    StringRoundTrip(digest, []);
    assert b3 + [] == b3;
  }

  /** Data read as a signature in a namespace is the encoding of one: no byte is ignored. */
  lemma SshSigOnlyEncoding(message: Bytes)
    requires SshSigNamespace(message).Some?
    ensures IsSshSig(SshSigNamespace(message).value, message) && Displayable(SshSigNamespace(message).value)
  {
    hide EncodeString, DecodeString, Displayable;
    var fields := message[6..];
    assert message == SSHSIG_PREAMBLE + fields;
    StringOnlyEncoding(fields);
    var b1 := DecodeString(fields).value.1;
    StringOnlyEncoding(b1);
    var b2 := DecodeString(b1).value.1;
    StringOnlyEncoding(b2);
    var b3 := DecodeString(b2).value.1;
    StringOnlyEncoding(b3);
    var digest := DecodeString(b3).value.0;
    assert b3 == EncodeString(digest);
    assert message ==
           SshSigMessage(DecodeString(fields).value.0, DecodeString(b1).value.0, DecodeString(b2).value.0, digest);
  }

  /** The fields of a login, RFC 4252 section 7, up to the key and an optional host key. */
  datatype Login = Login(
    sessionId: Bytes, user: Bytes, service: Bytes, hostbound: bool, algorithm: Bytes, key: Bytes, hostKey: Bytes)

  function DecodeLoginTail(b: Bytes, sessionId: Bytes, user: Bytes, service: Bytes, hostbound: bool): Option<Login> {
    match DecodeU8(b)
    case None => None
    case Some((signed, b1)) =>
      if signed != 1 then None else
      match DecodeString(b1)
      case None => None
      case Some((algorithm, b2)) =>
        match DecodeString(b2)
        case None => None
        case Some((key, b3)) =>
          if !hostbound then
            if b3 != [] then None else Some(Login(sessionId, user, service, false, algorithm, key, []))
          else
            match DecodeString(b3)
            case None => None
            case Some((hostKey, b4)) =>
              if b4 != [] || hostKey == [] || |hostKey| > MAX_HOST_KEY then None
              else Some(Login(sessionId, user, service, true, algorithm, key, hostKey))
  }

  function DecodeLogin(message: Bytes): Option<Login> {
    match DecodeString(message)
    case None => None
    case Some((sessionId, b1)) =>
      match DecodeU8(b1)
      case None => None
      case Some((kind, b2)) =>
        if kind != USERAUTH_REQUEST then None else
        match DecodeString(b2)
        case None => None
        case Some((user, b3)) =>
          match DecodeString(b3)
          case None => None
          case Some((service, b4)) =>
            match DecodeString(b4)
            case None => None
            case Some((how, b5)) =>
              if how == PUBLICKEY then DecodeLoginTail(b5, sessionId, user, service, false)
              else if how == HOSTBOUND then DecodeLoginTail(b5, sessionId, user, service, true)
              else None
  }

  /** The host of the last bind of this session. */
  function BoundHost(binds: seq<SessionBinding>, sessionId: Bytes): Option<Bytes> {
    if binds == [] then None
    else if binds[|binds| - 1].sessionId == sessionId then Some(binds[|binds| - 1].hostKey)
    else BoundHost(binds[..|binds| - 1], sessionId)
  }

  function UserAuthKind(blob: Bytes, message: Bytes, binds: seq<SessionBinding>): Option<SignKind> {
    match DecodeLogin(message)
    case None => None
    case Some(login) =>
      if login.key != blob then None else
      var bound := BoundHost(binds, login.sessionId);
      if bound.Some? && login.hostbound && bound.value != Fingerprint(login.hostKey) then None
      else if !Displayable(login.user) then None
      else if bound.Some? then Some(UserAuth(login.user, bound.value))
      else if login.hostbound then Some(UserAuth(login.user, Fingerprint(login.hostKey)))
      else Some(UserAuth(login.user, []))
  }

  function ClassifySign(blob: Bytes, message: Bytes, binds: seq<SessionBinding>): SignKind {
    match SshSigNamespace(message)
    case Some(namespace) => SshSig(namespace)
    case None =>
      match UserAuthKind(blob, message, binds)
      case Some(kind) => kind
      case None => Other
  }

  /** The two shapes cannot be confused: the preamble, read as a length, is past any frame. */
  lemma ShapesAreExclusive(message: Bytes)
    requires |message| <= MAX_FRAME_LEN && |message| >= 6 && message[..6] == SSHSIG_PREAMBLE
    ensures DecodeLogin(message).None?
  {
    var p := SSHSIG_PREAMBLE;
    assert message[..6][0] == 'S' as int && message[..6][1] == 'S' as int && message[..6][2] == 'H' as int
           && message[..6][3] == 'S' as int;
    assert ReadU32(message) == 0x53534853;
  }

  function LoginTail(login: Login): Bytes
    requires |login.algorithm| <= U32_MAX && |login.key| <= U32_MAX && |login.hostKey| <= U32_MAX
  {
    [1] + (EncodeString(login.algorithm) +
           (EncodeString(login.key) + if login.hostbound then EncodeString(login.hostKey) else []))
  }

  predicate FitsFields(login: Login) {
    && |login.sessionId| <= U32_MAX && |login.user| <= U32_MAX && |login.service| <= U32_MAX
    && |login.algorithm| <= U32_MAX && |login.key| <= U32_MAX && |login.hostKey| <= U32_MAX
  }

  /** A host-bound login names a host key of bounded size, and any other none. */
  predicate Sendable(login: Login) {
    FitsFields(login) && if login.hostbound then 0 < |login.hostKey| <= MAX_HOST_KEY else login.hostKey == []
  }

  /** The bytes a client signs to log in. */
  function LoginMessage(login: Login): Bytes
    requires FitsFields(login)
  {
    EncodeString(login.sessionId) +
    ([USERAUTH_REQUEST] +
     (EncodeString(login.user) +
      (EncodeString(login.service) +
       (EncodeString(if login.hostbound then HOSTBOUND else PUBLICKEY) + LoginTail(login)))))
  }

  lemma LoginTailOnlyEncoding(b: Bytes, sessionId: Bytes, user: Bytes, service: Bytes, hostbound: bool)
    requires DecodeLoginTail(b, sessionId, user, service, hostbound).Some?
    ensures var login := DecodeLoginTail(b, sessionId, user, service, hostbound).value;
            && login.sessionId == sessionId && login.user == user && login.service == service
            && login.hostbound == hostbound
            && |login.algorithm| <= U32_MAX && |login.key| <= U32_MAX && |login.hostKey| <= U32_MAX
            && (if hostbound then 0 < |login.hostKey| <= MAX_HOST_KEY else login.hostKey == [])
            && b == LoginTail(login)
  {
    hide EncodeString, DecodeString;
    assert b == [b[0]] + b[1..];
    StringOnlyEncoding(b[1..]);
    var b2 := DecodeString(b[1..]).value.1;
    StringOnlyEncoding(b2);
    var b3 := DecodeString(b2).value.1;
    if hostbound {
      StringOnlyEncoding(b3);
      var hostKey := DecodeString(b3).value.0;
      assert EncodeString(hostKey) + [] == EncodeString(hostKey);
    }
  }

  lemma LoginOnlyEncoding(message: Bytes)
    requires DecodeLogin(message).Some?
    ensures Sendable(DecodeLogin(message).value) && message == LoginMessage(DecodeLogin(message).value)
  {
    hide EncodeString, DecodeString, DecodeLoginTail, LoginTail;
    StringOnlyEncoding(message);
    var (sessionId, b1) := DecodeString(message).value;
    assert b1 == [b1[0]] + b1[1..];
    StringOnlyEncoding(b1[1..]);
    var (user, b3) := DecodeString(b1[1..]).value;
    StringOnlyEncoding(b3);
    var (service, b4) := DecodeString(b3).value;
    StringOnlyEncoding(b4);
    var (how, b5) := DecodeString(b4).value;
    LoginTailOnlyEncoding(b5, sessionId, user, service, how == HOSTBOUND);
  }

  /** The message is a login of that user with that key, and the host is the one bound to its session,
      or without a bind the one in the data if any; the two never disagree. */
  ghost predicate IsLogin(user: Bytes, host: Bytes, blob: Bytes, message: Bytes, binds: seq<SessionBinding>) {
    exists login ::
      && Sendable(login) && message == LoginMessage(login)
      && login.user == user && login.key == blob
      && var bound := BoundHost(binds, login.sessionId);
         && (bound.Some? ==> host == bound.value && (login.hostbound ==> host == Fingerprint(login.hostKey)))
         && (bound.None? ==> host == if login.hostbound then Fingerprint(login.hostKey) else [])
  }

  lemma LoginTailRoundTrip(login: Login)
    requires Sendable(login)
    ensures DecodeLoginTail(LoginTail(login), login.sessionId, login.user, login.service, login.hostbound) ==
            Some(login)
  {
    hide EncodeString, DecodeString;
    var host := if login.hostbound then EncodeString(login.hostKey) else [];
    var b2 := EncodeString(login.key) + host;
    var b1 := EncodeString(login.algorithm) + b2;
    assert LoginTail(login)[1..] == b1;
    StringRoundTrip(login.algorithm, b2);
    StringRoundTrip(login.key, host);
    if login.hostbound {
      StringRoundTrip(login.hostKey, []);
      assert EncodeString(login.hostKey) + [] == EncodeString(login.hostKey);
    }
  }

  /** Every login a client can send is read back whole. */
  lemma LoginRoundTrip(login: Login)
    requires Sendable(login)
    ensures DecodeLogin(LoginMessage(login)) == Some(login)
  {
    hide EncodeString, DecodeString, DecodeLoginTail, LoginTail;
    LoginTailRoundTrip(login);
    var how := if login.hostbound then HOSTBOUND else PUBLICKEY;
    assert |HOSTBOUND| != |PUBLICKEY|;
    var b4 := EncodeString(how) + LoginTail(login);
    var b3 := EncodeString(login.service) + b4;
    var b2 := EncodeString(login.user) + b3;
    var b1 := [USERAUTH_REQUEST] + b2;
    StringRoundTrip(login.sessionId, b1);
    assert b1[1..] == b2;
    StringRoundTrip(login.user, b3);
    StringRoundTrip(login.service, b4);
    StringRoundTrip(how, LoginTail(login));
  }

  /** What a prompt for a login says is what is signed: the data is the login of the user shown,
      with the signing key in it, and the host shown is the one bound to its session, or the one in
      the data, never a disagreement of the two. */
  lemma LoginShownIsLoginSigned(blob: Bytes, message: Bytes, binds: seq<SessionBinding>)
    requires ClassifySign(blob, message, binds).UserAuth?
    ensures var kind := ClassifySign(blob, message, binds);
            IsLogin(kind.user, kind.host, blob, message, binds)
  {
    LoginOnlyEncoding(message);
    hide DecodeLogin, LoginMessage, SshSigNamespace, Displayable;
    assert DecodeLogin(message).Some?;
  }

  /** Data is shown as a signature in a namespace exactly when it is one and the namespace can be shown. */
  lemma SignatureIsShown(blob: Bytes, message: Bytes, binds: seq<SessionBinding>, namespace: Bytes)
    ensures ClassifySign(blob, message, binds) == SshSig(namespace) <==>
            Displayable(namespace) && IsSshSig(namespace, message)
  {
    hide SshSigMessage, Displayable, UserAuthKind, SshSigNamespace;
    NotSignature(blob, message, binds);
    if SshSigNamespace(message).Some? {
      SshSigOnlyEncoding(message);
    }
    if Displayable(namespace) && IsSshSig(namespace, message) {
      var reserved, hash, digest :|
        && |namespace| <= U32_MAX && |reserved| <= U32_MAX && |digest| <= U32_MAX && (hash == SHA256 || hash == SHA512)
        && message == SshSigMessage(namespace, reserved, hash, digest);
      SshSigRoundTrip(namespace, reserved, hash, digest);
    }
  }

  lemma NotSignature(blob: Bytes, message: Bytes, binds: seq<SessionBinding>)
    ensures var kind := UserAuthKind(blob, message, binds); kind.Some? ==> kind.value.UserAuth?
  {
    hide DecodeLogin, Displayable, BoundHost, Fingerprint;
  }

  /** Data of a frame is shown as a login exactly when it is one with the signing key, its user can be shown, and
      its host is the one bound to its session. */
  lemma LoginIsShown(blob: Bytes, message: Bytes, binds: seq<SessionBinding>, user: Bytes, host: Bytes)
    requires |message| <= MAX_FRAME_LEN
    ensures ClassifySign(blob, message, binds) == UserAuth(user, host) <==>
            Displayable(user) && IsLogin(user, host, blob, message, binds)
  {
    hide DecodeLogin, LoginMessage, SshSigNamespace, Displayable, FitsFields;
    if ClassifySign(blob, message, binds) == UserAuth(user, host) {
      LoginShownIsLoginSigned(blob, message, binds);
    }
    if Displayable(user) && IsLogin(user, host, blob, message, binds) {
      var login :|
        && Sendable(login) && message == LoginMessage(login)
        && login.user == user && login.key == blob
        && var bound := BoundHost(binds, login.sessionId);
           && (bound.Some? ==> host == bound.value && (login.hostbound ==> host == Fingerprint(login.hostKey)))
           && (bound.None? ==> host == if login.hostbound then Fingerprint(login.hostKey) else []);
      LoginRoundTrip(login);
      NeitherShape(message);
    }
  }

  lemma NeitherShape(message: Bytes)
    requires |message| <= MAX_FRAME_LEN && DecodeLogin(message).Some?
    ensures SshSigNamespace(message).None?
  {
    hide DecodeLogin, DecodeString, Displayable;
    if |message| >= 6 && message[..6] == SSHSIG_PREAMBLE {
      ShapesAreExclusive(message);
    }
  }
}

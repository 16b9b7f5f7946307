/** The state loop of the SSH agent as one transition per event (main.rs), and the log it leaves. */
module AgentSpec {
  import opened Common
  import K = KeyStores
  import A = Approvals

  const HELD_LIFETIME_MS: nat := A.REQUEST_LIFETIME_MS
  const LOAD_END_GRACE_MS: nat := 5_000
  const CONTROL_OUTPUT_CAPACITY: nat := K.MAX_KEYS + 1 + 2 * A.MAX_PENDING + 1 + 8

  /** A reply channel. Arrivals are numbered, so each request has its own. */
  type Ticket = nat

  datatype SignRequest = SignRequest(blob: Bytes, message: Bytes, flags: nat, peer: A.Peer, scope: A.SignScope)

  // ---- The log ----------------------------------------------------------------------------------

  /** What clients and the panel can see of a run, in order. Replies go to separate channels, so a
      batch of equal replies (a map drained in hash order) is one entry. */
  datatype Entry =
    | Asked(ticket: Ticket, request: SignRequest)
    | AskedList(ticket: Ticket)
    | PromptedApproval(id: nat, ticket: Ticket, epoch: nat)
    | PromptedUnlock(id: nat, ticket: Ticket)
    | PromptedList(id: nat)
    | Approved(id: nat)
    | Opened(grant: A.Grant)
    | Revoked(grantId: nat)
    | RevokedAll
    | Down(epoch: nat)
    | Up(epoch: nat, keys: set<Bytes>)
    | Signed(ticket: Ticket, blob: Bytes, message: Bytes, flags: nat, now: nat)
    | Refused(tickets: set<Ticket>)
    | Listed(tickets: set<Ticket>, forwarded: bool, names: seq<(Bytes, string)>)
    | Cancelled(ids: set<nat>, reason: string)
    | Announced(count: nat)
    | Told(what: string)

  datatype Log = Start | Then(past: Log, entry: Entry)

  predicate Has(log: Log, e: Entry) {
    match log
    case Start => false
    case Then(past, x) => x == e || Has(past, e)
  }

  /** Every request ever accepted. */
  function Arrived(log: Log): set<Ticket> {
    match log
    case Start => {}
    case Then(past, e) =>
      match e
      case Asked(t, _) => Arrived(past) + {t}
      case AskedList(t) => Arrived(past) + {t}
      case _ => Arrived(past)
  }

  /** The requests accepted and not answered yet. */
  function Open(log: Log): set<Ticket> {
    match log
    case Start => {}
    case Then(past, e) =>
      match e
      case Asked(t, _) => Open(past) + {t}
      case AskedList(t) => Open(past) + {t}
      case Signed(t, _, _, _, _) => Open(past) - {t}
      case Refused(ts) => Open(past) - ts
      case Listed(ts, _, _) => Open(past) - ts
      case _ => Open(past)
  }

  /** The request ids the panel has been shown. */
  function Issued(log: Log): set<nat> {
    match log
    case Start => {}
    case Then(past, e) =>
      match e
      case PromptedApproval(id, _, _) => Issued(past) + {id}
      case PromptedUnlock(id, _) => Issued(past) + {id}
      case PromptedList(id) => Issued(past) + {id}
      case _ => Issued(past)
  }

  /** The ids the panel approved after being shown them. */
  function Consented(log: Log): set<nat> {
    match log
    case Start => {}
    case Then(past, e) =>
      if e.Approved? && e.id in Issued(past) then Consented(past) + {e.id} else Consented(past)
  }

  /** The grants opened under the present unlock and not revoked. */
  function Granted(log: Log): set<A.Grant> {
    match log
    case Start => {}
    case Then(past, e) =>
      match e
      case Opened(g) => Granted(past) + {g}
      case Revoked(id) => set g | g in Granted(past) && g.id != id
      case RevokedAll => {}
      case Down(_) => {}
      case _ => Granted(past)
  }

  datatype Service = Closed | Serving(epoch: nat, keys: set<Bytes>)

  /** Whether signing is open, under which epoch and for which keys. */
  function ServiceOf(log: Log): Service {
    match log
    case Start => Closed
    case Then(past, e) =>
      match e
      case Up(epoch, keys) => Serving(epoch, keys)
      case Down(_) => Closed
      case _ => ServiceOf(past)
  }

  /** The greatest epoch seen. */
  function HighEpoch(log: Log): nat {
    match log
    case Start => 0
    case Then(past, e) =>
      match e
      case Up(epoch, _) => Max(HighEpoch(past), epoch)
      case Down(epoch) => Max(HighEpoch(past), epoch)
      case _ => HighEpoch(past)
  }

  /** The panel approved this very request, shown under the epoch now served or held for an unlock. */
  ghost predicate ApprovedByPanel(past: Log, t: Ticket, epoch: nat) {
    exists id :: && id in Consented(past)
                 && (Has(past, PromptedApproval(id, t, epoch)) || Has(past, PromptedUnlock(id, t)))
  }

  /** A grant of this unlock, not revoked and not expired, covers the request. */
  ghost predicate CoveredByGrant(past: Log, r: SignRequest, epoch: nat, now: nat) {
    exists g :: g in Granted(past) && g.expiresAtMs > now && A.Covers(g, epoch, r.blob, r.peer, r.scope)
  }

  /** What must hold of the past for a signature to be sent. */
  ghost predicate MaySign(past: Log, t: Ticket, blob: Bytes, message: Bytes, flags: nat, now: nat) {
    && t in Open(past)
    && ServiceOf(past).Serving?
    && blob in ServiceOf(past).keys
    && exists peer, scope ::
         && Has(past, Asked(t, SignRequest(blob, message, flags, peer, scope)))
         && (|| ApprovedByPanel(past, t, ServiceOf(past).epoch)
             || CoveredByGrant(past, SignRequest(blob, message, flags, peer, scope), ServiceOf(past).epoch, now))
  }

  ghost predicate SafeEntry(past: Log, e: Entry) {
    match e
    case Asked(t, _) => t !in Arrived(past)
    case AskedList(t) => t !in Arrived(past)
    case PromptedApproval(id, t, epoch) =>
      id !in Issued(past) && t in Open(past) && ServiceOf(past).Serving? && ServiceOf(past).epoch == epoch
    case PromptedUnlock(id, t) => id !in Issued(past) && t in Open(past) && ServiceOf(past).Closed?
    case PromptedList(id) => id !in Issued(past)
    case Up(epoch, _) => epoch > HighEpoch(past)
    case Signed(t, blob, message, flags, now) => MaySign(past, t, blob, message, flags, now)
    case Refused(ts) => ts <= Open(past)
    case Listed(ts, forwarded, names) =>
      && ts <= Open(past)
      && (forwarded ==> forall i :: 0 <= i < |names| ==> names[i].1 == "")
    case _ => true
  }

  /** Every entry was allowed by what came before it. */
  ghost predicate SafeLog(log: Log) {
    match log
    case Start => true
    case Then(past, e) => SafeLog(past) && SafeEntry(past, e)
  }

  /** Messages to the panel an entry stands for. */
  function Messages(e: Entry): nat {
    match e
    case PromptedApproval(_, _, _) => 1
    case PromptedUnlock(_, _) => 1
    case PromptedList(_) => 1
    case Cancelled(ids, _) => |ids|
    case Announced(n) => n + 1
    case Told(_) => 1
    case _ => 0
  }

  function Sent(log: Log): nat {
    match log
    case Start => 0
    case Then(past, e) => Sent(past) + Messages(e)
  }

  // ---- The state --------------------------------------------------------------------------------

  datatype PendingSign = PendingSign(ticket: Ticket, message: Bytes, flags: nat)

  datatype HeldSign = HeldSign(
    ticket: Ticket, blob: Bytes, message: Bytes, flags: nat, peer: A.Peer, scope: A.SignScope,
    deadlineMs: nat, approved: Option<nat>)

  /** Listings waiting on an unlock, each with whether its connection is forwarded. */
  datatype HeldList = HeldList(id: nat, deadlineMs: nat, waiting: seq<(Ticket, bool)>)

  /** What the reader of a load brought back: nothing, or a payload of some size that may not parse. */
  datatype Payload = ReadFailed | Read(size: nat, envelope: Option<Envelope>)

  datatype Envelope = Envelope(loadId: Bytes, items: seq<K.CandidateItem>)

  datatype ActiveLoad =
    ActiveLoad(epoch: nat, nonce: Bytes, payload: Option<Payload>, endReceived: bool, payloadDeadlineMs: Option<nat>)

  datatype State = State(
    vault: K.Vault,
    approvals: A.Manager,
    pending: map<nat, PendingSign>,
    held: map<nat, HeldSign>,
    listing: Option<HeldList>,
    unlockOnDemand: bool,
    load: Option<ActiveLoad>,
    gateOpen: bool,
    greeted: bool,
    stopped: bool,
    arrivals: nat,
    log: Log)

  datatype Event =
    | Hello
    | VaultLocked(epoch: nat)
    | VaultLoggedOut
    | Approve(id: nat, seconds: nat, now: nat)
    | Deny(id: nat)
    | SetOptions(unlockOnDemand: bool)
    | RevokeGrants
    | RevokeGrant(grantId: nat)
    | Shutdown
    | BadLine
    | LoadBegin(epoch: nat, loadId: Bytes)
    | LoadEnd(epoch: nat, ok: bool, now: nat)
    | PayloadRead(epoch: nat, payload: Payload, now: nat)
    | AskSign(request: SignRequest, now: nat)
    | AskList(peer: A.Peer, forwarded: bool, now: nat)
    | Tick(now: nat, gone: set<Ticket>)

  function Initial(uid: nat): State {
    State(K.EMPTY_VAULT, A.Fresh(uid), map[], map[], None, false, None, false, false, false, 0, Start)
  }

  function Note(s: State, e: Entry): State {
    s.(log := Then(s.log, e))
  }

  function PendingTickets(pending: map<nat, PendingSign>): set<Ticket> {
    set id | id in pending :: pending[id].ticket
  }

  function HeldTickets(held: map<nat, HeldSign>): set<Ticket> {
    set id | id in held :: held[id].ticket
  }

  function WaitingTickets(listing: Option<HeldList>): set<Ticket> {
    if listing.None? then {} else set i | 0 <= i < |listing.value.waiting| :: listing.value.waiting[i].0
  }

  function WaitingOn(waiting: seq<(Ticket, bool)>, forwarded: bool): set<Ticket> {
    set i | 0 <= i < |waiting| && waiting[i].1 == forwarded :: waiting[i].0
  }

  /** The identities answer of one connection; a forwarded one gets no item names. */
  function Names(public: seq<K.PublicIdentity>, forwarded: bool): seq<(Bytes, string)> {
    seq(|public|, i requires 0 <= i < |public| => (public[i].blob, if forwarded then "" else public[i].name))
  }

  // ---- Steps shared by events -------------------------------------------------------------------

  function FailPending(s: State): State {
    Note(s.(pending := map[]), Refused(PendingTickets(s.pending)))
  }

  function CancelHeld(s: State, reason: string): State {
    Note(Note(s.(held := map[]), Refused(HeldTickets(s.held))), Cancelled(s.held.Keys, reason))
  }

  function ReleaseListing(s: State, reason: string): State {
    if s.listing.None? then s else
    var w := s.listing.value;
    var s1 := Note(s.(listing := None), Listed(WaitingOn(w.waiting, false), false, Names(s.vault.public, false)));
    var s2 := Note(s1, Listed(WaitingOn(w.waiting, true), true, Names(s.vault.public, true)));
    Note(s2, Cancelled({w.id}, reason))
  }

  /** Signing is denied from here: queue and grants are dropped and every queued request fails. */
  function CloseGate(s: State, vault: K.Vault): State {
    var closed := s.(gateOpen := false, vault := vault, approvals := A.InvalidateAll(s.approvals));
    FailPending(Note(closed, Down(vault.tracked.epoch)))
  }

  /** The final check at the signing point, and the reply it decides. */
  function Reply(vault: K.Vault, t: Ticket, auth: A.Authorization, message: Bytes, flags: nat, now: nat): Entry {
    if K.Signs(vault, auth.epoch, auth.blob, flags) then Signed(t, auth.blob, message, flags, now) else Refused({t})
  }

  function SettleEach(s: State, released: seq<A.PendingRequest>, now: nat): State
    decreases |released|
  {
    if released == [] then s else
    var r := released[0];
    SettleEach(SettleOne(s, r, now), released[1..], now)
  }

  function SettleOne(s: State, r: A.PendingRequest, now: nat): State {
    var log := if r.id !in s.pending then s.log else
      var sign := s.pending[r.id];
      Then(s.log, Reply(s.vault, sign.ticket, A.Authorization(r.epoch, r.blob), sign.message, sign.flags, now));
    s.(pending := s.pending - {r.id}, log := Then(log, Cancelled({r.id}, "granted")))
  }

  /** Answers the queued requests a live grant covers. */
  function SettleGranted(s: State, now: nat): State {
    var (a, released) := A.ReleaseGranted(s.approvals, now);
    SettleEach(s.(approvals := a), released, now)
  }

  /** Consumes an approval of the queued request `id` for the reply channel `t`. */
  function Consume(s: State, id: nat, t: Ticket, message: Bytes, flags: nat, seconds: nat, now: nat): State {
    var (a, r) := A.Approve(s.approvals, id, seconds, now);
    Consumed(s, a, r, A.Opens(s.approvals, id, seconds, now), t, message, flags, now)
  }

  function Consumed(s: State, a: A.Manager, r: Result<A.Authorization, A.ApprovalError>, grant: Option<A.Grant>,
                    t: Ticket, message: Bytes, flags: nat, now: nat): State
  {
    var log := if r.Ok? && grant.Some? then Then(s.log, Opened(grant.value)) else s.log;
    s.(approvals := a,
       log := Then(log, if r.Ok? then Reply(s.vault, t, r.value, message, flags, now) else Refused({t})))
  }

  /** Puts a request to the approval manager at the present epoch; `approved` is the window of an
      approval given while it was held. */
  function Ask(s: State, t: Ticket, r: SignRequest, approved: Option<nat>, now: nat): State {
    if !K.Authorizes(s.vault, r.blob) then Note(s, Refused({t})) else
    var (a, sub) := A.Submit(s.approvals, s.vault.tracked.epoch, r.blob, r.peer, r.scope, now);
    Handle(s.(approvals := a), sub, t, r, approved, now)
  }

  function Handle(s: State, sub: Result<A.Submitted, A.ApprovalError>, t: Ticket, r: SignRequest, approved: Option<nat>,
                  now: nat): State {
    match sub
    case Err(_) => Note(s, Refused({t}))
    case Ok(Granted(auth)) => Note(s, Reply(s.vault, t, auth, r.message, r.flags, now))
    case Ok(Queued(id)) =>
      if approved.Some? then
        Consume(s, id, t, r.message, r.flags, approved.value, now)
      else if r.blob !in K.Blobs(s.vault.public) then
        Note(s.(approvals := A.Disconnect(s.approvals, id)), Refused({t}))
      else
        Note(s, PromptedApproval(id, t, s.vault.tracked.epoch))
          .(pending := s.pending[id := PendingSign(t, r.message, r.flags)])
  }

  function ReleaseOne(s: State, id: nat, now: nat): State
    requires id in s.held
  {
    var h := s.held[id];
    var s1 := Note(s.(held := s.held - {id}), Cancelled({id}, "released"));
    Ask(s1, h.ticket, SignRequest(h.blob, h.message, h.flags, h.peer, h.scope), h.approved, now)
  }

  lemma ReleaseOneTakesOne(s: State, id: nat, now: nat)
    requires id in s.held
    ensures ReleaseOne(s, id, now).held == s.held - {id}
    ensures |ReleaseOne(s, id, now).held| < |s.held|
  {
    AskKeepsShell(Note(s.(held := s.held - {id}), Cancelled({id}, "released")), s.held[id].ticket,
                  SignRequest(s.held[id].blob, s.held[id].message, s.held[id].flags, s.held[id].peer, s.held[id].scope),
                  s.held[id].approved, now);
    assert |s.held.Keys - {id}| < |s.held.Keys|;
    assert (s.held - {id}).Keys == s.held.Keys - {id};
  }

  /** Only the queue, the reply map and the log may differ. */
  ghost predicate SameShell(s: State, s': State) {
    s' == s.(approvals := s'.approvals, pending := s'.pending, log := s'.log)
  }

  lemma ConsumeKeepsShell(s: State, id: nat, t: Ticket, message: Bytes, flags: nat, seconds: nat, now: nat)
    ensures SameShell(s, Consume(s, id, t, message, flags, seconds, now))
  {
  }

  lemma HandleKeepsShell(s: State, sub: Result<A.Submitted, A.ApprovalError>, t: Ticket, r: SignRequest,
                         approved: Option<nat>, now: nat)
    ensures SameShell(s, Handle(s, sub, t, r, approved, now))
  {
    match sub
    case Err(_) =>
    case Ok(Granted(auth)) =>
    case Ok(Queued(id)) =>
      if approved.Some? {
        ConsumeKeepsShell(s, id, t, r.message, r.flags, approved.value, now);
      }
  }

  lemma AskKeepsShell(s: State, t: Ticket, r: SignRequest, approved: Option<nat>, now: nat)
    ensures SameShell(s, Ask(s, t, r, approved, now))
  {
    var (a, sub) := A.Submit(s.approvals, s.vault.tracked.epoch, r.blob, r.peer, r.scope, now);
    HandleKeepsShell(s.(approvals := a), sub, t, r, approved, now);
  }

  /** Releases what was held for the unlock, in the order it was raised. */
  function ReleaseEach(s: State, now: nat): State
    decreases |s.held|
  {
    if s.held == map[] then s else
    var id := Least(s.held.Keys);
    ReleaseOneTakesOne(s, id, now);
    ReleaseEach(ReleaseOne(s, id, now), now)
  }

  function ReleaseHeld(s: State, now: nat): State {
    SettleGranted(ReleaseEach(s, now), now)
  }

  // ---- Loads ------------------------------------------------------------------------------------

  predicate HexDigit(b: byte) {
    48 <= b <= 57 || 65 <= b <= 70 || 97 <= b <= 102
  }

  predicate ValidNonce(text: Bytes) {
    |text| == 32 && forall i :: 0 <= i < |text| ==> HexDigit(text[i])
  }

  /** Decodes the payload of a load and publishes it: the new store, and whether it published. */
  function FinishedVault(v: K.Vault, load: ActiveLoad): (K.Vault, bool) {
    match load.payload
    case Some(Read(size, Some(envelope))) =>
      if size > K.MAX_FILTERED_BYTES || !ValidNonce(envelope.loadId) || envelope.loadId != load.nonce then
        (v, false)
      else
        var (v', r) := K.StoreLoad(v, load.epoch, size, envelope.items);
        (v', r.Ok?)
    case _ => (v, false)
  }

  /** Opens the gate on a published store and tells the panel its keys. */
  function Publish(s: State, vault: K.Vault): State {
    var up := Note(s.(vault := vault, gateOpen := true, load := None), Up(vault.tracked.epoch, K.SigningBlobs(vault)));
    Note(up, Announced(|vault.public|))
  }

  function FailLoad(s: State, vault: K.Vault, epoch: nat): State {
    var locked := K.StoreLock(vault, epoch);
    Note(s.(vault := locked, gateOpen := false, load := None), Down(locked.tracked.epoch))
  }

  function FinishLoad(s: State, now: nat): State {
    if s.load.None? || !s.load.value.endReceived || s.load.value.payload.None? then s else
    var (vault, published) := FinishedVault(s.vault, s.load.value);
    if published then
      ReleaseListing(ReleaseHeld(Publish(s, vault), now), "released")
    else
      ReleaseListing(CancelHeld(Note(FailLoad(s, vault, s.load.value.epoch), Told("load_failed")), "load-failed"),
                     "load-failed")
  }

  // ---- Events -----------------------------------------------------------------------------------

  function OnLocked(s: State, epoch: nat): State {
    var closed := CloseGate(s.(load := None), K.StoreLock(s.vault, epoch));
    Note(ReleaseListing(CancelHeld(closed, "locked"), "locked"), Told("locked"))
  }

  function OnLoggedOut(s: State): State {
    var closed := CloseGate(s.(load := None), K.StoreLogout(s.vault, SatAdd(s.vault.tracked.epoch, 1)));
    ReleaseListing(CancelHeld(closed, "logged-out"), "logged-out")
  }

  function OnApprove(s: State, id: nat, seconds: nat, now: nat): State {
    var s1 := Note(s, Approved(id));
    if id in s.held then
      s1.(held := s.held[id := s.held[id].(approved := Some(seconds))])
    else if id !in s.pending then
      s1
    else
      var sign := s.pending[id];
      var s2 := Consume(s1.(pending := s.pending - {id}), id, sign.ticket, sign.message, sign.flags, seconds, now);
      if seconds > 0 then SettleGranted(s2, now) else s2
  }

  function OnDeny(s: State, id: nat): State {
    var s1 := s.(approvals := A.Disconnect(s.approvals, id));
    var s2 := if id in s.pending then Note(s1.(pending := s.pending - {id}), Refused({s.pending[id].ticket})) else s1;
    var s3 := if id in s.held then Note(s2.(held := s.held - {id}), Refused({s.held[id].ticket})) else s2;
    if s.listing.Some? && s.listing.value.id == id then ReleaseListing(s3, "cancelled") else s3
  }

  function OnShutdown(s: State): State {
    var s1 := FailPending(s.(approvals := A.InvalidateAll(s.approvals), load := None));
    var s2 := ReleaseListing(CancelHeld(s1, "shutdown"), "shutdown");
    var out := K.StoreLogout(s.vault, SatAdd(s.vault.tracked.epoch, 1));
    Note(s2.(vault := out, gateOpen := false, stopped := true), Down(out.tracked.epoch))
  }

  function OnLoadBegin(s: State, epoch: nat, loadId: Bytes): State {
    if s.load.Some? then s.(stopped := true) else
    var closed := CloseGate(s, s.vault);
    if !ValidNonce(loadId) then closed.(stopped := true)
    else closed.(load := Some(ActiveLoad(epoch, loadId, None, false, None)))
  }

  function OnLoadEnd(s: State, epoch: nat, ok: bool, now: nat): State {
    if s.load.None? || s.load.value.epoch != epoch then
      s.(stopped := true)
    else if !ok then
      ReleaseListing(CancelHeld(FailLoad(s, s.vault, epoch), "load-failed"), "load-failed")
    else
      FinishLoad(s.(load := Some(s.load.value.(endReceived := true,
                                               payloadDeadlineMs := Some(SatAdd(now, LOAD_END_GRACE_MS))))), now)
  }

  function OnPayload(s: State, epoch: nat, payload: Payload, now: nat): State {
    if s.load.None? || s.load.value.epoch != epoch then s
    else FinishLoad(s.(load := Some(s.load.value.(payload := Some(payload)))), now)
  }

  function OnAskSign(s: State, r: SignRequest, now: nat): State {
    var t := s.arrivals;
    var s1 := Note(s.(arrivals := t + 1), Asked(t, r));
    if s.gateOpen then
      Ask(s1, t, r, None, now)
    else if r.blob !in K.Blobs(s.vault.public) || r.peer.uid != s.approvals.expectedUid
         || A.CapacityRemaining(s.approvals, |s.held|) == 0 then
      Note(s1, Refused({t}))
    else
      var (a, id) := A.ReserveRequestId(s.approvals);
      match id
      case Err(_) => Note(s1, Refused({t}))
      case Ok(id) =>
        var h := HeldSign(t, r.blob, r.message, r.flags, r.peer, r.scope, SatAdd(now, HELD_LIFETIME_MS), None);
        Note(s1.(approvals := a), PromptedUnlock(id, t)).(held := s.held[id := h])
  }

  function OnAskList(s: State, peer: A.Peer, forwarded: bool, now: nat): State {
    var t := s.arrivals;
    var s1 := Note(s.(arrivals := t + 1), AskedList(t));
    var direct := Note(s1, Listed({t}, forwarded, Names(s.vault.public, forwarded)));
    if s.vault.public != [] || !s.unlockOnDemand || peer.uid != s.approvals.expectedUid then
      direct
    else if s.listing.Some? then
      s1.(listing := Some(s.listing.value.(waiting := s.listing.value.waiting + [(t, forwarded)])))
    else
      var (a, id) := A.ReserveRequestId(s.approvals);
      match id
      case Err(_) => direct
      case Ok(id) =>
        Note(s1.(approvals := a), PromptedList(id))
          .(listing := Some(HeldList(id, SatAdd(now, HELD_LIFETIME_MS), [(t, forwarded)])))
  }

  /** Queued requests whose client left or whose deadline passed. */
  function Withdrawn(s: State, gone: set<Ticket>): set<nat> {
    set id | id in s.pending && (s.pending[id].ticket in gone || !A.IsPending(s.approvals, id))
  }

  function Stale(held: map<nat, HeldSign>, now: nat, gone: set<Ticket>): set<nat> {
    set id | id in held && (held[id].ticket in gone || held[id].deadlineMs <= now)
  }

  function NotIn(ids: set<nat>): A.PendingRequest -> bool {
    (r: A.PendingRequest) => r.id !in ids
  }

  function WithdrawPending(s: State, ids: set<nat>): State {
    var left := map id | id in s.pending && id in ids :: s.pending[id];
    var a := s.approvals.(pending := Retain(s.approvals.pending, NotIn(ids)));
    Note(Note(s.(approvals := a, pending := s.pending - ids), Refused(PendingTickets(left))),
         Cancelled(ids, "withdrawn"))
  }

  function WithdrawHeld(s: State, ids: set<nat>): State {
    var left := map id | id in s.held && id in ids :: s.held[id];
    Note(Note(s.(held := s.held - ids), Refused(HeldTickets(left))), Cancelled(ids, "withdrawn"))
  }

  predicate ListingOver(listing: Option<HeldList>, now: nat, gone: set<Ticket>) {
    && listing.Some?
    && (listing.value.deadlineMs <= now || forall w :: w in listing.value.waiting ==> w.0 in gone)
  }

  function OnTick(s: State, now: nat, gone: set<Ticket>): State {
    var s1 := s.(approvals := A.Expire(s.approvals, now));
    var timedOut := s.load.Some? && s.load.value.payload.None? && s.load.value.payloadDeadlineMs.Some?
                    && now >= s.load.value.payloadDeadlineMs.value;
    var s2 := if timedOut then FinishLoad(s1.(load := Some(s.load.value.(payload := Some(ReadFailed)))), now) else s1;
    var s3 := WithdrawPending(s2, Withdrawn(s2, gone));
    var s4 := WithdrawHeld(s3, Stale(s3.held, now, gone));
    if ListingOver(s4.listing, now, gone) then ReleaseListing(s4, "withdrawn") else s4
  }

  function Step(s: State, e: Event): State {
    if s.stopped then s else
    match e
    case Hello => if s.greeted then s.(stopped := true) else Note(s.(greeted := true), Told("ready"))
    case VaultLocked(epoch) => OnLocked(s, epoch)
    case VaultLoggedOut => OnLoggedOut(s)
    case Approve(id, seconds, now) => OnApprove(s, id, seconds, now)
    case Deny(id) => OnDeny(s, id)
    case SetOptions(on) => s.(unlockOnDemand := on)
    case RevokeGrants => Note(s.(approvals := A.RevokeAllGrants(s.approvals)), RevokedAll)
    case RevokeGrant(id) => Note(s.(approvals := A.RevokeGrant(s.approvals, id)), Revoked(id))
    case Shutdown => OnShutdown(s)
    case BadLine => s.(stopped := true)
    case LoadBegin(epoch, loadId) => OnLoadBegin(s, epoch, loadId)
    case LoadEnd(epoch, ok, now) => OnLoadEnd(s, epoch, ok, now)
    case PayloadRead(epoch, payload, now) => OnPayload(s, epoch, payload, now)
    case AskSign(r, now) => OnAskSign(s, r, now)
    case AskList(peer, forwarded, now) => OnAskList(s, peer, forwarded, now)
    case Tick(now, gone) => OnTick(s, now, gone)
  }
}

/** What the agent loop promises over every run. */
module AgentTheorems {
  import opened Common
  import opened AgentSpec
  import opened AgentSafety
  import opened AgentRuns
  import K = KeyStores
  import A = Approvals

  /** The states a run goes through, from the first to the one after its last event. */
  ghost predicate IsRun(uid: nat, events: seq<Event>, states: seq<State>) {
    && |states| == |events| + 1
    && states[0] == Initial(uid)
    && forall i :: 0 <= i < |events| ==> states[i + 1] == Step(states[i], events[i])
  }

  lemma StepKeepsInv(s: State, e: Event)
    requires Inv(s)
    ensures Inv(Step(s, e))
  {
    hide Inv, OnLocked, OnLoggedOut, OnApprove, OnDeny, OnShutdown, OnLoadBegin, OnLoadEnd, OnPayload, OnAskSign,
         OnAskList, OnTick;
    if !s.stopped {
      match e
      case Hello => GreetKeeps(s);
      case VaultLocked(epoch) => LockedKeeps(s, epoch);
      case VaultLoggedOut => LoggedOutKeeps(s);
      case Approve(id, seconds, now) => ApproveKeeps(s, id, seconds, now);
      case Deny(id) => DenyKeeps(s, id);
      case SetOptions(on) => OptionsKeep(s, on);
      case RevokeGrants => RevokeAllKeeps(s);
      case RevokeGrant(id) => RevokeKeeps(s, id);
      case Shutdown => ShutdownKeeps(s);
      case BadLine => StopKeeps(s);
      case LoadBegin(epoch, loadId) => LoadBeginKeeps(s, epoch, loadId);
      case LoadEnd(epoch, ok, now) => LoadEndKeeps(s, epoch, ok, now);
      case PayloadRead(epoch, payload, now) => PayloadKeeps(s, epoch, payload, now);
      case AskSign(r, now) => AskSignKeeps(s, r, now);
      case AskList(peer, forwarded, now) => AskListKeeps(s, peer, forwarded, now);
      case Tick(now, gone) => TickKeeps(s, now, gone);
    }
  }

  lemma StopKeeps(s: State)
    requires Inv(s)
    ensures Inv(s.(stopped := true))
  {
    hide Core;
    StoppedKeeps(s, {}, {});
  }

  lemma OptionsKeep(s: State, on: bool)
    requires Inv(s)
    ensures Inv(s.(unlockOnDemand := on))
  {
    hide Owns, Numbered, Gated, Evident, SafeLog;
  }

  lemma GreetKeeps(s: State)
    requires Inv(s)
    ensures Inv(s.(stopped := true))
    ensures Inv(Note(s.(greeted := true), Told("ready")))
  {
    StopKeeps(s);
    assert Core(s.(greeted := true), {}, {}) by { hide Owns, Numbered, Gated, Evident, SafeLog; }
    hide Core;
    NoteKeeps(s.(greeted := true), Told("ready"), {}, {});
  }

  lemma RevokeAllKeeps(s: State)
    requires Inv(s)
    ensures Inv(Note(s.(approvals := A.RevokeAllGrants(s.approvals)), RevokedAll))
  {
    hide Core;
    QueueIsSound(s, {}, {});
    RevokedKeeps(s, A.RevokeAllGrants(s.approvals), RevokedAll);
  }

  lemma RevokeKeeps(s: State, id: nat)
    requires Inv(s)
    ensures Inv(Note(s.(approvals := A.RevokeGrant(s.approvals, id)), Revoked(id)))
  {
    hide Core;
    QueueIsSound(s, {}, {});
    RetainIsFilter(s.approvals.grants, A.NotGrant(id));
    RevokedKeeps(s, A.RevokeGrant(s.approvals, id), Revoked(id));
  }

  lemma StartsSound(uid: nat)
    ensures Inv(Initial(uid))
  {
  }

  /** Over every run of events, in every state between events: the log is safe, every open request
      is in exactly one place, and gate, vault, queue, held requests and grants agree. */
  lemma {:induction false} EveryRunIsSafe(uid: nat, events: seq<Event>, states: seq<State>, n: nat)
    requires IsRun(uid, events, states) && n <= |events|
    ensures Inv(states[n])
    decreases n
  {
    hide Inv, Step, Initial;
    if n == 0 {
      StartsSound(uid);
    } else {
      EveryRunIsSafe(uid, events, states, n - 1);
      StepKeepsInv(states[n - 1], events[n - 1]);
    }
  }

  // ---- What a safe log says ---------------------------------------------------------------------

  /** `p` is what the log was at some earlier moment. */
  ghost predicate Earlier(p: Log, log: Log) {
    p == log || (log.Then? && Earlier(p, log.past))
  }

  lemma {:induction false} EarlierIsSafe(p: Log, log: Log)
    requires SafeLog(log) && Earlier(p, log)
    ensures SafeLog(p)
    decreases log
  {
    if p != log {
      EarlierIsSafe(p, log.past);
    }
  }

  /** Over every run, a signature goes out only while the vault serves the signed key, to a request
      that asked for exactly it and is still unanswered, and either the panel approved that very
      request or an unexpired, unrevoked grant of this unlock covers it. */
  lemma EverySignatureWasAllowed(uid: nat, events: seq<Event>, states: seq<State>, n: nat,
                                 past: Log, t: Ticket, blob: Bytes, message: Bytes, flags: nat, now: nat)
    requires IsRun(uid, events, states) && n <= |events|
    requires Earlier(Then(past, Signed(t, blob, message, flags, now)), states[n].log)
    ensures MaySign(past, t, blob, message, flags, now)
  {
    hide Step, Initial, Inv, MaySign, Earlier;
    EveryRunIsSafe(uid, events, states, n);
    LogIsSafe(states[n]);
    EntryWasSafe(past, Signed(t, blob, message, flags, now), states[n].log);
  }

  lemma LogIsSafe(s: State)
    requires Inv(s)
    ensures SafeLog(s.log)
  {
    hide Owns, Numbered, Gated, Evident, SafeLog;
  }

  lemma EntryWasSafe(past: Log, e: Entry, log: Log)
    requires SafeLog(log) && Earlier(Then(past, e), log)
    ensures SafeEntry(past, e)
  {
    EarlierIsSafe(Then(past, e), log);
  }

  /** A grant never lets a forwarded or unrecognised request through. */
  lemma GrantsAreLocal(past: Log, r: SignRequest, epoch: nat, now: nat)
    requires CoveredByGrant(past, r, epoch, now)
    ensures !r.scope.forwarded && r.scope.kind != A.Other
    ensures exists g :: g in Granted(past) && g.epoch == epoch && g.blob == r.blob && g.kind == r.scope.kind
                        && g.peer.uid == r.peer.uid && g.peer.executable == r.peer.executable && now < g.expiresAtMs
  {
  }

  function AnswerCount(log: Log, t: Ticket): nat {
    match log
    case Start => 0
    case Then(past, e) => AnswerCount(past, t) + if t in Answers(e) then 1 else 0
  }

  lemma {:induction false} SafeMeansOnce(log: Log, t: Ticket)
    requires SafeLog(log)
    ensures Open(log) <= Arrived(log)
    ensures AnswerCount(log, t) == (if t in Arrived(log) && t !in Open(log) then 1 else 0)
    decreases log
  {
    if log.Then? {
      SafeMeansOnce(log.past, t);
      if log.entry.Signed? {
        assert log.entry.ticket in Open(log.past);
      }
    }
  }

  /** Over every run, each request accepted is in exactly one of the queue, the held requests and
      the waiting listings, or has been answered exactly once. */
  lemma EveryRequestHasOnePlace(uid: nat, events: seq<Event>, states: seq<State>, n: nat, t: Ticket)
    requires IsRun(uid, events, states) && n <= |events| && t in Arrived(states[n].log)
    ensures var s := states[n];
            var queued, held, waiting := t in PendingTickets(s.pending), t in HeldTickets(s.held),
                                         t in WaitingTickets(s.listing);
            && !(queued && held) && !(queued && waiting) && !(held && waiting)
            && AnswerCount(s.log, t) == (if queued || held || waiting then 0 else 1)
  {
    EveryRunIsSafe(uid, events, states, n);
    hide IsRun, Numbered, Gated, Evident, SafeLog, PendingTickets, HeldTickets, WaitingTickets;
    SafeMeansOnce(states[n].log, t);
  }

  /** Over every run the gate, the vault, the queue and the held requests agree between events. */
  lemma BetweenEvents(uid: nat, events: seq<Event>, states: seq<State>, n: nat)
    requires IsRun(uid, events, states) && n <= |events|
    ensures var s := states[n];
            && (s.gateOpen ==> s.vault.tracked.state == K.Unlocked && s.held == map[])
            && (!s.gateOpen ==> s.approvals.pending == [] && s.approvals.grants == [] && s.pending == map[])
            && |s.approvals.pending| + |s.held| <= A.MAX_PENDING
            && (s.vault.tracked.state != K.Unlocked ==> s.vault.private == [])
            && (forall i :: 0 <= i < |s.vault.private| ==> s.vault.private[i].publicIndex < |s.vault.public|)
            && (forall q :: q in s.approvals.pending ==> q.id in s.pending && q.epoch == s.vault.tracked.epoch)
            && (forall g :: g in s.approvals.grants ==> g in Granted(s.log))
            && s.pending.Keys !! s.held.Keys
  {
    EveryRunIsSafe(uid, events, states, n);
    hide IsRun, Owns, SafeLog;
  }

  lemma {:induction false} IssuedStays(p: Log, e: Entry, log: Log)
    requires Earlier(Then(p, e), log) && IsPrompt(e)
    ensures e.id in Issued(log)
    decreases log
  {
    if Then(p, e) != log {
      IssuedStays(p, e, log.past);
    }
  }

  /** No request id is shown to the panel twice. */
  lemma IdsAreNeverReissued(log: Log, p1: Log, e1: Entry, p2: Log, e2: Entry)
    requires SafeLog(log) && IsPrompt(e1) && IsPrompt(e2)
    requires Earlier(Then(p1, e1), p2) && Earlier(Then(p2, e2), log)
    ensures e1.id != e2.id
  {
    EarlierIsSafe(Then(p2, e2), log);
    IssuedStays(p1, e1, p2);
  }

  /** `log` followed by the entries in order. */
  function Extended(log: Log, more: seq<Entry>): Log {
    if more == [] then log else Then(Extended(log, more[..|more| - 1]), more[|more| - 1])
  }

  lemma {:induction false} ShutWithoutUp(log: Log, more: seq<Entry>)
    requires ServiceOf(log) == Closed && forall i :: 0 <= i < |more| ==> !more[i].Up?
    ensures ServiceOf(Extended(log, more)) == Closed
    decreases |more|
  {
    if more != [] {
      ShutWithoutUp(log, more[..|more| - 1]);
    }
  }

  lemma {:induction false} EpochsRise(log: Log, more: seq<Entry>)
    ensures HighEpoch(log) <= HighEpoch(Extended(log, more))
    decreases |more|
  {
    if more != [] {
      EpochsRise(log, more[..|more| - 1]);
    }
  }

  /** After a lock, a logout or the start of a load, a signature is preceded by a publish under an
      epoch above every earlier one. */
  lemma {:induction false} SilentUntilPublished(before: Log, e: nat, more: seq<Entry>)
    requires SafeLog(Extended(Then(before, Down(e)), more))
    requires more != [] && more[|more| - 1].Signed?
    ensures exists i :: 0 <= i < |more| && more[i].Up? && more[i].epoch > e && more[i].epoch > HighEpoch(before)
  {
    var down := Then(before, Down(e));
    var init := more[..|more| - 1];
    SignedIsServed(Extended(down, init), more[|more| - 1]);
    hide SafeEntry;
    if forall i :: 0 <= i < |init| ==> !init[i].Up? {
      ShutWithoutUp(down, init);
      assert false;
    }
    var i :| 0 <= i < |init| && init[i].Up?;
    SafePrefix(down, more, i + 1);
    assert more[..i + 1][..i] == more[..i];
    EpochsRise(down, more[..i]);
    UpIsAbove(Extended(down, more[..i]), more[i]);
  }

  lemma SignedIsServed(past: Log, e: Entry)
    requires SafeEntry(past, e) && e.Signed?
    ensures ServiceOf(past).Serving?
  {
  }

  lemma UpIsAbove(past: Log, e: Entry)
    requires SafeEntry(past, e) && e.Up?
    ensures e.epoch > HighEpoch(past)
  {
  }

  lemma {:induction false} SafePrefix(log: Log, more: seq<Entry>, n: nat)
    requires SafeLog(Extended(log, more)) && n <= |more|
    ensures SafeLog(Extended(log, more[..n]))
    decreases |more|
  {
    if n < |more| {
      SafePrefix(log, more[..|more| - 1], n);
      assert more[..|more| - 1][..n] == more[..n];
    } else {
      assert more[..n] == more;
    }
  }

  // ---- Bounds -----------------------------------------------------------------------------------

  /** Releasing a held request never meets a full queue. */
  lemma ReleaseNeverFull(s: State, id: nat, now: nat)
    requires Core(s, {}, {}) && id in s.held
    ensures var h := s.held[id];
            A.Submit(s.approvals, s.vault.tracked.epoch, h.blob, h.peer, h.scope, now).1 != Err(A.QueueFull)
  {
    var h := s.held[id];
    HeldHasEvidence(s, id, Told(""));
    QueueIsSound(s, {}, {});
    hide Core, A.SoundQueue;
    A.SubmitOutcome(s.approvals, s.vault.tracked.epoch, h.blob, h.peer, h.scope, now);
    assert s.held.Keys != {};
  }

  lemma AskSends(s: State, t: Ticket, r: SignRequest, approved: Option<nat>, now: nat)
    ensures Sent(Ask(s, t, r, approved, now).log) <= Sent(s.log) + 1
  {
    hide A.Submit, A.Approve, A.Opens, A.Disconnect, K.Signs, K.Authorizes, K.Blobs;
    if K.Authorizes(s.vault, r.blob) {
      var (a, sub) := A.Submit(s.approvals, s.vault.tracked.epoch, r.blob, r.peer, r.scope, now);
      HandleSends(s.(approvals := a), sub, t, r, approved, now);
    }
  }

  lemma HandleSends(s: State, sub: Result<A.Submitted, A.ApprovalError>, t: Ticket, r: SignRequest,
                    approved: Option<nat>, now: nat)
    ensures Sent(Handle(s, sub, t, r, approved, now).log) <= Sent(s.log) + 1
  {
    hide A.Approve, A.Opens, A.Disconnect, K.Signs, K.Blobs;
    match sub
    case Err(_) =>
    case Ok(Granted(auth)) =>
    case Ok(Queued(id)) =>
      if approved.Some? {
        ConsumeSends(s, id, t, r.message, r.flags, approved.value, now);
      }
  }

  lemma ConsumeSends(s: State, id: nat, t: Ticket, message: Bytes, flags: nat, seconds: nat, now: nat)
    ensures Sent(Consume(s, id, t, message, flags, seconds, now).log) == Sent(s.log)
  {
    hide A.Approve, A.Opens, K.Signs;
    var (a, r) := A.Approve(s.approvals, id, seconds, now);
    var grant := A.Opens(s.approvals, id, seconds, now);
    var log := if r.Ok? && grant.Some? then Then(s.log, Opened(grant.value)) else s.log;
    assert Sent(log) == Sent(s.log);
  }

  lemma {:induction false} ReleaseSends(s: State, now: nat)
    ensures Sent(ReleaseEach(s, now).log) <= Sent(s.log) + 2 * |s.held|
    decreases |s.held|
  {
    if s.held != map[] {
      var id := Least(s.held.Keys);
      var h := s.held[id];
      ReleaseOneTakesOne(s, id, now);
      var s1 := Note(s.(held := s.held - {id}), Cancelled({id}, "released"));
      assert Sent(s1.log) == Sent(s.log) + 1;
      AskSends(s1, h.ticket, SignRequest(h.blob, h.message, h.flags, h.peer, h.scope), h.approved, now);
      hide Ask, IsLeast;
      assert Sent(ReleaseOne(s, id, now).log) <= Sent(s.log) + 2;
      hide ReleaseOne;
      ReleaseSends(ReleaseOne(s, id, now), now);
    }
  }

  lemma {:induction false} SettleSends(s: State, released: seq<A.PendingRequest>, now: nat)
    ensures Sent(SettleEach(s, released, now).log) == Sent(s.log) + |released|
    decreases |released|
  {
    if released != [] {
      SettleOneSends(s, released[0], now);
      hide SettleOne;
      SettleSends(SettleOne(s, released[0], now), released[1..], now);
    }
  }

  lemma SettleOneSends(s: State, q: A.PendingRequest, now: nat)
    ensures Sent(SettleOne(s, q, now).log) == Sent(s.log) + 1
  {
    hide K.Signs;
    if q.id in s.pending {
      var sign := s.pending[q.id];
      var reply := Reply(s.vault, sign.ticket, A.Authorization(q.epoch, q.blob), sign.message, sign.flags, now);
      assert Sent(Then(s.log, reply)) == Sent(s.log);
    }
  }

  lemma SettleGrantedSends(s: State, now: nat)
    requires Core(s, {}, {})
    ensures Sent(SettleGranted(s, now).log) <= Sent(s.log) + A.MAX_PENDING
  {
    hide Core;
    QueueIsSound(s, {}, {});
    A.ReleaseOutcome(s.approvals, now);
    var (a, released) := A.ReleaseGranted(s.approvals, now);
    hide A.ReleaseGranted, SettleEach;
    SettleSends(s.(approvals := a), released, now);
  }

  lemma ListingSends(s: State, reason: string)
    ensures Sent(ReleaseListing(s, reason).log) <= Sent(s.log) + 1
  {
    hide Names, WaitingOn;
    if s.listing.Some? {
      var w := s.listing.value;
      var l1 := Then(s.log, Listed(WaitingOn(w.waiting, false), false, Names(s.vault.public, false)));
      assert Sent(Then(l1, Listed(WaitingOn(w.waiting, true), true, Names(s.vault.public, true)))) == Sent(s.log);
    }
  }

  /** The largest burst of one iteration fits the control channel: a load that publishes every key
      it may, releases and prompts for every request held, settles some of them again by a grant one
      of them opened, and answers the listings. */
  lemma PublishedLoadFits(s: State, vault: K.Vault, now: nat)
    requires Core(s, {}, {}) && !s.gateOpen
    requires K.SoundVault(vault) && s.vault.tracked.epoch < vault.tracked.epoch && vault.tracked.state == K.Unlocked
    ensures Sent(ReleaseListing(ReleaseHeld(Publish(s, vault), now), "released").log) <=
            Sent(s.log) + CONTROL_OUTPUT_CAPACITY
  {
    hide Core, ReleaseEach, SettleGranted, ReleaseListing;
    PublishKeeps(s, vault);
    var up := Publish(s, vault);
    PublishSends(s, vault);
    assert up.gateOpen && up.held == s.held;
    hide Publish, K.SoundVault;
    HeldIsBounded(s);
    ReleaseEachKeeps(up, now);
    ReleaseSends(up, now);
    SettleGrantedSends(ReleaseEach(up, now), now);
    ListingSends(ReleaseHeld(up, now), "released");
  }

  lemma FailedLoadFits(s: State, vault: K.Vault, epoch: nat)
    requires |s.held| <= A.MAX_PENDING
    ensures Sent(ReleaseListing(CancelHeld(Note(FailLoad(s, vault, epoch), Told("load_failed")), "load-failed"),
                                "load-failed").log)
            <= Sent(s.log) + CONTROL_OUTPUT_CAPACITY
  {
    hide ReleaseListing, HeldTickets, K.StoreLock;
    var failed := FailLoad(s, vault, epoch);
    assert Sent(failed.log) == Sent(s.log) && failed.held == s.held;
    hide FailLoad;
    var told := Note(failed, Told("load_failed"));
    assert Sent(Then(told.log, Refused(HeldTickets(s.held)))) == Sent(s.log) + 1;
    ListingSends(CancelHeld(told, "load-failed"), "load-failed");
  }

  lemma FinishLoadFits(s: State, now: nat)
    requires Inv(s)
    ensures Sent(FinishLoad(s, now).log) <= Sent(s.log) + CONTROL_OUTPUT_CAPACITY
  {
    hide Core, ReleaseHeld, ReleaseListing, CancelHeld, Publish, FailLoad, FinishedVault, K.SoundVault;
    if s.load.Some? && s.load.value.endReceived && s.load.value.payload.Some? {
      VaultFacts(s);
      HeldIsBounded(s);
      FinishedVaultIsSound(s.vault, s.load.value);
      var (vault, published) := FinishedVault(s.vault, s.load.value);
      if published {
        PublishedLoadFits(s, vault, now);
      } else {
        FailedLoadFits(s, vault, s.load.value.epoch);
      }
    }
  }

  lemma RefusedLoadFits(s: State, epoch: nat)
    requires |s.held| <= A.MAX_PENDING
    ensures Sent(ReleaseListing(CancelHeld(FailLoad(s, s.vault, epoch), "load-failed"), "load-failed").log)
            <= Sent(s.log) + CONTROL_OUTPUT_CAPACITY
  {
    hide ReleaseListing, HeldTickets, K.StoreLock;
    var failed := FailLoad(s, s.vault, epoch);
    assert Sent(failed.log) == Sent(s.log) && failed.held == s.held;
    hide FailLoad;
    assert Sent(Then(failed.log, Refused(HeldTickets(s.held)))) == Sent(s.log);
    ListingSends(CancelHeld(failed, "load-failed"), "load-failed");
  }

  lemma HeldIsBounded(s: State)
    requires Core(s, {}, {})
    ensures |s.held| <= A.MAX_PENDING
  {
    hide Owns, Numbered, Evident, SafeLog;
  }

  lemma PublishSends(s: State, vault: K.Vault)
    requires K.SoundVault(vault)
    ensures Sent(Publish(s, vault).log) <= Sent(s.log) + K.MAX_KEYS + 1
  {
    hide K.SigningBlobs;
    assert Sent(Then(s.log, Up(vault.tracked.epoch, K.SigningBlobs(vault)))) == Sent(s.log);
  }

  // ---- What approving brings --------------------------------------------------------------------

  lemma {:induction false} SettleKeepsEntry(s: State, released: seq<A.PendingRequest>, now: nat, e: Entry)
    requires Has(s.log, e)
    ensures Has(SettleEach(s, released, now).log, e)
    decreases |released|
  {
    if released != [] {
      HasGrows(s, released[0], now, e);
      hide SettleOne;
      SettleKeepsEntry(SettleOne(s, released[0], now), released[1..], now, e);
    }
  }

  /** The reply an approval of `id` must bring: the signature exactly when the request is still
      alive, a grant id is left if a grant is asked for, and the key signs under the flags. */
  function ApprovalReply(vault: K.Vault, m: A.Manager, id: nat, t: Ticket, message: Bytes, flags: nat, seconds: nat,
                         now: nat): Entry {
    var found := A.Find(A.Expire(m, now).pending, id);
    if && found.Some?
       && (seconds == 0 || !A.Grantable(found.value.scope) || m.nextGrantId < U64_MAX)
       && K.Signs(vault, found.value.epoch, found.value.blob, flags)
    then Signed(t, found.value.blob, message, flags, now)
    else Refused({t})
  }

  /** Approving a queued request answers it as it must, whatever a grant settles after it. */
  lemma ApprovalAnswers(s: State, id: nat, seconds: nat, now: nat)
    requires Inv(s) && id in s.pending
    ensures var sign := s.pending[id];
            Has(OnApprove(s, id, seconds, now).log,
                ApprovalReply(s.vault, s.approvals, id, sign.ticket, sign.message, sign.flags, seconds, now))
  {
    hide Inv, Consume, ApprovalReply, SettleEach;
    NotBoth(s, id);
    var sign := s.pending[id];
    var s1 := Note(s, Approved(id)).(pending := s.pending - {id});
    var s2 := Consume(s1, id, sign.ticket, sign.message, sign.flags, seconds, now);
    ConsumeAnswers(s1, id, sign.ticket, sign.message, sign.flags, seconds, now);
    if seconds > 0 {
      var (a, released) := A.ReleaseGranted(s2.approvals, now);
      hide A.ReleaseGranted;
      SettleKeepsEntry(s2.(approvals := a), released, now,
                       ApprovalReply(s.vault, s.approvals, id, sign.ticket, sign.message, sign.flags, seconds, now));
    }
  }

  lemma NotBoth(s: State, id: nat)
    requires Inv(s) && id in s.pending
    ensures id !in s.held
  {
    hide Owns, Gated, Evident, SafeLog;
  }

  lemma ConsumeAnswers(s: State, id: nat, t: Ticket, message: Bytes, flags: nat, seconds: nat, now: nat)
    ensures Has(Consume(s, id, t, message, flags, seconds, now).log,
                ApprovalReply(s.vault, s.approvals, id, t, message, flags, seconds, now))
  {
    hide K.Signs, A.Expire, A.Find;
  }

  /** A request that arrives with the gate open under a live covering grant is signed at once, with
      no prompt, exactly as its key and flags allow. */
  lemma CoveredAskIsAnswered(s: State, r: SignRequest, now: nat, g: A.Grant)
    requires Inv(s) && s.gateOpen && K.Authorizes(s.vault, r.blob)
    requires r.peer.uid == s.approvals.expectedUid
    requires g in s.approvals.grants && g.expiresAtMs > now
             && A.Covers(g, s.vault.tracked.epoch, r.blob, r.peer, r.scope)
    ensures var s' := OnAskSign(s, r, now);
            && s'.log == Then(Then(s.log, Asked(s.arrivals, r)),
                              if K.Signs(s.vault, s.vault.tracked.epoch, r.blob, r.flags)
                              then Signed(s.arrivals, r.blob, r.message, r.flags, now) else Refused({s.arrivals}))
            && s'.pending == s.pending && s'.held == s.held
  {
    QueueIsSound(s, {}, {});
    hide Inv, K.Authorizes, K.Signs;
    var s1 := Note(s.(arrivals := s.arrivals + 1), Asked(s.arrivals, r));
    A.SubmitOutcome(s.approvals, s.vault.tracked.epoch, r.blob, r.peer, r.scope, now);
    hide A.Submit, A.Covers, A.SoundQueue;
  }

  // ---- What each event leaves behind ------------------------------------------------------------

  lemma NothingWaitsMeansAllAnswered(s: State)
    requires Inv(s) && s.pending == map[] && s.held == map[] && s.listing.None?
    ensures Open(s.log) == {}
  {
    hide Numbered, Gated, Evident, SafeLog;
  }

  /** A lock leaves no one waiting, no grant and no private key; the public keys stay listed. */
  lemma LockAnswersEveryone(s: State, epoch: nat)
    requires Inv(s)
    ensures Open(OnLocked(s, epoch).log) == {} && Granted(OnLocked(s, epoch).log) == {}
    ensures OnLocked(s, epoch).vault.private == [] && OnLocked(s, epoch).vault.public == s.vault.public
  {
    hide Core;
    LockedKeeps(s, epoch);
    NothingWaitsMeansAllAnswered(OnLocked(s, epoch));
    ClosedHasNoGrants(s.(load := None), K.StoreLock(s.vault, epoch), "locked");
  }

  /** A logout leaves no public key either. */
  lemma LogoutAnswersEveryone(s: State)
    requires Inv(s)
    ensures Open(OnLoggedOut(s).log) == {} && Granted(OnLoggedOut(s).log) == {}
    ensures OnLoggedOut(s).vault.private == [] && OnLoggedOut(s).vault.public == []
  {
    hide Core;
    LoggedOutKeeps(s);
    NothingWaitsMeansAllAnswered(OnLoggedOut(s));
    ClosedHasNoGrants(s.(load := None), K.StoreLogout(s.vault, SatAdd(s.vault.tracked.epoch, 1)), "logged-out");
  }

  lemma ShutdownAnswersEveryone(s: State)
    requires Inv(s)
    ensures Open(OnShutdown(s).log) == {} && OnShutdown(s).vault.private == [] && OnShutdown(s).vault.public == []
  {
    hide Core;
    ShutdownKeeps(s);
    NothingWaitsMeansAllAnswered(OnShutdown(s));
  }

  lemma ClosedHasNoGrants(s: State, vault: K.Vault, reason: string)
    ensures Granted(ReleaseListing(CancelHeld(CloseGate(s, vault), reason), reason).log) == {}
  {
    hide Names, WaitingOn, HeldTickets, PendingTickets;
    var down := Then(s.log, Down(vault.tracked.epoch));
    assert Granted(Then(down, Refused(PendingTickets(s.pending)))) == {};
    var c := CancelHeld(CloseGate(s, vault), reason);
    assert Granted(c.log.past) == {};
    assert Granted(c.log) == {};
    hide CancelHeld, CloseGate;
    if c.listing.Some? {
      var l1 := Then(c.log, Listed(WaitingOn(c.listing.value.waiting, false), false, Names(c.vault.public, false)));
      var waiting := c.listing.value.waiting;
      assert Granted(Then(l1, Listed(WaitingOn(waiting, true), true, Names(c.vault.public, true)))) == {};
    }
  }

  /** After the sweep of a tick the reply map and the manager's queue name the same requests, and no
      one whose client left is kept. */
  lemma SweepSyncs(s: State, gone: set<Ticket>)
    requires Inv(s)
    ensures var s' := WithdrawPending(s, Withdrawn(s, gone));
            && (forall id :: id in s'.pending <==> A.IsPending(s'.approvals, id))
            && (forall id :: id in s'.pending ==> s'.pending[id].ticket !in gone)
  {
    var ids := Withdrawn(s, gone);
    RetainIsFilter(s.approvals.pending, NotIn(ids));
    var s' := WithdrawPending(s, ids);
    hide Owns, Gated, Evident, SafeLog, PendingTickets;
    forall id | id in s'.pending
      ensures A.IsPending(s'.approvals, id)
    {
      var r :| r in s.approvals.pending && r.id == id;
      assert r in s'.approvals.pending;
    }
  }

  /** The manager takes the request up: a live grant covers it, or there is room for it, an id, a clock
      that can still run, and a grant id if the approval opens one. */
  ghost predicate TakesUp(a: A.Manager, epoch: nat, r: SignRequest, seconds: nat, now: nat) {
    && r.peer.uid == a.expectedUid
    && ((exists g :: g in a.grants && g.expiresAtMs > now && A.Covers(g, epoch, r.blob, r.peer, r.scope))
        || (|A.Live(a, now)| < A.MAX_PENDING && a.nextId < U64_MAX && now < U64_MAX
            && (seconds == 0 || !A.Grantable(r.scope) || a.nextGrantId < U64_MAX)))
  }

  /** A request approved while it was held is answered once the load opens the gate, and it is signed
      exactly when the manager takes it up and its key and flags allow it: the approval is consumed at
      the new epoch, not merely remembered. */
  lemma HeldApprovalIsConsumed(s: State, t: Ticket, r: SignRequest, seconds: nat, now: nat)
    requires A.SoundQueue(s.approvals)
    ensures Has(Ask(s, t, r, Some(seconds), now).log,
                if TakesUp(s.approvals, s.vault.tracked.epoch, r, seconds, now)
                   && K.Signs(s.vault, s.vault.tracked.epoch, r.blob, r.flags)
                then Signed(t, r.blob, r.message, r.flags, now) else Refused({t}))
  {
    hide TakesUp, Handle, A.Find, A.Expire, A.Grantable, A.SoundQueue;
    if K.Signs(s.vault, s.vault.tracked.epoch, r.blob, r.flags) {
      SignsIsAuthorized(s.vault, r.blob, r.flags);
    }
    hide K.Signs, K.Authorizes;
    if K.Authorizes(s.vault, r.blob) {
      var (a, sub) := A.Submit(s.approvals, s.vault.tracked.epoch, r.blob, r.peer, r.scope, now);
      SubmittedHow(s.approvals, s.vault.tracked.epoch, r, seconds, now);
      hide A.Submit;
      HandledHow(s.(approvals := a), sub, s.vault.tracked.epoch, t, r, seconds, now);
    }
  }

  lemma SignsIsAuthorized(v: K.Vault, blob: Bytes, flags: nat)
    requires K.Signs(v, v.tracked.epoch, blob, flags)
    ensures K.Authorizes(v, blob)
  {
    hide K.FindPrivate;
  }

  /** Where a submitted request ends up, and whether approving it there can succeed. */
  lemma SubmittedHow(a: A.Manager, epoch: nat, r: SignRequest, seconds: nat, now: nat)
    requires A.SoundQueue(a)
    ensures var (a', sub) := A.Submit(a, epoch, r.blob, r.peer, r.scope, now);
            && (sub.Err? ==> !TakesUp(a, epoch, r, seconds, now))
            && (sub.Ok? && sub.value.Granted? ==>
                  sub.value.authorization == A.Authorization(epoch, r.blob) && TakesUp(a, epoch, r, seconds, now))
            && (sub.Ok? && sub.value.Queued? ==>
                  var found := A.Find(A.Expire(a', now).pending, sub.value.id);
                  && (TakesUp(a, epoch, r, seconds, now) <==>
                      found.Some? && (seconds == 0 || !A.Grantable(r.scope) || a'.nextGrantId < U64_MAX))
                  && (found.Some? ==>
                        found.value.epoch == epoch && found.value.blob == r.blob && found.value.scope == r.scope))
  {
    A.SubmitOutcome(a, epoch, r.blob, r.peer, r.scope, now);
    A.ExpireKeeps(a, now);
    A.LiveCount(a, now);
    hide A.Live;
    var (a', sub) := A.Submit(a, epoch, r.blob, r.peer, r.scope, now);
    if sub.Ok? && sub.value.Queued? {
      A.ExpireKeeps(a', now);
      A.FindIff(A.Expire(a', now).pending, a.nextId);
      RetainIsFilter(a'.pending, A.AliveAt(now));
    }
  }

  lemma HandledHow(s: State, sub: Result<A.Submitted, A.ApprovalError>, epoch: nat, t: Ticket, r: SignRequest,
                   seconds: nat, now: nat)
    requires epoch == s.vault.tracked.epoch
    requires sub.Ok? && sub.value.Granted? ==> sub.value.authorization == A.Authorization(epoch, r.blob)
    requires sub.Ok? && sub.value.Queued? ==>
               var found := A.Find(A.Expire(s.approvals, now).pending, sub.value.id);
               found.Some? ==> found.value.epoch == epoch && found.value.blob == r.blob && found.value.scope == r.scope
    ensures Has(Handle(s, sub, t, r, Some(seconds), now).log,
                if && sub.Ok?
                   && (sub.value.Queued? ==>
                         && A.Find(A.Expire(s.approvals, now).pending, sub.value.id).Some?
                         && (seconds == 0 || !A.Grantable(r.scope) || s.approvals.nextGrantId < U64_MAX))
                   && K.Signs(s.vault, epoch, r.blob, r.flags)
                then Signed(t, r.blob, r.message, r.flags, now) else Refused({t}))
  {
    hide K.Signs, A.Expire, A.Find;
    if sub.Ok? && sub.value.Queued? {
      ConsumeAnswers(s, sub.value.id, t, r.message, r.flags, seconds, now);
      hide Consume;
    }
  }
}

/** What each request of a client and each answer of the panel brings about: exactly when a request is prompted
    for, held, signed or refused, and what an approval or a denial does to it. */
module AgentOutcomes {
  import opened Common
  import opened AgentSpec
  import opened AgentSafety
  import opened AgentRuns
  import opened AgentRequests
  import T = AgentTheorems
  import K = KeyStores
  import A = Approvals

  // ---- A request while signing is open ----------------------------------------------------------

  /** The vault has the key and the client is the user's. */
  predicate Admitted(s: State, r: SignRequest) {
    K.Authorizes(s.vault, r.blob) && r.peer.uid == s.approvals.expectedUid
  }

  ghost predicate HasGrant(s: State, r: SignRequest, now: nat) {
    A.LiveGrant(s.approvals, s.vault.tracked.epoch, r.blob, r.peer, r.scope, now)
  }

  /** No grant covers it, and there is room for it in the live queue and an id left. */
  ghost predicate Prompts(s: State, r: SignRequest, now: nat) {
    && Admitted(s, r) && !HasGrant(s, r, now)
    && |A.Live(s.approvals, now)| < A.MAX_PENDING && s.approvals.nextId < U64_MAX
  }

  ghost predicate SignsAtOnce(s: State, r: SignRequest, now: nat) {
    Admitted(s, r) && HasGrant(s, r, now) && K.Signs(s.vault, s.vault.tracked.epoch, r.blob, r.flags)
  }

  /** The one entry a request gets: a prompt, a signature or a refusal. */
  ghost function Verdict(s: State, t: Ticket, r: SignRequest, now: nat): Entry {
    if Prompts(s, r, now) then PromptedApproval(s.approvals.nextId, t, s.vault.tracked.epoch)
    else if SignsAtOnce(s, r, now) then Signed(t, r.blob, r.message, r.flags, now)
    else Refused({t})
  }

  /** The queue after it: the live requests, and this one exactly when it is prompted for. */
  ghost predicate Queues(s: State, a: A.Manager, r: SignRequest, now: nat) {
    var asked := A.PendingRequest(s.approvals.nextId, s.vault.tracked.epoch, r.blob, r.peer, r.scope,
                                  SatAdd(now, A.REQUEST_LIFETIME_MS));
    && (Admitted(s, r) ==>
          forall q :: q in a.pending <==> q in A.Live(s.approvals, now) || (Prompts(s, r, now) && q == asked))
    && (!Admitted(s, r) ==> a == s.approvals)
    && (forall g :: g in a.grants ==> g in s.approvals.grants)
    && (forall g :: g in s.approvals.grants && g.expiresAtMs > now ==> g in a.grants)
  }

  /** What becomes of a request without an approval: it waits in the queue and the reply map under the id shown
      exactly when it is prompted for, and nothing else changes but requests and grants whose time is over. */
  ghost predicate Asks(s: State, s': State, t: Ticket, r: SignRequest, now: nat) {
    && s'.log == Then(s.log, Verdict(s, t, r, now))
    && s'.pending == (if Prompts(s, r, now) then s.pending[s.approvals.nextId := PendingSign(t, r.message, r.flags)]
                      else s.pending)
    && Queues(s, s'.approvals, r, now)
    && SameShell(s, s')
  }

  lemma AskVerdict(s: State, t: Ticket, r: SignRequest, now: nat)
    requires A.SoundQueue(s.approvals)
    ensures Asks(s, Ask(s, t, r, None, now), t, r, now)
  {
    AskKeepsShell(s, t, r, None, now);
    SignsNeedsKey(s.vault, r.blob, r.flags);
    hide A.Submit, K.Signs, K.Authorizes, A.SoundQueue, A.LiveGrant, A.Live, Handle;
    if K.Authorizes(s.vault, r.blob) {
      var (a, sub) := A.Submit(s.approvals, s.vault.tracked.epoch, r.blob, r.peer, r.scope, now);
      SubmittedQueue(s, r, now);
      HandleVerdict(s.(approvals := a), sub, t, r, now);
      hide Queues;
    }
  }

  lemma SubmittedQueue(s: State, r: SignRequest, now: nat)
    requires A.SoundQueue(s.approvals) && K.Authorizes(s.vault, r.blob)
    ensures var (a, sub) := A.Submit(s.approvals, s.vault.tracked.epoch, r.blob, r.peer, r.scope, now);
            && Queues(s, a, r, now)
            && (sub == Ok(A.Queued(s.approvals.nextId)) <==> Prompts(s, r, now))
            && (sub.Ok? && sub.value.Queued? ==> sub.value.id == s.approvals.nextId)
            && (sub.Ok? && sub.value.Granted? <==> Admitted(s, r) && HasGrant(s, r, now))
            && (sub.Ok? && sub.value.Granted? ==>
                  sub.value.authorization == A.Authorization(s.vault.tracked.epoch, r.blob))
  {
    A.SubmitVerdict(s.approvals, s.vault.tracked.epoch, r.blob, r.peer, r.scope, now);
    hide A.Submit, K.Authorizes, A.SoundQueue, A.LiveGrant, A.Live;
  }

  lemma HandleVerdict(s: State, sub: Result<A.Submitted, A.ApprovalError>, t: Ticket, r: SignRequest, now: nat)
    requires K.Authorizes(s.vault, r.blob)
    ensures var s' := Handle(s, sub, t, r, None, now);
            && s'.approvals == s.approvals
            && s'.log == Then(s.log, match sub
                                     case Err(_) => Refused({t})
                                     case Ok(Granted(auth)) => Reply(s.vault, t, auth, r.message, r.flags, now)
                                     case Ok(Queued(id)) => PromptedApproval(id, t, s.vault.tracked.epoch))
            && s'.pending == if sub.Ok? && sub.value.Queued?
                               then s.pending[sub.value.id := PendingSign(t, r.message, r.flags)] else s.pending
  {
    K.AuthorizedIsListed(s.vault, r.blob);
    hide K.Blobs, K.Signs, K.Authorizes, K.SigningBlobs;
  }

  lemma SignsNeedsKey(v: K.Vault, blob: Bytes, flags: nat)
    ensures K.Signs(v, v.tracked.epoch, blob, flags) ==> K.Authorizes(v, blob)
  {
    hide K.FindPrivate;
  }

  /** A client's request with the gate open. */
  lemma OpenAsk(s: State, r: SignRequest, now: nat)
    requires Inv(s) && s.gateOpen
    ensures var s1 := Note(s.(arrivals := s.arrivals + 1), Asked(s.arrivals, r));
            Asks(s1, OnAskSign(s, r, now), s.arrivals, r, now)
  {
    QueueIsSound(s, {}, {});
    hide Inv, Core, Asks, A.SoundQueue, OnAskSign;
    OpenIsAsk(s, r, now);
    AskVerdict(Note(s.(arrivals := s.arrivals + 1), Asked(s.arrivals, r)), s.arrivals, r, now);
  }

  lemma OpenIsAsk(s: State, r: SignRequest, now: nat)
    requires s.gateOpen
    ensures OnAskSign(s, r, now) ==
            Ask(Note(s.(arrivals := s.arrivals + 1), Asked(s.arrivals, r)), s.arrivals, r, None, now)
  {
    hide Ask, K.Blobs, A.CapacityRemaining;
  }

  /** A request that was held, when the load opens the gate: withdrawn as an unlock prompt and then asked as any
      other, unless it was approved meanwhile. */
  lemma ReleasedAsk(s: State, id: nat, now: nat)
    requires Core(s, {}, {}) && id in s.held && s.held[id].approved == None
    ensures var h := s.held[id];
            var s1 := Note(s.(held := s.held - {id}), Cancelled({id}, "released"));
            Asks(s1, ReleaseOne(s, id, now), h.ticket, SignRequest(h.blob, h.message, h.flags, h.peer, h.scope), now)
  {
    QueueIsSound(s, {}, {});
    hide Core, Asks, Ask, A.SoundQueue;
    var h := s.held[id];
    AskVerdict(Note(s.(held := s.held - {id}), Cancelled({id}, "released")), h.ticket,
               SignRequest(h.blob, h.message, h.flags, h.peer, h.scope), now);
  }

  /** One that was approved is released with its approval. */
  lemma ReleasedApproved(s: State, id: nat, now: nat)
    requires Core(s, {}, {}) && id in s.held && s.held[id].approved.Some?
    ensures var h := s.held[id];
            var r := SignRequest(h.blob, h.message, h.flags, h.peer, h.scope);
            Has(ReleaseOne(s, id, now).log,
                if T.TakesUp(s.approvals, s.vault.tracked.epoch, r, h.approved.value, now)
                   && K.Signs(s.vault, s.vault.tracked.epoch, r.blob, r.flags)
                then Signed(h.ticket, r.blob, r.message, r.flags, now) else Refused({h.ticket}))
  {
    QueueIsSound(s, {}, {});
    hide Core, Ask, A.SoundQueue, K.Signs, T.TakesUp;
    var h := s.held[id];
    var s1 := Note(s.(held := s.held - {id}), Cancelled({id}, "released"));
    var r := SignRequest(h.blob, h.message, h.flags, h.peer, h.scope);
    T.HeldApprovalIsConsumed(s1, h.ticket, r, h.approved.value, now);
  }

  // ---- A request while signing is closed --------------------------------------------------------

  /** It can wait for an unlock: its key is listed, the client is the user's, fewer than `MAX_PENDING` requests
      are held, and there is an id left. */
  ghost predicate CanWait(s: State, r: SignRequest) {
    && (exists i :: 0 <= i < |s.vault.public| && s.vault.public[i].blob == r.blob)
    && r.peer.uid == s.approvals.expectedUid && |s.held| < A.MAX_PENDING && s.approvals.nextId < U64_MAX
  }

  /** A client's request with the gate closed: held for two minutes under the id of an unlock prompt exactly when
      it can wait, and refused otherwise. */
  lemma ClosedAsk(s: State, r: SignRequest, now: nat)
    requires Inv(s) && !s.gateOpen
    ensures var t, id, s' := s.arrivals, s.approvals.nextId, OnAskSign(s, r, now);
            var h := HeldSign(t, r.blob, r.message, r.flags, r.peer, r.scope, SatAdd(now, HELD_LIFETIME_MS), None);
            && s'.log == Then(Then(s.log, Asked(t, r)), if CanWait(s, r) then PromptedUnlock(id, t) else Refused({t}))
            && s'.held == (if CanWait(s, r) then s.held[id := h] else s.held)
            && s'.approvals == (if CanWait(s, r) then s.approvals.(nextId := id + 1) else s.approvals)
            && s'.pending == map[] && s'.listing == s.listing && s'.vault == s.vault && s'.load == s.load
            && !s'.gateOpen
  {
    hide Inv, K.Blobs, A.CapacityRemaining, Ask;
    ClosedFacts(s);
    BlobListed(s.vault.public, r.blob);
  }

  lemma ClosedFacts(s: State)
    requires Inv(s) && !s.gateOpen
    ensures s.pending == map[] && (A.CapacityRemaining(s.approvals, |s.held|) == 0 <==> |s.held| >= A.MAX_PENDING)
  {
    hide Core;
    VaultFacts(s);
  }

  lemma BlobListed(public: seq<K.PublicIdentity>, blob: Bytes)
    ensures blob in K.Blobs(public) <==> exists i :: 0 <= i < |public| && public[i].blob == blob
  {
  }

  // ---- Listings ---------------------------------------------------------------------------------

  /** A listing names every public key in order, with its item's name unless the connection is forwarded. */
  lemma NamesAll(public: seq<K.PublicIdentity>, forwarded: bool, i: nat)
    requires i < |public|
    ensures |Names(public, forwarded)| == |public|
    ensures Names(public, forwarded)[i].0 == public[i].blob
    ensures Names(public, forwarded)[i].1 == if forwarded then "" else public[i].name
  {
  }

  /** A listing waits exactly when there is nothing to list, unlocking on demand is on, the client is the user's,
      and a prompt is out already or can be; the first one to wait raises the prompt. */
  lemma ListOutcome(s: State, peer: A.Peer, forwarded: bool, now: nat)
    requires Inv(s)
    ensures var t, id, s' := s.arrivals, s.approvals.nextId, OnAskList(s, peer, forwarded, now);
            var waits := s.vault.public == [] && s.unlockOnDemand && peer.uid == s.approvals.expectedUid
                         && (s.listing.Some? || id < U64_MAX);
            && (t in Open(s'.log) <==> waits)
            && (!waits ==>
                  && s'.listing == s.listing
                  && s'.log == Then(Then(s.log, AskedList(t)),
                                    Listed({t}, forwarded, Names(s.vault.public, forwarded))))
            && (waits && s.listing.Some? ==>
                  && s'.listing == Some(s.listing.value.(waiting := s.listing.value.waiting + [(t, forwarded)]))
                  && s'.log == Then(s.log, AskedList(t)))
            && (waits && s.listing.None? ==>
                  && s'.listing == Some(HeldList(id, SatAdd(now, HELD_LIFETIME_MS), [(t, forwarded)]))
                  && s'.log == Then(Then(s.log, AskedList(t)), PromptedList(id)) && s'.approvals.nextId == id + 1)
            && s'.pending == s.pending && s'.held == s.held && s'.vault == s.vault && s'.gateOpen == s.gateOpen
  {
    hide Inv, Names;
    assert s.arrivals in Open(Then(s.log, AskedList(s.arrivals)));
  }

  // ---- Approvals --------------------------------------------------------------------------------

  /** Approving a held request is remembered with its window, and approving an id that is nowhere does nothing. */
  lemma ApproveElsewhere(s: State, id: nat, seconds: nat, now: nat)
    requires id !in s.pending
    ensures var s' := OnApprove(s, id, seconds, now);
            && s'.log == Then(s.log, Approved(id)) && s'.held.Keys == s.held.Keys
            && (forall i :: i in s.held ==>
                  s'.held[i] == if i == id then s.held[i].(approved := Some(seconds)) else s.held[i])
            && s'.pending == s.pending && s'.approvals == s.approvals && s'.listing == s.listing && s'.vault == s.vault
  {
    hide Consume, SettleGranted;
  }

  /** Approving a queued request takes it out; a window settles with it exactly the other queued requests that a
      live grant covers by then, and every other stays. */
  lemma ApproveQueued(s: State, id: nat, seconds: nat, now: nat)
    requires Inv(s) && id in s.pending
    ensures var s' := OnApprove(s, id, seconds, now);
            && id !in s'.pending
            && (forall i :: i in s'.pending ==> i in s.pending && s'.pending[i] == s.pending[i])
            && (forall i :: i in s.pending && i != id ==>
                  (i !in s'.pending <==> seconds > 0 && Settled(s, id, i, seconds, now)))
            && s'.held == s.held && s'.listing == s.listing && s'.vault == s.vault && s'.gateOpen == s.gateOpen
  {
    hide Inv, Core, Consume, SettleGranted, A.SoundQueue, A.Live, A.LiveGrant;
    NotHeld(s, id);
    SoundNow(s);
    var s1, sign := Note(s, Approved(id)), s.pending[id];
    var taken := s1.(pending := s.pending - {id});
    ConsumeIs(taken, id, sign.ticket, sign.message, sign.flags, seconds, now);
    var s2 := Consume(taken, id, sign.ticket, sign.message, sign.flags, seconds, now);
    A.ApproveOutcome(s.approvals, id, seconds, now);
    hide A.Approve;
    if seconds > 0 {
      SettleTakes(s2, now);
    }
  }

  lemma SoundNow(s: State)
    requires Inv(s)
    ensures A.SoundQueue(s.approvals)
  {
    hide Core;
    QueueIsSound(s, {}, {});
  }

  lemma ConsumeIs(s: State, id: nat, t: Ticket, message: Bytes, flags: nat, seconds: nat, now: nat)
    ensures var s' := Consume(s, id, t, message, flags, seconds, now);
            s' == s.(approvals := A.Approve(s.approvals, id, seconds, now).0, log := s'.log)
  {
    hide A.Approve, A.Opens, K.Signs;
  }

  lemma NotHeld(s: State, id: nat)
    requires Inv(s) && id in s.pending
    ensures id !in s.held
  {
    hide Owns, Gated, Evident, SafeLog;
  }

  /** After the approval a live grant covers the request queued under `i`. */
  ghost predicate Settled(s: State, id: nat, i: nat, seconds: nat, now: nat) {
    var a := A.Approve(s.approvals, id, seconds, now).0;
    exists q :: q in A.Live(a, now) && q.id == i && A.LiveGrant(a, q.epoch, q.blob, q.peer, q.scope, now)
  }

  lemma {:induction false} SettleEachTakes(s: State, released: seq<A.PendingRequest>, now: nat)
    ensures var s' := SettleEach(s, released, now);
            && (forall i :: i in s'.pending <==> i in s.pending && forall q :: q in released ==> q.id != i)
            && (forall i :: i in s'.pending ==> s'.pending[i] == s.pending[i])
            && s' == s.(pending := s'.pending, log := s'.log)
    decreases |released|
  {
    if released != [] {
      var r, s1 := released[0], SettleOne(s, released[0], now);
      assert s1.pending == s.pending - {r.id} && s1 == s.(pending := s1.pending, log := s1.log);
      hide SettleOne;
      SettleEachTakes(s1, released[1..], now);
      assert released == [r] + released[1..];
    }
  }

  lemma SettleTakes(s: State, now: nat)
    requires A.SoundQueue(s.approvals)
    ensures var s' := SettleGranted(s, now);
            && (forall i :: i in s'.pending <==>
                  i in s.pending && !exists q :: q in A.Live(s.approvals, now) && q.id == i
                                                 && A.LiveGrant(s.approvals, q.epoch, q.blob, q.peer, q.scope, now))
            && (forall i :: i in s'.pending ==> s'.pending[i] == s.pending[i])
            && s' == s.(approvals := s'.approvals, pending := s'.pending, log := s'.log)
  {
    A.ReleaseExactly(s.approvals, now);
    var (a, released) := A.ReleaseGranted(s.approvals, now);
    hide A.ReleaseGranted, SettleEach, A.Live, A.LiveGrant, A.SoundQueue;
    SettleEachTakes(s.(approvals := a), released, now);
  }

  /** The answer of a queued request that a grant settles. */
  function Answer(v: K.Vault, sign: PendingSign, q: A.PendingRequest, now: nat): Entry {
    if K.Signs(v, q.epoch, q.blob, sign.flags) then Signed(sign.ticket, q.blob, sign.message, sign.flags, now)
    else Refused({sign.ticket})
  }

  lemma {:induction false} SettleEachKeepsLog(s: State, released: seq<A.PendingRequest>, now: nat, e: Entry)
    requires Has(s.log, e)
    ensures Has(SettleEach(s, released, now).log, e)
    decreases |released|
  {
    hide SettleOne, Has;
    if released != [] {
      HasGrows(s, released[0], now, e);
      SettleEachKeepsLog(SettleOne(s, released[0], now), released[1..], now, e);
    }
  }

  lemma SettleOneAnswers(s: State, q: A.PendingRequest, now: nat)
    ensures var s' := SettleOne(s, q, now);
            && (q.id in s.pending ==> Has(s'.log, Answer(s.vault, s.pending[q.id], q, now)))
            && Has(s'.log, Cancelled({q.id}, "granted"))
            && s'.pending == s.pending - {q.id} && s'.vault == s.vault
  {
    hide K.Signs;
    if q.id in s.pending {
      var sign := s.pending[q.id];
      var told := Then(s.log, Answer(s.vault, sign, q, now));
      assert Has(told, Answer(s.vault, sign, q, now));
      assert SettleOne(s, q, now).log == Then(told, Cancelled({q.id}, "granted"));
    }
  }

  lemma {:induction false} SettleEachAnswers(s: State, released: seq<A.PendingRequest>, now: nat, q: A.PendingRequest)
    requires A.UniqueIds(released) && q in released
    ensures var s' := SettleEach(s, released, now);
            && (q.id in s.pending ==> Has(s'.log, Answer(s.vault, s.pending[q.id], q, now)))
            && Has(s'.log, Cancelled({q.id}, "granted"))
    decreases |released|
  {
    hide SettleOne, Has, Answer;
    SettleOneAnswers(s, released[0], now);
    var s1 := SettleOne(s, released[0], now);
    if q == released[0] {
      SettleEachKeepsLog(s1, released[1..], now, Cancelled({q.id}, "granted"));
      if q.id in s.pending {
        SettleEachKeepsLog(s1, released[1..], now, Answer(s.vault, s.pending[q.id], q, now));
      }
    } else {
      assert released == [released[0]] + released[1..];
      var i :| 0 <= i < |released| && released[i] == q;
      assert released[0].id != released[i].id;
      SettleEachAnswers(s1, released[1..], now, q);
    }
  }

  /** Every queued request that a live grant covers is answered when the queue is settled, signed exactly when its
      key and flags allow it at the epoch it was queued under, and its prompt is withdrawn. */
  lemma SettleAnswers(s: State, now: nat, q: A.PendingRequest)
    requires A.SoundQueue(s.approvals) && q in A.Live(s.approvals, now)
    requires A.LiveGrant(s.approvals, q.epoch, q.blob, q.peer, q.scope, now)
    ensures var s' := SettleGranted(s, now);
            && (q.id in s.pending ==> Has(s'.log, Answer(s.vault, s.pending[q.id], q, now)))
            && Has(s'.log, Cancelled({q.id}, "granted"))
  {
    A.ReleaseExactly(s.approvals, now);
    A.ReleasedUnique(s.approvals, now);
    var (a, released) := A.ReleaseGranted(s.approvals, now);
    hide A.ReleaseGranted, SettleEach, A.Live, A.LiveGrant, A.SoundQueue, Has, Answer, A.UniqueIds;
    SettleEachAnswers(s.(approvals := a), released, now, q);
  }

  /** Approving with a window answers every other queued request that a live grant covers by then. */
  lemma ApprovalSettles(s: State, id: nat, seconds: nat, now: nat, q: A.PendingRequest)
    requires Inv(s) && id in s.pending && seconds > 0 && q.id in s.pending && q.id != id
    requires var a := A.Approve(s.approvals, id, seconds, now).0;
             q in A.Live(a, now) && A.LiveGrant(a, q.epoch, q.blob, q.peer, q.scope, now)
    ensures var s' := OnApprove(s, id, seconds, now);
            && Has(s'.log, Answer(s.vault, s.pending[q.id], q, now)) && Has(s'.log, Cancelled({q.id}, "granted"))
  {
    hide Inv, Core, Consume, SettleGranted, A.SoundQueue, A.Live, A.LiveGrant, Has, Answer;
    NotHeld(s, id);
    SoundNow(s);
    var sign := s.pending[id];
    var taken := Note(s, Approved(id)).(pending := s.pending - {id});
    ConsumeIs(taken, id, sign.ticket, sign.message, sign.flags, seconds, now);
    A.ApproveOutcome(s.approvals, id, seconds, now);
    hide A.Approve;
    SettleAnswers(Consume(taken, id, sign.ticket, sign.message, sign.flags, seconds, now), now, q);
  }

  // ---- Denials ----------------------------------------------------------------------------------

  /** The tickets waiting under an id: of a queued or held request, or of every listing on its prompt. */
  function Waiting(s: State, id: nat): set<Ticket> {
    (if id in s.pending then {s.pending[id].ticket} else {})
    + (if id in s.held then {s.held[id].ticket} else {})
    + (if s.listing.Some? && s.listing.value.id == id then WaitingTickets(s.listing) else {})
  }

  /** A denial takes exactly what waits under the id out of the queue, the reply map, the held requests and the
      listings, answers it, and leaves everything else where it is. */
  lemma DenyOutcome(s: State, id: nat)
    requires Inv(s)
    ensures var s' := OnDeny(s, id);
            && s'.pending == s.pending - {id} && s'.held == s.held - {id}
            && (forall q :: q in s'.approvals.pending <==> q in s.approvals.pending && q.id != id)
            && s'.listing == (if s.listing.Some? && s.listing.value.id == id then None else s.listing)
            && Open(s'.log) == Open(s.log) - Waiting(s, id)
            && (id in s.pending ==> Has(s'.log, Refused({s.pending[id].ticket})))
            && (id in s.held ==> Has(s'.log, Refused({s.held[id].ticket})))
            && s'.approvals == s.approvals.(pending := s'.approvals.pending)
            && s'.vault == s.vault && s'.gateOpen == s.gateOpen && s'.load == s.load && s'.arrivals == s.arrivals
  {
    hide Inv, OnDeny, DeniedMaps, A.Disconnect, ReleaseListing, Open, WaitingTickets, Has;
    Disconnected(s.approvals, id);
    DenyIs(s, id);
    var s3 := DeniedMaps(s, id);
    DeniedTickets(s, id, s3);
    DeniedListing(s3);
    DeniedHas(s, id, s3);
  }

  /** Before the listings are looked at. */
  function DeniedMaps(s: State, id: nat): State {
    var s1 := s.(approvals := A.Disconnect(s.approvals, id));
    var s2 := if id in s.pending then Note(s1.(pending := s.pending - {id}), Refused({s.pending[id].ticket})) else s1;
    if id in s.held then Note(s2.(held := s.held - {id}), Refused({s.held[id].ticket})) else s2
  }

  lemma DenyIs(s: State, id: nat)
    ensures var s3 := DeniedMaps(s, id);
            && OnDeny(s, id) ==
               (if s.listing.Some? && s.listing.value.id == id then ReleaseListing(s3, "cancelled") else s3)
            && s3.approvals == A.Disconnect(s.approvals, id) && s3.listing == s.listing && s3.vault == s.vault
            && s3.gateOpen == s.gateOpen && s3.load == s.load && s3.arrivals == s.arrivals
  {
    hide A.Disconnect, ReleaseListing;
  }

  lemma DeniedTickets(s: State, id: nat, s3: State)
    requires s3 == DeniedMaps(s, id)
    ensures s3.pending == s.pending - {id} && s3.held == s.held - {id}
    ensures Open(s3.log) == Open(s.log) - (if id in s.pending then {s.pending[id].ticket} else {})
                            - (if id in s.held then {s.held[id].ticket} else {})
  {
    hide A.Disconnect;
    assert id !in s.pending ==> s.pending - {id} == s.pending;
    assert id !in s.held ==> s.held - {id} == s.held;
    var log2 := if id in s.pending then Then(s.log, Refused({s.pending[id].ticket})) else s.log;
    assert Open(log2) == Open(s.log) - (if id in s.pending then {s.pending[id].ticket} else {});
  }

  lemma Disconnected(a: A.Manager, id: nat)
    ensures var a' := A.Disconnect(a, id);
            && (forall q :: q in a'.pending <==> q in a.pending && q.id != id) && a' == a.(pending := a'.pending)
  {
    RetainIsFilter(a.pending, A.NotId(id));
  }

  lemma DeniedListing(s: State)
    ensures var s' := ReleaseListing(s, "cancelled");
            && s' == s.(listing := None, log := s'.log) && Open(s'.log) == Open(s.log) - WaitingTickets(s.listing)
  {
    hide Names;
    if s.listing.Some? {
      WaitingSplits(s.listing);
      var w := s.listing.value.waiting;
      var l1 := Then(s.log, Listed(WaitingOn(w, false), false, Names(s.vault.public, false)));
      var l2 := Then(l1, Listed(WaitingOn(w, true), true, Names(s.vault.public, true)));
      assert Open(l1) == Open(s.log) - WaitingOn(w, false);
      assert Open(l2) == Open(l1) - WaitingOn(w, true);
      assert Open(l2) == Open(s.log) - WaitingTickets(s.listing);
    } else {
      assert s.(listing := None) == s;
    }
  }

  lemma DeniedHas(s: State, id: nat, s3: State)
    requires s3 == DeniedMaps(s, id)
    ensures id in s.pending ==> Has(s3.log, Refused({s.pending[id].ticket}))
                                && Has(ReleaseListing(s3, "cancelled").log, Refused({s.pending[id].ticket}))
    ensures id in s.held ==> Has(s3.log, Refused({s.held[id].ticket}))
                             && Has(ReleaseListing(s3, "cancelled").log, Refused({s.held[id].ticket}))
  {
    hide A.Disconnect, ReleaseListing;
    ListingGrows(s3, "cancelled");
    GrownRequests(s3.log, ReleaseListing(s3, "cancelled").log);
    if id in s.pending {
      HasStays(s3.log, ReleaseListing(s3, "cancelled").log, Refused({s.pending[id].ticket}));
    }
    if id in s.held {
      HasStays(s3.log, ReleaseListing(s3, "cancelled").log, Refused({s.held[id].ticket}));
    }
  }

  lemma {:induction false} TwoAnswers(log: Log, t: Ticket, a: Entry, b: Entry)
    requires Has(log, a) && Has(log, b) && a != b && t in Answers(a) && t in Answers(b)
    ensures T.AnswerCount(log, t) >= 2
    decreases log
  {
    if log.entry == a {
      OneAnswer(log.past, t, b);
    } else if log.entry == b {
      OneAnswer(log.past, t, a);
    } else {
      TwoAnswers(log.past, t, a, b);
    }
  }

  lemma {:induction false} OneAnswer(log: Log, t: Ticket, a: Entry)
    requires Has(log, a) && t in Answers(a)
    ensures T.AnswerCount(log, t) >= 1
    decreases log
  {
    if log.entry != a {
      OneAnswer(log.past, t, a);
    }
  }

  /** Over every run: a request that was queued or held under an id the panel denied is never signed. */
  lemma DeniedIsNeverSigned(uid: nat, events: seq<Event>, states: seq<State>, i: nat, n: nat, t: Ticket, answer: Entry)
    requires T.IsRun(uid, events, states) && i < n <= |events| && events[i].Deny? && !states[i].stopped
    requires var id := events[i].id;
             || (id in states[i].pending && states[i].pending[id].ticket == t)
             || (id in states[i].held && states[i].held[id].ticket == t)
    requires answer.Signed? && answer.ticket == t
    ensures !Has(states[n].log, answer)
  {
    hide Step, Inv, T.Earlier, SafeLog;
    T.EveryRunIsSafe(uid, events, states, i);
    T.EveryRunIsSafe(uid, events, states, n);
    DenyRefuses(states[i], events[i], t);
    LogGrows(uid, events, states, i + 1, n);
    T.LogIsSafe(states[n]);
    HasStays(states[i + 1].log, states[n].log, Refused({t}));
    T.SafeMeansOnce(states[n].log, t);
    if Has(states[n].log, answer) {
      TwoAnswers(states[n].log, t, answer, Refused({t}));
    }
  }

  lemma DenyRefuses(s: State, e: Event, t: Ticket)
    requires Inv(s) && e.Deny? && !s.stopped
    requires || (e.id in s.pending && s.pending[e.id].ticket == t) || (e.id in s.held && s.held[e.id].ticket == t)
    ensures Has(Step(s, e).log, Refused({t}))
  {
    hide OnDeny, Inv;
    DenyOutcome(s, e.id);
  }
}

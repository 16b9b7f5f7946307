/** The log only grows, and where the sign requests in it come from: each was brought by its own event. */
module AgentRequests {
  import opened Common
  import opened AgentSpec
  import T = AgentTheorems
  import K = KeyStores
  import A = Approvals

  /** Every sign request that ever arrived, with its ticket. */
  function Requests(log: Log): set<(Ticket, SignRequest)> {
    match log
    case Start => {}
    case Then(past, e) => if e.Asked? then Requests(past) + {(e.ticket, e.request)} else Requests(past)
  }

  lemma {:induction false} AskedIffRequested(log: Log, t: Ticket, r: SignRequest)
    ensures Has(log, Asked(t, r)) <==> (t, r) in Requests(log)
    decreases log
  {
    if log.Then? {
      AskedIffRequested(log.past, t, r);
    }
  }

  // ---- More entries, and no request among them --------------------------------------------------

  /** The log after the earlier one, with no request in between. */
  ghost predicate Grown(p: Log, log: Log) {
    p == log || (log.Then? && !log.entry.Asked? && Grown(p, log.past))
  }

  lemma {:induction false} GrownTwice(p: Log, q: Log, log: Log)
    requires Grown(p, q) && Grown(q, log)
    ensures Grown(p, log)
    decreases log
  {
    if q != log {
      GrownTwice(p, q, log.past);
    }
  }

  lemma {:induction false} GrownRequests(p: Log, log: Log)
    requires Grown(p, log)
    ensures Requests(log) == Requests(p) && T.Earlier(p, log)
    decreases log
  {
    if p != log {
      GrownRequests(p, log.past);
    }
  }

  lemma One(log: Log, e: Entry)
    requires !e.Asked?
    ensures Grown(log, Then(log, e))
  {
  }

  lemma Two(log: Log, e1: Entry, e2: Entry)
    requires !e1.Asked? && !e2.Asked?
    ensures Grown(log, Then(Then(log, e1), e2))
  {
    One(log, e1);
  }

  // ---- Steps shared by events -------------------------------------------------------------------

  lemma ListingGrows(s: State, reason: string)
    ensures Grown(s.log, ReleaseListing(s, reason).log)
  {
    hide Names, WaitingOn;
    if s.listing.Some? {
      var w := s.listing.value;
      var e1 := Listed(WaitingOn(w.waiting, false), false, Names(s.vault.public, false));
      var e2 := Listed(WaitingOn(w.waiting, true), true, Names(s.vault.public, true));
      Two(s.log, e1, e2);
      One(Then(Then(s.log, e1), e2), Cancelled({w.id}, reason));
      GrownTwice(s.log, Then(Then(s.log, e1), e2), ReleaseListing(s, reason).log);
    }
  }

  lemma CancelGrows(s: State, reason: string)
    ensures Grown(s.log, CancelHeld(s, reason).log)
  {
    Two(s.log, Refused(HeldTickets(s.held)), Cancelled(s.held.Keys, reason));
  }

  /** Everything held is refused and every listing answered. */
  lemma DropGrows(s: State, reason: string)
    ensures Grown(s.log, ReleaseListing(CancelHeld(s, reason), reason).log)
  {
    hide CancelHeld, ReleaseListing;
    CancelGrows(s, reason);
    ListingGrows(CancelHeld(s, reason), reason);
    GrownTwice(s.log, CancelHeld(s, reason).log, ReleaseListing(CancelHeld(s, reason), reason).log);
  }

  lemma CloseGrows(s: State, vault: K.Vault)
    ensures Grown(s.log, CloseGate(s, vault).log)
  {
    Two(s.log, Down(vault.tracked.epoch), Refused(PendingTickets(s.pending)));
  }

  lemma ReplyAsksNothing(vault: K.Vault, t: Ticket, auth: A.Authorization, message: Bytes, flags: nat, now: nat)
    ensures !Reply(vault, t, auth, message, flags, now).Asked?
  {
  }

  lemma ConsumeGrows(s: State, id: nat, t: Ticket, message: Bytes, flags: nat, seconds: nat, now: nat)
    ensures Grown(s.log, Consume(s, id, t, message, flags, seconds, now).log)
  {
    hide A.Approve, A.Opens, K.Signs;
    var (a, r) := A.Approve(s.approvals, id, seconds, now);
    var grant := A.Opens(s.approvals, id, seconds, now);
    var log := if r.Ok? && grant.Some? then Then(s.log, Opened(grant.value)) else s.log;
    assert Grown(s.log, log);
    var e := if r.Ok? then Reply(s.vault, t, r.value, message, flags, now) else Refused({t});
    One(log, e);
    GrownTwice(s.log, log, Then(log, e));
  }

  lemma AskGrows(s: State, t: Ticket, r: SignRequest, approved: Option<nat>, now: nat)
    ensures Grown(s.log, Ask(s, t, r, approved, now).log)
  {
    hide A.Submit, K.Authorizes, K.Signs, Consume, Grown;
    if K.Authorizes(s.vault, r.blob) {
      var (a, sub) := A.Submit(s.approvals, s.vault.tracked.epoch, r.blob, r.peer, r.scope, now);
      HandleGrows(s.(approvals := a), sub, t, r, approved, now);
    } else {
      One(s.log, Refused({t}));
    }
  }

  lemma HandleGrows(s: State, sub: Result<A.Submitted, A.ApprovalError>, t: Ticket, r: SignRequest,
                    approved: Option<nat>, now: nat)
    ensures Grown(s.log, Handle(s, sub, t, r, approved, now).log)
  {
    hide Consume, K.Signs;
    if sub.Ok? && sub.value.Queued? && approved.Some? {
      ConsumeGrows(s, sub.value.id, t, r.message, r.flags, approved.value, now);
    }
  }

  lemma {:induction false} SettleEachGrows(s: State, released: seq<A.PendingRequest>, now: nat)
    ensures Grown(s.log, SettleEach(s, released, now).log)
    decreases |released|
  {
    hide SettleOne, Grown;
    if released == [] {
      SameGrows(s.log);
    } else {
      SettleOneGrows(s, released[0], now);
      SettleEachGrows(SettleOne(s, released[0], now), released[1..], now);
      GrownTwice(s.log, SettleOne(s, released[0], now).log, SettleEach(s, released, now).log);
    }
  }

  lemma SameGrows(log: Log)
    ensures Grown(log, log)
  {
  }

  lemma SettleOneGrows(s: State, r: A.PendingRequest, now: nat)
    ensures Grown(s.log, SettleOne(s, r, now).log)
  {
    hide Reply;
    if r.id in s.pending {
      var sign := s.pending[r.id];
      ReplyAsksNothing(s.vault, sign.ticket, A.Authorization(r.epoch, r.blob), sign.message, sign.flags, now);
      Two(s.log, Reply(s.vault, sign.ticket, A.Authorization(r.epoch, r.blob), sign.message, sign.flags, now),
          Cancelled({r.id}, "granted"));
    }
  }

  lemma SettleGrows(s: State, now: nat)
    ensures Grown(s.log, SettleGranted(s, now).log)
  {
    hide SettleEach;
    var (a, released) := A.ReleaseGranted(s.approvals, now);
    SettleEachGrows(s.(approvals := a), released, now);
  }

  lemma {:induction false} ReleaseEachGrows(s: State, now: nat)
    ensures Grown(s.log, ReleaseEach(s, now).log)
    decreases |s.held|
  {
    hide Grown;
    if s.held == map[] {
      SameGrows(s.log);
    } else {
      var id := Least(s.held.Keys);
      hide IsLeast;
      ReleaseOneTakesOne(s, id, now);
      ReleaseOneGrows(s, id, now);
      hide ReleaseOne;
      ReleaseEachGrows(ReleaseOne(s, id, now), now);
      GrownTwice(s.log, ReleaseOne(s, id, now).log, ReleaseEach(s, now).log);
    }
  }

  lemma ReleaseOneGrows(s: State, id: nat, now: nat)
    requires id in s.held
    ensures Grown(s.log, ReleaseOne(s, id, now).log)
  {
    hide Ask;
    var h := s.held[id];
    var s1 := Note(s.(held := s.held - {id}), Cancelled({id}, "released"));
    One(s.log, Cancelled({id}, "released"));
    AskGrows(s1, h.ticket, SignRequest(h.blob, h.message, h.flags, h.peer, h.scope), h.approved, now);
    GrownTwice(s.log, s1.log, ReleaseOne(s, id, now).log);
  }

  lemma PublishedGrows(s: State, vault: K.Vault, now: nat)
    ensures Grown(s.log, ReleaseListing(ReleaseHeld(Publish(s, vault), now), "released").log)
  {
    hide ReleaseListing, ReleaseEach, SettleGranted, K.SigningBlobs, Grown;
    var up := Publish(s, vault);
    Two(s.log, Up(vault.tracked.epoch, K.SigningBlobs(vault)), Announced(|vault.public|));
    ReleaseEachGrows(up, now);
    SettleGrows(ReleaseEach(up, now), now);
    ListingGrows(ReleaseHeld(up, now), "released");
    GrownTwice(s.log, up.log, ReleaseEach(up, now).log);
    GrownTwice(s.log, ReleaseEach(up, now).log, ReleaseHeld(up, now).log);
    GrownTwice(s.log, ReleaseHeld(up, now).log, ReleaseListing(ReleaseHeld(up, now), "released").log);
  }

  lemma FailGrows(s: State, vault: K.Vault, epoch: nat)
    ensures Grown(s.log, ReleaseListing(CancelHeld(FailLoad(s, vault, epoch), "load-failed"), "load-failed").log)
    ensures Grown(s.log, ReleaseListing(CancelHeld(Note(FailLoad(s, vault, epoch), Told("load_failed")), "load-failed"),
                                        "load-failed").log)
  {
    hide ReleaseListing, CancelHeld, K.StoreLock, Grown;
    var failed := FailLoad(s, vault, epoch);
    One(s.log, Down(K.StoreLock(vault, epoch).tracked.epoch));
    DropGrows(failed, "load-failed");
    GrownTwice(s.log, failed.log, ReleaseListing(CancelHeld(failed, "load-failed"), "load-failed").log);
    var told := Note(failed, Told("load_failed"));
    Two(s.log, Down(K.StoreLock(vault, epoch).tracked.epoch), Told("load_failed"));
    DropGrows(told, "load-failed");
    GrownTwice(s.log, told.log, ReleaseListing(CancelHeld(told, "load-failed"), "load-failed").log);
  }

  lemma FinishGrows(s: State, now: nat)
    ensures Grown(s.log, FinishLoad(s, now).log)
  {
    hide ReleaseListing, CancelHeld, ReleaseHeld, Publish, FailLoad, FinishedVault;
    if s.load.Some? && s.load.value.endReceived && s.load.value.payload.Some? {
      var (vault, published) := FinishedVault(s.vault, s.load.value);
      PublishedGrows(s, vault, now);
      FailGrows(s, vault, s.load.value.epoch);
      hide Grown;
    }
  }

  // ---- Events -----------------------------------------------------------------------------------

  lemma LockedGrows(s: State, epoch: nat)
    ensures Grown(s.log, OnLocked(s, epoch).log) && Grown(s.log, OnLoggedOut(s).log)
  {
    hide CloseGate, CancelHeld, ReleaseListing, K.StoreLock, K.StoreLogout;
    var s0 := s.(load := None);
    var c := CloseGate(s0, K.StoreLock(s.vault, epoch));
    CloseGrows(s0, K.StoreLock(s.vault, epoch));
    DropGrows(c, "locked");
    GrownTwice(s.log, c.log, ReleaseListing(CancelHeld(c, "locked"), "locked").log);
    var out := K.StoreLogout(s.vault, SatAdd(s.vault.tracked.epoch, 1));
    var d := CloseGate(s0, out);
    CloseGrows(s0, out);
    DropGrows(d, "logged-out");
    GrownTwice(s.log, d.log, ReleaseListing(CancelHeld(d, "logged-out"), "logged-out").log);
  }

  lemma ApproveGrows(s: State, id: nat, seconds: nat, now: nat)
    ensures Grown(s.log, OnApprove(s, id, seconds, now).log)
  {
    hide Consume, SettleGranted;
    var s1 := Note(s, Approved(id));
    One(s.log, Approved(id));
    if id !in s.held && id in s.pending {
      var sign, taken := s.pending[id], s1.(pending := s.pending - {id});
      var s2 := Consume(taken, id, sign.ticket, sign.message, sign.flags, seconds, now);
      ConsumeGrows(taken, id, sign.ticket, sign.message, sign.flags, seconds, now);
      SettleGrows(s2, now);
      hide Grown;
      GrownTwice(s.log, s1.log, s2.log);
      GrownTwice(s.log, s2.log, SettleGranted(s2, now).log);
    }
  }

  lemma DenyGrows(s: State, id: nat)
    ensures Grown(s.log, OnDeny(s, id).log)
  {
    hide ReleaseListing, A.Disconnect;
    var s1 := s.(approvals := A.Disconnect(s.approvals, id));
    var s2 := if id in s.pending then Note(s1.(pending := s.pending - {id}), Refused({s.pending[id].ticket})) else s1;
    assert Grown(s.log, s2.log);
    var s3 := if id in s.held then Note(s2.(held := s.held - {id}), Refused({s.held[id].ticket})) else s2;
    assert Grown(s2.log, s3.log);
    GrownTwice(s.log, s2.log, s3.log);
    ListingGrows(s3, "cancelled");
    GrownTwice(s.log, s3.log, ReleaseListing(s3, "cancelled").log);
  }

  lemma ShutdownGrows(s: State)
    ensures Grown(s.log, OnShutdown(s).log)
  {
    hide CancelHeld, ReleaseListing, K.StoreLogout;
    var s1 := FailPending(s.(approvals := A.InvalidateAll(s.approvals), load := None));
    One(s.log, Refused(PendingTickets(s.pending)));
    DropGrows(s1, "shutdown");
    GrownTwice(s.log, s1.log, ReleaseListing(CancelHeld(s1, "shutdown"), "shutdown").log);
  }

  lemma LoadGrows(s: State, epoch: nat, loadId: Bytes, ok: bool, now: nat)
    ensures Grown(s.log, OnLoadBegin(s, epoch, loadId).log) && Grown(s.log, OnLoadEnd(s, epoch, ok, now).log)
  {
    hide CloseGate, CancelHeld, ReleaseListing, FailLoad, FinishLoad, ValidNonce;
    CloseGrows(s, s.vault);
    if s.load.Some? && s.load.value.epoch == epoch {
      FinishGrows(s.(load := Some(s.load.value.(endReceived := true,
                                                payloadDeadlineMs := Some(SatAdd(now, LOAD_END_GRACE_MS))))), now);
      FailGrows(s, s.vault, epoch);
    }
  }

  lemma PayloadGrows(s: State, epoch: nat, payload: Payload, now: nat)
    ensures Grown(s.log, OnPayload(s, epoch, payload, now).log)
  {
    hide FinishLoad;
    if s.load.Some? && s.load.value.epoch == epoch {
      FinishGrows(s.(load := Some(s.load.value.(payload := Some(payload)))), now);
    }
  }

  lemma SignGrows(s: State, r: SignRequest, now: nat)
    ensures Grown(Then(s.log, Asked(s.arrivals, r)), OnAskSign(s, r, now).log)
  {
    hide Ask, K.Blobs, A.CapacityRemaining;
    var s1 := Note(s.(arrivals := s.arrivals + 1), Asked(s.arrivals, r));
    AskGrows(s1, s.arrivals, r, None, now);
    One(s1.log, Refused({s.arrivals}));
    One(s1.log, PromptedUnlock(s.approvals.nextId, s.arrivals));
    hide Grown;
  }

  lemma ListGrows(s: State, peer: A.Peer, forwarded: bool, now: nat)
    ensures Grown(s.log, OnAskList(s, peer, forwarded, now).log)
  {
    hide Names;
    One(s.log, AskedList(s.arrivals));
    Two(s.log, AskedList(s.arrivals), Listed({s.arrivals}, forwarded, Names(s.vault.public, forwarded)));
    Two(s.log, AskedList(s.arrivals), PromptedList(s.approvals.nextId));
    hide Grown;
  }

  lemma WithdrawGrows(s: State, ids: set<nat>)
    ensures Grown(s.log, WithdrawPending(s, ids).log) && Grown(s.log, WithdrawHeld(s, ids).log)
  {
    hide PendingTickets, HeldTickets;
    var left := map id | id in s.pending && id in ids :: s.pending[id];
    Two(s.log, Refused(PendingTickets(left)), Cancelled(ids, "withdrawn"));
    var heldLeft := map id | id in s.held && id in ids :: s.held[id];
    Two(s.log, Refused(HeldTickets(heldLeft)), Cancelled(ids, "withdrawn"));
  }

  lemma SweepGrows(s: State, now: nat, gone: set<Ticket>)
    ensures var s3 := WithdrawPending(s, Withdrawn(s, gone));
            var s4 := WithdrawHeld(s3, Stale(s3.held, now, gone));
            Grown(s.log, (if ListingOver(s4.listing, now, gone) then ReleaseListing(s4, "withdrawn") else s4).log)
  {
    hide WithdrawPending, WithdrawHeld, Withdrawn, Stale, ReleaseListing, ListingOver, Grown;
    var s3 := WithdrawPending(s, Withdrawn(s, gone));
    var s4 := WithdrawHeld(s3, Stale(s3.held, now, gone));
    WithdrawGrows(s, Withdrawn(s, gone));
    WithdrawGrows(s3, Stale(s3.held, now, gone));
    GrownTwice(s.log, s3.log, s4.log);
    ListingGrows(s4, "withdrawn");
    GrownTwice(s.log, s4.log, ReleaseListing(s4, "withdrawn").log);
  }

  lemma TickGrows(s: State, now: nat, gone: set<Ticket>)
    ensures Grown(s.log, OnTick(s, now, gone).log)
  {
    hide FinishLoad, WithdrawPending, WithdrawHeld, Withdrawn, Stale, ReleaseListing, ListingOver, A.Expire, Grown;
    var s1 := s.(approvals := A.Expire(s.approvals, now));
    if s.load.Some? && s.load.value.payload.None? && s.load.value.payloadDeadlineMs.Some?
       && now >= s.load.value.payloadDeadlineMs.value {
      var failing := s1.(load := Some(s.load.value.(payload := Some(ReadFailed))));
      FinishGrows(failing, now);
      SweepGrows(FinishLoad(failing, now), now, gone);
      GrownTwice(s.log, FinishLoad(failing, now).log, OnTick(s, now, gone).log);
    } else {
      SweepGrows(s1, now, gone);
    }
  }

  /** An event adds to the log: its own request first, if it is one, and no other request. */
  lemma StepGrows(s: State, e: Event)
    ensures Grown(if e.AskSign? && !s.stopped then Then(s.log, Asked(s.arrivals, e.request)) else s.log, Step(s, e).log)
  {
    hide OnLocked, OnLoggedOut, OnApprove, OnDeny, OnShutdown, OnLoadBegin, OnLoadEnd, OnPayload, OnAskSign, OnAskList,
         OnTick, FinishLoad;
    if s.stopped {
      SameGrows(s.log);
    } else {
      match e
      case VaultLocked(epoch) => LockedGrows(s, epoch);
      case VaultLoggedOut => LockedGrows(s, 0);
      case Approve(id, seconds, now) => ApproveGrows(s, id, seconds, now);
      case Deny(id) => DenyGrows(s, id);
      case Shutdown => ShutdownGrows(s);
      case LoadBegin(epoch, loadId) => LoadGrows(s, epoch, loadId, true, 0);
      case LoadEnd(epoch, ok, now) => LoadGrows(s, epoch, [], ok, now);
      case PayloadRead(epoch, payload, now) => PayloadGrows(s, epoch, payload, now);
      case AskSign(r, now) => SignGrows(s, r, now);
      case AskList(peer, forwarded, now) => ListGrows(s, peer, forwarded, now);
      case Tick(now, gone) => TickGrows(s, now, gone);
      case _ =>
    }
  }

  /** An event adds its own request, under the next ticket, and nothing else. */
  lemma StepAsks(s: State, e: Event)
    ensures Requests(Step(s, e).log) ==
            Requests(s.log) + if e.AskSign? && !s.stopped then {(s.arrivals, e.request)} else {}
    ensures T.Earlier(s.log, Step(s, e).log)
  {
    hide Step;
    StepGrows(s, e);
    var p := if e.AskSign? && !s.stopped then Then(s.log, Asked(s.arrivals, e.request)) else s.log;
    GrownRequests(p, Step(s, e).log);
    assert T.Earlier(s.log, p);
    EarlierTwice(s.log, p, Step(s, e).log);
  }

  lemma {:induction false} EarlierTwice(p: Log, q: Log, log: Log)
    requires T.Earlier(p, q) && T.Earlier(q, log)
    ensures T.Earlier(p, log)
    decreases log
  {
    if q != log {
      EarlierTwice(p, q, log.past);
    }
  }

  /** Over every run the log only grows. */
  lemma {:induction false} LogGrows(uid: nat, events: seq<Event>, states: seq<State>, i: nat, n: nat)
    requires T.IsRun(uid, events, states) && i <= n <= |events|
    ensures T.Earlier(states[i].log, states[n].log)
    decreases n
  {
    hide Step;
    if i < n {
      LogGrows(uid, events, states, i, n - 1);
      StepAsks(states[n - 1], events[n - 1]);
      EarlierTwice(states[i].log, states[n - 1].log, states[n].log);
    }
  }

  lemma {:induction false} HasStays(p: Log, log: Log, e: Entry)
    requires T.Earlier(p, log) && Has(p, e)
    ensures Has(log, e)
    decreases log
  {
    if p != log {
      HasStays(p, log.past, e);
    }
  }
}

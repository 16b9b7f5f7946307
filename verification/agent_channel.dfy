/** How much one turn of the loop sends to the panel, against the room in the control channel (main.rs). */
module AgentChannel {
  import opened Common
  import opened AgentSpec
  import opened AgentSafety
  import opened AgentRuns
  import opened AgentTheorems
  import K = KeyStores
  import A = Approvals

  /** What an event sends. A tick may announce the grants besides, in one message. */
  function Burst(s: State, e: Event): int {
    Sent(Step(s, e).log) - Sent(s.log) + if e.Tick? then 1 else 0
  }

  lemma CancelSends(s: State, reason: string)
    ensures Sent(CancelHeld(s, reason).log) == Sent(s.log) + |s.held|
    ensures CancelHeld(s, reason).listing == s.listing
  {
    hide HeldTickets;
    assert Sent(Then(s.log, Refused(HeldTickets(s.held)))) == Sent(s.log);
  }

  lemma CloseSends(s: State, vault: K.Vault)
    ensures Sent(CloseGate(s, vault).log) == Sent(s.log) && CloseGate(s, vault).held == s.held
  {
    hide PendingTickets;
    assert Sent(Then(s.log, Down(vault.tracked.epoch))) == Sent(s.log);
  }

  /** A lock and a logout withdraw what was held. */
  lemma LockedSends(s: State, epoch: nat)
    ensures Sent(OnLocked(s, epoch).log) <= Sent(s.log) + |s.held| + 2
    ensures Sent(OnLoggedOut(s).log) <= Sent(s.log) + |s.held| + 1
  {
    hide CloseGate, CancelHeld, ReleaseListing, K.StoreLock, K.StoreLogout;
    var s0 := s.(load := None);
    CloseSends(s0, K.StoreLock(s.vault, epoch));
    var locked := CloseGate(s0, K.StoreLock(s.vault, epoch));
    CancelSends(locked, "locked");
    ListingSends(CancelHeld(locked, "locked"), "locked");
    CloseSends(s0, K.StoreLogout(s.vault, SatAdd(s.vault.tracked.epoch, 1)));
    var out := CloseGate(s0, K.StoreLogout(s.vault, SatAdd(s.vault.tracked.epoch, 1)));
    CancelSends(out, "logged-out");
    ListingSends(CancelHeld(out, "logged-out"), "logged-out");
  }

  lemma ShutdownSends(s: State)
    ensures Sent(OnShutdown(s).log) <= Sent(s.log) + |s.held| + 1
  {
    hide CancelHeld, ReleaseListing, K.StoreLogout, PendingTickets;
    var s1 := FailPending(s.(approvals := A.InvalidateAll(s.approvals), load := None));
    assert Sent(s1.log) == Sent(s.log);
    hide FailPending;
    CancelSends(s1, "shutdown");
    ListingSends(CancelHeld(s1, "shutdown"), "shutdown");
  }

  lemma SettleGrantedAtMost(s: State, now: nat)
    requires A.SoundQueue(s.approvals)
    ensures Sent(SettleGranted(s, now).log) <= Sent(s.log) + A.MAX_PENDING
  {
    A.ReleaseOutcome(s.approvals, now);
    var (a, released) := A.ReleaseGranted(s.approvals, now);
    hide A.ReleaseGranted, SettleEach;
    SettleSends(s.(approvals := a), released, now);
  }

  lemma ApproveSends(s: State, id: nat, seconds: nat, now: nat)
    requires A.SoundQueue(s.approvals)
    ensures Sent(OnApprove(s, id, seconds, now).log) <= Sent(s.log) + A.MAX_PENDING
  {
    hide SettleGranted, A.SoundQueue;
    var s1 := Note(s, Approved(id));
    assert Sent(s1.log) == Sent(s.log);
    if id !in s.held && id in s.pending {
      var sign, taken := s.pending[id], s1.(pending := s.pending - {id});
      ConsumeSends(taken, id, sign.ticket, sign.message, sign.flags, seconds, now);
      A.ApproveOutcome(s.approvals, id, seconds, now);
      var after := Consume(taken, id, sign.ticket, sign.message, sign.flags, seconds, now);
      assert after.approvals == A.Approve(s.approvals, id, seconds, now).0;
      hide Consume, A.Approve;
      SettleGrantedAtMost(after, now);
    }
  }

  lemma DenySends(s: State, id: nat)
    ensures Sent(OnDeny(s, id).log) <= Sent(s.log) + 1
  {
    hide ReleaseListing, A.Disconnect;
    var s1 := s.(approvals := A.Disconnect(s.approvals, id));
    var s2 := if id in s.pending then Note(s1.(pending := s.pending - {id}), Refused({s.pending[id].ticket})) else s1;
    assert Sent(s2.log) == Sent(s.log);
    var s3 := if id in s.held then Note(s2.(held := s.held - {id}), Refused({s.held[id].ticket})) else s2;
    assert Sent(s3.log) == Sent(s.log);
    ListingSends(s3, "cancelled");
  }

  lemma BeginSends(s: State, epoch: nat, loadId: Bytes)
    ensures Sent(OnLoadBegin(s, epoch, loadId).log) == Sent(s.log)
  {
    hide CloseGate, ValidNonce;
    CloseSends(s, s.vault);
  }

  lemma SignSends(s: State, r: SignRequest, now: nat)
    ensures Sent(OnAskSign(s, r, now).log) <= Sent(s.log) + 1
  {
    hide Ask, K.Blobs, A.CapacityRemaining;
    var s1 := Note(s.(arrivals := s.arrivals + 1), Asked(s.arrivals, r));
    assert Sent(s1.log) == Sent(s.log);
    AskSends(s1, s.arrivals, r, None, now);
  }

  lemma ListSends(s: State, peer: A.Peer, forwarded: bool, now: nat)
    ensures Sent(OnAskList(s, peer, forwarded, now).log) <= Sent(s.log) + 1
  {
    hide Names;
    assert Sent(Then(s.log, AskedList(s.arrivals))) == Sent(s.log);
  }

  // ---- The tick ---------------------------------------------------------------------------------

  lemma WithdrawPendingSends(s: State, ids: set<nat>)
    requires ids <= s.pending.Keys
    ensures Sent(WithdrawPending(s, ids).log) <= Sent(s.log) + |s.pending|
    ensures WithdrawPending(s, ids).held == s.held && WithdrawPending(s, ids).listing == s.listing
  {
    hide PendingTickets;
    SubsetIsSmaller(ids, s.pending.Keys);
    assert Sent(WithdrawPending(s, ids).log.past) == Sent(s.log);
  }

  lemma WithdrawHeldSends(s: State, ids: set<nat>)
    requires ids <= s.held.Keys
    ensures Sent(WithdrawHeld(s, ids).log) <= Sent(s.log) + |s.held|
    ensures WithdrawHeld(s, ids).listing == s.listing
  {
    hide HeldTickets;
    SubsetIsSmaller(ids, s.held.Keys);
    assert Sent(WithdrawHeld(s, ids).log.past) == Sent(s.log);
  }

  /** The sweep sends at most one message for each request and one for the listings. */
  lemma SweepAtMost(s: State, now: nat, gone: set<Ticket>)
    ensures var s3 := WithdrawPending(s, Withdrawn(s, gone));
            var s4 := WithdrawHeld(s3, Stale(s3.held, now, gone));
            Sent((if ListingOver(s4.listing, now, gone) then ReleaseListing(s4, "withdrawn") else s4).log)
            <= Sent(s.log) + |s.pending| + |s.held| + if s.listing.Some? then 1 else 0
  {
    var ids := Withdrawn(s, gone);
    WithdrawPendingSends(s, ids);
    var s3 := WithdrawPending(s, ids);
    hide WithdrawPending, Withdrawn;
    var stale := Stale(s3.held, now, gone);
    WithdrawHeldSends(s3, stale);
    hide WithdrawHeld, Stale, ReleaseListing;
    ListingSends(WithdrawHeld(s3, stale), "withdrawn");
  }

  /** A load that timed out withdraws everything held, or was not at its end yet. */
  lemma TimedOutSends(s: State, now: nat)
    requires s.load.Some? && s.load.value.payload == Some(ReadFailed)
    ensures var after := FinishLoad(s, now);
            && after.pending == s.pending
            && Sent(after.log) + |after.held| + (if after.listing.Some? then 1 else 0) <= Sent(s.log) + |s.held| + 2
  {
    hide CancelHeld, ReleaseListing, K.StoreLock;
    if s.load.value.endReceived {
      var failed := FailLoad(s, s.vault, s.load.value.epoch);
      assert Sent(failed.log) == Sent(s.log) && failed.held == s.held && failed.pending == s.pending;
      hide FailLoad;
      var told := Note(failed, Told("load_failed"));
      assert Sent(told.log) == Sent(s.log) + 1;
      CancelSends(told, "load-failed");
      ListingSends(CancelHeld(told, "load-failed"), "load-failed");
      NothingLeft(told, "load-failed");
    }
  }

  lemma NothingLeft(s: State, reason: string)
    ensures var after := ReleaseListing(CancelHeld(s, reason), reason);
            after.held == map[] && after.listing.None? && after.pending == s.pending
  {
    hide HeldTickets, Names, WaitingOn;
  }

  lemma TickSends(s: State, now: nat, gone: set<Ticket>)
    ensures Sent(OnTick(s, now, gone).log) <= Sent(s.log) + |s.pending| + |s.held| + 2
  {
    hide FinishLoad, WithdrawPending, WithdrawHeld, Withdrawn, Stale, ReleaseListing, A.Expire, ListingOver;
    var s1 := s.(approvals := A.Expire(s.approvals, now));
    if s.load.Some? && s.load.value.payload.None? && s.load.value.payloadDeadlineMs.Some?
       && now >= s.load.value.payloadDeadlineMs.value {
      var failing := s1.(load := Some(s.load.value.(payload := Some(ReadFailed))));
      TimedOutSends(failing, now);
      SweepAtMost(FinishLoad(failing, now), now, gone);
    } else {
      SweepAtMost(s1, now, gone);
    }
  }

  // ---- Every event ------------------------------------------------------------------------------

  lemma LoadEventSends(s: State, e: Event)
    requires Inv(s) && (e.PayloadRead? || e.LoadEnd?)
    ensures Sent(Step(s, e).log) <= Sent(s.log) + CONTROL_OUTPUT_CAPACITY
  {
    hide Core, FinishLoad, ReleaseListing, CancelHeld, FailLoad;
    VaultFacts(s);
    HeldIsBounded(s);
    if s.load.Some? && s.load.value.epoch == e.epoch {
      RefusedLoadFits(s, e.epoch);
      var load := if e.PayloadRead? then s.load.value.(payload := Some(e.payload))
                  else s.load.value.(endReceived := true, payloadDeadlineMs := Some(SatAdd(e.now, LOAD_END_GRACE_MS)));
      LoadFieldKeeps(s, Some(load));
      FinishLoadFits(s.(load := Some(load)), e.now);
    }
  }

  /** The panel's commands. */
  lemma CommandSends(s: State, e: Event)
    requires |s.held| <= A.MAX_PENDING && A.SoundQueue(s.approvals)
    requires !e.LoadEnd? && !e.PayloadRead? && !e.AskSign? && !e.AskList? && !e.Tick?
    ensures Sent(Step(s, e).log) <= Sent(s.log) + CONTROL_OUTPUT_CAPACITY
  {
    hide A.SoundQueue, OnLocked, OnLoggedOut, OnApprove, OnDeny, OnShutdown, OnLoadBegin;
    match e
    case VaultLocked(epoch) => LockedSends(s, epoch);
    case VaultLoggedOut => LockedSends(s, 0);
    case Approve(id, seconds, now) => ApproveSends(s, id, seconds, now);
    case Deny(id) => DenySends(s, id);
    case Shutdown => ShutdownSends(s);
    case LoadBegin(epoch, loadId) => BeginSends(s, epoch, loadId);
    case _ =>
  }

  lemma ClientSends(s: State, e: Event)
    requires e.AskSign? || e.AskList?
    ensures Sent(Step(s, e).log) <= Sent(s.log) + 1
  {
    hide OnAskSign, OnAskList, Sent;
    match e
    case AskSign(r, now) => SignSends(s, r, now);
    case AskList(peer, forwarded, now) => ListSends(s, peer, forwarded, now);
  }

  lemma TickEventSends(s: State, e: Event)
    requires e.Tick?
    ensures Sent(Step(s, e).log) <= Sent(s.log) + |s.pending| + |s.held| + 2
  {
    hide OnTick, Sent;
    TickSends(s, e.now, e.gone);
  }

  lemma EventSends(s: State, e: Event)
    requires Inv(s)
    ensures !e.Tick? ==> Burst(s, e) <= CONTROL_OUTPUT_CAPACITY
    ensures e.Tick? ==> Burst(s, e) <= |s.pending| + A.MAX_PENDING + 3
  {
    HeldIsBounded(s);
    QueueIsSound(s, {}, {});
    hide Inv, Core, A.SoundQueue, Step, Sent;
    if e.LoadEnd? || e.PayloadRead? {
      LoadEventSends(s, e);
    } else if e.AskSign? || e.AskList? {
      ClientSends(s, e);
    } else if e.Tick? {
      TickEventSends(s, e);
    } else {
      CommandSends(s, e);
    }
  }

  /** Over every run: no event but a tick sends more than the channel holds, and a tick sends at most one
      message for each queued reply and seven more, the announcement of the grants counted; so it fits
      whenever at most 139 replies wait, and always while a load is on. */
  lemma EveryEventFits(uid: nat, events: seq<Event>, states: seq<State>, n: nat)
    requires IsRun(uid, events, states) && n < |events|
    ensures !events[n].Tick? ==> Burst(states[n], events[n]) <= CONTROL_OUTPUT_CAPACITY
    ensures events[n].Tick? ==> Burst(states[n], events[n]) <= |states[n].pending| + 7
    ensures |states[n].pending| <= 139 || states[n].load.Some? ==>
              Burst(states[n], events[n]) <= CONTROL_OUTPUT_CAPACITY
  {
    hide Core, Step, Burst;
    EveryRunIsSafe(uid, events, states, n);
    VaultFacts(states[n]);
    EventSends(states[n], events[n]);
  }
}

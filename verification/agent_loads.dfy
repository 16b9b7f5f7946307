/** What a load of keys and a tick of the clock bring about: exactly when a load publishes, and what is left
    waiting after each. */
module AgentLoads {
  import opened Common
  import opened AgentSpec
  import opened AgentSafety
  import opened AgentRuns
  import opened AgentOutcomes
  import T = AgentTheorems
  import K = KeyStores
  import A = Approvals

  // ---- Loads ------------------------------------------------------------------------------------

  /** The payload of a load is its own and within every limit, and its epoch is newer than the vault's. */
  ghost predicate Publishes(v: K.Vault, load: ActiveLoad) {
    match load.payload
    case Some(Read(size, Some(envelope))) =>
      && envelope.loadId == load.nonce && ValidNonce(load.nonce)
      && v.tracked.epoch < load.epoch && size <= K.MAX_FILTERED_BYTES && |envelope.items| <= K.MAX_KEYS
      && forall i :: 0 <= i < |envelope.items| ==> K.WithinLimits(envelope.items[i])
    case _ => false
  }

  lemma PublishesIff(v: K.Vault, load: ActiveLoad)
    requires K.SoundVault(v)
    ensures var (v', published) := FinishedVault(v, load);
            && (published <==> Publishes(v, load))
            && (published ==>
                  && v'.tracked == K.Tracked(load.epoch, K.Unlocked) && K.SigningBlobs(v') == K.Blobs(v'.public)
                  && forall blob :: blob in K.SigningBlobs(v') <==>
                       exists i :: 0 <= i < |load.payload.value.envelope.value.items|
                                   && K.Usable(load.payload.value.envelope.value.items[i], blob))
            && (!published ==> v'.public == v.public && v.tracked.epoch <= v'.tracked.epoch)
  {
    match load.payload
    case Some(Read(size, Some(envelope))) =>
      K.LoadIff(v, load.epoch, size, envelope.items);
      K.LoadKeepsSound(v, load.epoch, size, envelope.items);
      hide K.StoreLoad, K.WithinLimits, K.Usable, K.SigningBlobs, K.Blobs, K.SoundVault, ValidNonce;
    case _ =>
  }

  lemma {:induction false} ReleaseEachShell(s: State, now: nat)
    ensures var s' := ReleaseEach(s, now);
            s' == s.(approvals := s'.approvals, pending := s'.pending, held := map[], log := s'.log)
    decreases |s.held|
  {
    if s.held != map[] {
      var id := Least(s.held.Keys);
      hide IsLeast;
      ReleaseOneTakesOne(s, id, now);
      ReleaseOneShell(s, id, now);
      hide ReleaseOne;
      ReleaseEachShell(ReleaseOne(s, id, now), now);
    }
  }

  lemma ReleaseOneShell(s: State, id: nat, now: nat)
    requires id in s.held
    ensures var s' := ReleaseOne(s, id, now);
            s' == s.(approvals := s'.approvals, pending := s'.pending, held := s.held - {id}, log := s'.log)
  {
    hide Ask;
    var h := s.held[id];
    AskKeepsShell(Note(s.(held := s.held - {id}), Cancelled({id}, "released")), h.ticket,
                  SignRequest(h.blob, h.message, h.flags, h.peer, h.scope), h.approved, now);
  }

  lemma SettleShell(s: State, now: nat)
    ensures var s' := SettleGranted(s, now);
            s' == s.(approvals := s'.approvals, pending := s'.pending, log := s'.log)
  {
    var (a, released) := A.ReleaseGranted(s.approvals, now);
    hide A.ReleaseGranted, SettleEach;
    SettleEachTakes(s.(approvals := a), released, now);
  }

  lemma ListingShell(s: State, reason: string)
    ensures ReleaseListing(s, reason) == s.(listing := None, log := ReleaseListing(s, reason).log)
  {
    hide Names, WaitingOn;
    if s.listing.None? {
      assert s.(listing := None) == s;
    }
  }

  lemma CancelShell(s: State, reason: string)
    ensures CancelHeld(s, reason) == s.(held := map[], log := CancelHeld(s, reason).log)
  {
  }

  /** A load that is ready: it publishes exactly as above, opens the gate on the new keys, and leaves nothing held
      and no listing waiting; or it locks the vault, and then no one waits for anything. */
  lemma FinishOutcome(s: State, now: nat)
    requires Inv(s) && s.load.Some? && s.load.value.endReceived && s.load.value.payload.Some?
    ensures var s' := FinishLoad(s, now);
            && s'.gateOpen == Publishes(s.vault, s.load.value)
            && s'.load == None && s'.held == map[] && s'.listing == None
            && (s'.gateOpen ==>
                  && s'.vault == FinishedVault(s.vault, s.load.value).0
                  && s'.vault.tracked == K.Tracked(s.load.value.epoch, K.Unlocked))
            && (!s'.gateOpen ==>
                  && s'.vault.private == [] && s'.vault.public == s.vault.public && s'.pending == map[]
                  && (s'.vault.tracked.state == K.LockedCached || s'.vault.tracked.state == K.LockedEmpty))
  {
    hide Core, ReleaseHeld, ReleaseListing, CancelHeld, FinishedVault, K.SoundVault, Publishes, K.SigningBlobs, K.Blobs;
    VaultFacts(s);
    PublishesIff(s.vault, s.load.value);
    var (vault, published) := FinishedVault(s.vault, s.load.value);
    if published {
      var up := Publish(s, vault);
      ReleaseHeldShell(up, now);
      ListingShell(ReleaseHeld(up, now), "released");
    } else {
      var told := Note(FailLoad(s, vault, s.load.value.epoch), Told("load_failed"));
      CancelShell(told, "load-failed");
      ListingShell(CancelHeld(told, "load-failed"), "load-failed");
    }
  }

  lemma ReleaseHeldShell(s: State, now: nat)
    ensures var s' := ReleaseHeld(s, now);
            s' == s.(approvals := s'.approvals, pending := s'.pending, held := map[], log := s'.log)
  {
    hide ReleaseEach, SettleGranted;
    ReleaseEachShell(s, now);
    SettleShell(ReleaseEach(s, now), now);
  }

  /** The start of a load closes the gate and drops the queue and the grants; what is held waits for it. A second
      load, or a malformed nonce, ends the helper. */
  lemma BeginOutcome(s: State, epoch: nat, loadId: Bytes)
    requires Inv(s)
    ensures var s' := OnLoadBegin(s, epoch, loadId);
            && (s'.stopped <==> s.stopped || s.load.Some? || !ValidNonce(loadId))
            && (s.load.None? ==>
                  && !s'.gateOpen && s'.pending == map[] && s'.approvals.pending == [] && s'.approvals.grants == []
                  && s'.held == s.held && s'.listing == s.listing && s'.vault == s.vault)
            && (s.load.None? && ValidNonce(loadId) ==> s'.load == Some(ActiveLoad(epoch, loadId, None, false, None)))
  {
    hide Inv, ValidNonce, PendingTickets;
  }

  /** The end of a load and its payload come in either order, and the second one settles it; a failed end locks
      the vault at once, and one for another load ends the helper. */
  lemma LoadComes(s: State, epoch: nat, ok: bool, payload: Payload, now: nat)
    requires Inv(s)
    ensures var ended, paid := OnLoadEnd(s, epoch, ok, now), OnPayload(s, epoch, payload, now);
            var ours := s.load.Some? && s.load.value.epoch == epoch;
            && (!ours ==> ended == s.(stopped := true) && paid == s)
            && (ours && ok && s.load.value.payload.None? ==>
                  ended == s.(load := Some(s.load.value.(endReceived := true,
                                                         payloadDeadlineMs := Some(SatAdd(now, LOAD_END_GRACE_MS))))))
            && (ours && !s.load.value.endReceived ==> paid == s.(load := Some(s.load.value.(payload := Some(payload)))))
            && (ours && ok && s.load.value.payload.Some? ==>
                  ended.load == None && ended.gateOpen == Publishes(s.vault, s.load.value))
            && (ours && s.load.value.endReceived ==>
                  paid.load == None && paid.gateOpen == Publishes(s.vault, s.load.value.(payload := Some(payload))))
            && (ours && !ok ==>
                  && ended.load == None && !ended.gateOpen && ended.held == map[] && ended.listing == None
                  && ended.vault.private == [] && ended.vault.public == s.vault.public)
  {
    hide Inv, FinishLoad, FailLoad, ReleaseListing, CancelHeld, Publishes;
    if s.load.Some? && s.load.value.epoch == epoch {
      var ending := s.load.value.(endReceived := true, payloadDeadlineMs := Some(SatAdd(now, LOAD_END_GRACE_MS)));
      Settles(s, ending, now);
      Settles(s, s.load.value.(payload := Some(payload)), now);
      SamePayload(s.vault, s.load.value, ending);
      RefusedLoad(s, epoch);
    }
  }

  lemma SamePayload(v: K.Vault, a: ActiveLoad, b: ActiveLoad)
    requires a.payload == b.payload && a.nonce == b.nonce && a.epoch == b.epoch
    ensures Publishes(v, a) == Publishes(v, b)
  {
  }

  lemma Settles(s: State, load: ActiveLoad, now: nat)
    requires Inv(s) && s.load.Some?
    ensures var s' := FinishLoad(s.(load := Some(load)), now);
            && (!load.endReceived || load.payload.None? ==> s' == s.(load := Some(load)))
            && (load.endReceived && load.payload.Some? ==> s'.load == None && s'.gateOpen == Publishes(s.vault, load))
  {
    hide Core, Publishes;
    VaultFacts(s);
    LoadFieldKeeps(s, Some(load));
    if load.endReceived && load.payload.Some? {
      FinishOutcome(s.(load := Some(load)), now);
      hide FinishLoad;
    } else {
      assert FinishLoad(s.(load := Some(load)), now) == s.(load := Some(load));
    }
  }

  lemma RefusedLoad(s: State, epoch: nat)
    ensures var s' := ReleaseListing(CancelHeld(FailLoad(s, s.vault, epoch), "load-failed"), "load-failed");
            && s'.load == None && !s'.gateOpen && s'.held == map[] && s'.listing == None
            && s'.vault.private == [] && s'.vault.public == s.vault.public
  {
    var failed := FailLoad(s, s.vault, epoch);
    hide ReleaseListing, CancelHeld;
    CancelShell(failed, "load-failed");
    ListingShell(CancelHeld(failed, "load-failed"), "load-failed");
  }

  // ---- The tick ---------------------------------------------------------------------------------

  /** A load whose end came and whose payload did not, by the end of the grace period. */
  predicate TimesOut(s: State, now: nat) {
    && s.load.Some? && s.load.value.endReceived && s.load.value.payload.None?
    && s.load.value.payloadDeadlineMs.Some? && now >= s.load.value.payloadDeadlineMs.value
  }

  /** A load has a deadline only once its end came. */
  ghost predicate Timed(load: Option<ActiveLoad>) {
    load.Some? && load.value.payloadDeadlineMs.Some? ==> load.value.endReceived
  }

  /** A queued request whose client is there and whose time is not over. */
  ghost predicate StillQueued(s: State, id: nat, now: nat, gone: set<Ticket>) {
    && id in s.pending && s.pending[id].ticket !in gone
    && exists q :: q in s.approvals.pending && q.id == id && q.deadlineMs > now
  }

  predicate StillHeld(s: State, id: nat, now: nat, gone: set<Ticket>) {
    id in s.held && s.held[id].ticket !in gone && s.held[id].deadlineMs > now
  }

  predicate StillListing(s: State, now: nat, gone: set<Ticket>) {
    s.listing.Some? && s.listing.value.deadlineMs > now && exists w :: w in s.listing.value.waiting && w.0 !in gone
  }

  ghost function QueuedNoMore(s: State, now: nat, gone: set<Ticket>): set<nat> {
    set id | id in s.pending && !StillQueued(s, id, now, gone)
  }

  function HeldNoMore(s: State, now: nat, gone: set<Ticket>): set<nat> {
    set id | id in s.held && !StillHeld(s, id, now, gone)
  }

  /** What a tick leaves: exactly the queued and held requests and the listing whose clients are there and whose
      time is not over, and the grants whose time is not over; the prompts of everything else are withdrawn. A load
      past its grace period fails, and then nothing held and no listing is left. */
  ghost predicate Ticked(s: State, s': State, now: nat, gone: set<Ticket>) {
    && s'.pending == (map id | id in s.pending && StillQueued(s, id, now, gone) :: s.pending[id])
    && s'.held == (map id | id in s.held && StillHeld(s, id, now, gone) && !TimesOut(s, now) :: s.held[id])
    && s'.listing == (if StillListing(s, now, gone) && !TimesOut(s, now) then s.listing else None)
    && (forall g :: g in s'.approvals.grants <==> g in s.approvals.grants && g.expiresAtMs > now)
    && (TimesOut(s, now) ==> s'.load == None && s'.vault.private == [] && s'.vault.public == s.vault.public)
    && (!TimesOut(s, now) ==>
          && s'.load == s.load && s'.vault == s.vault
          && Has(s'.log, Cancelled(QueuedNoMore(s, now, gone), "withdrawn"))
          && Has(s'.log, Cancelled(HeldNoMore(s, now, gone), "withdrawn"))
          && (s.listing.Some? && s'.listing.None? ==> Has(s'.log, Cancelled({s.listing.value.id}, "withdrawn"))))
    && s'.gateOpen == s.gateOpen
  }

  lemma TickOutcome(s: State, now: nat, gone: set<Ticket>)
    requires Inv(s) && Timed(s.load)
    ensures Ticked(s, OnTick(s, now, gone), now, gone)
  {
    hide Core, FinishLoad, A.Expire, Swept, SweptTo, Ticked, A.SoundQueue;
    SoundNow(s);
    TickIs(s, now, gone);
    hide OnTick;
    var s1 := s.(approvals := A.Expire(s.approvals, now));
    if TimesOut(s, now) {
      TimeoutLeaves(s, now);
      var failed := FinishLoad(s1.(load := Some(s.load.value.(payload := Some(ReadFailed)))), now);
      SweepLeaves(failed, now, gone);
      LateTick(s, failed, Swept(failed, now, gone), now, gone);
    } else {
      SweepLeaves(s1, now, gone);
      TimelyTick(s, Swept(s1, now, gone), now, gone);
    }
  }

  lemma TimelyTick(s: State, s': State, now: nat, gone: set<Ticket>)
    requires A.SoundQueue(s.approvals) && !TimesOut(s, now)
    requires SweptTo(s.(approvals := A.Expire(s.approvals, now)), s', now, gone)
    ensures Ticked(s, s', now, gone)
  {
    A.ExpireKeeps(s.approvals, now);
    forall id | id in s.pending
      ensures StillQueued(s, id, now, gone) <==>
              s.pending[id].ticket !in gone && A.IsPending(A.Expire(s.approvals, now), id)
    {
      IsPendingIff(s, id, now, gone);
    }
    hide A.SoundQueue, A.Expire, A.IsPending, StillQueued, Has;
    assert QueuedNoMore(s, now, gone) == Withdrawn(s.(approvals := A.Expire(s.approvals, now)), gone);
    assert HeldNoMore(s, now, gone) == Stale(s.held, now, gone);
    hide QueuedNoMore, HeldNoMore, Withdrawn, Stale;
  }

  lemma LateTick(s: State, failed: State, s': State, now: nat, gone: set<Ticket>)
    requires Inv(s) && TimesOut(s, now) && SweptTo(failed, s', now, gone)
    requires failed.held == map[] && failed.listing == None && failed.load == None && failed.pending == map[]
    requires !failed.gateOpen && failed.approvals == A.Expire(s.approvals, now)
    requires failed.vault.private == [] && failed.vault.public == s.vault.public
    ensures Ticked(s, s', now, gone)
  {
    hide Core, StillQueued, A.SoundQueue, A.Expire, A.IsPending;
    VaultFacts(s);
    SoundNow(s);
    A.ExpireKeeps(s.approvals, now);
  }

  lemma IsPendingIff(s: State, id: nat, now: nat, gone: set<Ticket>)
    requires id in s.pending && A.SoundQueue(s.approvals)
    ensures StillQueued(s, id, now, gone) <==>
            s.pending[id].ticket !in gone && A.IsPending(A.Expire(s.approvals, now), id)
  {
    A.ExpireKeeps(s.approvals, now);
    hide A.Expire, A.SoundQueue;
  }

  /** The sweep of a tick, after the queue has expired and a late load has failed. */
  function Swept(s: State, now: nat, gone: set<Ticket>): State {
    var s3 := WithdrawPending(s, Withdrawn(s, gone));
    var s4 := WithdrawHeld(s3, Stale(s3.held, now, gone));
    if ListingOver(s4.listing, now, gone) then ReleaseListing(s4, "withdrawn") else s4
  }

  lemma TickIs(s: State, now: nat, gone: set<Ticket>)
    requires Timed(s.load)
    ensures var s1 := s.(approvals := A.Expire(s.approvals, now));
            OnTick(s, now, gone) ==
            Swept(if TimesOut(s, now)
                    then FinishLoad(s1.(load := Some(s.load.value.(payload := Some(ReadFailed)))), now) else s1,
                  now, gone)
  {
    hide FinishLoad, A.Expire, WithdrawPending, WithdrawHeld, Withdrawn, Stale, ReleaseListing, ListingOver;
  }

  /** A load that times out. */
  lemma TimeoutLeaves(s: State, now: nat)
    requires Inv(s) && TimesOut(s, now)
    ensures var s1 := s.(approvals := A.Expire(s.approvals, now));
            var s2 := FinishLoad(s1.(load := Some(s.load.value.(payload := Some(ReadFailed)))), now);
            && s2.held == map[] && s2.listing == None && s2.load == None && !s2.gateOpen && s2.pending == map[]
            && s2.approvals == s1.approvals && s2.vault.private == [] && s2.vault.public == s.vault.public
  {
    hide Core;
    VaultFacts(s);
    var s1 := s.(approvals := A.Expire(s.approvals, now));
    hide A.Expire, K.StoreLock;
    var failing := s1.(load := Some(s.load.value.(payload := Some(ReadFailed))));
    assert FinishedVault(s.vault, failing.load.value) == (s.vault, false);
    TimeoutIs(failing, now);
  }

  lemma TimeoutIs(s: State, now: nat)
    requires s.load.Some? && s.load.value.endReceived && s.load.value.payload == Some(ReadFailed)
    ensures var s' := FinishLoad(s, now);
            && s'.held == map[] && s'.listing == None && s'.load == None && !s'.gateOpen && s'.pending == s.pending
            && s'.approvals == s.approvals && s'.vault.private == [] && s'.vault.public == s.vault.public
  {
    var told := Note(FailLoad(s, s.vault, s.load.value.epoch), Told("load_failed"));
    assert told.vault.private == [] && told.vault.public == s.vault.public;
    hide CancelHeld, ReleaseListing, FailLoad;
    CancelShell(told, "load-failed");
    ListingShell(CancelHeld(told, "load-failed"), "load-failed");
  }

  ghost predicate SweptTo(s: State, s': State, now: nat, gone: set<Ticket>) {
    && s'.pending == (map id | id in s.pending && s.pending[id].ticket !in gone && A.IsPending(s.approvals, id)
                        :: s.pending[id])
    && s'.held == (map id | id in s.held && StillHeld(s, id, now, gone) :: s.held[id])
    && s'.listing == (if StillListing(s, now, gone) then s.listing else None)
    && s'.approvals.grants == s.approvals.grants && s'.vault == s.vault && s'.load == s.load
    && s'.gateOpen == s.gateOpen
    && Has(s'.log, Cancelled(Withdrawn(s, gone), "withdrawn"))
    && Has(s'.log, Cancelled(Stale(s.held, now, gone), "withdrawn"))
    && (s.listing.Some? && s'.listing.None? ==> Has(s'.log, Cancelled({s.listing.value.id}, "withdrawn")))
  }

  lemma WithdrawTells(s: State, now: nat, gone: set<Ticket>)
    ensures var s3 := WithdrawPending(s, Withdrawn(s, gone));
            var s4 := WithdrawHeld(s3, Stale(s3.held, now, gone));
            && Has(s4.log, Cancelled(Withdrawn(s, gone), "withdrawn"))
            && Has(s4.log, Cancelled(Stale(s.held, now, gone), "withdrawn"))
            && Has(ReleaseListing(s4, "withdrawn").log, Cancelled(Withdrawn(s, gone), "withdrawn"))
            && Has(ReleaseListing(s4, "withdrawn").log, Cancelled(Stale(s.held, now, gone), "withdrawn"))
  {
    hide Withdrawn, Stale, PendingTickets, HeldTickets;
    var s3 := WithdrawPending(s, Withdrawn(s, gone));
    assert Has(s3.log, Cancelled(Withdrawn(s, gone), "withdrawn"));
    var s4 := WithdrawHeld(s3, Stale(s3.held, now, gone));
    assert s4.log.past.past == s3.log;
    hide WithdrawPending, WithdrawHeld;
    ReleaseKeepsLog(s4, Cancelled(Withdrawn(s, gone), "withdrawn"));
    ReleaseKeepsLog(s4, Cancelled(Stale(s.held, now, gone), "withdrawn"));
  }

  lemma ReleaseKeepsLog(s: State, e: Entry)
    requires Has(s.log, e)
    ensures Has(ReleaseListing(s, "withdrawn").log, e)
    ensures s.listing.Some? ==>
              Has(ReleaseListing(s, "withdrawn").log, Cancelled({s.listing.value.id}, "withdrawn"))
  {
    hide Names, WaitingOn;
    if s.listing.Some? {
      var log := ReleaseListing(s, "withdrawn").log;
      assert log.past.past.past == s.log;
      assert Has(log.past.past, e);
      assert Has(log.past, e);
    }
  }

  /** Every listing that waits is answered with all the public keys, and without item names if it is forwarded. */
  lemma WaitingAreListed(s: State, reason: string, w: (Ticket, bool))
    requires s.listing.Some? && w in s.listing.value.waiting
    ensures exists ts :: w.0 in ts && Has(ReleaseListing(s, reason).log, Listed(ts, w.1, Names(s.vault.public, w.1)))
  {
    hide Names;
    var log := ReleaseListing(s, reason).log;
    var waiting := s.listing.value.waiting;
    var i :| 0 <= i < |waiting| && waiting[i] == w;
    assert w.0 in WaitingOn(waiting, w.1);
    hide WaitingOn;
    assert log.past.entry == Listed(WaitingOn(waiting, true), true, Names(s.vault.public, true));
    assert log.past.past.entry == Listed(WaitingOn(waiting, false), false, Names(s.vault.public, false));
    assert Has(log.past.past, Listed(WaitingOn(waiting, false), false, Names(s.vault.public, false)));
    assert Has(log.past, Listed(WaitingOn(waiting, w.1), w.1, Names(s.vault.public, w.1)));
    assert Has(log, Listed(WaitingOn(waiting, w.1), w.1, Names(s.vault.public, w.1)));
  }

  lemma SweepLeaves(s: State, now: nat, gone: set<Ticket>)
    ensures SweptTo(s, Swept(s, now, gone), now, gone)
  {
    hide PendingTickets, HeldTickets, ReleaseListing, A.IsPending, Has, WithdrawPending, WithdrawHeld, StillHeld;
    WithdrawTells(s, now, gone);
    SweepLeavesMaps(s, now, gone);
    var s3 := WithdrawPending(s, Withdrawn(s, gone));
    var s4 := WithdrawHeld(s3, Stale(s3.held, now, gone));
    ReleaseKeepsLog(s4, Cancelled(Stale(s.held, now, gone), "withdrawn"));
    SweepKeepsListing(s, now, gone);
    hide Withdrawn, Stale, ListingOver, StillListing;
  }

  lemma SweepKeepsListing(s: State, now: nat, gone: set<Ticket>)
    ensures var s3 := WithdrawPending(s, Withdrawn(s, gone));
            WithdrawHeld(s3, Stale(s3.held, now, gone)).listing == s.listing
  {
  }

  lemma SweepLeavesMaps(s: State, now: nat, gone: set<Ticket>)
    ensures var s' := Swept(s, now, gone);
            && s'.pending == (map id | id in s.pending && s.pending[id].ticket !in gone && A.IsPending(s.approvals, id)
                                :: s.pending[id])
            && s'.held == (map id | id in s.held && StillHeld(s, id, now, gone) :: s.held[id])
            && s'.listing == (if StillListing(s, now, gone) then s.listing else None)
            && s'.approvals.grants == s.approvals.grants && s'.vault == s.vault && s'.load == s.load
            && s'.gateOpen == s.gateOpen
  {
    hide PendingTickets, HeldTickets, ReleaseListing, A.IsPending;
    var s3 := WithdrawPending(s, Withdrawn(s, gone));
    var s4 := WithdrawHeld(s3, Stale(s3.held, now, gone));
    ListingShell(s4, "withdrawn");
  }

  // ---- Every run --------------------------------------------------------------------------------

  // A load gets a deadline only with its end, in every run.

  lemma FinishTimed(s: State, now: nat)
    ensures FinishLoad(s, now).load in {s.load, None}
  {
    hide FinishedVault, ReleaseHeld, CancelHeld, ReleaseListing, FailLoad;
    if s.load.Some? && s.load.value.endReceived && s.load.value.payload.Some? {
      var (vault, published) := FinishedVault(s.vault, s.load.value);
      if published {
        ReleaseHeldShell(Publish(s, vault), now);
        ListingShell(ReleaseHeld(Publish(s, vault), now), "released");
      } else {
        FailShell(s, vault, s.load.value.epoch);
        var told := Note(FailLoad(s, vault, s.load.value.epoch), Told("load_failed"));
        CancelShell(told, "load-failed");
        ListingShell(CancelHeld(told, "load-failed"), "load-failed");
      }
    }
  }

  lemma FailShell(s: State, vault: K.Vault, epoch: nat)
    ensures FailLoad(s, vault, epoch).load == None
  {
  }

  lemma StepTimed(s: State, e: Event)
    requires Timed(s.load)
    ensures Timed(Step(s, e).load)
  {
    hide FinishLoad, OnTick, OnLoadEnd, OnPayload, OnApprove, OnDeny, OnAskSign, OnAskList, OnLocked, OnLoggedOut,
         OnShutdown, OnLoadBegin;
    if !s.stopped {
      match e
      case VaultLocked(epoch) => LocksTimed(s, epoch);
      case VaultLoggedOut => LocksTimed(s, 0);
      case Shutdown => LocksTimed(s, 0);
      case LoadBegin(epoch, loadId) => LoadTimed(s, epoch, loadId, true, ReadFailed, 0);
      case LoadEnd(epoch, ok, now) => LoadTimed(s, epoch, [], ok, ReadFailed, now);
      case PayloadRead(epoch, payload, now) => LoadTimed(s, epoch, [], true, payload, now);
      case Approve(id, seconds, now) => ApproveLoad(s, id, seconds, now);
      case Deny(id) => DenyLoad(s, id);
      case AskSign(r, now) => AskLoad(s, r, now);
      case AskList(peer, forwarded, now) => ListLoad(s, peer, forwarded, now);
      case Tick(now, gone) => TickTimed(s, now, gone);
      case _ =>
    }
  }

  lemma LocksTimed(s: State, epoch: nat)
    ensures OnLocked(s, epoch).load == None && OnLoggedOut(s).load == None && OnShutdown(s).load == None
  {
  }

  lemma LoadTimed(s: State, epoch: nat, loadId: Bytes, ok: bool, payload: Payload, now: nat)
    requires Timed(s.load)
    ensures Timed(OnLoadBegin(s, epoch, loadId).load)
    ensures Timed(OnLoadEnd(s, epoch, ok, now).load) && Timed(OnPayload(s, epoch, payload, now).load)
  {
    hide FinishLoad, ReleaseListing, CancelHeld, FailLoad, ValidNonce;
    FailShell(s, s.vault, epoch);
    CancelShell(FailLoad(s, s.vault, epoch), "load-failed");
    ListingShell(CancelHeld(FailLoad(s, s.vault, epoch), "load-failed"), "load-failed");
    if s.load.Some? {
      FinishTimed(s.(load := Some(s.load.value.(payload := Some(payload)))), now);
      FinishTimed(s.(load := Some(s.load.value.(endReceived := true,
                                                payloadDeadlineMs := Some(SatAdd(now, LOAD_END_GRACE_MS))))), now);
    }
  }

  lemma ApproveLoad(s: State, id: nat, seconds: nat, now: nat)
    ensures OnApprove(s, id, seconds, now).load == s.load
  {
    hide Consume, SettleGranted;
    if id !in s.held && id in s.pending {
      var sign := s.pending[id];
      var s1 := Note(s, Approved(id)).(pending := s.pending - {id});
      ConsumeKeepsShell(s1, id, sign.ticket, sign.message, sign.flags, seconds, now);
      SettleShell(Consume(s1, id, sign.ticket, sign.message, sign.flags, seconds, now), now);
    }
  }

  lemma DenyLoad(s: State, id: nat)
    ensures OnDeny(s, id).load == s.load
  {
    hide A.Disconnect, ReleaseListing;
    var s1 := s.(approvals := A.Disconnect(s.approvals, id));
    var s2 := if id in s.pending then Note(s1.(pending := s.pending - {id}), Refused({s.pending[id].ticket})) else s1;
    var s3 := if id in s.held then Note(s2.(held := s.held - {id}), Refused({s.held[id].ticket})) else s2;
    ListingShell(s3, "cancelled");
  }

  lemma AskLoad(s: State, r: SignRequest, now: nat)
    ensures OnAskSign(s, r, now).load == s.load
  {
    hide Ask, A.ReserveRequestId, A.CapacityRemaining, K.Blobs;
    AskKeepsShell(Note(s.(arrivals := s.arrivals + 1), Asked(s.arrivals, r)), s.arrivals, r, None, now);
  }

  lemma ListLoad(s: State, peer: A.Peer, forwarded: bool, now: nat)
    ensures OnAskList(s, peer, forwarded, now).load == s.load
  {
    hide A.ReserveRequestId, Names;
  }

  lemma TickTimed(s: State, now: nat, gone: set<Ticket>)
    requires Timed(s.load)
    ensures Timed(OnTick(s, now, gone).load)
  {
    hide FinishLoad, OnTick, Swept, A.Expire;
    TickIs(s, now, gone);
    var s1 := s.(approvals := A.Expire(s.approvals, now));
    SweepLeaves(s1, now, gone);
    if TimesOut(s, now) {
      var late := s1.(load := Some(s.load.value.(payload := Some(ReadFailed))));
      FinishTimed(late, now);
      SweepLeaves(FinishLoad(late, now), now, gone);
    }
  }

  lemma {:induction false} EveryLoadTimed(uid: nat, events: seq<Event>, states: seq<State>, n: nat)
    requires T.IsRun(uid, events, states) && n <= |events|
    ensures Timed(states[n].load)
    decreases n
  {
    hide Step;
    if n > 0 {
      EveryLoadTimed(uid, events, states, n - 1);
      StepTimed(states[n - 1], events[n - 1]);
    }
  }

  /** In every run, every tick leaves exactly what is not over. */
  lemma EveryTick(uid: nat, events: seq<Event>, states: seq<State>, n: nat)
    requires T.IsRun(uid, events, states) && n < |events| && events[n].Tick? && !states[n].stopped
    ensures Ticked(states[n], states[n + 1], events[n].now, events[n].gone)
  {
    hide Inv, OnTick, Ticked, Timed;
    T.EveryRunIsSafe(uid, events, states, n);
    EveryLoadTimed(uid, events, states, n);
    TickOutcome(states[n], events[n].now, events[n].gone);
  }

  // ---- Locks, revocations and the rest ----------------------------------------------------------

  /** A lock closes the gate and keeps the public keys for listings; a logout keeps nothing. Neither goes back in
      epochs. */
  lemma LockOutcome(s: State, epoch: nat)
    requires Inv(s)
    ensures var s' := OnLocked(s, epoch);
            && !s'.gateOpen && s'.load == None && s'.held == map[] && s'.listing == None && s'.pending == map[]
            && s'.approvals.pending == [] && s'.approvals.grants == [] && s'.vault.public == s.vault.public
            && s'.vault.tracked == K.Tracked(Max(s.vault.tracked.epoch, epoch),
                                             if s.vault.public == [] then K.LockedEmpty else K.LockedCached)
            && s'.log.Then? && s'.log.entry == Told("locked")
    ensures var s' := OnLoggedOut(s);
            && !s'.gateOpen && s'.load == None && s'.held == map[] && s'.listing == None && s'.pending == map[]
            && s'.approvals.pending == [] && s'.approvals.grants == []
            && s'.vault == K.Vault(K.Tracked(Max(s.vault.tracked.epoch, SatAdd(s.vault.tracked.epoch, 1)), K.LoggedOut),
                                   [], [])
  {
    hide Inv, CancelHeld, ReleaseListing, PendingTickets;
    var locked := CloseGate(s.(load := None), K.StoreLock(s.vault, epoch));
    CancelShell(locked, "locked");
    ListingShell(CancelHeld(locked, "locked"), "locked");
    var out := CloseGate(s.(load := None), K.StoreLogout(s.vault, SatAdd(s.vault.tracked.epoch, 1)));
    CancelShell(out, "logged-out");
    ListingShell(CancelHeld(out, "logged-out"), "logged-out");
  }

  /** A first hello is answered and a second ends the helper, as does a line that cannot be read; the options and a
      hello change nothing else. */
  lemma ControlOutcome(s: State, on: bool)
    requires !s.stopped
    ensures Step(s, SetOptions(on)) == s.(unlockOnDemand := on)
    ensures Step(s, BadLine) == s.(stopped := true)
    ensures s.greeted ==> Step(s, Hello) == s.(stopped := true)
    ensures !s.greeted ==> Step(s, Hello) == s.(greeted := true, log := Then(s.log, Told("ready")))
    ensures forall e :: Step(s.(stopped := true), e) == s.(stopped := true)
  {
    hide OnLocked, OnLoggedOut, OnApprove, OnDeny, OnShutdown, OnLoadBegin, OnLoadEnd, OnPayload, OnAskSign, OnAskList,
         OnTick;
  }

  /** Revoking takes the grants named, or all, and nothing else. */
  lemma RevokeOutcome(s: State, id: nat)
    requires !s.stopped
    ensures var s' := Step(s, RevokeGrant(id));
            && (forall g :: g in s'.approvals.grants <==> g in s.approvals.grants && g.id != id)
            && s'.approvals.pending == s.approvals.pending && s'.pending == s.pending && s'.held == s.held
    ensures var s' := Step(s, RevokeGrants);
            s'.approvals == s.approvals.(grants := []) && s'.pending == s.pending && s'.held == s.held
  {
    A.RevokeTakesOne(s.approvals, id);
    hide A.RevokeGrant;
  }
}

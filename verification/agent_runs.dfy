/** Every event keeps the invariant, so every run leaves a safe log. */
module AgentRuns {
  import opened Common
  import opened AgentSpec
  import opened AgentSafety
  import K = KeyStores
  import A = Approvals

  // ---- Releasing what was held ------------------------------------------------------------------

  lemma HeldHasEvidence(s: State, id: nat, e: Entry)
    requires Core(s, {}, {}) && id in s.held
    ensures var h := s.held[id];
            && Has(Then(s.log, e), Asked(h.ticket, SignRequest(h.blob, h.message, h.flags, h.peer, h.scope)))
            && (h.approved.Some? ==> ApprovedByPanel(Then(s.log, e), h.ticket, s.vault.tracked.epoch))
    ensures |s.approvals.pending| + |s.held| <= A.MAX_PENDING
  {
    hide Owns, Numbered, SafeLog;
    assert BackedHeld(s.log, id, s.held[id]);
    if s.held[id].approved.Some? {
      assert ApprovedByPanel(s.log, s.held[id].ticket, s.vault.tracked.epoch);
      StillApproved(s.log, e, s.held[id].ticket, s.vault.tracked.epoch);
    }
  }

  lemma ReleaseOneKeeps(s: State, id: nat, now: nat)
    requires Core(s, {}, {}) && s.gateOpen && id in s.held
    ensures Core(ReleaseOne(s, id, now), {}, {})
    ensures SameShell(s.(held := s.held - {id}), ReleaseOne(s, id, now))
  {
    hide Core, HeldTickets, Ask;
    var h := s.held[id];
    var taken := map i | i in s.held && i in {id} :: s.held[i];
    OneTicket(s.held, id, taken);
    TakeHeldKeeps(s, {id}, taken, {}, {});
    assert {} + {h.ticket} == {h.ticket};
    var s1 := s.(held := s.held - {id});
    var e := Cancelled({id}, "released");
    NoteKeeps(s1, e, {h.ticket}, {});
    var r := SignRequest(h.blob, h.message, h.flags, h.peer, h.scope);
    HeldHasEvidence(s, id, e);
    hide ApprovedByPanel;
    assert s1.held.Keys == s.held.Keys - {id};
    AskKeeps(Note(s1, e), h.ticket, r, h.approved, now);
    AskKeepsShell(Note(s1, e), h.ticket, r, h.approved, now);
  }

  lemma OneTicket(held: map<nat, HeldSign>, id: nat, taken: map<nat, HeldSign>)
    requires id in held && taken == map i | i in held && i in {id} :: held[i]
    ensures HeldTickets(taken) == {held[id].ticket}
  {
    assert taken[id].ticket == held[id].ticket;
  }

  /** Releasing empties the held map and never meets a full queue. */
  lemma {:induction false} ReleaseEachKeeps(s: State, now: nat)
    requires Core(s, {}, {}) && s.gateOpen
    ensures Core(ReleaseEach(s, now), {}, {})
    ensures SameShell(s.(held := map[]), ReleaseEach(s, now))
    decreases |s.held|
  {
    if s.held != map[] {
      var id := Least(s.held.Keys);
      hide Core, ReleaseOne, IsLeast;
      ReleaseOneKeeps(s, id, now);
      ReleaseOneTakesOne(s, id, now);
      ReleaseEachKeeps(ReleaseOne(s, id, now), now);
    }
  }

  lemma ReleaseHeldKeeps(s: State, now: nat)
    requires Core(s, {}, {}) && s.gateOpen
    ensures Core(ReleaseHeld(s, now), {}, {})
    ensures ReleaseHeld(s, now).held == map[]
  {
    hide Core, ReleaseEach, SettleGranted;
    ReleaseEachKeeps(s, now);
    SettleGrantedKeeps(ReleaseEach(s, now), now);
  }

  // ---- Loads ------------------------------------------------------------------------------------

  lemma VaultFacts(s: State)
    requires Core(s, {}, {})
    ensures K.SoundVault(s.vault)
    ensures s.load.Some? ==> !s.gateOpen
    ensures !s.gateOpen ==> s.approvals.pending == [] && s.approvals.grants == [] && s.pending == map[]
  {
    hide Owns, Numbered, Evident, SafeLog;
  }

  lemma FinishedVaultIsSound(v: K.Vault, load: ActiveLoad)
    requires K.SoundVault(v)
    ensures var (v', published) := FinishedVault(v, load);
            && K.SoundVault(v') && v.tracked.epoch <= v'.tracked.epoch
            && (published ==> v'.tracked == K.Tracked(load.epoch, K.Unlocked) && v.tracked.epoch < load.epoch)
  {
    hide K.StoreLoad, K.SoundVault;
    match load.payload
    case Some(Read(size, Some(envelope))) => K.LoadKeepsSound(v, load.epoch, size, envelope.items);
    case _ =>
  }

  lemma LockIsSound(v: K.Vault, epoch: nat)
    requires K.SoundVault(v)
    ensures K.SoundVault(K.StoreLock(v, epoch)) && v.tracked.epoch <= K.StoreLock(v, epoch).tracked.epoch
    ensures K.SoundVault(K.StoreLogout(v, epoch)) && v.tracked.epoch <= K.StoreLogout(v, epoch).tracked.epoch
  {
  }

  lemma LoadFieldKeeps(s: State, load: Option<ActiveLoad>)
    requires Core(s, {}, {}) && (load.Some? ==> !s.gateOpen)
    ensures Core(s.(load := load), {}, {})
  {
    hide Owns, Numbered, Evident, SafeLog;
  }

  lemma FailLoadKeeps(s: State, vault: K.Vault, epoch: nat)
    requires Core(s, {}, {}) && !s.gateOpen
    requires K.SoundVault(vault) && s.vault.tracked.epoch <= vault.tracked.epoch
    ensures Core(FailLoad(s, vault, epoch), {}, {})
  {
    hide Core, K.SoundVault, K.StoreLock;
    VaultFacts(s);
    LockIsSound(vault, epoch);
    LoadFieldKeeps(s, None);
    DownKeeps(s.(load := None), K.StoreLock(vault, epoch), {});
  }

  lemma PublishKeeps(s: State, vault: K.Vault)
    requires Core(s, {}, {}) && !s.gateOpen
    requires K.SoundVault(vault) && s.vault.tracked.epoch < vault.tracked.epoch && vault.tracked.state == K.Unlocked
    ensures Core(Publish(s, vault), {}, {})
  {
    hide Core, K.SoundVault, K.SigningBlobs;
    UpKeeps(s, vault, {});
    NoteKeeps(Note(s.(vault := vault, gateOpen := true, load := None), Up(vault.tracked.epoch, K.SigningBlobs(vault))),
              Announced(|vault.public|), {}, {});
  }

  /** A publishing load settles everything that waited for it; a failing one refuses it. */
  lemma FinishLoadKeeps(s: State, now: nat)
    requires Inv(s)
    ensures Inv(FinishLoad(s, now))
  {
    hide Core, ReleaseHeld, ReleaseListing, CancelHeld, Publish, FailLoad, FinishedVault, K.SoundVault;
    if s.load.Some? && s.load.value.endReceived && s.load.value.payload.Some? {
      VaultFacts(s);
      FinishedVaultIsSound(s.vault, s.load.value);
      var (vault, published) := FinishedVault(s.vault, s.load.value);
      if published {
        FinishPublished(s, vault, now);
      } else {
        FinishFailed(s, vault, s.load.value.epoch);
      }
    }
  }

  lemma FinishPublished(s: State, vault: K.Vault, now: nat)
    requires Core(s, {}, {}) && !s.gateOpen
    requires K.SoundVault(vault) && s.vault.tracked.epoch < vault.tracked.epoch && vault.tracked.state == K.Unlocked
    ensures Inv(ReleaseListing(ReleaseHeld(Publish(s, vault), now), "released"))
  {
    hide Core, ReleaseHeld, K.SoundVault;
    PublishKeeps(s, vault);
    var up := Publish(s, vault);
    assert up.gateOpen;
    hide Publish;
    ReleaseHeldKeeps(up, now);
    ReleaseListingKeeps(ReleaseHeld(up, now), "released");
  }

  lemma FinishFailed(s: State, vault: K.Vault, epoch: nat)
    requires Core(s, {}, {}) && !s.gateOpen
    requires K.SoundVault(vault) && s.vault.tracked.epoch <= vault.tracked.epoch
    ensures Inv(ReleaseListing(CancelHeld(Note(FailLoad(s, vault, epoch), Told("load_failed")), "load-failed"),
                               "load-failed"))
  {
    hide Core, K.SoundVault;
    FailLoadKeeps(s, vault, epoch);
    var failed := FailLoad(s, vault, epoch);
    assert !failed.gateOpen;
    hide FailLoad;
    NoteKeeps(failed, Told("load_failed"), {}, {});
    RefuseWaiting(Note(failed, Told("load_failed")), "load-failed");
  }

  /** Held requests fail and listings are answered. */
  lemma RefuseWaiting(s: State, reason: string)
    requires Core(s, {}, {}) && !s.gateOpen
    ensures Inv(ReleaseListing(CancelHeld(s, reason), reason))
    ensures !ReleaseListing(CancelHeld(s, reason), reason).gateOpen
  {
    hide Core;
    CancelHeldKeeps(s, reason);
    var c := CancelHeld(s, reason);
    assert !c.gateOpen;
    hide CancelHeld;
    ReleaseListingKeeps(c, reason);
  }

  // ---- Events -----------------------------------------------------------------------------------

  lemma LockedKeeps(s: State, epoch: nat)
    requires Inv(s)
    ensures Inv(OnLocked(s, epoch))
  {
    hide Core, K.SoundVault, K.StoreLock;
    VaultFacts(s);
    LockIsSound(s.vault, epoch);
    LoadFieldKeeps(s, None);
    var s1 := s.(load := None);
    CloseGateKeeps(s1, K.StoreLock(s.vault, epoch));
    var closed := CloseGate(s1, K.StoreLock(s.vault, epoch));
    assert !closed.gateOpen;
    hide CloseGate, CancelHeld, ReleaseListing;
    RefuseWaiting(closed, "locked");
    NoteKeeps(ReleaseListing(CancelHeld(closed, "locked"), "locked"), Told("locked"), {}, {});
  }

  lemma LoggedOutKeeps(s: State)
    requires Inv(s)
    ensures Inv(OnLoggedOut(s))
  {
    hide Core, K.SoundVault, K.StoreLogout;
    var epoch := SatAdd(s.vault.tracked.epoch, 1);
    VaultFacts(s);
    LockIsSound(s.vault, epoch);
    LoadFieldKeeps(s, None);
    var s1 := s.(load := None);
    CloseGateKeeps(s1, K.StoreLogout(s.vault, epoch));
    var closed := CloseGate(s1, K.StoreLogout(s.vault, epoch));
    assert !closed.gateOpen;
    hide CloseGate, CancelHeld, ReleaseListing;
    RefuseWaiting(closed, "logged-out");
  }

  lemma ApproveHeldKeeps(s: State, id: nat, seconds: nat)
    requires Inv(s) && id in s.held
    ensures Inv(Note(s, Approved(id)).(held := s.held[id := s.held[id].(approved := Some(seconds))]))
  {
    hide Owns, Numbered, Gated, Evident, SafeLog, HeldTickets;
    VaultFacts(s);
    var marked := s.held[id := s.held[id].(approved := Some(seconds))];
    MarkHeld(s.held, id, seconds);
    NoteKeeps(s, Approved(id), {}, {});
    var s1 := Note(s, Approved(id));
    OwnsMarked(s1, marked, id);
    RestMarked(s1, marked, id);
    EvidentMarked(s, marked, id);
  }

  lemma RestMarked(s: State, marked: map<nat, HeldSign>, id: nat)
    requires Numbered(s.approvals, s.pending, s.held, s.listing, s.log, {})
    requires Gated(s.vault, s.gateOpen, s.load, s.approvals, s.pending, s.held, s.log)
    requires marked.Keys == s.held.Keys && |marked| == |s.held|
    ensures Numbered(s.approvals, s.pending, marked, s.listing, s.log, {})
    ensures Gated(s.vault, s.gateOpen, s.load, s.approvals, s.pending, marked, s.log)
  {
    hide K.SoundVault, K.SigningBlobs, A.SoundQueue;
  }

  lemma EvidentMarked(s: State, marked: map<nat, HeldSign>, id: nat)
    requires Evident(s.vault.tracked.epoch, s.approvals, s.pending, s.held, s.log, {}) && id in s.held
    requires marked.Keys == s.held.Keys && (forall i :: i in marked && i != id ==> marked[i] == s.held[i])
    requires marked[id] == s.held[id].(approved := marked[id].approved)
    ensures Evident(s.vault.tracked.epoch, s.approvals, s.pending, marked, Then(s.log, Approved(id)), {})
  {
    EvidentThen(s.vault.tracked.epoch, s.approvals, s.pending, s.held, s.log, {}, Approved(id));
    hide Backed;
    assert BackedHeld(s.log, id, s.held[id]);
    assert id in Consented(Then(s.log, Approved(id)));
  }

  lemma OwnsMarked(s: State, marked: map<nat, HeldSign>, id: nat)
    requires Owns(s.pending, s.held, s.listing, s.arrivals, s.log, {}) && id in s.held
    requires HeldTickets(marked) == HeldTickets(s.held)
    requires marked.Keys == s.held.Keys && forall i :: i in marked ==> marked[i].ticket == s.held[i].ticket
    ensures Owns(s.pending, marked, s.listing, s.arrivals, s.log, {})
  {
    hide Parts, PendingTickets, HeldTickets, WaitingTickets;
  }

  /** The reply channel of a shown request, taken out to consume its approval. */
  lemma QueuedIsBacked(s: State, id: nat)
    requires Core(s, {}, {}) && id in s.pending
    ensures var log := Then(s.log, Approved(id));
            && (forall q :: q in s.approvals.pending && q.id == id ==>
                  && q.epoch == s.vault.tracked.epoch
                  && Has(log, Asked(s.pending[id].ticket,
                                    SignRequest(q.blob, s.pending[id].message, s.pending[id].flags, q.peer, q.scope)))
                  && ApprovedByPanel(log, s.pending[id].ticket, s.vault.tracked.epoch))
  {
    hide Owns, Gated, SafeLog, Numbered;
    forall q | q in s.approvals.pending && q.id == id
      ensures ApprovedByPanel(Then(s.log, Approved(id)), s.pending[id].ticket, s.vault.tracked.epoch)
    {
      assert Backed(s.log, s.vault.tracked.epoch, q, s.pending[id]);
      assert id in Consented(Then(s.log, Approved(id)));
    }
  }

  /** With no request left in the queue an approval only refuses. */
  lemma ConsumeNothingKeeps(s: State, id: nat, t: Ticket, message: Bytes, flags: nat, seconds: nat, now: nat,
                            extra: set<Ticket>, loose: set<nat>)
    requires Core(s, extra, loose) && t in extra
    requires forall q :: q in s.approvals.pending ==> q.id != id
    ensures Core(Consume(s, id, t, message, flags, seconds, now), extra - {t}, loose - {id})
  {
    hide Core, A.SoundQueue;
    QueueIsSound(s, extra, loose);
    A.ApproveOutcome(s.approvals, id, seconds, now);
    var (a, r) := A.Approve(s.approvals, id, seconds, now);
    hide A.Approve, A.Opens;
    ManagerKeeps(s, a, extra, loose, loose - {id});
    RefuseKeeps(s.(approvals := a), {t}, extra, loose - {id});
  }

  lemma ApprovePendingKeeps(s: State, id: nat, seconds: nat, now: nat)
    requires Core(s, {}, {}) && id in s.pending && id !in s.held
    ensures var sign := s.pending[id];
            var s2 := Consume(Note(s, Approved(id)).(pending := s.pending - {id}), id, sign.ticket, sign.message,
                              sign.flags, seconds, now);
            Core(s2, {}, {}) && s2.gateOpen && s2.held == s.held
  {
    hide Core, Consume, PendingTickets, ApprovedByPanel;
    VaultFacts(s);
    var sign := s.pending[id];
    NoteKeeps(s, Approved(id), {}, {});
    QueuedIsBacked(s, id);
    var s0 := Note(s, Approved(id));
    var taken := map i | i in s.pending && i in {id} :: s.pending[i];
    OnePendingTicket(s.pending, id, taken);
    TakePendingKeeps(s0, {id}, taken, {}, {});
    assert {} + {sign.ticket} == {sign.ticket} && {} + {id} == {id};
    var s1 := s0.(pending := s.pending - {id});
    ConsumeKeepsShell(s1, id, sign.ticket, sign.message, sign.flags, seconds, now);
    assert {sign.ticket} - {sign.ticket} == {} && {id} - {id} == {};
    if q :| q in s.approvals.pending && q.id == id {
      ConsumeKeeps(s1, id, sign.ticket, sign.message, sign.flags, seconds, now, {sign.ticket}, {id});
    } else {
      ConsumeNothingKeeps(s1, id, sign.ticket, sign.message, sign.flags, seconds, now, {sign.ticket}, {id});
    }
  }

  lemma OnePendingTicket(pending: map<nat, PendingSign>, id: nat, taken: map<nat, PendingSign>)
    requires id in pending && taken == map i | i in pending && i in {id} :: pending[i]
    ensures PendingTickets(taken) == {pending[id].ticket}
  {
    assert taken[id].ticket == pending[id].ticket;
  }

  lemma ApproveKeeps(s: State, id: nat, seconds: nat, now: nat)
    requires Inv(s)
    ensures Inv(OnApprove(s, id, seconds, now))
  {
    hide Core, Consume, SettleGranted;
    if id in s.held {
      ApproveHeldKeeps(s, id, seconds);
    } else if id !in s.pending {
      NoteKeeps(s, Approved(id), {}, {});
    } else {
      VaultFacts(s);
      ApprovePendingKeeps(s, id, seconds, now);
      var sign := s.pending[id];
      var s2 := Consume(Note(s, Approved(id)).(pending := s.pending - {id}), id, sign.ticket, sign.message, sign.flags,
                        seconds, now);
      if seconds > 0 {
        SettleGrantedKeeps(s2, now);
      }
    }
  }

  lemma DisconnectKeeps(s: State, id: nat)
    requires Core(s, {}, {})
    ensures Core(s.(approvals := A.Disconnect(s.approvals, id)), {}, {})
    ensures forall q :: q in A.Disconnect(s.approvals, id).pending ==> q.id != id
  {
    hide Core;
    QueueIsSound(s, {}, {});
    A.RetainKeepsSound(s.approvals, A.NotId(id));
    RetainIsFilter(s.approvals.pending, A.NotId(id));
    hide A.SoundQueue;
    ManagerKeeps(s, A.Disconnect(s.approvals, id), {}, {}, {});
  }

  lemma RefuseOnePendingKeeps(s: State, id: nat)
    requires Core(s, {}, {}) && id in s.pending
    requires forall q :: q in s.approvals.pending ==> q.id != id
    ensures Core(Note(s.(pending := s.pending - {id}), Refused({s.pending[id].ticket})), {}, {})
  {
    hide Core, PendingTickets;
    var t := s.pending[id].ticket;
    var taken := map i | i in s.pending && i in {id} :: s.pending[i];
    OnePendingTicket(s.pending, id, taken);
    TakePendingKeeps(s, {id}, taken, {}, {});
    assert {} + {t} == {t} && {} + {id} == {id} && {t} - {t} == {};
    var s1 := s.(pending := s.pending - {id});
    QueueIsSound(s1, {t}, {id});
    ManagerKeeps(s1, s1.approvals, {t}, {id}, {});
    assert s1.(approvals := s1.approvals) == s1;
    RefuseKeeps(s1, {t}, {t}, {});
  }

  lemma RefuseOneHeldKeeps(s: State, id: nat)
    requires Core(s, {}, {}) && id in s.held
    ensures Core(Note(s.(held := s.held - {id}), Refused({s.held[id].ticket})), {}, {})
  {
    hide Core, HeldTickets;
    var t := s.held[id].ticket;
    var taken := map i | i in s.held && i in {id} :: s.held[i];
    OneTicket(s.held, id, taken);
    TakeHeldKeeps(s, {id}, taken, {}, {});
    assert {} + {t} == {t} && {t} - {t} == {};
    RefuseKeeps(s.(held := s.held - {id}), {t}, {t}, {});
  }

  lemma DenyKeeps(s: State, id: nat)
    requires Inv(s)
    ensures Inv(OnDeny(s, id))
  {
    hide Core;
    DisconnectKeeps(s, id);
    var s1 := s.(approvals := A.Disconnect(s.approvals, id));
    hide A.Disconnect;
    if id in s.pending {
      RefuseOnePendingKeeps(s1, id);
    }
    var s2 := if id in s.pending then Note(s1.(pending := s.pending - {id}), Refused({s.pending[id].ticket})) else s1;
    assert Core(s2, {}, {}) && s2.held == s.held && s2.gateOpen == s.gateOpen && s2.listing == s.listing;
    if id in s.held {
      RefuseOneHeldKeeps(s2, id);
    }
    var s3 := if id in s.held then Note(s2.(held := s.held - {id}), Refused({s.held[id].ticket})) else s2;
    assert Core(s3, {}, {}) && (s3.gateOpen ==> s3.held == map[]);
    ReleaseListingKeeps(s3, "cancelled");
  }

  lemma RevokedKeeps(s: State, a: A.Manager, e: Entry)
    requires Inv(s) && A.SoundQueue(a)
    requires a == s.approvals.(grants := a.grants)
    requires e.RevokedAll? || e.Revoked?
    requires forall g :: g in a.grants ==> g in s.approvals.grants && e.Revoked? && g.id != e.grantId
    ensures Inv(Note(s.(approvals := a), e))
  {
    hide Core, A.SoundQueue;
    ManagerKeeps(s, a, {}, {}, {});
    RevokedThen(s.(approvals := a), e);
  }

  lemma RevokedThen(s: State, e: Entry)
    requires Core(s, {}, {}) && (e.RevokedAll? || e.Revoked?)
    requires forall g :: g in s.approvals.grants ==> e.Revoked? && g.id != e.grantId
    ensures Core(Note(s, e), {}, {})
  {
    hide Owns, Numbered, Gated, Backed, BackedHeld;
    OwnsThen(s.pending, s.held, s.listing, s.arrivals, s.log, {}, e);
    NumberedThen(s.approvals, s.pending, s.held, s.listing, s.log, {}, e);
    GatedThen(s.vault, s.gateOpen, s.load, s.approvals, s.pending, s.held, s.log, e);
    EvidentRevoked(s.vault.tracked.epoch, s.approvals, s.pending, s.held, s.log, e);
    assert {} - Answers(e) == {};
  }

  lemma EvidentRevoked(epoch: nat, a: A.Manager, pending: map<nat, PendingSign>, held: map<nat, HeldSign>, log: Log,
                       e: Entry)
    requires Evident(epoch, a, pending, held, log, {}) && (e.RevokedAll? || e.Revoked?)
    requires forall g :: g in a.grants ==> e.Revoked? && g.id != e.grantId
    ensures Evident(epoch, a, pending, held, Then(log, e), {})
  {
  }

  lemma FailPendingKeeps(s: State)
    requires Core(s, {}, {}) && s.approvals.pending == []
    ensures Core(FailPending(s), {}, {})
  {
    hide Core, PendingTickets;
    var tickets := PendingTickets(s.pending);
    assert s.pending - s.pending.Keys == map[];
    assert s.pending == map id | id in s.pending && id in s.pending.Keys :: s.pending[id];
    TakePendingKeeps(s, s.pending.Keys, s.pending, {}, {});
    assert {} + tickets == tickets && {} + s.pending.Keys == s.pending.Keys && tickets - tickets == {};
    var s1 := s.(pending := map[]);
    QueueIsSound(s1, tickets, s.pending.Keys);
    ManagerKeeps(s1, s1.approvals, tickets, s.pending.Keys, {});
    assert s1.(approvals := s1.approvals) == s1;
    RefuseKeeps(s1, tickets, tickets, {});
  }

  lemma ShutdownKeeps(s: State)
    requires Inv(s)
    ensures Inv(OnShutdown(s))
  {
    hide Core, K.SoundVault, K.StoreLogout, PendingTickets, HeldTickets;
    VaultFacts(s);
    LoadFieldKeeps(s, None);
    var s0 := s.(load := None);
    ManagerKeeps(s0, A.InvalidateAll(s.approvals), {}, {}, {});
    var s1 := s0.(approvals := A.InvalidateAll(s.approvals));
    FailPendingKeeps(s1);
    CancelHeldKeeps(FailPending(s1), "shutdown");
    ReleaseListingKeeps(CancelHeld(FailPending(s1), "shutdown"), "shutdown");
    var s2 := ReleaseListing(CancelHeld(FailPending(s1), "shutdown"), "shutdown");
    assert s2.approvals == s1.approvals && s2.pending == map[] && s2.held == map[] && s2.vault == s.vault;
    hide ReleaseListing, CancelHeld, FailPending;
    LockIsSound(s.vault, SatAdd(s.vault.tracked.epoch, 1));
    var out := K.StoreLogout(s.vault, SatAdd(s.vault.tracked.epoch, 1));
    DownKeeps(s2, out, {});
    StoppedKeeps(Note(s2.(vault := out, gateOpen := false), Down(out.tracked.epoch)), {}, {});
  }

  lemma StoppedKeeps(s: State, extra: set<Ticket>, loose: set<nat>)
    requires Core(s, extra, loose)
    ensures Core(s.(stopped := true), extra, loose)
  {
    hide Owns, Numbered, Gated, Evident, SafeLog;
  }

  lemma LoadBeginKeeps(s: State, epoch: nat, loadId: Bytes)
    requires Inv(s)
    ensures Inv(OnLoadBegin(s, epoch, loadId))
  {
    hide Core, K.SoundVault;
    if s.load.Some? {
      StoppedKeeps(s, {}, {});
    } else {
      VaultFacts(s);
      CloseGateKeeps(s, s.vault);
      var closed := CloseGate(s, s.vault);
      assert !closed.gateOpen;
      hide CloseGate;
      StoppedKeeps(closed, {}, {});
      LoadFieldKeeps(closed, Some(ActiveLoad(epoch, loadId, None, false, None)));
    }
  }

  lemma LoadEndKeeps(s: State, epoch: nat, ok: bool, now: nat)
    requires Inv(s)
    ensures Inv(OnLoadEnd(s, epoch, ok, now))
  {
    hide Core, K.SoundVault, FinishLoad;
    VaultFacts(s);
    if s.load.None? || s.load.value.epoch != epoch {
      StoppedKeeps(s, {}, {});
    } else if !ok {
      FailLoadKeeps(s, s.vault, epoch);
      var failed := FailLoad(s, s.vault, epoch);
      assert !failed.gateOpen;
      hide FailLoad, CancelHeld, ReleaseListing;
      RefuseWaiting(failed, "load-failed");
    } else {
      var load := Some(s.load.value.(endReceived := true, payloadDeadlineMs := Some(SatAdd(now, LOAD_END_GRACE_MS))));
      LoadFieldKeeps(s, load);
      FinishLoadKeeps(s.(load := load), now);
    }
  }

  lemma PayloadKeeps(s: State, epoch: nat, payload: Payload, now: nat)
    requires Inv(s)
    ensures Inv(OnPayload(s, epoch, payload, now))
  {
    hide Core, FinishLoad;
    if s.load.Some? && s.load.value.epoch == epoch {
      VaultFacts(s);
      var load := Some(s.load.value.(payload := Some(payload)));
      LoadFieldKeeps(s, load);
      FinishLoadKeeps(s.(load := load), now);
    }
  }

  // ---- Clients ----------------------------------------------------------------------------------

  lemma AskSignKeeps(s: State, r: SignRequest, now: nat)
    requires Inv(s)
    ensures Inv(OnAskSign(s, r, now))
  {
    hide Core, Ask;
    var t := s.arrivals;
    ArriveKeeps(s, Asked(t, r), {}, {});
    assert {} + {t} == {t} && {t} - {t} == {};
    var s1 := Note(s.(arrivals := t + 1), Asked(t, r));
    if s.gateOpen {
      AskKeeps(s1, t, r, None, now);
      AskKeepsShell(s1, t, r, None, now);
    } else if r.blob !in K.Blobs(s.vault.public) || r.peer.uid != s.approvals.expectedUid
              || A.CapacityRemaining(s.approvals, |s.held|) == 0 {
      RefuseKeeps(s1, {t}, {t}, {});
    } else {
      HoldKeeps(s1, t, r, now);
    }
  }

  lemma HoldKeeps(s: State, t: Ticket, r: SignRequest, now: nat)
    requires Core(s, {t}, {}) && !s.gateOpen && Has(s.log, Asked(t, r))
    requires A.CapacityRemaining(s.approvals, |s.held|) > 0
    ensures var (a, id) := A.ReserveRequestId(s.approvals);
            && (id.Err? ==> Core(Note(s, Refused({t})), {}, {}))
            && (id.Ok? ==>
                  var h := HeldSign(t, r.blob, r.message, r.flags, r.peer, r.scope, SatAdd(now, HELD_LIFETIME_MS),
                                    None);
                  Core(Note(s.(approvals := a), PromptedUnlock(id.value, t)).(held := s.held[id.value := h]), {}, {}))
  {
    hide Core;
    var (a, id) := A.ReserveRequestId(s.approvals);
    assert {t} - {t} == {};
    QueueIsSound(s, {t}, {});
    if id.Err? {
      RefuseKeeps(s, {t}, {t}, {});
    } else {
      ManagerKeeps(s, a, {t}, {}, {});
      var s1 := s.(approvals := a);
      var e := PromptedUnlock(id.value, t);
      InHandIsOpen(s, {t}, {});
      ClosedWhenShut(s, t);
      EntryKeeps(s1, e, {t}, {});
      assert {t} - Answers(e) == {t};
      assert r == SignRequest(r.blob, r.message, r.flags, r.peer, r.scope);
      PutHeldKeeps(Note(s1, e), id.value,
                   HeldSign(t, r.blob, r.message, r.flags, r.peer, r.scope, SatAdd(now, HELD_LIFETIME_MS),
                            None), {t}, {});
    }
  }

  lemma ClosedWhenShut(s: State, t: Ticket)
    requires Core(s, {t}, {}) && !s.gateOpen
    ensures ServiceOf(s.log) == Closed
  {
    hide Owns, Numbered, Evident, SafeLog;
  }

  /** One more listing waits. */
  lemma PutListingKeeps(s: State, t: Ticket, listing: HeldList)
    requires Core(s, {t}, {}) && listing.id < s.approvals.nextId
    requires WaitingTickets(Some(listing)) == WaitingTickets(s.listing) + {t} && DistinctWaiting(Some(listing))
    ensures Core(s.(listing := Some(listing)), {}, {})
  {
    hide Gated, Evident, SafeLog, PendingTickets, HeldTickets, WaitingTickets, Injective, HeldInjective,
         DistinctWaiting;
  }

  lemma WaitingGrows(s: State, t: Ticket, forwarded: bool)
    requires Core(s, {t}, {}) && s.listing.Some?
    ensures var more := s.listing.value.(waiting := s.listing.value.waiting + [(t, forwarded)]);
            WaitingTickets(Some(more)) == WaitingTickets(s.listing) + {t} && DistinctWaiting(Some(more))
  {
    hide Numbered, Gated, Evident, SafeLog, PendingTickets, HeldTickets, Injective, HeldInjective;
    var before := s.listing.value.waiting;
    var more := before + [(t, forwarded)];
    forall x | x in WaitingTickets(s.listing) + {t} ensures exists i :: 0 <= i < |more| && more[i].0 == x {
      if x == t {
        assert more[|before|].0 == t;
      } else {
        var i :| 0 <= i < |before| && before[i].0 == x;
        assert more[i].0 == x;
      }
    }
    forall i | 0 <= i < |before| ensures before[i].0 != t {
      assert before[i].0 in WaitingTickets(s.listing);
    }
  }

  lemma AskListKeeps(s: State, peer: A.Peer, forwarded: bool, now: nat)
    requires Inv(s)
    ensures Inv(OnAskList(s, peer, forwarded, now))
  {
    hide Core, Names, WaitingTickets;
    var t := s.arrivals;
    ArriveKeeps(s, AskedList(t), {}, {});
    assert {} + {t} == {t} && {t} - {t} == {};
    var s1 := Note(s.(arrivals := t + 1), AskedList(t));
    ListKeeps(s1, {t}, forwarded, {t}, {});
    if s.vault.public != [] || !s.unlockOnDemand || peer.uid != s.approvals.expectedUid {
    } else if s.listing.Some? {
      WaitingGrows(s1, t, forwarded);
      ListingIdKnown(s1, t);
      hide DistinctWaiting;
      PutListingKeeps(s1, t, s.listing.value.(waiting := s.listing.value.waiting + [(t, forwarded)]));
    } else {
      FirstListingKeeps(s1, t, forwarded, SatAdd(now, HELD_LIFETIME_MS));
    }
  }

  lemma ListingIdKnown(s: State, t: Ticket)
    requires Core(s, {t}, {}) && s.listing.Some?
    ensures s.listing.value.id < s.approvals.nextId
  {
    hide Owns, Gated, Evident, SafeLog;
  }

  lemma FirstListingKeeps(s: State, t: Ticket, forwarded: bool, deadline: nat)
    requires Core(s, {t}, {}) && s.listing.None?
    ensures var (a, id) := A.ReserveRequestId(s.approvals);
            id.Ok? ==>
              Core(Note(s.(approvals := a), PromptedList(id.value))
                     .(listing := Some(HeldList(id.value, deadline, [(t, forwarded)]))), {}, {})
  {
    hide Core;
    var (a, id) := A.ReserveRequestId(s.approvals);
    if id.Ok? {
      QueueIsSound(s, {t}, {});
      ManagerKeeps(s, a, {t}, {}, {});
      var e := PromptedList(id.value);
      EntryKeeps(s.(approvals := a), e, {t}, {});
      assert {t} - Answers(e) == {t};
      var first := HeldList(id.value, deadline, [(t, forwarded)]);
      assert first.waiting[0].0 == t;
      assert WaitingTickets(Some(first)) == {t};
      PutListingKeeps(Note(s.(approvals := a), e), t, first);
    }
  }

  // ---- Ticks ------------------------------------------------------------------------------------

  lemma WithdrawPendingKeeps(s: State, ids: set<nat>)
    requires Core(s, {}, {})
    ensures Core(WithdrawPending(s, ids), {}, {})
  {
    hide Core, PendingTickets;
    var left := map id | id in s.pending && id in ids :: s.pending[id];
    var tickets := PendingTickets(left);
    TakePendingKeeps(s, ids, left, {}, {});
    assert {} + tickets == tickets && {} + ids == ids && tickets - tickets == {};
    var s1 := s.(pending := s.pending - ids);
    QueueIsSound(s1, tickets, ids);
    A.RetainKeepsSound(s.approvals, NotIn(ids));
    RetainIsFilter(s.approvals.pending, NotIn(ids));
    hide A.SoundQueue;
    var a := s.approvals.(pending := Retain(s.approvals.pending, NotIn(ids)));
    ManagerKeeps(s1, a, tickets, ids, {});
    var s2 := s1.(approvals := a);
    RefuseKeeps(s2, tickets, tickets, {});
    NoteKeeps(Note(s2, Refused(tickets)), Cancelled(ids, "withdrawn"), {}, {});
  }

  lemma WithdrawHeldKeeps(s: State, ids: set<nat>)
    requires Core(s, {}, {})
    ensures Core(WithdrawHeld(s, ids), {}, {})
  {
    hide Core, HeldTickets;
    var left := map id | id in s.held && id in ids :: s.held[id];
    var tickets := HeldTickets(left);
    TakeHeldKeeps(s, ids, left, {}, {});
    assert {} + tickets == tickets && tickets - tickets == {};
    var s1 := s.(held := s.held - ids);
    RefuseKeeps(s1, tickets, tickets, {});
    NoteKeeps(Note(s1, Refused(tickets)), Cancelled(ids, "withdrawn"), {}, {});
  }

  lemma ExpireKeepsInv(s: State, now: nat)
    requires Inv(s)
    ensures Inv(s.(approvals := A.Expire(s.approvals, now)))
  {
    hide Core;
    QueueIsSound(s, {}, {});
    A.ExpireKeeps(s.approvals, now);
    RetainIsFilter(s.approvals.pending, A.AliveAt(now));
    hide A.SoundQueue;
    ManagerKeeps(s, A.Expire(s.approvals, now), {}, {}, {});
  }

  lemma TickKeeps(s: State, now: nat, gone: set<Ticket>)
    requires Inv(s)
    ensures Inv(OnTick(s, now, gone))
  {
    hide Core, A.Expire, FinishLoad, Withdrawn, Stale, ListingOver;
    ExpireKeepsInv(s, now);
    VaultFacts(s);
    var s1 := s.(approvals := A.Expire(s.approvals, now));
    var timedOut := s.load.Some? && s.load.value.payload.None? && s.load.value.payloadDeadlineMs.Some?
                    && now >= s.load.value.payloadDeadlineMs.value;
    if timedOut {
      var load := Some(s.load.value.(payload := Some(ReadFailed)));
      LoadFieldKeeps(s1, load);
      FinishLoadKeeps(s1.(load := load), now);
      SweepKeeps(FinishLoad(s1.(load := load), now), now, gone);
    } else {
      SweepKeeps(s1, now, gone);
    }
  }

  lemma SweepKeeps(s: State, now: nat, gone: set<Ticket>)
    requires Inv(s)
    ensures var s3 := WithdrawPending(s, Withdrawn(s, gone));
            var s4 := WithdrawHeld(s3, Stale(s3.held, now, gone));
            Inv(if ListingOver(s4.listing, now, gone) then ReleaseListing(s4, "withdrawn") else s4)
  {
    hide Core, Withdrawn, Stale, ListingOver, PendingTickets, HeldTickets, NotIn;
    WithdrawPendingKeeps(s, Withdrawn(s, gone));
    var s3 := WithdrawPending(s, Withdrawn(s, gone));
    WithdrawHeldKeeps(s3, Stale(s3.held, now, gone));
    var s4 := WithdrawHeld(s3, Stale(s3.held, now, gone));
    assert s4.gateOpen ==> s4.held == map[] by {
      if s.gateOpen {
        assert s3.held == map[];
        assert s3.held - Stale(s3.held, now, gone) == map[];
      }
    }
    hide WithdrawPending, WithdrawHeld;
    ReleaseListingKeeps(s4, "withdrawn");
  }
}

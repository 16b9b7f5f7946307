/** The state loop as it runs (main.rs): one object owning the maps, updated in place, one
    method per event, each proved to be the transition of the same event. */
module AgentLoops {
  import opened Common
  import opened AgentSpec
  import opened AgentObjects
  import K = KeyStores
  import A = Approvals
  import S = AgentSafety
  import R = AgentRuns
  import T = AgentTheorems
  import W = Wire

  class AgentLoop {
    const store: KeyStore
    const approvals: ApprovalManager
    var pending: map<nat, PendingSign>
    var held: map<nat, HeldSign>
    var listing: Option<HeldList>
    var unlockOnDemand: bool
    var load: Option<ActiveLoad>
    var gateOpen: bool
    var greeted: bool
    var stopped: bool
    var arrivals: nat
    /** What was sent to clients and the panel. */
    ghost var log: Log

    ghost function View(): State
      reads this, store, store.tracker, approvals
    {
      State(store.View(), approvals.View(), pending, held, listing, unlockOnDemand, load, gateOpen, greeted, stopped,
            arrivals, log)
    }

    /** What the helpers need of the two owners. */
    ghost predicate Sound()
      reads this, store, store.tracker, approvals
    {
      K.SoundVault(store.View()) && A.SoundQueue(approvals.View())
    }

    ghost predicate Valid()
      reads this, store, store.tracker, approvals
    {
      S.Inv(View())
    }

    constructor (uid: nat)
      ensures View() == Initial(uid) && Valid()
      ensures fresh(store) && fresh(store.tracker) && fresh(approvals)
    {
      store := new KeyStore();
      approvals := new ApprovalManager(uid);
      pending, held, listing, unlockOnDemand, load := map[], map[], None, false, None;
      gateOpen, greeted, stopped, arrivals, log := false, false, false, 0, Start;
      new;
      T.StartsSound(uid);
    }

    ghost method Note(e: Entry)
      modifies this`log
      ensures log == Then(old(log), e)
    {
      log := Then(log, e);
    }

    // ---- Draining the maps ----------------------------------------------------------------------

    method FailPending()
      modifies this`pending, this`log
      ensures View() == AgentSpec.FailPending(old(View()))
    {
      ghost var refused: set<Ticket> := {};
      while pending != map[]
        invariant refused + PendingTickets(pending) == old(PendingTickets(pending))
        decreases |pending|
        modifies this`pending
      {
        var id :| id in pending;
        TakeOnePending(pending, id);
        refused := refused + {pending[id].ticket};
        pending := pending - {id};
      }
      assert refused == old(PendingTickets(pending));
      Note(Refused(refused));
    }

    method CancelHeld(reason: string)
      modifies this`held, this`log
      ensures View() == AgentSpec.CancelHeld(old(View()), reason)
    {
      hide HeldTickets;
      ghost var refused: set<Ticket> := {};
      ghost var ids: set<nat> := {};
      while held != map[]
        invariant refused + HeldTickets(held) == old(HeldTickets(held))
        invariant ids + held.Keys == old(held.Keys)
        decreases |held|
        modifies this`held
      {
        var id :| id in held;
        TakeOneHeld(held, id);
        refused := refused + {held[id].ticket};
        ids := ids + {id};
        held := held - {id};
      }
      NoneHeld();
      assert refused == old(HeldTickets(held)) && ids == old(held.Keys);
      Note(Refused(refused));
      Note(Cancelled(ids, reason));
    }

    method ReleaseListing(reason: string)
      modifies this`listing, this`log
      ensures View() == AgentSpec.ReleaseListing(old(View()), reason)
    {
      if listing.None? {
        return;
      }
      var waiting := listing.value.waiting;
      var id := listing.value.id;
      listing := None;
      ghost var plain: set<Ticket>, forwarded: set<Ticket> := {}, {};
      var i := 0;
      while i < |waiting|
        invariant i <= |waiting|
        invariant plain == WaitingOn(waiting[..i], false) && forwarded == WaitingOn(waiting[..i], true)
        modifies {}
      {
        WaitingNext(waiting, i);
        if waiting[i].1 {
          forwarded := forwarded + {waiting[i].0};
        } else {
          plain := plain + {waiting[i].0};
        }
        i := i + 1;
      }
      assert waiting[..i] == waiting;
      Note(Listed(plain, false, Names(store.public, false)));
      Note(Listed(forwarded, true, Names(store.public, true)));
      Note(Cancelled({id}, reason));
    }

    // ---- Answers --------------------------------------------------------------------------------

    /** Signs under the authorization, or fails, after the store's own check. */
    method AuthorizedSignature(t: Ticket, auth: A.Authorization, message: Bytes, flags: nat, now: nat)
      requires Sound()
      modifies this`log
      ensures log == Then(old(log), Reply(store.View(), t, auth, message, flags, now))
    {
      var signs := store.Sign(auth.epoch, auth.blob, flags);
      if signs {
        Note(Signed(t, auth.blob, message, flags, now));
      } else {
        Note(Refused({t}));
      }
    }

    method SettleOne(r: A.PendingRequest, now: nat)
      requires Sound()
      modifies this`pending, this`log
      ensures View() == AgentSpec.SettleOne(old(View()), r, now)
    {
      hide K.SoundVault, A.SoundQueue, Reply;
      if r.id in pending {
        var sign := pending[r.id];
        AuthorizedSignature(sign.ticket, A.Authorization(r.epoch, r.blob), sign.message, sign.flags, now);
      }
      pending := pending - {r.id};
      Note(Cancelled({r.id}, "granted"));
    }

    method SettleGranted(now: nat)
      requires Sound()
      modifies this`pending, this`log, approvals
      ensures Sound()
      ensures View() == AgentSpec.SettleGranted(old(View()), now)
    {
      hide K.SoundVault, A.SoundQueue, A.ReleaseGranted, AgentSpec.SettleOne;
      A.ReleaseOutcome(approvals.View(), now);
      var released := approvals.ReleaseGranted(now);
      ghost var s := View();
      var i := 0;
      assert released[i..] == released;
      while i < |released|
        invariant i <= |released| && Sound()
        invariant SettleEach(View(), released[i..], now) == SettleEach(s, released, now)
        modifies this`pending, this`log
      {
        SettleOne(released[i], now);
        assert released[i..][1..] == released[i + 1..];
        i := i + 1;
      }
    }

    method Consume(id: nat, t: Ticket, message: Bytes, flags: nat, seconds: nat, now: nat)
      requires Sound()
      modifies this`log, approvals
      ensures Sound()
      ensures View() == AgentSpec.Consume(old(View()), id, t, message, flags, seconds, now)
    {
      hide K.SoundVault, A.SoundQueue, A.Approve, A.Opens, Reply;
      A.ApproveOutcome(approvals.View(), id, seconds, now);
      ghost var grant := A.Opens(approvals.View(), id, seconds, now);
      var r := approvals.Approve(id, seconds, now);
      if r.Err? {
        Note(Refused({t}));
        return;
      }
      if grant.Some? {
        Note(Opened(grant.value));
      }
      AuthorizedSignature(t, r.value, message, flags, now);
    }

    /** Submits a request at the present epoch; `approved` is an approval given while it was held. */
    method Ask(t: Ticket, r: SignRequest, approved: Option<nat>, now: nat)
      requires Sound()
      modifies this`pending, this`log, approvals
      ensures Sound()
      ensures View() == AgentSpec.Ask(old(View()), t, r, approved, now)
    {
      hide K.SoundVault, A.SoundQueue, A.Submit, A.Disconnect, AgentSpec.Consume, Reply, K.Authorizes;
      var allowed := store.Authorize(r.blob);
      if !allowed {
        Note(Refused({t}));
        return;
      }
      A.SubmitOutcome(approvals.View(), store.tracker.epoch, r.blob, r.peer, r.scope, now);
      var sub := approvals.Submit(store.tracker.epoch, r.blob, r.peer, r.scope, now);
      Handle(sub, t, r, approved, now);
    }

    method Handle(sub: Result<A.Submitted, A.ApprovalError>, t: Ticket, r: SignRequest, approved: Option<nat>, now: nat)
      requires Sound()
      modifies this`pending, this`log, approvals
      ensures Sound()
      ensures View() == AgentSpec.Handle(old(View()), sub, t, r, approved, now)
    {
      hide K.SoundVault, A.SoundQueue, AgentSpec.Consume, Reply;
      match sub
      case Err(_) =>
        Note(Refused({t}));
      case Ok(Granted(auth)) =>
        AuthorizedSignature(t, auth, r.message, r.flags, now);
      case Ok(Queued(id)) =>
        if approved.Some? {
          Consume(id, t, r.message, r.flags, approved.value, now);
        } else if r.blob !in K.Blobs(store.public) {
          A.RetainKeepsSound(approvals.View(), A.NotId(id));
          approvals.Disconnect(id);
          Note(Refused({t}));
        } else {
          Note(PromptedApproval(id, t, store.tracker.epoch));
          pending := pending[id := PendingSign(t, r.message, r.flags)];
        }
    }

    /** The held requests, taken out in the order they were raised. */
    method ReleaseHeld(now: nat)
      requires Sound()
      modifies this`pending, this`held, this`log, approvals
      ensures Sound()
      ensures View() == AgentSpec.ReleaseHeld(old(View()), now)
    {
      hide K.SoundVault, A.SoundQueue, AgentSpec.Ask, AgentSpec.SettleGranted, IsLeast;
      ghost var s := View();
      while held != map[]
        invariant Sound() && ReleaseEach(View(), now) == ReleaseEach(s, now)
        decreases |held|
        modifies this`pending, this`held, this`log, approvals
      {
        var id := Least(held.Keys);
        ghost var before := View();
        ReleaseOneTakesOne(before, id, now);
        var h := held[id];
        held := held - {id};
        Note(Cancelled({id}, "released"));
        Ask(h.ticket, SignRequest(h.blob, h.message, h.flags, h.peer, h.scope), h.approved, now);
        assert View() == ReleaseOne(before, id, now);
      }
      SettleGranted(now);
    }

    // ---- Loads ----------------------------------------------------------------------------------

    /** Decodes the payload of a load into a candidate and publishes it. */
    method LoadPayload(load: ActiveLoad) returns (published: bool)
      modifies store, store.tracker
      ensures (store.View(), published) == FinishedVault(old(store.View()), load)
    {
      hide K.StoreBeginLoad, K.StorePublish, ValidNonce, K.Add;
      if load.payload.None? || load.payload.value.ReadFailed? || load.payload.value.envelope.None? {
        return false;
      }
      var size, envelope := load.payload.value.size, load.payload.value.envelope.value;
      if size > K.MAX_FILTERED_BYTES || !ValidNonce(envelope.loadId) || envelope.loadId != load.nonce {
        return false;
      }
      var begun := store.BeginLoad(load.epoch, size);
      if begun.Err? {
        return false;
      }
      var candidate := begun.value;
      ghost var empty := candidate.View();
      var items := envelope.items;
      var i := 0;
      assert items[i..] == items;
      while i < |items|
        invariant i <= |items|
        invariant K.AddAll(candidate.View(), items[i..]) == K.AddAll(empty, items)
        modifies candidate
      {
        ghost var before := candidate.View();
        assert items[i..][0] == items[i] && items[i..][1..] == items[i + 1..];
        var added := candidate.Add(items[i]);
        assert K.Add(before, items[i]) == (candidate.View(), added);
        assert K.AddAll(before, items[i..]) ==
               if added.Err? then Err(added.error) else K.AddAll(candidate.View(), items[i + 1..]);
        if added.Err? {
          return false;
        }
        i := i + 1;
      }
      var r := store.Publish(candidate);
      return r.Ok?;
    }

    method FinishLoad(now: nat)
      requires Sound()
      modifies this, store, store.tracker, approvals
      ensures View() == AgentSpec.FinishLoad(old(View()), now)
    {
      hide K.SoundVault, A.SoundQueue, FinishedVault, AgentSpec.ReleaseHeld, AgentSpec.ReleaseListing,
           AgentSpec.CancelHeld, K.SigningBlobs, K.StoreLock;
      if load.None? || !load.value.endReceived || load.value.payload.None? {
        return;
      }
      var active := load.value;
      load := None;
      R.FinishedVaultIsSound(store.View(), active);
      var published := LoadPayload(active);
      if published {
        gateOpen := true;
        Note(Up(store.tracker.epoch, K.SigningBlobs(store.View())));
        Note(Announced(|store.public|));
        ReleaseHeld(now);
        ReleaseListing("released");
      } else {
        store.Lock(active.epoch);
        gateOpen := false;
        Note(Down(store.tracker.epoch));
        Note(Told("load_failed"));
        CancelHeld("load-failed");
        ReleaseListing("load-failed");
      }
    }

    // ---- Events ---------------------------------------------------------------------------------

    method DropEverything(reason: string)
      modifies this`pending, this`held, this`listing, this`log, approvals
      ensures View() == AgentSpec.ReleaseListing(
                AgentSpec.CancelHeld(
                  AgentSpec.FailPending(old(View()).(approvals := A.InvalidateAll(old(approvals.View())))), reason),
                reason)
    {
      hide AgentSpec.ReleaseListing, AgentSpec.CancelHeld, AgentSpec.FailPending, A.InvalidateAll;
      approvals.InvalidateAll();
      FailPending();
      CancelHeld(reason);
      ReleaseListing(reason);
    }

    method VaultLocked(epoch: nat)
      modifies this, store, store.tracker, approvals
      ensures View() == OnLocked(old(View()), epoch)
    {
      hide AgentSpec.ReleaseListing, AgentSpec.CancelHeld, AgentSpec.FailPending, A.InvalidateAll, K.StoreLock;
      gateOpen := false;
      load := None;
      store.Lock(epoch);
      Note(Down(store.tracker.epoch));
      DropEverything("locked");
      Note(Told("locked"));
    }

    method VaultLoggedOut()
      modifies this, store, store.tracker, approvals
      ensures View() == OnLoggedOut(old(View()))
    {
      hide AgentSpec.ReleaseListing, AgentSpec.CancelHeld, AgentSpec.FailPending, A.InvalidateAll, K.StoreLogout;
      gateOpen := false;
      load := None;
      store.Logout(SatAdd(store.tracker.epoch, 1));
      Note(Down(store.tracker.epoch));
      DropEverything("logged-out");
    }

    method Approve(id: nat, seconds: nat, now: nat)
      requires Sound()
      modifies this, approvals
      ensures View() == OnApprove(old(View()), id, seconds, now)
    {
      hide AgentSpec.Consume, AgentSpec.SettleGranted;
      Note(Approved(id));
      if id in held {
        held := held[id := held[id].(approved := Some(seconds))];
        return;
      }
      if id !in pending {
        return;
      }
      var sign := pending[id];
      pending := pending - {id};
      Consume(id, sign.ticket, sign.message, sign.flags, seconds, now);
      if seconds > 0 {
        SettleGranted(now);
      }
    }

    method Deny(id: nat)
      modifies this, approvals
      ensures View() == OnDeny(old(View()), id)
    {
      hide A.Disconnect, AgentSpec.ReleaseListing;
      approvals.Disconnect(id);
      if id in pending {
        Note(Refused({pending[id].ticket}));
        pending := pending - {id};
      }
      if id in held {
        Note(Refused({held[id].ticket}));
        held := held - {id};
      }
      if listing.Some? && listing.value.id == id {
        ReleaseListing("cancelled");
      }
    }

    method Shutdown()
      modifies this, store, store.tracker, approvals
      ensures View() == OnShutdown(old(View()))
    {
      hide AgentSpec.ReleaseListing, AgentSpec.CancelHeld, AgentSpec.FailPending, A.InvalidateAll, K.StoreLogout;
      approvals.InvalidateAll();
      load := None;
      FailPending();
      CancelHeld("shutdown");
      ReleaseListing("shutdown");
      store.Logout(SatAdd(store.tracker.epoch, 1));
      gateOpen, stopped := false, true;
      Note(Down(store.tracker.epoch));
    }

    method KeyLoadBegin(epoch: nat, loadId: Bytes)
      modifies this, approvals
      ensures View() == OnLoadBegin(old(View()), epoch, loadId)
    {
      hide ValidNonce;
      if load.Some? {
        stopped := true;
        return;
      }
      gateOpen := false;
      Note(Down(store.tracker.epoch));
      approvals.InvalidateAll();
      FailPending();
      if !ValidNonce(loadId) {
        stopped := true;
        return;
      }
      load := Some(ActiveLoad(epoch, loadId, None, false, None));
    }

    method KeyLoadEnd(epoch: nat, ok: bool, now: nat)
      requires Sound()
      modifies this, store, store.tracker, approvals
      ensures View() == OnLoadEnd(old(View()), epoch, ok, now)
    {
      hide AgentSpec.ReleaseListing, AgentSpec.CancelHeld, K.StoreLock, AgentSpec.FinishLoad, K.SoundVault,
           A.SoundQueue;
      if load.None? || load.value.epoch != epoch {
        stopped := true;
        return;
      }
      if !ok {
        load := None;
        store.Lock(epoch);
        gateOpen := false;
        Note(Down(store.tracker.epoch));
        CancelHeld("load-failed");
        ReleaseListing("load-failed");
      } else {
        load := Some(load.value.(endReceived := true, payloadDeadlineMs := Some(SatAdd(now, LOAD_END_GRACE_MS))));
        FinishLoad(now);
      }
    }

    method PayloadArrived(epoch: nat, payload: Payload, now: nat)
      requires Sound()
      modifies this, store, store.tracker, approvals
      ensures View() == OnPayload(old(View()), epoch, payload, now)
    {
      hide AgentSpec.FinishLoad, K.SoundVault, A.SoundQueue;
      if load.None? || load.value.epoch != epoch {
        return;
      }
      load := Some(load.value.(payload := Some(payload)));
      FinishLoad(now);
    }

    method HandleSign(r: SignRequest, now: nat)
      requires Sound()
      modifies this, approvals
      ensures View() == OnAskSign(old(View()), r, now)
    {
      hide AgentSpec.Ask, K.SoundVault, A.SoundQueue;
      var t := arrivals;
      arrivals := arrivals + 1;
      Note(Asked(t, r));
      if gateOpen {
        Ask(t, r, None, now);
        return;
      }
      if r.blob !in K.Blobs(store.public) || r.peer.uid != approvals.expectedUid
         || |approvals.pending| + |held| >= A.MAX_PENDING {
        Note(Refused({t}));
        return;
      }
      var id := approvals.ReserveRequestId();
      if id.Err? {
        Note(Refused({t}));
        return;
      }
      Note(PromptedUnlock(id.value, t));
      held := held[id.value := HeldSign(t, r.blob, r.message, r.flags, r.peer, r.scope,
                                        SatAdd(now, HELD_LIFETIME_MS), None)];
    }

    /** A sign frame of a connection: what it is for is read off the message itself. */
    method HandleClient(blob: Bytes, message: Bytes, flags: nat, peer: A.Peer, forwarded: bool,
                        binds: seq<W.SessionBinding>, now: nat)
      requires Sound()
      modifies this, approvals
      ensures View() ==
              OnAskSign(old(View()),
                        SignRequest(blob, message, flags, peer,
                                    A.SignScope(W.ClassifySign(blob, message, binds), forwarded)), now)
    {
      hide OnAskSign, W.ClassifySign, K.SoundVault, A.SoundQueue;
      var scope := A.SignScope(W.ClassifySign(blob, message, binds), forwarded);
      HandleSign(SignRequest(blob, message, flags, peer, scope), now);
    }

    method HandleList(peer: A.Peer, forwarded: bool, now: nat)
      modifies this, approvals
      ensures View() == OnAskList(old(View()), peer, forwarded, now)
    {
      var t := arrivals;
      arrivals := arrivals + 1;
      Note(AskedList(t));
      if store.public == [] && unlockOnDemand && peer.uid == approvals.expectedUid {
        if listing.Some? {
          listing := Some(listing.value.(waiting := listing.value.waiting + [(t, forwarded)]));
          return;
        }
        var id := approvals.ReserveRequestId();
        if id.Ok? {
          Note(PromptedList(id.value));
          listing := Some(HeldList(id.value, SatAdd(now, HELD_LIFETIME_MS), [(t, forwarded)]));
          return;
        }
      }
      Note(Listed({t}, forwarded, Names(store.public, forwarded)));
    }

    // ---- The tick -------------------------------------------------------------------------------

    /** Drops the queued requests `ids` one at a time. */
    method DropPending(ids: set<nat>) returns (ghost refused: set<Ticket>)
      requires ids <= pending.Keys
      modifies this`pending, approvals`pending
      ensures pending == old(pending) - ids
      ensures approvals.pending == Retain(old(approvals.pending), NotIn(ids))
      ensures refused == PendingTickets(Part(old(pending), ids))
    {
      hide PendingTickets, NotIn, Part, Retain;
      ghost var was, queue, done: set<nat> := pending, approvals.pending, {};
      var left := ids;
      refused := {};
      RetainNone(queue);
      NonePending(was);
      while left != {}
        invariant done !! left && done + left == ids
        invariant pending == was - done
        invariant approvals.pending == Retain(queue, NotIn(done))
        invariant refused == PendingTickets(Part(was, done))
        decreases |left|
        modifies this`pending, approvals`pending
      {
        var id :| id in left;
        RetainTwice(queue, done, id);
        PartNext(was, done, id);
        approvals.Disconnect(id);
        refused := refused + {pending[id].ticket};
        pending := pending - {id};
        left := left - {id};
        done := done + {id};
      }
      assert done == ids;
    }

    method WithdrawPending(ids: set<nat>)
      requires ids <= pending.Keys
      modifies this`pending, this`log, approvals`pending
      ensures View() == AgentSpec.WithdrawPending(old(View()), ids)
    {
      hide PendingTickets, NotIn;
      ghost var refused := DropPending(ids);
      Note(Refused(refused));
      Note(Cancelled(ids, "withdrawn"));
    }

    method DropHeld(ids: set<nat>) returns (ghost refused: set<Ticket>)
      requires ids <= held.Keys
      modifies this`held
      ensures held == old(held) - ids
      ensures refused == HeldTickets(HeldPart(old(held), ids))
    {
      hide HeldTickets, HeldPart;
      ghost var was, done: set<nat> := held, {};
      var left := ids;
      refused := {};
      NoHeldPart(was);
      while left != {}
        invariant done !! left && done + left == ids
        invariant held == was - done
        invariant refused == HeldTickets(HeldPart(was, done))
        decreases |left|
        modifies this`held
      {
        var id :| id in left;
        HeldPartNext(was, done, id);
        refused := refused + {held[id].ticket};
        held := held - {id};
        left := left - {id};
        done := done + {id};
      }
      assert done == ids;
    }

    method WithdrawHeld(ids: set<nat>)
      requires ids <= held.Keys
      modifies this`held, this`log
      ensures View() == AgentSpec.WithdrawHeld(old(View()), ids)
    {
      hide HeldTickets;
      ghost var refused := DropHeld(ids);
      Note(Refused(refused));
      Note(Cancelled(ids, "withdrawn"));
    }

    method Tick(now: nat, gone: set<Ticket>)
      requires Sound()
      modifies this, store, store.tracker, approvals
      ensures View() == OnTick(old(View()), now, gone)
    {
      hide AgentSpec.FinishLoad, K.SoundVault, A.SoundQueue, A.Expire, AgentSpec.WithdrawPending,
           AgentSpec.WithdrawHeld, AgentSpec.ReleaseListing, ListingOver;
      A.ExpireKeeps(approvals.View(), now);
      approvals.Expire(now);
      if load.Some? && load.value.payload.None? && load.value.payloadDeadlineMs.Some?
         && now >= load.value.payloadDeadlineMs.value {
        load := Some(load.value.(payload := Some(ReadFailed)));
        FinishLoad(now);
      }
      Sweep(now, gone);
    }

    method Sweep(now: nat, gone: set<Ticket>)
      modifies this, approvals
      ensures View() ==
              var s3 := AgentSpec.WithdrawPending(old(View()), Withdrawn(old(View()), gone));
              var s4 := AgentSpec.WithdrawHeld(s3, Stale(s3.held, now, gone));
              if ListingOver(s4.listing, now, gone) then AgentSpec.ReleaseListing(s4, "withdrawn") else s4
    {
      hide AgentSpec.WithdrawPending, AgentSpec.WithdrawHeld, AgentSpec.ReleaseListing;
      var queue := approvals.pending;
      var expired := set id | id in pending && (pending[id].ticket in gone || !exists r :: r in queue && r.id == id);
      assert expired == Withdrawn(View(), gone);
      WithdrawPending(expired);
      var stale := Stale(held, now, gone);
      WithdrawHeld(stale);
      if ListingOver(listing, now, gone) {
        ReleaseListing("withdrawn");
      }
    }

    // ---- The loop -------------------------------------------------------------------------------

    /** One turn of the loop. */
    method Dispatch(e: Event)
      requires Valid()
      modifies this, store, store.tracker, approvals
      ensures View() == Step(old(View()), e)
      ensures Valid()
    {
      hide S.Inv, OnLocked, OnLoggedOut, OnApprove, OnDeny, OnShutdown, OnLoadBegin, OnLoadEnd, OnPayload, OnAskSign,
           OnAskList, OnTick, A.RevokeGrant, A.RevokeAllGrants, K.SoundVault, A.SoundQueue;
      InvIsSound(View());
      T.StepKeepsInv(View(), e);
      if stopped {
        return;
      }
      match e
      case Hello =>
        if greeted {
          stopped := true;
        } else {
          greeted := true;
          Note(Told("ready"));
        }
      case VaultLocked(epoch) => VaultLocked(epoch);
      case VaultLoggedOut => VaultLoggedOut();
      case Approve(id, seconds, now) => Approve(id, seconds, now);
      case Deny(id) => Deny(id);
      case SetOptions(on) => unlockOnDemand := on;
      case RevokeGrants =>
        approvals.RevokeAllGrants();
        Note(RevokedAll);
      case RevokeGrant(id) =>
        approvals.RevokeGrant(id);
        Note(Revoked(id));
      case Shutdown => Shutdown();
      case BadLine => stopped := true;
      case LoadBegin(epoch, loadId) => KeyLoadBegin(epoch, loadId);
      case LoadEnd(epoch, ok, now) => KeyLoadEnd(epoch, ok, now);
      case PayloadRead(epoch, payload, now) => PayloadArrived(epoch, payload, now);
      case AskSign(r, now) => HandleSign(r, now);
      case AskList(peer, forwarded, now) => HandleList(peer, forwarded, now);
      case Tick(now, gone) => Tick(now, gone);
    }
  }

  lemma InvIsSound(s: State)
    requires S.Inv(s)
    ensures K.SoundVault(s.vault) && A.SoundQueue(s.approvals)
  {
    R.VaultFacts(s);
    S.QueueIsSound(s, {}, {});
  }

  lemma TakeOnePending(pending: map<nat, PendingSign>, id: nat)
    requires id in pending
    ensures PendingTickets(pending) == PendingTickets(pending - {id}) + {pending[id].ticket}
    ensures |pending - {id}| < |pending|
  {
    var rest := pending - {id};
    forall t | t in PendingTickets(pending)
      ensures t in PendingTickets(rest) + {pending[id].ticket}
    {
      var i :| i in pending && pending[i].ticket == t;
      assert i != id ==> i in rest;
    }
    assert rest.Keys == pending.Keys - {id};
  }

  lemma TakeOneHeld(held: map<nat, HeldSign>, id: nat)
    requires id in held
    ensures HeldTickets(held) == HeldTickets(held - {id}) + {held[id].ticket}
    ensures held.Keys == (held - {id}).Keys + {id}
    ensures |held - {id}| < |held|
  {
    var rest := held - {id};
    forall t | t in HeldTickets(held)
      ensures t in HeldTickets(rest) + {held[id].ticket}
    {
      var i :| i in held && held[i].ticket == t;
      assert i != id ==> i in rest;
    }
    assert rest.Keys == held.Keys - {id};
  }

  lemma NoneHeld()
    ensures HeldTickets(map[]) == {}
  {
  }

  ghost function Part(pending: map<nat, PendingSign>, ids: set<nat>): map<nat, PendingSign> {
    map id | id in pending && id in ids :: pending[id]
  }

  ghost function HeldPart(held: map<nat, HeldSign>, ids: set<nat>): map<nat, HeldSign> {
    map id | id in held && id in ids :: held[id]
  }

  lemma PartNext(pending: map<nat, PendingSign>, ids: set<nat>, id: nat)
    requires id in pending && id !in ids
    ensures PendingTickets(Part(pending, ids + {id})) == PendingTickets(Part(pending, ids)) + {pending[id].ticket}
  {
    TakeOnePending(Part(pending, ids + {id}), id);
    assert Part(pending, ids + {id}) - {id} == Part(pending, ids);
  }

  lemma HeldPartNext(held: map<nat, HeldSign>, ids: set<nat>, id: nat)
    requires id in held && id !in ids
    ensures HeldTickets(HeldPart(held, ids + {id})) == HeldTickets(HeldPart(held, ids)) + {held[id].ticket}
  {
    TakeOneHeld(HeldPart(held, ids + {id}), id);
    assert HeldPart(held, ids + {id}) - {id} == HeldPart(held, ids);
  }

  lemma RetainNone(queue: seq<A.PendingRequest>)
    ensures Retain(queue, NotIn({})) == queue
  {
    RetainAll(queue, NotIn({}));
  }

  lemma NoHeldPart(held: map<nat, HeldSign>)
    ensures HeldTickets(HeldPart(held, {})) == {}
  {
  }

  lemma NonePending(pending: map<nat, PendingSign>)
    ensures PendingTickets(Part(pending, {})) == {}
  {
  }

  lemma {:induction false} RetainTwice(queue: seq<A.PendingRequest>, ids: set<nat>, id: nat)
    ensures Retain(Retain(queue, NotIn(ids)), A.NotId(id)) == Retain(queue, NotIn(ids + {id}))
    decreases |queue|
  {
    if queue != [] {
      var init, last := queue[..|queue| - 1], queue[|queue| - 1];
      RetainTwice(init, ids, id);
      var kept := Retain(init, NotIn(ids));
      var whole := Retain(queue, NotIn(ids));
      assert whole == kept + if last.id !in ids then [last] else [];
      if last.id !in ids {
        assert whole[..|whole| - 1] == kept && whole[|whole| - 1] == last;
      } else {
        assert whole == kept;
      }
    }
  }

  lemma WaitingNext(waiting: seq<(Ticket, bool)>, i: nat)
    requires i < |waiting|
    ensures WaitingOn(waiting[..i + 1], waiting[i].1) == WaitingOn(waiting[..i], waiting[i].1) + {waiting[i].0}
    ensures WaitingOn(waiting[..i + 1], !waiting[i].1) == WaitingOn(waiting[..i], !waiting[i].1)
  {
    var a, b := waiting[..i], waiting[..i + 1];
    forall f: bool, t | t in WaitingOn(b, f)
      ensures t in WaitingOn(a, f) || (f == waiting[i].1 && t == waiting[i].0)
    {
      var k :| 0 <= k < |b| && b[k].1 == f && b[k].0 == t;
      assert k < i ==> a[k] == b[k];
    }
    forall f: bool, t | t in WaitingOn(a, f)
      ensures t in WaitingOn(b, f)
    {
      var k :| 0 <= k < |a| && a[k].1 == f && a[k].0 == t;
      assert b[k] == a[k];
    }
    assert b[i] == waiting[i];
  }
}

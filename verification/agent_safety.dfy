/** What every event of the agent loop keeps, and what follows for whole runs. */
module AgentSafety {
  import opened Common
  import opened AgentSpec
  import K = KeyStores
  import A = Approvals

  // ---- The invariant ----------------------------------------------------------------------------
  //
  // `extra` are tickets in the hands of the event being handled; `loose` are ids the manager has
  // queued whose reply channel is in those hands. Both are empty between events.

  ghost predicate Injective(pending: map<nat, PendingSign>) {
    forall i, j :: i in pending && j in pending && i != j ==> pending[i].ticket != pending[j].ticket
  }

  ghost predicate HeldInjective(held: map<nat, HeldSign>) {
    forall i, j :: i in held && j in held && i != j ==> held[i].ticket != held[j].ticket
  }

  ghost predicate DistinctWaiting(listing: Option<HeldList>) {
    listing.Some? ==>
      forall i, j :: 0 <= i < j < |listing.value.waiting| ==> listing.value.waiting[i].0 != listing.value.waiting[j].0
  }

  /** Every open request is in exactly one place: queued, held, a waiting listing, or in hand. */
  ghost predicate Owns(pending: map<nat, PendingSign>, held: map<nat, HeldSign>, listing: Option<HeldList>,
                       arrivals: nat, log: Log, extra: set<Ticket>)
  {
    && Injective(pending) && HeldInjective(held) && DistinctWaiting(listing)
    && Parts(PendingTickets(pending), HeldTickets(held), WaitingTickets(listing), extra, Open(log))
    && Open(log) <= Arrived(log)
    && (forall t :: t in Arrived(log) ==> t < arrivals)
  }

  ghost predicate Parts(queued: set<Ticket>, held: set<Ticket>, waiting: set<Ticket>, extra: set<Ticket>,
                        open: set<Ticket>) {
    && queued !! held !! waiting !! extra
    && open == queued + held + waiting + extra
  }

  /** Ids come from one sequence, and the manager's queue is a part of the reply map. */
  ghost predicate Numbered(a: A.Manager, pending: map<nat, PendingSign>, held: map<nat, HeldSign>,
                           listing: Option<HeldList>, log: Log, loose: set<nat>)
  {
    && A.SoundQueue(a)
    && (forall id :: id in pending ==> id < a.nextId && id !in held)
    && (forall id :: id in held ==> id < a.nextId)
    && (listing.Some? ==> listing.value.id < a.nextId)
    && (forall id :: id in Issued(log) ==> id < a.nextId)
    && (forall r :: r in a.pending ==> r.id in pending || r.id in loose)
  }

  /** The gate agrees with the vault, the log and the queue. */
  ghost predicate Gated(vault: K.Vault, gateOpen: bool, load: Option<ActiveLoad>, a: A.Manager,
                        pending: map<nat, PendingSign>, held: map<nat, HeldSign>, log: Log)
  {
    && K.SoundVault(vault)
    && (gateOpen ==> vault.tracked.state == K.Unlocked)
    && ServiceOf(log) == (if gateOpen then Serving(vault.tracked.epoch, K.SigningBlobs(vault)) else Closed)
    && HighEpoch(log) <= vault.tracked.epoch
    && (!gateOpen ==> a.pending == [] && a.grants == [] && pending == map[])
    && (load.Some? ==> !gateOpen)
    && |a.pending| + |held| <= A.MAX_PENDING
  }

  /** The log shows what a queued request asked for and that the panel was shown it. */
  ghost predicate Backed(log: Log, epoch: nat, q: A.PendingRequest, sign: PendingSign) {
    && q.epoch == epoch
    && Has(log, Asked(sign.ticket, SignRequest(q.blob, sign.message, sign.flags, q.peer, q.scope)))
    && Has(log, PromptedApproval(q.id, sign.ticket, q.epoch))
    && q.id in Issued(log)
  }

  ghost predicate BackedHeld(log: Log, id: nat, h: HeldSign) {
    && Has(log, Asked(h.ticket, SignRequest(h.blob, h.message, h.flags, h.peer, h.scope)))
    && Has(log, PromptedUnlock(id, h.ticket))
    && id in Issued(log)
    && (h.approved.Some? ==> id in Consented(log))
  }

  ghost predicate Evident(epoch: nat, a: A.Manager, pending: map<nat, PendingSign>, held: map<nat, HeldSign>,
                          log: Log, loose: set<nat>)
  {
    && (forall q :: q in a.pending && q.id !in loose ==> q.id in pending && Backed(log, epoch, q, pending[q.id]))
    && (forall id :: id in held ==> BackedHeld(log, id, held[id]))
    && (forall g :: g in a.grants ==> g in Granted(log))
  }

  ghost predicate Core(s: State, extra: set<Ticket>, loose: set<nat>) {
    && Owns(s.pending, s.held, s.listing, s.arrivals, s.log, extra)
    && Numbered(s.approvals, s.pending, s.held, s.listing, s.log, loose)
    && Gated(s.vault, s.gateOpen, s.load, s.approvals, s.pending, s.held, s.log)
    && Evident(s.vault.tracked.epoch, s.approvals, s.pending, s.held, s.log, loose)
    && SafeLog(s.log)
  }

  /** What holds between events. */
  ghost predicate Inv(s: State) {
    && Core(s, {}, {})
    && (s.gateOpen ==> s.held == map[])
  }

  // ---- Tickets of the maps ----------------------------------------------------------------------

  lemma DropPending(pending: map<nat, PendingSign>, ids: set<nat>, left: map<nat, PendingSign>)
    requires left == map id | id in pending && id in ids :: pending[id]
    requires Injective(pending)
    ensures Injective(pending - ids)
    ensures PendingTickets(pending - ids) ==
            PendingTickets(pending) - PendingTickets(left)
  {
    forall t | t in PendingTickets(pending) && t !in PendingTickets(left)
      ensures t in PendingTickets(pending - ids)
    {
      var id :| id in pending && pending[id].ticket == t;
      assert id in ids ==> id in left;
      assert id in pending - ids;
    }
    forall t | t in PendingTickets(pending - ids)
      ensures t in PendingTickets(pending) && t !in PendingTickets(left)
    {
      var id :| id in pending - ids && (pending - ids)[id].ticket == t;
      assert pending[id].ticket == t;
    }
  }

  lemma DropHeld(held: map<nat, HeldSign>, ids: set<nat>, left: map<nat, HeldSign>)
    requires left == map id | id in held && id in ids :: held[id]
    requires HeldInjective(held)
    ensures HeldInjective(held - ids)
    ensures HeldTickets(held - ids) ==
            HeldTickets(held) - HeldTickets(left)
    ensures |held - ids| <= |held|
  {
    forall t | t in HeldTickets(held) && t !in HeldTickets(left)
      ensures t in HeldTickets(held - ids)
    {
      var id :| id in held && held[id].ticket == t;
      assert id in ids ==> id in left;
      assert id in held - ids;
    }
    forall t | t in HeldTickets(held - ids)
      ensures t in HeldTickets(held) && t !in HeldTickets(left)
    {
      var id :| id in held - ids && (held - ids)[id].ticket == t;
      assert held[id].ticket == t;
    }
    assert (held - ids).Keys <= held.Keys;
    SubsetIsSmaller((held - ids).Keys, held.Keys);
  }

  lemma {:induction false} SubsetIsSmaller(a: set<nat>, b: set<nat>)
    requires a <= b
    ensures |a| <= |b|
    decreases |a|
  {
    if a != {} {
      var x :| x in a;
      SubsetIsSmaller(a - {x}, b - {x});
    }
  }

  lemma PutPending(pending: map<nat, PendingSign>, id: nat, p: PendingSign)
    requires id !in pending
    ensures PendingTickets(pending[id := p]) == PendingTickets(pending) + {p.ticket}
  {
    var more := pending[id := p];
    forall t | t in PendingTickets(pending) + {p.ticket}
      ensures t in PendingTickets(more)
    {
      if t != p.ticket {
        var i :| i in pending && pending[i].ticket == t;
        assert more[i].ticket == t;
      } else {
        assert more[id].ticket == t;
      }
    }
  }

  lemma PutHeld(held: map<nat, HeldSign>, id: nat, h: HeldSign)
    requires id !in held
    ensures HeldTickets(held[id := h]) == HeldTickets(held) + {h.ticket}
    ensures |held[id := h]| == |held| + 1
  {
    var more := held[id := h];
    forall t | t in HeldTickets(held) + {h.ticket}
      ensures t in HeldTickets(more)
    {
      if t != h.ticket {
        var i :| i in held && held[i].ticket == t;
        assert more[i].ticket == t;
      } else {
        assert more[id].ticket == t;
      }
    }
    assert more.Keys == held.Keys + {id};
  }

  /** An approval changes who consented, not who waits. */
  lemma MarkHeld(held: map<nat, HeldSign>, id: nat, seconds: nat)
    requires id in held
    ensures HeldTickets(held[id := held[id].(approved := Some(seconds))]) == HeldTickets(held)
    ensures |held[id := held[id].(approved := Some(seconds))]| == |held|
  {
    var marked := held[id := held[id].(approved := Some(seconds))];
    assert marked.Keys == held.Keys;
    forall t | t in HeldTickets(held) ensures t in HeldTickets(marked) {
      var i :| i in held && held[i].ticket == t;
      assert marked[i].ticket == t;
    }
    forall t | t in HeldTickets(marked) ensures t in HeldTickets(held) {
      var i :| i in marked && marked[i].ticket == t;
      assert held[i].ticket == t;
    }
  }

  // ---- Log entries ------------------------------------------------------------------------------

  /** Entries that answer or admit no request, show no prompt, move no key and end no grant. */
  predicate Neutral(e: Entry) {
    e.Approved? || e.Cancelled? || e.Announced? || e.Told? || e.Opened?
  }

  /** The tickets an entry answers. */
  function Answers(e: Entry): set<Ticket> {
    match e
    case Signed(t, _, _, _, _) => {t}
    case Refused(ts) => ts
    case Listed(ts, _, _) => ts
    case _ => {}
  }

  predicate IsAnswer(e: Entry) {
    e.Signed? || e.Refused? || e.Listed?
  }

  predicate IsPrompt(e: Entry) {
    e.PromptedApproval? || e.PromptedUnlock? || e.PromptedList?
  }

  lemma OwnsThen(pending: map<nat, PendingSign>, held: map<nat, HeldSign>, listing: Option<HeldList>,
                 arrivals: nat, log: Log, extra: set<Ticket>, e: Entry)
    requires Owns(pending, held, listing, arrivals, log, extra)
    requires !e.Asked? && !e.AskedList? && Answers(e) <= extra
    ensures Owns(pending, held, listing, arrivals, Then(log, e), extra - Answers(e))
  {
  }

  lemma NumberedThen(a: A.Manager, pending: map<nat, PendingSign>, held: map<nat, HeldSign>,
                     listing: Option<HeldList>, log: Log, loose: set<nat>, e: Entry)
    requires Numbered(a, pending, held, listing, log, loose)
    requires IsPrompt(e) ==> e.id < a.nextId
    ensures Numbered(a, pending, held, listing, Then(log, e), loose)
  {
  }

  lemma GatedThen(vault: K.Vault, gateOpen: bool, load: Option<ActiveLoad>, a: A.Manager,
                  pending: map<nat, PendingSign>, held: map<nat, HeldSign>, log: Log, e: Entry)
    requires Gated(vault, gateOpen, load, a, pending, held, log)
    requires !e.Up? && !e.Down?
    ensures Gated(vault, gateOpen, load, a, pending, held, Then(log, e))
  {
  }

  lemma EvidentThen(epoch: nat, a: A.Manager, pending: map<nat, PendingSign>, held: map<nat, HeldSign>,
                    log: Log, loose: set<nat>, e: Entry)
    requires Evident(epoch, a, pending, held, log, loose)
    requires !e.Revoked? && !e.RevokedAll? && !e.Down?
    ensures Evident(epoch, a, pending, held, Then(log, e), loose)
  {
  }

  /** Noting an entry the past allows keeps the invariant, and answers what it answers. */
  lemma EntryKeeps(s: State, e: Entry, extra: set<Ticket>, loose: set<nat>)
    requires Core(s, extra, loose) && SafeEntry(s.log, e)
    requires Neutral(e) || (IsAnswer(e) && Answers(e) <= extra) || (IsPrompt(e) && e.id < s.approvals.nextId)
    ensures Core(Note(s, e), extra - Answers(e), loose)
  {
    hide Owns, Numbered, Gated, Evident, SafeEntry;
    OwnsThen(s.pending, s.held, s.listing, s.arrivals, s.log, extra, e);
    NumberedThen(s.approvals, s.pending, s.held, s.listing, s.log, loose, e);
    GatedThen(s.vault, s.gateOpen, s.load, s.approvals, s.pending, s.held, s.log, e);
    EvidentThen(s.vault.tracked.epoch, s.approvals, s.pending, s.held, s.log, loose, e);
  }

  lemma NoteKeeps(s: State, e: Entry, extra: set<Ticket>, loose: set<nat>)
    requires Core(s, extra, loose) && Neutral(e)
    ensures Core(Note(s, e), extra, loose)
  {
    hide Core;
    EntryKeeps(s, e, extra, loose);
    assert extra - Answers(e) == extra;
  }

  // ---- Taking requests in hand, and putting them somewhere --------------------------------------

  lemma OwnsTakePending(pending: map<nat, PendingSign>, held: map<nat, HeldSign>, listing: Option<HeldList>,
                        arrivals: nat, log: Log, extra: set<Ticket>, ids: set<nat>, taken: map<nat, PendingSign>)
    requires Owns(pending, held, listing, arrivals, log, extra)
    requires taken == map id | id in pending && id in ids :: pending[id]
    ensures Owns(pending - ids, held, listing, arrivals, log, extra + PendingTickets(taken))
  {
    DropPending(pending, ids, taken);
    hide Injective, HeldInjective, HeldTickets, WaitingTickets;
    assert PendingTickets(taken) <= PendingTickets(pending) by {
      forall t | t in PendingTickets(taken) ensures t in PendingTickets(pending) {
        var id :| id in taken && taken[id].ticket == t;
        assert pending[id].ticket == t;
      }
    }
  }

  lemma OwnsTakeHeld(pending: map<nat, PendingSign>, held: map<nat, HeldSign>, listing: Option<HeldList>,
                     arrivals: nat, log: Log, extra: set<Ticket>, ids: set<nat>, taken: map<nat, HeldSign>)
    requires Owns(pending, held, listing, arrivals, log, extra)
    requires taken == map id | id in held && id in ids :: held[id]
    ensures Owns(pending, held - ids, listing, arrivals, log, extra + HeldTickets(taken))
  {
    hide Injective, HeldInjective, DistinctWaiting, PendingTickets, HeldTickets, WaitingTickets, Parts, Open, Arrived;
    DropHeld(held, ids, taken);
    HeldPart(held, taken);
    HeldOut(PendingTickets(pending), HeldTickets(held), WaitingTickets(listing), extra, Open(log), HeldTickets(taken));
  }

  lemma HeldOut(queued: set<Ticket>, held: set<Ticket>, waiting: set<Ticket>, extra: set<Ticket>, open: set<Ticket>,
                out: set<Ticket>)
    requires Parts(queued, held, waiting, extra, open) && out <= held
    ensures Parts(queued, held - out, waiting, extra + out, open)
  {
  }

  lemma HeldIn(queued: set<Ticket>, held: set<Ticket>, waiting: set<Ticket>, extra: set<Ticket>, open: set<Ticket>,
               t: Ticket)
    requires Parts(queued, held, waiting, extra, open) && t in extra
    ensures Parts(queued, held + {t}, waiting, extra - {t}, open)
    ensures t !in held
  {
  }

  lemma HeldPart(held: map<nat, HeldSign>, part: map<nat, HeldSign>)
    requires forall id :: id in part ==> id in held && part[id] == held[id]
    ensures HeldTickets(part) <= HeldTickets(held)
  {
  }

  lemma TakePendingKeeps(s: State, ids: set<nat>, taken: map<nat, PendingSign>, extra: set<Ticket>, loose: set<nat>)
    requires Core(s, extra, loose)
    requires taken == map id | id in s.pending && id in ids :: s.pending[id]
    ensures Core(s.(pending := s.pending - ids), extra + PendingTickets(taken), loose + ids)
  {
    hide Owns, HeldTickets, PendingTickets, SafeLog;
    OwnsTakePending(s.pending, s.held, s.listing, s.arrivals, s.log, extra, ids, taken);
    NumberedTakePending(s.approvals, s.pending, s.held, s.listing, s.log, loose, ids);
    EvidentTakePending(s.vault.tracked.epoch, s.approvals, s.pending, s.held, s.log, loose, ids);
    hide Numbered, Evident;
    assert s.pending == map[] ==> s.pending - ids == map[];
  }

  lemma NumberedTakePending(a: A.Manager, pending: map<nat, PendingSign>, held: map<nat, HeldSign>,
                            listing: Option<HeldList>, log: Log, loose: set<nat>, ids: set<nat>)
    requires Numbered(a, pending, held, listing, log, loose)
    ensures Numbered(a, pending - ids, held, listing, log, loose + ids)
  {
  }

  lemma EvidentTakePending(epoch: nat, a: A.Manager, pending: map<nat, PendingSign>, held: map<nat, HeldSign>,
                           log: Log, loose: set<nat>, ids: set<nat>)
    requires Evident(epoch, a, pending, held, log, loose)
    ensures Evident(epoch, a, pending - ids, held, log, loose + ids)
  {
  }

  lemma TakeHeldKeeps(s: State, ids: set<nat>, taken: map<nat, HeldSign>, extra: set<Ticket>, loose: set<nat>)
    requires Core(s, extra, loose)
    requires taken == map id | id in s.held && id in ids :: s.held[id]
    ensures Core(s.(held := s.held - ids), extra + HeldTickets(taken), loose)
    ensures |s.held - ids| <= |s.held|
  {
    hide Owns, HeldTickets, PendingTickets, SafeLog, Backed, BackedHeld;
    OwnsTakeHeld(s.pending, s.held, s.listing, s.arrivals, s.log, extra, ids, taken);
    assert (s.held - ids).Keys <= s.held.Keys;
    SubsetIsSmaller((s.held - ids).Keys, s.held.Keys);
  }

  lemma TakeListingKeeps(s: State, extra: set<Ticket>, loose: set<nat>)
    requires Core(s, extra, loose)
    ensures Core(s.(listing := None), extra + WaitingTickets(s.listing), loose)
  {
    hide HeldTickets, PendingTickets, SafeLog, Evident, Gated;
  }

  lemma ArriveKeeps(s: State, e: Entry, extra: set<Ticket>, loose: set<nat>)
    requires Core(s, extra, loose)
    requires (e.Asked? && e.ticket == s.arrivals) || (e.AskedList? && e.ticket == s.arrivals)
    ensures Core(Note(s.(arrivals := s.arrivals + 1), e), extra + {s.arrivals}, loose)
  {
    hide Owns, Numbered, Gated, Evident;
    OwnsArrive(s.pending, s.held, s.listing, s.arrivals, s.log, extra, e);
    NumberedThen(s.approvals, s.pending, s.held, s.listing, s.log, loose, e);
    GatedThen(s.vault, s.gateOpen, s.load, s.approvals, s.pending, s.held, s.log, e);
    EvidentThen(s.vault.tracked.epoch, s.approvals, s.pending, s.held, s.log, loose, e);
  }

  lemma OwnsArrive(pending: map<nat, PendingSign>, held: map<nat, HeldSign>, listing: Option<HeldList>,
                   arrivals: nat, log: Log, extra: set<Ticket>, e: Entry)
    requires Owns(pending, held, listing, arrivals, log, extra)
    requires (e.Asked? && e.ticket == arrivals) || (e.AskedList? && e.ticket == arrivals)
    ensures Owns(pending, held, listing, arrivals + 1, Then(log, e), extra + {arrivals})
    ensures SafeEntry(log, e)
  {
    hide PendingTickets, HeldTickets, WaitingTickets, Injective, HeldInjective, DistinctWaiting;
  }

  /** A change of the manager that queues nothing new and opens only grants the log knows. */
  lemma ManagerKeeps(s: State, a: A.Manager, extra: set<Ticket>, loose: set<nat>, looser: set<nat>)
    requires Core(s, extra, loose)
    requires A.SoundQueue(a) && s.approvals.nextId <= a.nextId && |a.pending| <= |s.approvals.pending|
    requires forall q :: q in a.pending ==> q in s.approvals.pending && (q.id in loose ==> q.id in looser)
    requires forall g :: g in a.grants ==> g in s.approvals.grants || (s.gateOpen && g in Granted(s.log))
    ensures Core(s.(approvals := a), extra, looser)
  {
    hide Owns, SafeLog;
    assert a.grants != [] ==> a.grants[0] in a.grants;
  }

  /** The reply channel of a request the manager has queued and the panel been shown. */
  lemma PutPendingKeeps(s: State, id: nat, sign: PendingSign, extra: set<Ticket>, loose: set<nat>)
    requires Core(s, extra, loose) && s.gateOpen
    requires sign.ticket in extra && id !in s.pending && id !in s.held && id < s.approvals.nextId
    requires forall q :: q in s.approvals.pending && q.id == id ==> Backed(s.log, s.vault.tracked.epoch, q, sign)
    ensures Core(s.(pending := s.pending[id := sign]), extra - {sign.ticket}, loose - {id})
  {
    hide Owns, SafeLog, Backed, BackedHeld;
    OwnsPutPending(s.pending, s.held, s.listing, s.arrivals, s.log, extra, id, sign);
  }

  lemma OwnsPutPending(pending: map<nat, PendingSign>, held: map<nat, HeldSign>, listing: Option<HeldList>,
                       arrivals: nat, log: Log, extra: set<Ticket>, id: nat, sign: PendingSign)
    requires Owns(pending, held, listing, arrivals, log, extra) && sign.ticket in extra && id !in pending
    ensures Owns(pending[id := sign], held, listing, arrivals, log, extra - {sign.ticket})
  {
    PutPending(pending, id, sign);
    forall i | i in pending ensures pending[i].ticket != sign.ticket {
      assert pending[i].ticket in PendingTickets(pending);
    }
  }

  lemma OwnsPutHeld(pending: map<nat, PendingSign>, held: map<nat, HeldSign>, listing: Option<HeldList>,
                    arrivals: nat, log: Log, extra: set<Ticket>, id: nat, h: HeldSign)
    requires Owns(pending, held, listing, arrivals, log, extra) && h.ticket in extra && id !in held
    ensures Owns(pending, held[id := h], listing, arrivals, log, extra - {h.ticket})
  {
    hide Parts;
    PutHeld(held, id, h);
    HeldIn(PendingTickets(pending), HeldTickets(held), WaitingTickets(listing), extra, Open(log), h.ticket);
    StillInjective(held, id, h);
    hide Injective, HeldInjective, PendingTickets, HeldTickets, WaitingTickets;
  }

  lemma StillInjective(held: map<nat, HeldSign>, id: nat, h: HeldSign)
    requires HeldInjective(held) && h.ticket !in HeldTickets(held)
    ensures HeldInjective(held[id := h])
  {
    forall i | i in held ensures held[i].ticket != h.ticket {
      assert held[i].ticket in HeldTickets(held);
    }
  }

  lemma PutHeldKeeps(s: State, id: nat, h: HeldSign, extra: set<Ticket>, loose: set<nat>)
    requires Core(s, extra, loose)
    requires h.ticket in extra && id !in s.pending && id !in s.held && id < s.approvals.nextId
    requires BackedHeld(s.log, id, h) && |s.approvals.pending| + |s.held| < A.MAX_PENDING
    ensures Core(s.(held := s.held[id := h]), extra - {h.ticket}, loose)
  {
    hide Owns, Numbered, Gated, Evident, SafeLog, BackedHeld;
    OwnsPutHeld(s.pending, s.held, s.listing, s.arrivals, s.log, extra, id, h);
    NumberedPutHeld(s.approvals, s.pending, s.held, s.listing, s.log, loose, id, h);
    GatedPutHeld(s, id, h);
    EvidentPutHeld(s.vault.tracked.epoch, s.approvals, s.pending, s.held, s.log, loose, id, h);
  }

  lemma NumberedPutHeld(a: A.Manager, pending: map<nat, PendingSign>, held: map<nat, HeldSign>,
                        listing: Option<HeldList>, log: Log, loose: set<nat>, id: nat, h: HeldSign)
    requires Numbered(a, pending, held, listing, log, loose) && id !in pending && id < a.nextId
    ensures Numbered(a, pending, held[id := h], listing, log, loose)
  {
    hide A.SoundQueue, Issued;
  }

  lemma GatedPutHeld(s: State, id: nat, h: HeldSign)
    requires Gated(s.vault, s.gateOpen, s.load, s.approvals, s.pending, s.held, s.log)
    requires id !in s.held && |s.approvals.pending| + |s.held| < A.MAX_PENDING
    ensures Gated(s.vault, s.gateOpen, s.load, s.approvals, s.pending, s.held[id := h], s.log)
  {
    hide K.SoundVault, K.SigningBlobs, ServiceOf, HighEpoch;
    assert s.held[id := h].Keys == s.held.Keys + {id};
  }

  lemma EvidentPutHeld(epoch: nat, a: A.Manager, pending: map<nat, PendingSign>, held: map<nat, HeldSign>,
                       log: Log, loose: set<nat>, id: nat, h: HeldSign)
    requires Evident(epoch, a, pending, held, log, loose) && BackedHeld(log, id, h)
    ensures Evident(epoch, a, pending, held[id := h], log, loose)
  {
    hide Backed, BackedHeld, Granted;
  }

  // ---- The gate ---------------------------------------------------------------------------------

  /** The vault goes down once nothing is queued or granted. */
  lemma DownKeeps(s: State, vault: K.Vault, extra: set<Ticket>)
    requires Core(s, extra, {})
    requires s.approvals.pending == [] && s.approvals.grants == [] && s.pending == map[]
    requires K.SoundVault(vault) && s.vault.tracked.epoch <= vault.tracked.epoch
    ensures Core(Note(s.(gateOpen := false, vault := vault), Down(vault.tracked.epoch)), extra, {})
  {
    hide Owns, Numbered, Gated, Evident, K.SoundVault;
    var e := Down(vault.tracked.epoch);
    OwnsThen(s.pending, s.held, s.listing, s.arrivals, s.log, extra, e);
    NumberedThen(s.approvals, s.pending, s.held, s.listing, s.log, {}, e);
    EvidentAfresh(s, vault.tracked.epoch, e);
    GatedDown(s, vault);
    assert extra - Answers(e) == extra;
  }

  /** With nothing queued or granted, only the held requests need evidence. */
  lemma EvidentAfresh(s: State, epoch: nat, e: Entry)
    requires Evident(s.vault.tracked.epoch, s.approvals, s.pending, s.held, s.log, {})
    requires s.approvals.pending == [] && s.approvals.grants == []
    ensures Evident(epoch, s.approvals, s.pending, s.held, Then(s.log, e), {})
  {
    forall id | id in s.held
      ensures BackedHeld(Then(s.log, e), id, s.held[id])
    {
      assert BackedHeld(s.log, id, s.held[id]);
    }
    hide BackedHeld, Granted;
  }

  lemma GatedDown(s: State, vault: K.Vault)
    requires Gated(s.vault, s.gateOpen, s.load, s.approvals, s.pending, s.held, s.log)
    requires s.approvals.pending == [] && s.approvals.grants == [] && s.pending == map[]
    requires K.SoundVault(vault) && s.vault.tracked.epoch <= vault.tracked.epoch
    ensures Gated(vault, false, s.load, s.approvals, s.pending, s.held, Then(s.log, Down(vault.tracked.epoch)))
  {
    hide K.SoundVault, K.SigningBlobs;
  }

  lemma GatedUp(s: State, vault: K.Vault)
    requires Gated(s.vault, s.gateOpen, s.load, s.approvals, s.pending, s.held, s.log) && !s.gateOpen
    requires K.SoundVault(vault) && s.vault.tracked.epoch < vault.tracked.epoch && vault.tracked.state == K.Unlocked
    ensures Gated(vault, true, None, s.approvals, s.pending, s.held,
                  Then(s.log, Up(vault.tracked.epoch, K.SigningBlobs(vault))))
    ensures s.approvals.pending == [] && s.approvals.grants == [] && HighEpoch(s.log) < vault.tracked.epoch
  {
    hide K.SoundVault, K.SigningBlobs;
  }

  lemma UpKeeps(s: State, vault: K.Vault, extra: set<Ticket>)
    requires Core(s, extra, {}) && !s.gateOpen
    requires K.SoundVault(vault) && s.vault.tracked.epoch < vault.tracked.epoch && vault.tracked.state == K.Unlocked
    ensures Core(Note(s.(vault := vault, gateOpen := true, load := None),
                      Up(vault.tracked.epoch, K.SigningBlobs(vault))), extra, {})
  {
    hide Owns, Numbered, Gated, Evident, K.SoundVault, K.SigningBlobs;
    var e := Up(vault.tracked.epoch, K.SigningBlobs(vault));
    OwnsThen(s.pending, s.held, s.listing, s.arrivals, s.log, extra, e);
    NumberedThen(s.approvals, s.pending, s.held, s.listing, s.log, {}, e);
    GatedUp(s, vault);
    EvidentAfresh(s, vault.tracked.epoch, e);
    assert extra - Answers(e) == extra;
  }

  // ---- Replies ----------------------------------------------------------------------------------

  lemma InHandIsOpen(s: State, extra: set<Ticket>, loose: set<nat>)
    requires Core(s, extra, loose)
    ensures extra <= Open(s.log)
  {
    hide Numbered, Gated, Evident, SafeLog, Injective, HeldInjective, DistinctWaiting, PendingTickets, HeldTickets,
         WaitingTickets;
  }

  lemma RefuseKeeps(s: State, ts: set<Ticket>, extra: set<Ticket>, loose: set<nat>)
    requires Core(s, extra, loose) && ts <= extra
    ensures Core(Note(s, Refused(ts)), extra - ts, loose)
  {
    hide Core;
    InHandIsOpen(s, extra, loose);
    EntryKeeps(s, Refused(ts), extra, loose);
  }

  lemma ListKeeps(s: State, ts: set<Ticket>, forwarded: bool, extra: set<Ticket>, loose: set<nat>)
    requires Core(s, extra, loose) && ts <= extra
    ensures Core(Note(s, Listed(ts, forwarded, Names(s.vault.public, forwarded))), extra - ts, loose)
  {
    hide Core;
    InHandIsOpen(s, extra, loose);
    EntryKeeps(s, Listed(ts, forwarded, Names(s.vault.public, forwarded)), extra, loose);
  }

  /** The final check lets through only what the log justifies. */
  lemma ReplyKeeps(s: State, t: Ticket, r: SignRequest, now: nat, extra: set<Ticket>, loose: set<nat>)
    requires Core(s, extra, loose) && t in extra && s.gateOpen
    requires Has(s.log, Asked(t, r))
    requires ApprovedByPanel(s.log, t, s.vault.tracked.epoch) || CoveredByGrant(s.log, r, s.vault.tracked.epoch, now)
    ensures Core(Note(s, Reply(s.vault, t, A.Authorization(s.vault.tracked.epoch, r.blob), r.message, r.flags, now)),
                 extra - {t}, loose)
  {
    hide Core, ApprovedByPanel, CoveredByGrant;
    InHandIsOpen(s, extra, loose);
    var e := Reply(s.vault, t, A.Authorization(s.vault.tracked.epoch, r.blob), r.message, r.flags, now);
    if e.Signed? {
      K.AuthorizedIsListed(s.vault, r.blob);
      hide K.SigningBlobs, K.FindPrivate;
      ServesEpoch(s, extra, loose);
      assert r == SignRequest(r.blob, r.message, r.flags, r.peer, r.scope);
      EntryKeeps(s, e, extra, loose);
    } else {
      RefuseKeeps(s, {t}, extra, loose);
    }
  }

  lemma ServesEpoch(s: State, extra: set<Ticket>, loose: set<nat>)
    requires Core(s, extra, loose) && s.gateOpen
    ensures ServiceOf(s.log) == Serving(s.vault.tracked.epoch, K.SigningBlobs(s.vault))
  {
    hide Owns, Numbered, Evident, SafeLog;
  }

  // ---- Steps shared by events -------------------------------------------------------------------

  lemma CloseGateKeeps(s: State, vault: K.Vault)
    requires Core(s, {}, {})
    requires K.SoundVault(vault) && s.vault.tracked.epoch <= vault.tracked.epoch
    ensures Core(CloseGate(s, vault), {}, {})
  {
    hide Core, PendingTickets;
    var tickets := PendingTickets(s.pending);
    assert s.pending - s.pending.Keys == map[];
    assert s.pending == map id | id in s.pending && id in s.pending.Keys :: s.pending[id];
    TakePendingKeeps(s, s.pending.Keys, s.pending, {}, {});
    var s1 := s.(pending := map[]);
    ManagerKeeps(s1, A.InvalidateAll(s.approvals), {} + tickets, {} + s.pending.Keys, {});
    var s2 := s1.(approvals := A.InvalidateAll(s.approvals));
    DownKeeps(s2, vault, {} + tickets);
    var s3 := Note(s2.(gateOpen := false, vault := vault), Down(vault.tracked.epoch));
    RefuseKeeps(s3, tickets, {} + tickets, {});
    assert ({} + tickets) - tickets == {};
    assert CloseGate(s, vault) == Note(s3, Refused(tickets));
  }

  lemma CancelHeldKeeps(s: State, reason: string)
    requires Core(s, {}, {})
    ensures Core(CancelHeld(s, reason), {}, {})
  {
    hide Core, HeldTickets;
    var tickets := HeldTickets(s.held);
    assert s.held - s.held.Keys == map[];
    assert s.held == map id | id in s.held && id in s.held.Keys :: s.held[id];
    TakeHeldKeeps(s, s.held.Keys, s.held, {}, {});
    var s1 := s.(held := map[]);
    RefuseKeeps(s1, tickets, {} + tickets, {});
    assert ({} + tickets) - tickets == {};
    NoteKeeps(Note(s1, Refused(tickets)), Cancelled(s.held.Keys, reason), {}, {});
  }

  lemma WaitingSplits(listing: Option<HeldList>)
    requires listing.Some?
    ensures WaitingTickets(listing) == WaitingOn(listing.value.waiting, false) + WaitingOn(listing.value.waiting, true)
  {
    var w := listing.value.waiting;
    forall t | t in WaitingTickets(listing)
      ensures t in WaitingOn(w, false) + WaitingOn(w, true)
    {
      var i :| 0 <= i < |w| && w[i].0 == t;
      assert w[i].1 == false || w[i].1 == true;
    }
  }

  lemma ReleaseListingKeeps(s: State, reason: string)
    requires Core(s, {}, {})
    ensures Core(ReleaseListing(s, reason), {}, {})
  {
    hide Core, WaitingOn, WaitingTickets, Names;
    if s.listing.Some? {
      var w := s.listing.value;
      var local, remote := WaitingOn(w.waiting, false), WaitingOn(w.waiting, true);
      WaitingSplits(s.listing);
      TakeListingKeeps(s, {}, {});
      var s1 := s.(listing := None);
      var all := {} + (local + remote);
      ListKeeps(s1, local, false, all, {});
      var s2 := Note(s1, Listed(local, false, Names(s.vault.public, false)));
      DistinctSplit(s, local, remote);
      ListKeeps(s2, remote, true, all - local, {});
      var s3 := Note(s2, Listed(remote, true, Names(s.vault.public, true)));
      assert (all - local) - remote == {};
      NoteKeeps(s3, Cancelled({w.id}, reason), {}, {});
    }
  }

  /** No one waits on two connections. */
  lemma DistinctSplit(s: State, local: set<Ticket>, remote: set<Ticket>)
    requires Core(s, {}, {}) && s.listing.Some?
    requires local == WaitingOn(s.listing.value.waiting, false) && remote == WaitingOn(s.listing.value.waiting, true)
    ensures local !! remote
  {
    hide Numbered, Gated, Evident, SafeLog;
  }

  // ---- Approvals --------------------------------------------------------------------------------

  lemma QueueIsSound(s: State, extra: set<Ticket>, loose: set<nat>)
    requires Core(s, extra, loose)
    ensures A.SoundQueue(s.approvals)
    ensures forall id :: id in s.pending || id in s.held || id in Issued(s.log) ==> id < s.approvals.nextId
    ensures forall g :: g in s.approvals.grants ==> g in Granted(s.log)
    ensures forall q :: q in s.approvals.pending ==> q.id < s.approvals.nextId
  {
    hide Owns, Gated, SafeLog, Backed, BackedHeld;
  }

  lemma StillApproved(log: Log, e: Entry, t: Ticket, epoch: nat)
    requires ApprovedByPanel(log, t, epoch)
    ensures ApprovedByPanel(Then(log, e), t, epoch)
  {
    var id :| id in Consented(log) && (Has(log, PromptedApproval(id, t, epoch)) || Has(log, PromptedUnlock(id, t)));
    assert id in Consented(Then(log, e));
  }

  /** What the manager's request `id` and its reply channel have to do with each other. */
  ghost predicate SameRequest(s: State, id: nat, t: Ticket, message: Bytes, flags: nat) {
    forall q :: q in s.approvals.pending && q.id == id ==>
      q.epoch == s.vault.tracked.epoch && Has(s.log, Asked(t, SignRequest(q.blob, message, flags, q.peer, q.scope)))
  }

  lemma ConsumedKeeps(s: State, a: A.Manager, r: Result<A.Authorization, A.ApprovalError>, grant: Option<A.Grant>,
                      id: nat, t: Ticket, message: Bytes, flags: nat, now: nat, extra: set<Ticket>, loose: set<nat>)
    requires Core(s, extra, loose) && t in extra && s.gateOpen
    requires ApprovedByPanel(s.log, t, s.vault.tracked.epoch) && SameRequest(s, id, t, message, flags)
    requires A.SoundQueue(a) && a.nextId == s.approvals.nextId && |a.pending| <= |s.approvals.pending|
    requires forall q :: q in a.pending ==> q in s.approvals.pending && q.id != id
    requires forall g :: g in a.grants ==> g in s.approvals.grants || (r.Ok? && grant == Some(g))
    requires r.Ok? ==> exists q :: q in s.approvals.pending && q.id == id && r.value == A.Authorization(q.epoch, q.blob)
    ensures Core(Consumed(s, a, r, grant, t, message, flags, now), extra - {t}, loose - {id})
  {
    hide Core, ApprovedByPanel, A.SoundQueue;
    var s1 := if r.Ok? && grant.Some? then Note(s, Opened(grant.value)) else s;
    if r.Ok? && grant.Some? {
      NoteKeeps(s, Opened(grant.value), extra, loose);
      StillApproved(s.log, Opened(grant.value), t, s.vault.tracked.epoch);
    }
    ManagerKeeps(s1, a, extra, loose, loose - {id});
    var s2 := s1.(approvals := a);
    if r.Ok? {
      var q :| q in s.approvals.pending && q.id == id && r.value == A.Authorization(q.epoch, q.blob);
      ReplyKeeps(s2, t, SignRequest(q.blob, message, flags, q.peer, q.scope), now, extra, loose - {id});
    } else {
      RefuseKeeps(s2, {t}, extra, loose - {id});
    }
  }

  lemma ConsumeKeeps(s: State, id: nat, t: Ticket, message: Bytes, flags: nat, seconds: nat, now: nat,
                     extra: set<Ticket>, loose: set<nat>)
    requires Core(s, extra, loose) && t in extra && s.gateOpen
    requires ApprovedByPanel(s.log, t, s.vault.tracked.epoch) && SameRequest(s, id, t, message, flags)
    ensures Core(Consume(s, id, t, message, flags, seconds, now), extra - {t}, loose - {id})
  {
    hide Core, ApprovedByPanel, SameRequest, Consumed, A.SoundQueue;
    QueueIsSound(s, extra, loose);
    A.ApproveOutcome(s.approvals, id, seconds, now);
    var (a, r) := A.Approve(s.approvals, id, seconds, now);
    ConsumedKeeps(s, a, r, A.Opens(s.approvals, id, seconds, now), id, t, message, flags, now, extra, loose);
  }

  /** The manager queues one more request, its reply channel still in hand. */
  lemma QueueKeeps(s: State, a: A.Manager, q: A.PendingRequest, extra: set<Ticket>)
    requires Core(s, extra, {}) && s.gateOpen
    requires A.SoundQueue(a) && q.id == s.approvals.nextId < a.nextId
    requires |a.pending| + |s.held| <= A.MAX_PENDING
    requires forall r :: r in a.pending ==> r in s.approvals.pending || r == q
    requires forall g :: g in a.grants ==> g in s.approvals.grants
    ensures Core(s.(approvals := a), extra, {q.id})
  {
    hide Owns, SafeLog, Backed, BackedHeld;
  }

  lemma HandleQueuedKeeps(s: State, id: nat, t: Ticket, r: SignRequest, approved: Option<nat>, now: nat)
    requires Core(s, {t}, {id}) && s.gateOpen && Has(s.log, Asked(t, r))
    requires id !in Issued(s.log) && id !in s.pending && id !in s.held && id < s.approvals.nextId
    requires forall q :: q in s.approvals.pending && q.id == id ==>
               q.epoch == s.vault.tracked.epoch && q.blob == r.blob && q.peer == r.peer && q.scope == r.scope
    requires approved.Some? ==> ApprovedByPanel(s.log, t, s.vault.tracked.epoch)
    ensures Core(Handle(s, Ok(A.Queued(id)), t, r, approved, now), {}, {})
  {
    hide Core, ApprovedByPanel;
    if approved.Some? {
      hide Consume;
      ConsumeKeeps(s, id, t, r.message, r.flags, approved.value, now, {t}, {id});
      assert {t} - {t} == {} && {id} - {id} == {};
    } else if r.blob !in K.Blobs(s.vault.public) {
      QueueIsSound(s, {t}, {id});
      A.RetainKeepsSound(s.approvals, A.NotId(id));
      RetainIsFilter(s.approvals.pending, A.NotId(id));
      hide A.SoundQueue;
      ManagerKeeps(s, A.Disconnect(s.approvals, id), {t}, {id}, {});
      RefuseKeeps(s.(approvals := A.Disconnect(s.approvals, id)), {t}, {t}, {});
      assert {t} - {t} == {};
    } else {
      PromptAndPut(s, id, t, r);
    }
  }

  lemma PromptAndPut(s: State, id: nat, t: Ticket, r: SignRequest)
    requires Core(s, {t}, {id}) && s.gateOpen && Has(s.log, Asked(t, r))
    requires id !in Issued(s.log) && id !in s.pending && id !in s.held && id < s.approvals.nextId
    requires forall q :: q in s.approvals.pending && q.id == id ==>
               q.epoch == s.vault.tracked.epoch && q.blob == r.blob && q.peer == r.peer && q.scope == r.scope
    ensures Core(Note(s, PromptedApproval(id, t, s.vault.tracked.epoch))
                   .(pending := s.pending[id := PendingSign(t, r.message, r.flags)]), {}, {})
  {
    hide Core;
    var e := PromptedApproval(id, t, s.vault.tracked.epoch);
    InHandIsOpen(s, {t}, {id});
    ServesEpoch(s, {t}, {id});
    EntryKeeps(s, e, {t}, {id});
    assert {t} - Answers(e) == {t};
    assert r == SignRequest(r.blob, r.message, r.flags, r.peer, r.scope);
    PutPendingKeeps(Note(s, e), id, PendingSign(t, r.message, r.flags), {t}, {id});
    assert {t} - {t} == {} && {id} - {id} == {};
  }

  /** A request put to the manager leaves the hand: signed, refused, or queued with its prompt. */
  lemma AskKeeps(s: State, t: Ticket, r: SignRequest, approved: Option<nat>, now: nat)
    requires Core(s, {t}, {}) && s.gateOpen && Has(s.log, Asked(t, r))
    requires |s.approvals.pending| + |s.held| < A.MAX_PENDING || s.held == map[]
    requires approved.Some? ==> ApprovedByPanel(s.log, t, s.vault.tracked.epoch)
    ensures Core(Ask(s, t, r, approved, now), {}, {})
  {
    hide Core, ApprovedByPanel, Handle, A.SoundQueue;
    assert {t} - {t} == {};
    if !K.Authorizes(s.vault, r.blob) {
      RefuseKeeps(s, {t}, {t}, {});
    } else {
      QueueIsSound(s, {t}, {});
      A.SubmitOutcome(s.approvals, s.vault.tracked.epoch, r.blob, r.peer, r.scope, now);
      var (a, sub) := A.Submit(s.approvals, s.vault.tracked.epoch, r.blob, r.peer, r.scope, now);
      if sub.Ok? && sub.value.Queued? {
        assert |a.pending| <= A.MAX_PENDING by { QueueIsShort(a); }
        AskQueuedKeeps(s, a, SatAdd(now, A.REQUEST_LIFETIME_MS), t, r, approved, now);
      } else {
        HandleAnsweredKeeps(s, a, sub, t, r, approved, now);
      }
    }
  }

  lemma QueueIsShort(a: A.Manager)
    requires A.SoundQueue(a)
    ensures |a.pending| <= A.MAX_PENDING
  {
  }

  lemma AskQueuedKeeps(s: State, a: A.Manager, deadline: nat, t: Ticket, r: SignRequest, approved: Option<nat>,
                       now: nat)
    requires Core(s, {t}, {}) && s.gateOpen && Has(s.log, Asked(t, r))
    requires approved.Some? ==> ApprovedByPanel(s.log, t, s.vault.tracked.epoch)
    requires A.SoundQueue(a) && s.approvals.nextId < a.nextId && |a.pending| + |s.held| <= A.MAX_PENDING
    requires forall q :: q in a.pending ==>
               || q in s.approvals.pending
               || q == A.PendingRequest(s.approvals.nextId, s.vault.tracked.epoch, r.blob, r.peer, r.scope, deadline)
    requires forall g :: g in a.grants ==> g in s.approvals.grants
    ensures Core(Handle(s.(approvals := a), Ok(A.Queued(s.approvals.nextId)), t, r, approved, now), {}, {})
  {
    hide Core, ApprovedByPanel, Handle, A.SoundQueue;
    var q := A.PendingRequest(s.approvals.nextId, s.vault.tracked.epoch, r.blob, r.peer, r.scope, deadline);
    QueueIsSound(s, {t}, {});
    QueueKeeps(s, a, q, {t});
    HandleQueuedKeeps(s.(approvals := a), q.id, t, r, approved, now);
  }

  lemma HandleAnsweredKeeps(s: State, a: A.Manager, sub: Result<A.Submitted, A.ApprovalError>, t: Ticket,
                            r: SignRequest, approved: Option<nat>, now: nat)
    requires Core(s, {t}, {}) && s.gateOpen && Has(s.log, Asked(t, r))
    requires A.SoundQueue(a) && s.approvals.nextId <= a.nextId && |a.pending| <= |s.approvals.pending|
    requires forall q :: q in a.pending ==> q in s.approvals.pending
    requires forall g :: g in a.grants ==> g in s.approvals.grants
    requires sub.Ok? ==> sub.value == A.Granted(A.Authorization(s.vault.tracked.epoch, r.blob))
    requires sub.Ok? ==>
               exists g :: && g in s.approvals.grants && g.expiresAtMs > now
                           && A.Covers(g, s.vault.tracked.epoch, r.blob, r.peer, r.scope)
    ensures Core(Handle(s.(approvals := a), sub, t, r, approved, now), {}, {})
  {
    hide Core, A.SoundQueue, A.Covers;
    assert {t} - {t} == {};
    QueueIsSound(s, {t}, {});
    ManagerKeeps(s, a, {t}, {}, {});
    var s1 := s.(approvals := a);
    if sub.Ok? {
      var g :| g in s.approvals.grants && g.expiresAtMs > now
               && A.Covers(g, s.vault.tracked.epoch, r.blob, r.peer, r.scope);
      assert CoveredByGrant(s.log, r, s.vault.tracked.epoch, now);
      ReplyKeeps(s1, t, r, now, {t}, {});
    } else {
      RefuseKeeps(s1, {t}, {t}, {});
    }
  }

  // ---- Settling by grants -----------------------------------------------------------------------

  /** A released request whose reply channel, if still there, asked for just this. */
  ghost predicate Settles(s: State, q: A.PendingRequest, now: nat) {
    && (q.id in s.pending ==> Backed(s.log, s.vault.tracked.epoch, q, s.pending[q.id]))
    && q.epoch == s.vault.tracked.epoch
    && (exists g :: g in Granted(s.log) && g.expiresAtMs > now && A.Covers(g, q.epoch, q.blob, q.peer, q.scope))
    && forall r :: r in s.approvals.pending ==> r.id != q.id
  }

  lemma SettleOneKeeps(s: State, q: A.PendingRequest, now: nat)
    requires Core(s, {}, {}) && s.gateOpen && Settles(s, q, now)
    ensures Core(SettleOne(s, q, now), {}, {})
  {
    hide Core;
    if q.id !in s.pending {
      assert s.pending - {q.id} == s.pending;
      NoteKeeps(s, Cancelled({q.id}, "granted"), {}, {});
    } else {
      var sign := s.pending[q.id];
      var taken := map id | id in s.pending && id in {q.id} :: s.pending[id];
      assert taken == map[q.id := sign];
      assert PendingTickets(taken) == {sign.ticket} by { assert taken[q.id].ticket == sign.ticket; }
      TakePendingKeeps(s, {q.id}, taken, {}, {});
      hide PendingTickets;
      var s1 := s.(pending := s.pending - {q.id});
      QueueIsSound(s1, {} + {sign.ticket}, {} + {q.id});
      ManagerKeeps(s1, s1.approvals, {} + {sign.ticket}, {} + {q.id}, {});
      assert s1.(approvals := s1.approvals) == s1;
      var r := SignRequest(q.blob, sign.message, sign.flags, q.peer, q.scope);
      assert CoveredByGrant(s.log, r, s.vault.tracked.epoch, now);
      ReplyKeeps(s1, sign.ticket, r, now, {} + {sign.ticket}, {});
      assert ({} + {sign.ticket}) - {sign.ticket} == {};
      NoteKeeps(Note(s1, Reply(s.vault, sign.ticket, A.Authorization(q.epoch, q.blob), sign.message, sign.flags, now)),
                Cancelled({q.id}, "granted"), {}, {});
    }
  }

  lemma StillSettles(s: State, q: A.PendingRequest, other: A.PendingRequest, now: nat)
    requires Settles(s, q, now) && q.id != other.id
    ensures Settles(SettleOne(s, other, now), q, now)
  {
    var s' := SettleOne(s, other, now);
    hide A.Covers, Reply;
    SettleOneGrants(s, other, now);
    if q.id in s.pending {
      HasGrows(s, other, now,
               Asked(s.pending[q.id].ticket,
                     SignRequest(q.blob, s.pending[q.id].message, s.pending[q.id].flags, q.peer, q.scope)));
      HasGrows(s, other, now, PromptedApproval(q.id, s.pending[q.id].ticket, q.epoch));
    }
  }

  lemma SettleOneGrants(s: State, q: A.PendingRequest, now: nat)
    ensures Granted(SettleOne(s, q, now).log) == Granted(s.log)
    ensures Issued(SettleOne(s, q, now).log) == Issued(s.log)
  {
    if q.id in s.pending {
      var sign := s.pending[q.id];
      var e := Reply(s.vault, sign.ticket, A.Authorization(q.epoch, q.blob), sign.message, sign.flags, now);
      assert Granted(Then(s.log, e)) == Granted(s.log) && Issued(Then(s.log, e)) == Issued(s.log);
    }
  }

  lemma HasGrows(s: State, q: A.PendingRequest, now: nat, e: Entry)
    requires Has(s.log, e)
    ensures Has(SettleOne(s, q, now).log, e)
  {
    hide Reply;
    if q.id in s.pending {
      var sign := s.pending[q.id];
      assert Has(Then(s.log, Reply(s.vault, sign.ticket, A.Authorization(q.epoch, q.blob), sign.message, sign.flags,
                                   now)), e);
    }
  }

  lemma {:induction false} SettleEachKeeps(s: State, released: seq<A.PendingRequest>, now: nat)
    requires Core(s, {}, {}) && s.gateOpen && A.UniqueIds(released)
    requires forall i :: 0 <= i < |released| ==> Settles(s, released[i], now)
    ensures Core(SettleEach(s, released, now), {}, {})
    ensures SameShell(s, SettleEach(s, released, now))
    decreases |released|
  {
    hide Core;
    if released != [] {
      var q := released[0];
      var s1 := SettleOne(s, q, now);
      SettleOneKeeps(s, q, now);
      forall i | 0 <= i < |released[1..]| ensures Settles(s1, released[1..][i], now) {
        assert released[1..][i] == released[i + 1];
        StillSettles(s, released[i + 1], q, now);
      }
      hide Settles, SettleOne;
      assert SameShell(s, s1) by { SettleOneShell(s, q, now); }
      SettleEachKeeps(s1, released[1..], now);
    }
  }

  lemma SettleOneShell(s: State, q: A.PendingRequest, now: nat)
    ensures SameShell(s, SettleOne(s, q, now))
  {
  }

  lemma SettleGrantedKeeps(s: State, now: nat)
    requires Core(s, {}, {}) && s.gateOpen
    ensures Core(SettleGranted(s, now), {}, {})
    ensures SameShell(s, SettleGranted(s, now))
  {
    QueueIsSound(s, {}, {});
    A.ReleaseOutcome(s.approvals, now);
    var (a, released) := A.ReleaseGranted(s.approvals, now);
    hide A.SoundQueue, A.ReleaseGranted, A.Covers, SettleEach;
    ManagerKeeps(s, a, {}, {}, {});
    var s1 := s.(approvals := a);
    forall i | 0 <= i < |released| ensures Settles(s1, released[i], now) {
      assert released[i] in released;
      ReleasedSettles(s, a, released[i], now);
    }
    hide Core, Settles;
    SettleEachKeeps(s1, released, now);
  }

  lemma ReleasedSettles(s: State, a: A.Manager, q: A.PendingRequest, now: nat)
    requires Core(s, {}, {}) && q in s.approvals.pending && q !in a.pending
    requires forall r :: r in a.pending ==> r in s.approvals.pending
    requires exists g :: && g in a.grants && g in s.approvals.grants && g.expiresAtMs > now
                         && A.Covers(g, q.epoch, q.blob, q.peer, q.scope)
    ensures Settles(s.(approvals := a), q, now)
  {
    hide Owns, Gated, SafeLog, A.Covers;
    forall r | r in a.pending ensures r.id != q.id {
      var i :| 0 <= i < |s.approvals.pending| && s.approvals.pending[i] == r;
      var j :| 0 <= j < |s.approvals.pending| && s.approvals.pending[j] == q;
      assert i != j;
    }
  }
}

/** Pending requests, single-use approvals and process grants (approvals.rs, peer.rs). */
module Approvals {
  import opened Common

  const MAX_PENDING: nat := 4
  const REQUEST_LIFETIME_MS: nat := 120_000
  const MAX_GRANT_SECONDS: nat := 900

  datatype ApprovalError = WrongUid | QueueFull | UnknownRequest | IdExhausted

  datatype Peer = Peer(uid: nat, pid: nat, startTimeTicks: nat, executable: string)

  /** What the signed data is: a PROTOCOL.sshsig signature in a namespace, a login as a user to a
      host ("" when the client reported none), or neither. */
  datatype SignKind = SshSig(namespace: Bytes) | UserAuth(user: Bytes, host: Bytes) | Other

  datatype SignScope = SignScope(kind: SignKind, forwarded: bool)

  datatype Authorization = Authorization(epoch: nat, blob: Bytes)

  datatype PendingRequest =
    PendingRequest(id: nat, epoch: nat, blob: Bytes, peer: Peer, scope: SignScope, deadlineMs: nat)

  datatype Grant = Grant(id: nat, blob: Bytes, peer: Peer, kind: SignKind, epoch: nat, expiresAtMs: nat)

  datatype Submitted = Queued(id: nat) | Granted(authorization: Authorization)

  /** The fields of the approval manager as one value. */
  datatype Manager = Manager(
    expectedUid: nat, nextId: nat, nextGrantId: nat, pending: seq<PendingRequest>, grants: seq<Grant>)

  predicate SharesGrantScope(a: Peer, b: Peer) {
    a.uid == b.uid && a.executable == b.executable
  }

  predicate Grantable(scope: SignScope) {
    !scope.forwarded && scope.kind != Other
  }

  predicate Covers(grant: Grant, epoch: nat, blob: Bytes, peer: Peer, scope: SignScope) {
    && Grantable(scope)
    && grant.epoch == epoch
    && grant.blob == blob
    && grant.kind == scope.kind
    && SharesGrantScope(grant.peer, peer)
  }

  predicate Covered(grants: seq<Grant>, epoch: nat, blob: Bytes, peer: Peer, scope: SignScope) {
    exists g :: g in grants && Covers(g, epoch, blob, peer, scope)
  }

  // What each `retain` keeps.

  function AliveAt(now: nat): PendingRequest -> bool {
    (r: PendingRequest) => r.deadlineMs > now
  }

  function OpenAt(now: nat): Grant -> bool {
    (g: Grant) => g.expiresAtMs > now
  }

  function NotId(id: nat): PendingRequest -> bool {
    (r: PendingRequest) => r.id != id
  }

  function NotGrant(id: nat): Grant -> bool {
    (g: Grant) => g.id != id
  }

  function CoveredBy(grants: seq<Grant>): PendingRequest -> bool {
    (r: PendingRequest) => Covered(grants, r.epoch, r.blob, r.peer, r.scope)
  }

  function NotCoveredBy(grants: seq<Grant>): PendingRequest -> bool {
    (r: PendingRequest) => !Covered(grants, r.epoch, r.blob, r.peer, r.scope)
  }

  function Find(pending: seq<PendingRequest>, id: nat): Option<PendingRequest> {
    if pending == [] then None
    else if pending[0].id == id then Some(pending[0])
    else Find(pending[1..], id)
  }

  predicate IsPending(m: Manager, id: nat) {
    exists r :: r in m.pending && r.id == id
  }

  // ---- The manager's operations ---------------------------------------------------------------

  function Fresh(uid: nat): Manager {
    Manager(uid, 1, 1, [], [])
  }

  function Expire(m: Manager, now: nat): Manager {
    m.(pending := Retain(m.pending, AliveAt(now)), grants := Retain(m.grants, OpenAt(now)))
  }

  function Submit(m: Manager, epoch: nat, blob: Bytes, peer: Peer, scope: SignScope, now: nat)
    : (Manager, Result<Submitted, ApprovalError>)
  {
    if peer.uid != m.expectedUid then
      (m, Err(WrongUid))
    else
      var live := Expire(m, now);
      if Covered(live.grants, epoch, blob, peer, scope) then
        (live, Ok(Granted(Authorization(epoch, blob))))
      else if |live.pending| >= MAX_PENDING then
        (live, Err(QueueFull))
      else if m.nextId >= U64_MAX then
        (live, Err(IdExhausted))
      else
        var request := PendingRequest(m.nextId, epoch, blob, peer, scope, SatAdd(now, REQUEST_LIFETIME_MS));
        (live.(nextId := m.nextId + 1, pending := live.pending + [request]), Ok(Queued(m.nextId)))
  }

  /** The grant an approval opens, if it opens one. */
  function Opens(m: Manager, id: nat, seconds: nat, now: nat): Option<Grant> {
    match Find(Expire(m, now).pending, id)
    case None => None
    case Some(r) =>
      if seconds > 0 && Grantable(r.scope) && m.nextGrantId < U64_MAX then
        Some(Grant(m.nextGrantId, r.blob, r.peer, r.scope.kind, r.epoch,
                   SatAdd(now, Min(seconds, MAX_GRANT_SECONDS) * 1000)))
      else
        None
  }

  function Approve(m: Manager, id: nat, seconds: nat, now: nat): (Manager, Result<Authorization, ApprovalError>) {
    var live := Expire(m, now);
    match Find(live.pending, id)
    case None => (live, Err(UnknownRequest))
    case Some(r) =>
      var taken := live.(pending := Retain(live.pending, NotId(id)));
      if seconds > 0 && Grantable(r.scope) && m.nextGrantId >= U64_MAX then
        (taken, Err(IdExhausted))
      else
        match Opens(m, id, seconds, now)
        case None => (taken, Ok(Authorization(r.epoch, r.blob)))
        case Some(g) =>
          (taken.(nextGrantId := m.nextGrantId + 1, grants := taken.grants + [g]),
           Ok(Authorization(r.epoch, r.blob)))
  }

  /** Pending requests a live grant covers, in queue order, and the manager without them. */
  function ReleaseGranted(m: Manager, now: nat): (Manager, seq<PendingRequest>) {
    var live := Expire(m, now);
    (live.(pending := Retain(live.pending, NotCoveredBy(live.grants))),
     Retain(live.pending, CoveredBy(live.grants)))
  }

  function Disconnect(m: Manager, id: nat): Manager {
    m.(pending := Retain(m.pending, NotId(id)))
  }

  function InvalidateAll(m: Manager): Manager {
    m.(pending := [], grants := [])
  }

  function RevokeGrant(m: Manager, id: nat): Manager {
    m.(grants := Retain(m.grants, NotGrant(id)))
  }

  function RevokeAllGrants(m: Manager): Manager {
    m.(grants := [])
  }

  function ReserveRequestId(m: Manager): (Manager, Result<nat, ApprovalError>) {
    if m.nextId >= U64_MAX then (m, Err(IdExhausted)) else (m.(nextId := m.nextId + 1), Ok(m.nextId))
  }

  function CapacityRemaining(m: Manager, held: nat): nat {
    if |m.pending| + held >= MAX_PENDING then 0 else MAX_PENDING - (|m.pending| + held)
  }

  // ---- What they keep ---------------------------------------------------------------------------

  /** Ids below the next one and never queued twice, and no more than `MAX_PENDING` in the queue. */
  ghost predicate SoundQueue(m: Manager) {
    && |m.pending| <= MAX_PENDING
    && (forall i :: 0 <= i < |m.pending| ==> m.pending[i].id < m.nextId)
    && UniqueIds(m.pending)
  }

  ghost predicate UniqueIds(pending: seq<PendingRequest>) {
    forall i, j :: 0 <= i < j < |pending| ==> pending[i].id != pending[j].id
  }

  lemma {:induction false} RetainKeepsUnique(s: seq<PendingRequest>, keep: PendingRequest -> bool)
    requires UniqueIds(s)
    ensures UniqueIds(Retain(s, keep))
    decreases |s|
  {
    if s != [] {
      var init := s[..|s| - 1];
      RetainKeepsUnique(init, keep);
      RetainIsFilter(init, keep);
      forall i | 0 <= i < |Retain(init, keep)|
        ensures Retain(init, keep)[i].id != s[|s| - 1].id
      {
        assert Retain(init, keep)[i] in init;
      }
    }
  }

  lemma RetainKeepsSound(m: Manager, keep: PendingRequest -> bool)
    requires SoundQueue(m)
    ensures SoundQueue(m.(pending := Retain(m.pending, keep)))
  {
    RetainKeepsUnique(m.pending, keep);
    RetainIsFilter(m.pending, keep);
    forall i | 0 <= i < |Retain(m.pending, keep)|
      ensures Retain(m.pending, keep)[i].id < m.nextId
    {
      assert Retain(m.pending, keep)[i] in m.pending;
    }
  }

  /** With unique ids the queue is searched correctly: `Find` is the one request with that id. */
  lemma {:induction false} FindIff(pending: seq<PendingRequest>, id: nat)
    ensures Find(pending, id).Some? ==> Find(pending, id).value in pending && Find(pending, id).value.id == id
    ensures Find(pending, id).None? ==> forall r :: r in pending ==> r.id != id
    decreases |pending|
  {
    if pending != [] && pending[0].id != id {
      FindIff(pending[1..], id);
      assert pending == [pending[0]] + pending[1..];
    }
  }

  lemma ExpireKeeps(m: Manager, now: nat)
    requires SoundQueue(m)
    ensures SoundQueue(Expire(m, now))
    ensures forall r :: r in Expire(m, now).pending <==> r in m.pending && r.deadlineMs > now
    ensures forall g :: g in Expire(m, now).grants <==> g in m.grants && g.expiresAtMs > now
  {
    RetainKeepsSound(m, AliveAt(now));
    RetainIsFilter(m.pending, AliveAt(now));
    RetainIsFilter(m.grants, OpenAt(now));
  }

  /** A submission is granted exactly when an unexpired grant covers it, and queued exactly when no
      grant does and there is room; a request already queued is neither lost nor changed. */
  lemma SubmitOutcome(m: Manager, epoch: nat, blob: Bytes, peer: Peer, scope: SignScope, now: nat)
    requires SoundQueue(m)
    ensures var (m', r) := Submit(m, epoch, blob, peer, scope, now);
            && SoundQueue(m')
            && (r == Ok(Granted(Authorization(epoch, blob))) <==>
                && peer.uid == m.expectedUid
                && exists g :: g in m.grants && g.expiresAtMs > now && Covers(g, epoch, blob, peer, scope))
            && (r.Ok? && r.value.Granted? ==> r.value.authorization == Authorization(epoch, blob))
            && (r.Ok? && r.value.Queued? ==>
                  r.value.id == m.nextId < m'.nextId &&
                  PendingRequest(m.nextId, epoch, blob, peer, scope, SatAdd(now, REQUEST_LIFETIME_MS)) in m'.pending)
            && (forall q :: q in m'.pending ==>
                  q in m.pending
                  || (r == Ok(Queued(m.nextId))
                      && q == PendingRequest(m.nextId, epoch, blob, peer, scope, SatAdd(now, REQUEST_LIFETIME_MS))))
            && (peer.uid == m.expectedUid ==> forall q :: q in m.pending && q.deadlineMs > now ==> q in m'.pending)
            && (forall g :: g in m'.grants ==> g in m.grants)
            && |m'.pending| <= |m.pending| + (if r == Ok(Queued(m.nextId)) then 1 else 0)
            && m.nextId <= m'.nextId && m'.expectedUid == m.expectedUid
            && (r == Err(QueueFull) ==> |m.pending| == MAX_PENDING)
  {
    ExpireKeeps(m, now);
    RetainIsFilter(m.pending, AliveAt(now));
  }

  /** Approving takes exactly the named request out of the queue, once, and opens at most one
      grant, covering what the request asked for and nothing forwarded or unrecognised. */
  lemma ApproveOutcome(m: Manager, id: nat, seconds: nat, now: nat)
    requires SoundQueue(m)
    ensures var (m', r) := Approve(m, id, seconds, now);
            var grant := Opens(m, id, seconds, now);
            && SoundQueue(m') && m'.nextId == m.nextId && m'.expectedUid == m.expectedUid && |m'.pending| <= |m.pending|
            && (forall q :: q in m'.pending <==> q in m.pending && q.deadlineMs > now && q.id != id)
            && (forall g :: g in m'.grants <==> (g in m.grants && g.expiresAtMs > now) || (r.Ok? && grant == Some(g)))
            && (r.Ok? ==> exists q ::
                  && q in m.pending && q.id == id && q.deadlineMs > now
                  && r.value == Authorization(q.epoch, q.blob)
                  && (grant.Some? ==>
                        && Covers(grant.value, q.epoch, q.blob, q.peer, q.scope)
                        && grant.value.expiresAtMs <= now + MAX_GRANT_SECONDS * 1000))
            && (r == Err(UnknownRequest) <==> forall q :: q in m.pending && q.deadlineMs > now ==> q.id != id)
  {
    ExpireKeeps(m, now);
    var live := Expire(m, now);
    FindIff(live.pending, id);
    RetainKeepsSound(live, NotId(id));
    RetainIsFilter(live.pending, NotId(id));
    RetainIsFilter(m.pending, AliveAt(now));
  }

  /** Settling splits the live queue: what a live grant covers comes out, the rest stays. */
  lemma ReleaseOutcome(m: Manager, now: nat)
    requires SoundQueue(m)
    ensures var (m', out) := ReleaseGranted(m, now);
            && SoundQueue(m') && UniqueIds(out) && m'.nextId == m.nextId && m'.expectedUid == m.expectedUid
            && |out| <= |m.pending| && |m'.pending| <= |m.pending|
            && (forall q :: q in m'.pending ==> q in m.pending && q !in out)
            && (forall q :: q in out ==>
                  && q in m.pending && q !in m'.pending
                  && exists g :: g in m'.grants && g.expiresAtMs > now && Covers(g, q.epoch, q.blob, q.peer, q.scope))
            && (forall q :: q in m.pending && q.deadlineMs > now ==> q in m'.pending || q in out)
            && (forall g :: g in m'.grants ==> g in m.grants)
  {
    ExpireKeeps(m, now);
    var live := Expire(m, now);
    RetainKeepsSound(live, NotCoveredBy(live.grants));
    RetainIsFilter(live.pending, NotCoveredBy(live.grants));
    RetainIsFilter(live.pending, CoveredBy(live.grants));
    RetainIsFilter(m.pending, AliveAt(now));
    RetainKeepsUnique(live.pending, CoveredBy(live.grants));
  }

  // ---- Exactly what they do ---------------------------------------------------------------------

  /** The requests whose time is not over. */
  function Live(m: Manager, now: nat): set<PendingRequest> {
    set q | q in m.pending && q.deadlineMs > now
  }

  /** A grant whose time is not over covers the request. */
  ghost predicate LiveGrant(m: Manager, epoch: nat, blob: Bytes, peer: Peer, scope: SignScope, now: nat) {
    exists g :: g in m.grants && g.expiresAtMs > now && Covers(g, epoch, blob, peer, scope)
  }

  lemma {:induction false} DistinctCount(s: seq<PendingRequest>)
    requires UniqueIds(s)
    ensures |set q | q in s| == |s|
    decreases |s|
  {
    if s == [] {
      assert (set q | q in s) == {};
    } else {
      var init, last := s[..|s| - 1], s[|s| - 1];
      DistinctCount(init);
      assert last !in init;
      assert s == init + [last];
      assert (set q | q in s) == (set q | q in init) + {last};
    }
  }

  lemma LiveCount(m: Manager, now: nat)
    requires SoundQueue(m)
    ensures |Expire(m, now).pending| == |Live(m, now)|
  {
    ExpireKeeps(m, now);
    var live := Expire(m, now).pending;
    DistinctCount(live);
    assert Live(m, now) == set q | q in live;
  }

  /** A submission, case by case: a wrong user, a grant, a full queue, no id left, or one more in the queue
      behind the live ones. */
  lemma SubmitVerdict(m: Manager, epoch: nat, blob: Bytes, peer: Peer, scope: SignScope, now: nat)
    requires SoundQueue(m)
    ensures var (m', r) := Submit(m, epoch, blob, peer, scope, now);
            var covered := LiveGrant(m, epoch, blob, peer, scope, now);
            var asked := PendingRequest(m.nextId, epoch, blob, peer, scope, SatAdd(now, REQUEST_LIFETIME_MS));
            && r == (if peer.uid != m.expectedUid then Err(WrongUid)
                     else if covered then Ok(Granted(Authorization(epoch, blob)))
                     else if |Live(m, now)| >= MAX_PENDING then Err(QueueFull)
                     else if m.nextId >= U64_MAX then Err(IdExhausted)
                     else Ok(Queued(m.nextId)))
            && (peer.uid != m.expectedUid ==> m' == m)
            && (peer.uid == m.expectedUid ==>
                  forall q :: q in m'.pending <==> q in Live(m, now) || (r == Ok(Queued(m.nextId)) && q == asked))
            && m'.nextId == (if r == Ok(Queued(m.nextId)) then m.nextId + 1 else m.nextId)
            && m'.nextGrantId == m.nextGrantId && m'.expectedUid == m.expectedUid
            && (forall g :: g in m'.grants ==> g in m.grants)
            && (forall g :: g in m.grants && g.expiresAtMs > now ==> g in m'.grants)
  {
    LiveCount(m, now);
    ExpireKeeps(m, now);
    var live := Expire(m, now);
    assert Covered(live.grants, epoch, blob, peer, scope) <==> LiveGrant(m, epoch, blob, peer, scope, now);
    hide Expire, Covered, Covers;
  }

  /** An approval of a live request: with a window, of data that can be granted, it opens one grant for just
      that, until the window of at most fifteen minutes is over; otherwise none. */
  lemma ApproveOpens(m: Manager, q: PendingRequest, seconds: nat, now: nat)
    requires SoundQueue(m) && q in m.pending && q.deadlineMs > now
    ensures var (m', r) := Approve(m, q.id, seconds, now);
            var open := seconds > 0 && !q.scope.forwarded && q.scope.kind != Other;
            var until := SatAdd(now, Min(seconds, MAX_GRANT_SECONDS) * 1000);
            var grant := Grant(m.nextGrantId, q.blob, q.peer, q.scope.kind, q.epoch, until);
            && r == (if open && m.nextGrantId >= U64_MAX then Err(IdExhausted) else Ok(Authorization(q.epoch, q.blob)))
            && (forall g :: g in m'.grants <==> (g in m.grants && g.expiresAtMs > now) || (open && r.Ok? && g == grant))
            && (forall x :: x in m'.pending <==> x in Live(m, now) && x != q)
            && m'.nextGrantId == (if open && r.Ok? then m.nextGrantId + 1 else m.nextGrantId)
            && m'.nextId == m.nextId
            && Opens(m, q.id, seconds, now) == if open && r.Ok? then Some(grant) else None
  {
    ExpireKeeps(m, now);
    var live := Expire(m, now);
    FindIff(live.pending, q.id);
    var found := Find(live.pending, q.id);
    assert found == Some(q) by {
      SameId(live.pending, found.value, q);
    }
    RetainIsFilter(live.pending, NotId(q.id));
    forall x | x in live.pending && x != q
      ensures x.id != q.id
    {
      if x.id == q.id {
        SameId(live.pending, x, q);
      }
    }
  }

  lemma SameId(pending: seq<PendingRequest>, x: PendingRequest, y: PendingRequest)
    requires UniqueIds(pending) && x in pending && y in pending && x.id == y.id
    ensures x == y
  {
  }

  lemma ReleasedUnique(m: Manager, now: nat)
    requires SoundQueue(m)
    ensures UniqueIds(ReleaseGranted(m, now).1)
  {
    ExpireKeeps(m, now);
    var live := Expire(m, now);
    RetainKeepsUnique(live.pending, CoveredBy(live.grants));
  }

  /** Settling takes out exactly the live requests that a live grant covers, in queue order. */
  lemma ReleaseExactly(m: Manager, now: nat)
    requires SoundQueue(m)
    ensures var (m', out) := ReleaseGranted(m, now);
            && (forall q :: q in out <==> q in Live(m, now) && LiveGrant(m, q.epoch, q.blob, q.peer, q.scope, now))
            && (forall q :: q in m'.pending <==>
                  q in Live(m, now) && !LiveGrant(m, q.epoch, q.blob, q.peer, q.scope, now))
            && Subsequence(out, Expire(m, now).pending)
            && (forall g :: g in m'.grants <==> g in m.grants && g.expiresAtMs > now)
  {
    ExpireKeeps(m, now);
    var live := Expire(m, now);
    RetainIsFilter(live.pending, NotCoveredBy(live.grants));
    RetainIsFilter(live.pending, CoveredBy(live.grants));
    RetainInOrder(live.pending, CoveredBy(live.grants));
    hide Covers, Subsequence;
    forall q: PendingRequest
      ensures Covered(live.grants, q.epoch, q.blob, q.peer, q.scope) <==>
              LiveGrant(m, q.epoch, q.blob, q.peer, q.scope, now)
    {
    }
    hide Expire;
  }

  /** A revoked grant is gone, and no other. */
  lemma RevokeTakesOne(m: Manager, id: nat)
    ensures forall g :: g in RevokeGrant(m, id).grants <==> g in m.grants && g.id != id
    ensures RevokeGrant(m, id).pending == m.pending
  {
    RetainIsFilter(m.grants, NotGrant(id));
  }
}

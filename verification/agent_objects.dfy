/** The agent's owners of state, as objects updated in place: the state tracker, the
    candidate and the key store (state.rs, keystore.rs), and the approval manager (approvals.rs). */
module AgentObjects {
  import opened Common
  import opened KeyStores
  import Utf8
  import A = Approvals

  class StateTracker {
    var epoch: nat
    var state: VaultState

    ghost function View(): Tracked
      reads this
    {
      Tracked(epoch, state)
    }

    constructor ()
      ensures View() == FRESH
    {
      epoch, state := 0, LoggedOut;
    }

    method BeginLoad(e: nat) returns (ok: bool)
      modifies this
      ensures ok == Accepts(old(View()), Move.BeginLoad(e))
      ensures View() == Moved(old(View()), Move.BeginLoad(e))
    {
      if e <= epoch {
        return false;
      }
      epoch, state := e, Loading;
      return true;
    }

    method Publish(e: nat) returns (ok: bool)
      modifies this
      ensures ok == Accepts(old(View()), Move.Publish(e))
      ensures View() == Moved(old(View()), Move.Publish(e))
    {
      if epoch != e || state != Loading {
        return false;
      }
      state := Unlocked;
      return true;
    }

    method Lock(e: nat, hasPublicCache: bool)
      modifies this
      ensures View() == Moved(old(View()), Move.Lock(e, hasPublicCache))
    {
      epoch := Max(epoch, e);
      state := if hasPublicCache then LockedCached else LockedEmpty;
    }

    method Logout(e: nat)
      modifies this
      ensures View() == Moved(old(View()), Move.Logout(e))
    {
      epoch := Max(epoch, e);
      state := LoggedOut;
    }
  }

  /** A candidate load under construction. */
  class CandidateLoad {
    const epoch: nat
    var seenItems: nat
    var failed: bool
    var public: seq<PublicIdentity>
    var private: seq<PrivateIdentity>
    var skipped: seq<(Bytes, SkipCode)>

    ghost function View(): Candidate
      reads this
    {
      Candidate(epoch, seenItems, failed, public, private, skipped)
    }

    constructor (epoch: nat)
      ensures View() == Candidate(epoch, 0, false, [], [], [])
    {
      this.epoch := epoch;
      seenItems, failed, public, private, skipped := 0, false, [], [], [];
    }

    method SkipItem(itemId: Bytes, code: SkipCode) returns (r: Result<Option<SkipCode>, LoadError>)
      modifies this`skipped
      ensures skipped == old(skipped) + [(itemId, code)] && r == Ok(Some(code))
    {
      skipped := skipped + [(itemId, code)];
      r := Ok(Some(code));
    }

    method Add(item: CandidateItem) returns (r: Result<Option<SkipCode>, LoadError>)
      modifies this
      ensures (View(), r) == KeyStores.Add(old(View()), item)
    {
      seenItems := seenItems + 1;
      if seenItems > MAX_KEYS {
        failed := true;
        return Err(TooManyKeys);
      }
      if item.pemLength > MAX_PEM_BYTES {
        failed := true;
        return Err(PemTooLarge);
      }
      if |item.itemId| > MAX_METADATA_BYTES {
        failed := true;
        return Err(MetadataTooLarge);
      }
      var name := Utf8.Truncate(item.name, MAX_METADATA_BYTES);
      if item.reprompt {
        r := SkipItem(item.itemId, RequiresReprompt);
        return;
      }
      if item.key.Defect? {
        r := SkipItem(item.itemId, item.key.code);
        return;
      }
      if item.key.blob in Blobs(public) {
        r := SkipItem(item.itemId, Duplicate);
        return;
      }
      var publicIndex := |public|;
      public := public + [PublicIdentity(item.itemId, name, item.key.fingerprint, item.key.blob)];
      private := private + [PrivateIdentity(item.key.kind, publicIndex)];
      return Ok(None);
    }
  }

  /** The only owner of live private keys. */
  class KeyStore {
    const tracker: StateTracker
    var public: seq<PublicIdentity>
    var private: seq<PrivateIdentity>

    ghost function View(): Vault
      reads this, tracker
    {
      Vault(tracker.View(), public, private)
    }

    constructor ()
      ensures View() == EMPTY_VAULT && fresh(tracker)
    {
      tracker := new StateTracker();
      public, private := [], [];
    }

    /** Enters loading and drops the previous private keys before anything is validated. */
    method BeginLoad(epoch: nat, filteredBytes: nat) returns (r: Result<CandidateLoad, LoadError>)
      modifies this, tracker
      ensures View() == StoreBeginLoad(old(View()), epoch, filteredBytes).0
      ensures r.Ok? <==> StoreBeginLoad(old(View()), epoch, filteredBytes).1.Ok?
      ensures r.Ok? ==> fresh(r.value) && r.value.View() == StoreBeginLoad(old(View()), epoch, filteredBytes).1.value
      ensures r.Err? ==> r.error == StoreBeginLoad(old(View()), epoch, filteredBytes).1.error
    {
      var begun := tracker.BeginLoad(epoch);
      if !begun {
        return Err(StaleEpoch);
      }
      private := [];
      if filteredBytes > MAX_FILTERED_BYTES {
        return Err(FilteredPayloadTooLarge);
      }
      var candidate := new CandidateLoad(epoch);
      return Ok(candidate);
    }

    /** Replaces both key lists with one validated load, or neither. */
    method Publish(load: CandidateLoad) returns (r: Result<nat, LoadError>)
      modifies this, tracker
      ensures (View(), r) == StorePublish(old(View()), old(load.View()))
    {
      if load.failed {
        return Err(FailedCandidate);
      }
      var published := tracker.Publish(load.epoch);
      if !published {
        return Err(StaleEpoch);
      }
      public, private := load.public, load.private;
      return Ok(|private|);
    }

    method Lock(epoch: nat)
      modifies this, tracker
      ensures View() == StoreLock(old(View()), epoch)
    {
      tracker.Lock(epoch, public != []);
      private := [];
    }

    method Logout(epoch: nat)
      modifies this, tracker
      ensures View() == StoreLogout(old(View()), epoch)
    {
      tracker.Logout(epoch);
      public, private := [], [];
    }

    /** Searches the private keys for one whose public blob is `blob`. */
    method Authorize(blob: Bytes) returns (allowed: bool)
      requires SoundVault(View())
      ensures allowed == Authorizes(View(), blob)
    {
      if tracker.state != Unlocked {
        return false;
      }
      var found := FindKey(blob);
      return found.Some?;
    }

    method FindKey(blob: Bytes) returns (kind: Option<KeyKind>)
      requires SoundVault(View())
      ensures kind == FindPrivate(public, private, blob)
    {
      var i := 0;
      while i < |private|
        invariant i <= |private|
        invariant FindPrivate(public, private, blob) == FindPrivate(public, private[i..], blob)
      {
        if public[private[i].publicIndex].blob == blob {
          return Some(private[i].kind);
        }
        assert private[i..][1..] == private[i + 1..];
        i := i + 1;
      }
      return None;
    }

    /** The last check before the signing primitive: state, epoch and key are looked at again. */
    method Sign(epoch: nat, blob: Bytes, flags: nat) returns (signs: bool)
      requires SoundVault(View())
      ensures signs == Signs(View(), epoch, blob, flags)
    {
      if tracker.epoch != epoch || tracker.state != Unlocked {
        return false;
      }
      var kind := FindKey(blob);
      return kind.Some? && TakesFlags(kind.value, flags);
    }
  }

  class ApprovalManager {
    const expectedUid: nat
    var nextId: nat
    var nextGrantId: nat
    var pending: seq<A.PendingRequest>
    var grants: seq<A.Grant>

    ghost function View(): A.Manager
      reads this
    {
      A.Manager(expectedUid, nextId, nextGrantId, pending, grants)
    }

    constructor (uid: nat)
      ensures View() == A.Fresh(uid)
    {
      expectedUid := uid;
      nextId, nextGrantId, pending, grants := 1, 1, [], [];
    }

    method Expire(now: nat)
      modifies this
      ensures View() == A.Expire(old(View()), now)
    {
      pending := Retain(pending, A.AliveAt(now));
      grants := Retain(grants, A.OpenAt(now));
    }

    method Submit(epoch: nat, blob: Bytes, peer: A.Peer, scope: A.SignScope, now: nat)
      returns (r: Result<A.Submitted, A.ApprovalError>)
      modifies this
      ensures (View(), r) == A.Submit(old(View()), epoch, blob, peer, scope, now)
    {
      if peer.uid != expectedUid {
        return Err(A.WrongUid);
      }
      Expire(now);
      if A.Covered(grants, epoch, blob, peer, scope) {
        return Ok(A.Granted(A.Authorization(epoch, blob)));
      }
      if |pending| >= A.MAX_PENDING {
        return Err(A.QueueFull);
      }
      var id := nextId;
      if nextId >= U64_MAX {
        return Err(A.IdExhausted);
      }
      nextId := nextId + 1;
      pending := pending + [A.PendingRequest(id, epoch, blob, peer, scope, SatAdd(now, A.REQUEST_LIFETIME_MS))];
      return Ok(A.Queued(id));
    }

    /** `position` of the request with this id. */
    method Position(id: nat) returns (at: nat)
      ensures at <= |pending|
      ensures at < |pending| ==> pending[at].id == id && A.Find(pending, id) == Some(pending[at])
      ensures at == |pending| ==> A.Find(pending, id) == None
    {
      at := 0;
      while at < |pending|
        invariant at <= |pending|
        invariant A.Find(pending, id) == A.Find(pending[at..], id)
      {
        if pending[at].id == id {
          return;
        }
        assert pending[at..][1..] == pending[at + 1..];
        at := at + 1;
      }
    }

    /** Takes the request with this id out of the queue. */
    method Take(id: nat) returns (request: Option<A.PendingRequest>)
      requires A.UniqueIds(pending)
      modifies this`pending
      ensures request == A.Find(old(pending), id)
      ensures pending == if request.Some? then Retain(old(pending), A.NotId(id)) else old(pending)
    {
      var at := Position(id);
      if at == |pending| {
        return None;
      }
      request := Some(pending[at]);
      RemoveAtIsRetain(pending, at, A.NotId(id));
      pending := pending[..at] + pending[at + 1..];
    }

    method Approve(id: nat, seconds: nat, now: nat) returns (r: Result<A.Authorization, A.ApprovalError>)
      requires A.SoundQueue(View())
      modifies this
      ensures (View(), r) == A.Approve(old(View()), id, seconds, now)
    {
      A.RetainKeepsUnique(pending, A.AliveAt(now));
      hide A.Find, A.Grantable, A.SoundQueue, A.UniqueIds, Retain;
      Expire(now);
      var taken := Take(id);
      if taken.None? {
        return Err(A.UnknownRequest);
      }
      var request := taken.value;
      if seconds > 0 && A.Grantable(request.scope) {
        var grantId := nextGrantId;
        if nextGrantId >= U64_MAX {
          return Err(A.IdExhausted);
        }
        nextGrantId := nextGrantId + 1;
        var durationMs := Min(seconds, A.MAX_GRANT_SECONDS) * 1000;
        grants := grants + [A.Grant(grantId, request.blob, request.peer, request.scope.kind, request.epoch,
                                    SatAdd(now, durationMs))];
      }
      return Ok(A.Authorization(request.epoch, request.blob));
    }

    /** Takes the covered requests out of the queue in one pass. */
    method ReleaseGranted(now: nat) returns (released: seq<A.PendingRequest>)
      modifies this
      ensures (View(), released) == A.ReleaseGranted(old(View()), now)
    {
      Expire(now);
      var kept := [];
      released := [];
      var i := 0;
      while i < |pending|
        invariant i <= |pending|
        invariant kept == Retain(pending[..i], A.NotCoveredBy(grants))
        invariant released == Retain(pending[..i], A.CoveredBy(grants))
      {
        var r := pending[i];
        assert pending[..i + 1][..i] == pending[..i];
        if A.Covered(grants, r.epoch, r.blob, r.peer, r.scope) {
          released := released + [r];
        } else {
          kept := kept + [r];
        }
        i := i + 1;
      }
      assert pending[..i] == pending;
      pending := kept;
    }

    method Disconnect(id: nat)
      modifies this`pending
      ensures View() == A.Disconnect(old(View()), id)
    {
      pending := Retain(pending, A.NotId(id));
    }

    method InvalidateAll()
      modifies this`pending, this`grants
      ensures View() == A.InvalidateAll(old(View()))
    {
      pending, grants := [], [];
    }

    method RevokeGrant(id: nat)
      modifies this`grants
      ensures View() == A.RevokeGrant(old(View()), id)
    {
      grants := Retain(grants, A.NotGrant(id));
    }

    method RevokeAllGrants()
      modifies this`grants
      ensures View() == A.RevokeAllGrants(old(View()))
    {
      grants := [];
    }

    method ReserveRequestId() returns (r: Result<nat, A.ApprovalError>)
      modifies this`nextId
      ensures (View(), r) == A.ReserveRequestId(old(View()))
    {
      var id := nextId;
      if nextId >= U64_MAX {
        return Err(A.IdExhausted);
      }
      nextId := nextId + 1;
      return Ok(id);
    }
  }
}

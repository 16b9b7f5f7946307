/** Vault state, epochs and key ownership of the SSH agent (state.rs, keystore.rs). */
module KeyStores {
  import opened Common
  import Utf8

  const MAX_KEYS: nat := 128
  const MAX_PEM_BYTES: nat := 64 * 1024
  const MAX_METADATA_BYTES: nat := 256
  const MAX_FILTERED_BYTES: nat := 8 * 1024 * 1024

  datatype VaultState = LoggedOut | Loading | Unlocked | LockedCached | LockedEmpty

  /** The two fields of the state tracker as one value. */
  datatype Tracked = Tracked(epoch: nat, state: VaultState)

  /** The calls that move the tracker. */
  datatype Move =
    | BeginLoad(epoch: nat)
    | Publish(epoch: nat)
    | Lock(epoch: nat, hasPublicCache: bool)
    | Logout(epoch: nat)

  /** Whether the tracker accepts a move. A lock or a logout is never refused. */
  predicate Accepts(t: Tracked, m: Move) {
    match m
    case BeginLoad(e) => t.epoch < e
    case Publish(e) => t.epoch == e && t.state == Loading
    case Lock(_, _) => true
    case Logout(_) => true
  }

  function Moved(t: Tracked, m: Move): Tracked {
    if !Accepts(t, m) then t else
    match m
    case BeginLoad(e) => Tracked(e, Loading)
    case Publish(e) => Tracked(t.epoch, Unlocked)
    case Lock(e, cached) => Tracked(Max(t.epoch, e), if cached then LockedCached else LockedEmpty)
    case Logout(e) => Tracked(Max(t.epoch, e), LoggedOut)
  }

  const FRESH := Tracked(0, LoggedOut)

  /** The tracker after a run of moves. */
  function Tracking(moves: seq<Move>): Tracked {
    if moves == [] then FRESH else Moved(Tracking(moves[..|moves| - 1]), moves[|moves| - 1])
  }

  ghost predicate AcceptedAt(moves: seq<Move>, i: nat)
    requires i < |moves|
  {
    Accepts(Tracking(moves[..i]), moves[i])
  }

  ghost predicate PublishedAt(moves: seq<Move>, i: nat)
    requires i < |moves|
  {
    moves[i].Publish? && AcceptedAt(moves, i)
  }

  lemma EpochsOnlyGrow(moves: seq<Move>, i: nat)
    requires i <= |moves|
    ensures Tracking(moves[..i]).epoch <= Tracking(moves).epoch
    decreases |moves|
  {
    if i < |moves| {
      var shorter := moves[..|moves| - 1];
      EpochsOnlyGrow(shorter, i);
      assert shorter[..i] == moves[..i];
    } else {
      assert moves[..i] == moves;
    }
  }

  /** What a candidate begun at `b` needs to publish at `p`: the begin was accepted, and nothing
      the tracker accepts came between the two. */
  ghost predicate UndisturbedSince(moves: seq<Move>, b: nat, p: nat)
    requires b < p <= |moves|
  {
    && moves[b].BeginLoad?
    && AcceptedAt(moves, b)
    && forall k :: b < k < p ==> !AcceptedAt(moves, k)
  }

  /** A refused move leaves the tracker alone, so an undisturbed candidate still finds it loading. */
  lemma {:induction false} UndisturbedStillLoading(moves: seq<Move>, b: nat, p: nat)
    requires b < p <= |moves|
    requires UndisturbedSince(moves, b, p)
    ensures Tracking(moves[..p]) == Tracked(moves[b].epoch, Loading)
    decreases p
  {
    assert moves[..p][..p - 1] == moves[..p - 1];
    if p > b + 1 {
      UndisturbedStillLoading(moves, b, p - 1);
      assert !AcceptedAt(moves, p - 1);
    }
  }

  /** The converse: a loading tracker was put there by a begin nothing has disturbed. */
  lemma {:induction false} LoadingComesFromBegin(moves: seq<Move>, p: nat) returns (b: nat)
    requires p <= |moves|
    requires Tracking(moves[..p]).state == Loading
    ensures b < p && UndisturbedSince(moves, b, p)
    ensures moves[b].epoch == Tracking(moves[..p]).epoch
    decreases p
  {
    assert p > 0;
    assert moves[..p][..p - 1] == moves[..p - 1];
    if AcceptedAt(moves, p - 1) {
      b := p - 1;
    } else {
      b := LoadingComesFromBegin(moves, p - 1);
    }
  }

  /** Over every run of moves, a publish is accepted exactly when the candidate it names was begun
      and no lock, logout, newer begin or earlier publish has come since. */
  lemma {:induction false} PublishNeedsUndisturbedCandidate(moves: seq<Move>, p: nat)
    requires p < |moves| && moves[p].Publish?
    ensures AcceptedAt(moves, p) <==>
            exists b :: 0 <= b < p && UndisturbedSince(moves, b, p) && moves[b].epoch == moves[p].epoch
  {
    if AcceptedAt(moves, p) {
      var b := LoadingComesFromBegin(moves, p);
    }
    if b :| 0 <= b < p && UndisturbedSince(moves, b, p) && moves[b].epoch == moves[p].epoch {
      UndisturbedStillLoading(moves, b, p);
    }
  }

  /** Every accepted begin names an epoch above all before it, so accepted publishes strictly rise. */
  lemma {:induction false} PublishEpochsStrictlyIncrease(moves: seq<Move>, i: nat, j: nat)
    requires i < j < |moves|
    requires PublishedAt(moves, i) && PublishedAt(moves, j)
    ensures moves[i].epoch < moves[j].epoch
  {
    var b := LoadingComesFromBegin(moves, j);
    assert AcceptedAt(moves, i);
    assert i <= b;
    var toBegin := moves[..b];
    EpochsOnlyGrow(toBegin, i);
    assert toBegin[..i] == moves[..i];
  }

  /** No signing is allowed after a lock or logout until a publish under a greater epoch. */
  lemma {:induction false} NothingAllowedUntilPublish(moves: seq<Move>, l: nat, n: nat)
    requires l < n <= |moves|
    requires moves[l].Lock? || moves[l].Logout?
    requires Tracking(moves[..n]).state == Unlocked
    ensures exists p :: l < p < n && PublishedAt(moves, p) && moves[p].epoch > Tracking(moves[..l]).epoch
    decreases n
  {
    assert moves[..n][..n - 1] == moves[..n - 1];
    if PublishedAt(moves, n - 1) {
      assert l < n - 1;
      var b := LoadingComesFromBegin(moves, n - 1);
      assert AcceptedAt(moves, l);
      assert l < b;
      EpochsOnlyGrow(moves[..b], l);
      assert moves[..b][..l] == moves[..l];
    } else {
      assert l < n - 1;
      NothingAllowedUntilPublish(moves, l, n - 1);
    }
  }

  // ---- Keys -----------------------------------------------------------------------------------

  datatype KeyKind = Ed25519 | Rsa

  datatype SkipCode =
    | MalformedPrivateKey | InvalidPrivateKey | UnsupportedKeyType | MalformedPublicKey
    | PublicKeyMismatch | FingerprintMismatch | RequiresReprompt | Duplicate

  datatype LoadError =
    | StaleEpoch | FilteredPayloadTooLarge | TooManyKeys | PemTooLarge | MetadataTooLarge | FailedCandidate

  /** The verdict of the key parser on one item: a defect, or the key and its public blob. */
  datatype ParsedKey = Defect(code: SkipCode) | Sound(kind: KeyKind, blob: Bytes, fingerprint: string)

  datatype CandidateItem =
    CandidateItem(itemId: Bytes, name: string, pemLength: nat, reprompt: bool, key: ParsedKey)

  datatype PublicIdentity = PublicIdentity(itemId: Bytes, name: string, fingerprint: string, blob: Bytes)

  datatype PrivateIdentity = PrivateIdentity(kind: KeyKind, publicIndex: nat)

  /** A candidate load, apart from the live store until it is published. */
  datatype Candidate = Candidate(
    epoch: nat, seenItems: nat, failed: bool, public: seq<PublicIdentity>, private: seq<PrivateIdentity>,
    skipped: seq<(Bytes, SkipCode)>)

  datatype Vault = Vault(tracked: Tracked, public: seq<PublicIdentity>, private: seq<PrivateIdentity>)

  const EMPTY_VAULT := Vault(FRESH, [], [])

  function Blobs(public: seq<PublicIdentity>): set<Bytes> {
    set i | 0 <= i < |public| :: public[i].blob
  }

  function Skip(c: Candidate, item: CandidateItem, code: SkipCode): Candidate {
    c.(seenItems := c.seenItems + 1, skipped := c.skipped + [(item.itemId, code)])
  }

  /** Validates and adds one item: a key defect is a skip, a resource limit fails the candidate. */
  function Add(c: Candidate, item: CandidateItem): (Candidate, Result<Option<SkipCode>, LoadError>) {
    if c.seenItems + 1 > MAX_KEYS then
      (c.(seenItems := c.seenItems + 1, failed := true), Err(TooManyKeys))
    else if item.pemLength > MAX_PEM_BYTES then
      (c.(seenItems := c.seenItems + 1, failed := true), Err(PemTooLarge))
    else if |item.itemId| > MAX_METADATA_BYTES then
      (c.(seenItems := c.seenItems + 1, failed := true), Err(MetadataTooLarge))
    else if item.reprompt then
      (Skip(c, item, RequiresReprompt), Ok(Some(RequiresReprompt)))
    else if item.key.Defect? then
      (Skip(c, item, item.key.code), Ok(Some(item.key.code)))
    else if item.key.blob in Blobs(c.public) then
      (Skip(c, item, Duplicate), Ok(Some(Duplicate)))
    else
      (c.(seenItems := c.seenItems + 1,
          public := c.public + [PublicIdentity(item.itemId, Utf8.Fitting(item.name, MAX_METADATA_BYTES),
                                               item.key.fingerprint, item.key.blob)],
          private := c.private + [PrivateIdentity(item.key.kind, |c.public|)]),
       Ok(None))
  }

  /** Adds items until one fails. */
  function AddAll(c: Candidate, items: seq<CandidateItem>): Result<Candidate, LoadError>
    decreases |items|
  {
    if items == [] then Ok(c) else
    var (c', r) := Add(c, items[0]);
    match r
    case Err(e) => Err(e)
    case Ok(_) => AddAll(c', items[1..])
  }

  function StoreBeginLoad(v: Vault, epoch: nat, filteredBytes: nat): (Vault, Result<Candidate, LoadError>) {
    if !Accepts(v.tracked, BeginLoad(epoch)) then
      (v, Err(StaleEpoch))
    else
      var v' := Vault(Moved(v.tracked, BeginLoad(epoch)), v.public, []);
      if filteredBytes > MAX_FILTERED_BYTES then
        (v', Err(FilteredPayloadTooLarge))
      else
        (v', Ok(Candidate(epoch, 0, false, [], [], [])))
  }

  function StorePublish(v: Vault, c: Candidate): (Vault, Result<nat, LoadError>) {
    if c.failed then
      (v, Err(FailedCandidate))
    else if !Accepts(v.tracked, Publish(c.epoch)) then
      (v, Err(StaleEpoch))
    else
      (Vault(Moved(v.tracked, Publish(c.epoch)), c.public, c.private), Ok(|c.private|))
  }

  function StoreLock(v: Vault, epoch: nat): Vault {
    Vault(Moved(v.tracked, Lock(epoch, v.public != [])), v.public, [])
  }

  function StoreLogout(v: Vault, epoch: nat): Vault {
    Vault(Moved(v.tracked, Logout(epoch)), [], [])
  }

  /** The kind of the first private identity whose public blob is `blob`. An index outside the
      public list, which would be a crash, finds nothing; `Sound` stores have none. */
  function FindPrivate(public: seq<PublicIdentity>, private: seq<PrivateIdentity>, blob: Bytes): Option<KeyKind> {
    if private == [] then None
    else if private[0].publicIndex < |public| && public[private[0].publicIndex].blob == blob then Some(private[0].kind)
    else FindPrivate(public, private[1..], blob)
  }

  predicate Allows(v: Vault, epoch: nat) {
    v.tracked.epoch == epoch && v.tracked.state == Unlocked
  }

  predicate Authorizes(v: Vault, blob: Bytes) {
    v.tracked.state == Unlocked && FindPrivate(v.public, v.private, blob).Some?
  }

  /** The flags each signing path takes: none for Ed25519, one of the two SHA-2 hashes for RSA. */
  predicate TakesFlags(kind: KeyKind, flags: nat) {
    match kind
    case Ed25519 => flags == 0
    case Rsa => flags == 2 || flags == 4
  }

  predicate Signs(v: Vault, epoch: nat, blob: Bytes, flags: nat) {
    && Allows(v, epoch)
    && var found := FindPrivate(v.public, v.private, blob);
       found.Some? && TakesFlags(found.value, flags)
  }

  /** Every private identity points at a public one, no blob is listed twice, and the lists are
      bounded. */
  ghost predicate SoundKeys(public: seq<PublicIdentity>, private: seq<PrivateIdentity>) {
    && |public| <= MAX_KEYS
    && (forall i :: 0 <= i < |private| ==> private[i].publicIndex < |public|)
    && (forall i, j :: 0 <= i < j < |public| ==> public[i].blob != public[j].blob)
  }

  ghost predicate SoundVault(v: Vault) {
    && SoundKeys(v.public, v.private)
    && (v.tracked.state != Unlocked ==> v.private == [])
  }

  ghost predicate SoundCandidate(c: Candidate) {
    && |c.public| <= c.seenItems
    && |c.private| == |c.public|
    && (forall i :: 0 <= i < |c.private| ==> c.private[i].publicIndex == i)
    && (!c.failed ==> SoundKeys(c.public, c.private))
  }

  lemma AddKeepsSound(c: Candidate, item: CandidateItem)
    requires SoundCandidate(c) && !c.failed
    ensures SoundCandidate(Add(c, item).0)
    ensures Add(c, item).1.Ok? ==> !Add(c, item).0.failed
  {
  }

  /** Whatever the items, a candidate that comes out whole keeps one private key per public
      identity, in order, with distinct blobs and at most `MAX_KEYS` of them. */
  lemma {:induction false} AddAllKeepsSound(c: Candidate, items: seq<CandidateItem>)
    requires SoundCandidate(c) && !c.failed
    ensures var r := AddAll(c, items);
            r.Ok? ==> SoundCandidate(r.value) && !r.value.failed && r.value.epoch == c.epoch
    decreases |items|
  {
    if items != [] {
      AddKeepsSound(c, items[0]);
      var (c', r) := Add(c, items[0]);
      if r.Ok? {
        AddAllKeepsSound(c', items[1..]);
      }
    }
  }

  /** The item gives a usable key with this blob and does not ask for the password first. */
  predicate Usable(item: CandidateItem, blob: Bytes) {
    !item.reprompt && item.key.Sound? && item.key.blob == blob
  }

  ghost predicate ListedFrom(item: CandidateItem, p: PublicIdentity) {
    && Usable(item, p.blob)
    && p == PublicIdentity(item.itemId, Utf8.Fitting(item.name, MAX_METADATA_BYTES), item.key.fingerprint, p.blob)
  }

  lemma AddHoldsExactly(c: Candidate, item: CandidateItem, blob: Bytes)
    requires Add(c, item).1.Ok?
    ensures blob in Blobs(Add(c, item).0.public) <==> blob in Blobs(c.public) || Usable(item, blob)
    ensures forall p :: p in Add(c, item).0.public ==> p in c.public || ListedFrom(item, p)
  {
    var after := Add(c, item).0.public;
    if blob in Blobs(c.public) {
      var i :| 0 <= i < |c.public| && c.public[i].blob == blob;
      assert after[i].blob == blob;
    }
    if Usable(item, blob) && blob !in Blobs(c.public) {
      assert after[|c.public|].blob == blob;
    }
  }

  /** A whole candidate holds exactly the blobs of its usable items, each listed as one of them says. */
  lemma {:induction false} LoadHoldsExactly(c: Candidate, items: seq<CandidateItem>, blob: Bytes)
    requires AddAll(c, items).Ok?
    ensures blob in Blobs(AddAll(c, items).value.public) <==>
            blob in Blobs(c.public) || exists i :: 0 <= i < |items| && Usable(items[i], blob)
    ensures forall p :: p in AddAll(c, items).value.public ==>
              p in c.public || exists i :: 0 <= i < |items| && ListedFrom(items[i], p)
    decreases |items|
  {
    if items != [] {
      var next := Add(c, items[0]).0;
      AddHoldsExactly(c, items[0], blob);
      LoadHoldsExactly(next, items[1..], blob);
      hide Add, Usable, ListedFrom, Blobs;
      if i :| 0 <= i < |items| && Usable(items[i], blob) {
        assert i > 0 ==> Usable(items[1..][i - 1], blob);
      }
      if i :| 0 <= i < |items[1..]| && Usable(items[1..][i], blob) {
        assert Usable(items[i + 1], blob);
      }
      forall p | p in AddAll(c, items).value.public
        ensures p in c.public || exists i :: 0 <= i < |items| && ListedFrom(items[i], p)
      {
        if p !in next.public {
          var i :| 0 <= i < |items[1..]| && ListedFrom(items[1..][i], p);
          assert ListedFrom(items[i + 1], p);
        }
      }
    }
  }

  /** Authorization finds exactly the blobs that have a private key. */
  lemma {:induction false} FindPrivateIff(public: seq<PublicIdentity>, private: seq<PrivateIdentity>, blob: Bytes)
    ensures FindPrivate(public, private, blob).Some? <==>
            exists i :: && 0 <= i < |private| && private[i].publicIndex < |public|
                        && public[private[i].publicIndex].blob == blob
    decreases |private|
  {
    if private != [] {
      FindPrivateIff(public, private[1..], blob);
      if i :| 0 <= i < |private| && private[i].publicIndex < |public| && public[private[i].publicIndex].blob == blob {
        if i > 0 {
          assert private[1..][i - 1] == private[i];
        }
      }
      if i :| 0 <= i < |private[1..]| && private[1..][i].publicIndex < |public|
              && public[private[1..][i].publicIndex].blob == blob {
        assert private[i + 1] == private[1..][i];
      }
    }
  }

  /** The blobs a store can sign for. */
  function SigningBlobs(v: Vault): set<Bytes> {
    set blob | blob in Blobs(v.public) && FindPrivate(v.public, v.private, blob).Some?
  }

  lemma AuthorizedIsListed(v: Vault, blob: Bytes)
    requires FindPrivate(v.public, v.private, blob).Some?
    ensures blob in Blobs(v.public) && blob in SigningBlobs(v)
  {
    FindPrivateIff(v.public, v.private, blob);
  }

  /** A whole load: begin, add every item, publish. A failure leaves the store as the failing step did. */
  function StoreLoad(v: Vault, epoch: nat, filteredBytes: nat,
                     items: seq<CandidateItem>): (Vault, Result<nat, LoadError>) {
    var (v1, begun) := StoreBeginLoad(v, epoch, filteredBytes);
    match begun
    case Err(e) => (v1, Err(e))
    case Ok(empty) =>
      match AddAll(empty, items)
      case Err(e) => (v1, Err(e))
      case Ok(full) => StorePublish(v1, full)
  }

  /** Loading keeps the store sound; it succeeds only under a greater epoch, and then signing is
      open for exactly the blobs it lists. */
  lemma LoadKeepsSound(v: Vault, epoch: nat, filteredBytes: nat, items: seq<CandidateItem>)
    requires SoundVault(v)
    ensures var (v', r) := StoreLoad(v, epoch, filteredBytes, items);
            && SoundVault(v')
            && v.tracked.epoch <= v'.tracked.epoch
            && (r.Ok? ==> && v'.tracked == Tracked(epoch, Unlocked) && epoch > v.tracked.epoch
                          && SigningBlobs(v') == Blobs(v'.public) && r.value == |v'.public|)
            && (r.Err? ==> v'.tracked.state != Unlocked || v' == v)
  {
    var (v1, begun) := StoreBeginLoad(v, epoch, filteredBytes);
    if begun.Ok? {
      AddAllKeepsSound(begun.value, items);
      var added := AddAll(begun.value, items);
      if added.Ok? {
        var (v', r) := StorePublish(v1, added.value);
        forall blob | blob in Blobs(v'.public)
          ensures FindPrivate(v'.public, v'.private, blob).Some?
        {
          FindPrivateIff(v'.public, v'.private, blob);
          var i :| 0 <= i < |v'.public| && v'.public[i].blob == blob;
          assert v'.private[i].publicIndex == i;
        }
      }
    }
  }

  predicate WithinLimits(item: CandidateItem) {
    item.pemLength <= MAX_PEM_BYTES && |item.itemId| <= MAX_METADATA_BYTES
  }

  /** A candidate comes out whole exactly when there are not too many items and none is too large. */
  lemma {:induction false} AddAllIff(c: Candidate, items: seq<CandidateItem>)
    ensures AddAll(c, items).Ok? <==>
            && (items == [] || c.seenItems + |items| <= MAX_KEYS)
            && forall i :: 0 <= i < |items| ==> WithinLimits(items[i])
    decreases |items|
  {
    if items != [] {
      var (c', r) := Add(c, items[0]);
      assert r.Ok? <==> c.seenItems + 1 <= MAX_KEYS && WithinLimits(items[0]);
      assert c'.seenItems == c.seenItems + 1;
      AddAllIff(c', items[1..]);
      hide Add, WithinLimits;
      if r.Ok? && forall i :: 0 <= i < |items[1..]| ==> WithinLimits(items[1..][i]) {
        forall i | 0 <= i < |items|
          ensures WithinLimits(items[i])
        {
          assert i > 0 ==> items[i] == items[1..][i - 1];
        }
      }
      if forall i :: 0 <= i < |items| ==> WithinLimits(items[i]) {
        assert forall i :: 0 <= i < |items[1..]| ==> items[1..][i] == items[i + 1];
      }
    }
  }

  /** A load publishes exactly under a newer epoch, with a payload and items within the limits; then signing is
      open for exactly the usable keys. Otherwise the public keys stay as they were, and no private key is left
      unless the load did not begin. */
  lemma LoadIff(v: Vault, epoch: nat, size: nat, items: seq<CandidateItem>)
    requires SoundVault(v)
    ensures var (v', r) := StoreLoad(v, epoch, size, items);
            && (r.Ok? <==> && v.tracked.epoch < epoch && size <= MAX_FILTERED_BYTES && |items| <= MAX_KEYS
                           && forall i :: 0 <= i < |items| ==> WithinLimits(items[i]))
            && (r.Ok? ==> && v'.tracked == Tracked(epoch, Unlocked) && SigningBlobs(v') == Blobs(v'.public)
                          && forall blob :: blob in Blobs(v'.public) <==>
                               exists i :: 0 <= i < |items| && Usable(items[i], blob))
            && (r.Err? ==> v'.public == v.public && (if v.tracked.epoch < epoch then v'.private == [] else v' == v))
  {
    LoadKeepsSound(v, epoch, size, items);
    var empty := Candidate(epoch, 0, false, [], [], []);
    AddAllIff(empty, items);
    AddAllKeepsSound(empty, items);
    if AddAll(empty, items).Ok? {
      forall blob
        ensures blob in Blobs(AddAll(empty, items).value.public) <==>
                exists i :: 0 <= i < |items| && Usable(items[i], blob)
      {
        LoadHoldsExactly(empty, items, blob);
      }
    }
    hide AddAll, WithinLimits, Usable, Blobs, SigningBlobs, SoundVault, SoundCandidate;
  }
}

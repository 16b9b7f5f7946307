/** What becomes of each item of a load (keystore.rs): the key it signs with, or the reason it was skipped. */
module KeyCandidates {
  import opened Common
  import opened KeyStores
  import Utf8

  /** The first item with this key. */
  ghost predicate FirstUsable(items: seq<CandidateItem>, i: int, blob: Bytes) {
    0 <= i < |items| && Usable(items[i], blob) && forall j :: 0 <= j < i ==> !Usable(items[j], blob)
  }

  /** Why an item is not listed: it asks for the password first, its key is defective, or an earlier item has it. */
  ghost predicate SkippedFor(items: seq<CandidateItem>, i: nat, code: SkipCode)
    requires i < |items|
  {
    if items[i].reprompt then code == RequiresReprompt
    else if items[i].key.Defect? then code == items[i].key.code
    else code == Duplicate && exists j :: 0 <= j < i && Usable(items[j], items[i].key.blob)
  }

  /** `at` gives the items skipped, in order: all but those that are the first with their key. */
  ghost predicate Accounts(items: seq<CandidateItem>, c: Candidate, at: seq<nat>) {
    && |at| == |c.skipped| && |c.public| + |c.skipped| == |items|
    && (forall k :: 0 <= k < |at| ==>
          && at[k] < |items| && c.skipped[k].0 == items[at[k]].itemId && SkippedFor(items, at[k], c.skipped[k].1))
    && (forall k, l :: 0 <= k < l < |at| ==> at[k] < at[l])
  }

  function Empty(epoch: nat): Candidate {
    Candidate(epoch, 0, false, [], [], [])
  }

  lemma {:induction false} AddAllLast(c: Candidate, items: seq<CandidateItem>, item: CandidateItem)
    ensures AddAll(c, items + [item]) == match AddAll(c, items)
                                         case Err(e) => Err(e)
                                         case Ok(full) => if Add(full, item).1.Ok? then Ok(Add(full, item).0)
                                                          else Err(Add(full, item).1.error)
    decreases |items|
  {
    hide Add;
    if items == [] {
      assert [item][1..] == [];
      assert AddAll(c, [item]) == match Add(c, item).1 case Err(e) => Err(e) case Ok(_) => AddAll(Add(c, item).0, []);
      assert items + [item] == [item];
    } else {
      assert (items + [item])[1..] == items[1..] + [item];
      if Add(c, items[0]).1.Ok? {
        AddAllLast(Add(c, items[0]).0, items[1..], item);
      }
    }
  }

  lemma {:induction false} FindAppended(public: seq<PublicIdentity>, private: seq<PrivateIdentity>, p: PublicIdentity,
                                        q: PrivateIdentity, blob: Bytes)
    requires q.publicIndex == |public| && forall i :: 0 <= i < |private| ==> private[i].publicIndex < |public|
    ensures FindPrivate(public + [p], private + [q], blob) ==
            if FindPrivate(public, private, blob).Some? then FindPrivate(public, private, blob)
            else if p.blob == blob then Some(q.kind) else None
    decreases |private|
  {
    if private == [] {
      assert private + [q] == [q] && [q][1..] == [];
      assert FindPrivate(public + [p], [], blob) == None;
    } else {
      assert (private + [q])[1..] == private[1..] + [q];
      FindAppended(public, private[1..], p, q, blob);
    }
  }

  /** The key found for a blob is that of the first item with it. */
  ghost predicate Finds(items: seq<CandidateItem>, c: Candidate, blob: Bytes) {
    var found := FindPrivate(c.public, c.private, blob);
    && (forall i :: FirstUsable(items, i, blob) ==> found == Some(items[i].key.kind))
    && ((forall i :: 0 <= i < |items| ==> !Usable(items[i], blob)) ==> found == None)
  }

  lemma AddFinds(items: seq<CandidateItem>, c: Candidate, item: CandidateItem, blob: Bytes)
    requires SoundCandidate(c) && !c.failed && Add(c, item).1.Ok? && Finds(items, c, blob)
    requires blob in Blobs(c.public) <==> exists i :: 0 <= i < |items| && Usable(items[i], blob)
    ensures Finds(items + [item], Add(c, item).0, blob)
  {
    var after := items + [item];
    assert forall i :: 0 <= i < |items| ==> after[i] == items[i];
    assert after[|items|] == item;
    if exists i :: 0 <= i < |items| && Usable(items[i], blob) {
      FirstExists(items, blob);
      var i :| FirstUsable(items, i, blob);
      assert FirstUsable(after, i, blob);
    }
    if Add(c, item).1.value.None? {
      FindAppended(c.public, c.private,
                   PublicIdentity(item.itemId, Utf8Name(item), item.key.fingerprint, item.key.blob),
                   PrivateIdentity(item.key.kind, |c.public|), blob);
    }
    hide SoundCandidate, FindPrivate;
  }

  function Utf8Name(item: CandidateItem): string {
    Utf8.Fitting(item.name, MAX_METADATA_BYTES)
  }

  lemma {:induction false} FirstExists(items: seq<CandidateItem>, blob: Bytes)
    requires exists i :: 0 <= i < |items| && Usable(items[i], blob)
    ensures exists i :: FirstUsable(items, i, blob)
    decreases |items|
  {
    hide Usable;
    var n := |items| - 1;
    if exists i :: 0 <= i < n && Usable(items[i], blob) {
      var i :| 0 <= i < n && Usable(items[i], blob);
      assert Usable(items[..n][i], blob);
      FirstExists(items[..n], blob);
      var k :| FirstUsable(items[..n], k, blob);
      assert forall j :: 0 <= j <= k ==> items[..n][j] == items[j];
      assert FirstUsable(items, k, blob);
    } else {
      assert FirstUsable(items, n, blob);
    }
  }

  lemma {:induction false} AllFound(epoch: nat, items: seq<CandidateItem>, blob: Bytes)
    requires AddAll(Empty(epoch), items).Ok?
    ensures Finds(items, AddAll(Empty(epoch), items).value, blob)
    decreases |items|
  {
    if items != [] {
      var before, last := items[..|items| - 1], items[|items| - 1];
      assert items == before + [last];
      AddAllLast(Empty(epoch), before, last);
      AllFound(epoch, before, blob);
      AddAllKeepsSound(Empty(epoch), before);
      LoadHoldsExactly(Empty(epoch), before, blob);
      assert Blobs(Empty(epoch).public) == {};
      hide AddAll, Add, Finds, SoundCandidate, Usable, Blobs;
      AddFinds(before, AddAll(Empty(epoch), before).value, last, blob);
    }
  }

  /** Signing after a load: a blob is signed for exactly by the key of the first item that has it, with no flags for
      an Ed25519 key and one of the two hash flags for an RSA key. */
  lemma LoadSigns(v: Vault, epoch: nat, size: nat, items: seq<CandidateItem>, blob: Bytes, flags: nat)
    requires StoreLoad(v, epoch, size, items).1.Ok?
    ensures Signs(StoreLoad(v, epoch, size, items).0, epoch, blob, flags) <==>
            exists i :: FirstUsable(items, i, blob) &&
                        if items[i].key.kind.Ed25519? then flags == 0 else flags == 2 || flags == 4
  {
    AllFound(epoch, items, blob);
    var v' := StoreLoad(v, epoch, size, items).0;
    var full := AddAll(Empty(epoch), items).value;
    assert v'.public == full.public && v'.private == full.private;
    if exists i :: 0 <= i < |items| && Usable(items[i], blob) {
      hide Usable;
      FirstExists(items, blob);
    }
    hide AddAll, FindPrivate;
  }

  lemma AddAccounts(items: seq<CandidateItem>, c: Candidate, item: CandidateItem, at: seq<nat>)
    requires Add(c, item).1.Ok? && Accounts(items, c, at)
    requires forall blob :: blob in Blobs(c.public) <==> exists i :: 0 <= i < |items| && Usable(items[i], blob)
    ensures var c' := Add(c, item).0;
            if |c'.skipped| == |c.skipped| then Accounts(items + [item], c', at)
            else Accounts(items + [item], c', at + [|items|])
  {
    var after := items + [item];
    assert forall i :: 0 <= i < |items| ==> after[i] == items[i];
    assert after[|items|] == item;
    forall i, code | 0 <= i < |items| && SkippedFor(items, i, code)
      ensures SkippedFor(after, i, code)
    {
    }
    hide Blobs, Usable;
    var c' := Add(c, item).0;
    if |c'.skipped| != |c.skipped| {
      SkipIs(items, c, item);
    }
  }

  lemma SkipIs(items: seq<CandidateItem>, c: Candidate, item: CandidateItem)
    requires Add(c, item).1.Ok? && Add(c, item).1.value.Some?
    requires forall blob :: blob in Blobs(c.public) <==> exists i :: 0 <= i < |items| && Usable(items[i], blob)
    ensures SkippedFor(items + [item], |items|, Add(c, item).1.value.value)
    ensures Add(c, item).0.skipped == c.skipped + [(item.itemId, Add(c, item).1.value.value)]
  {
    var after := items + [item];
    assert forall i :: 0 <= i < |items| ==> after[i] == items[i];
    hide Blobs, Usable;
  }

  /** Every item of a whole load is listed, or skipped for its own reason and reported in order; none is both. */
  lemma {:induction false} EveryItemAccounted(epoch: nat, items: seq<CandidateItem>) returns (at: seq<nat>)
    requires AddAll(Empty(epoch), items).Ok?
    ensures Accounts(items, AddAll(Empty(epoch), items).value, at)
    decreases |items|
  {
    at := [];
    if items != [] {
      var before, last := items[..|items| - 1], items[|items| - 1];
      assert items == before + [last];
      AddAllLast(Empty(epoch), before, last);
      at := EveryItemAccounted(epoch, before);
      var c := AddAll(Empty(epoch), before).value;
      assert Blobs(Empty(epoch).public) == {};
      forall blob
        ensures blob in Blobs(c.public) <==> exists i :: 0 <= i < |before| && Usable(before[i], blob)
      {
        LoadHoldsExactly(Empty(epoch), before, blob);
      }
      hide AddAll, Add, Accounts, Usable, Blobs;
      AddAccounts(before, c, last, at);
      at := if |Add(c, last).0.skipped| == |c.skipped| then at else at + [|before|];
    }
  }
}

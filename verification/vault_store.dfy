/** The store of the unlocked vault (store.rs): an item vector with an index by id, against a plain
    ordered map. */
module VaultStore {
  import opened Common
  import opened VaultSearch
  import opened VaultStrip

  const GENERATIONS: nat := U64_MAX + 1

  // ---- The ordered map --------------------------------------------------------------------------

  /** Items by id, in the order they were first held. */
  datatype Ordered = Ordered(order: seq<string>, entries: map<string, Held>)

  const NO_ITEMS: Ordered := Ordered([], map[])

  function Insert(m: Ordered, h: Held): Ordered {
    Ordered(if h.id in m.entries then m.order else m.order + [h.id], m.entries[h.id := h])
  }

  function Other(id: string): string -> bool {
    (other: string) => other != id
  }

  function Delete(m: Ordered, id: string): Ordered {
    Ordered(Retain(m.order, Other(id)), m.entries - {id})
  }

  function InsertItem(lower: Lowering, m: Ordered, item: Value): Ordered {
    if item.Obj? && "id" in item.fields && item.fields["id"].Str? then
      Insert(m, HeldOf(lower, item.fields["id"].s, item.fields))
    else
      m
  }

  function InsertAll(lower: Lowering, m: Ordered, items: seq<Value>): Ordered {
    if items == [] then m else InsertItem(lower, InsertAll(lower, m, items[..|items| - 1]), items[|items| - 1])
  }

  predicate MatchIn(entries: map<string, Held>, needle: string, id: string) {
    id in entries && Matches(entries[id], needle)
  }

  function Matching(m: Ordered, needle: string): string -> bool {
    (id: string) => MatchIn(m.entries, needle, id)
  }

  /** The ids a query finds, in load order. */
  function Found(lower: Lowering, m: Ordered, query: string): seq<string> {
    var needle := lower(Trim(query));
    if needle == "" then m.order else Retain(m.order, Matching(m, needle))
  }

  /** Everything the store holds. */
  datatype Contents = Contents(session: Option<string>, secrets: map<string, string>, items: Ordered, generation: nat)

  const NOTHING: Contents := Contents(None, map[], NO_ITEMS, 0)

  function Forgotten(c: Contents, keep: set<string>): Contents {
    Contents(None, map name | name in c.secrets && name in keep :: c.secrets[name], NO_ITEMS,
             (c.generation + 1) % GENERATIONS)
  }

  /** A vault read with the secrets of its items taken out. */
  function StrippedVault(vault: Object): Object {
    if "items" in vault && vault["items"].Arr? then
      var a := vault["items"].elements;
      vault["items" := Arr(seq(|a|, i requires 0 <= i < |a| => if a[i].Obj? then Obj(Stripped(a[i].fields)) else a[i]))]
    else
      vault
  }

  /** Everything secret in an item is gone, and everything else is there. */
  ghost predicate IsStrippedItem(item: Object, out: Object) {
    && (forall path :: path in SECRET_PATHS ==> Get(out, path) == None)
    && ("fields" in out && out["fields"].Arr? ==>
          forall i :: 0 <= i < |out["fields"].elements| && Hidden(out["fields"].elements[i]) ==>
            "value" !in out["fields"].elements[i].fields)
    && Get(out, ["card", "number"]) == (match Get(item, ["card", "number"])
                                        case Some(Str(number)) => Some(Str(LastFour(number)))
                                        case other => other)
    && out == Public(item)
  }

  ghost predicate IsStrippedElement(v: Value, out: Value) {
    if v.Obj? then out.Obj? && IsStrippedItem(v.fields, out.fields) else out == v
  }

  /** A vault read with its items stripped one by one, in their places, and nothing else touched. */
  ghost predicate IsStrippedRead(vault: Object, out: Object) {
    && out.Keys == vault.Keys
    && (forall key :: key in vault && (key != "items" || !vault[key].Arr?) ==> out[key] == vault[key])
    && ("items" in vault && vault["items"].Arr? ==>
          && out["items"].Arr? && |out["items"].elements| == |vault["items"].elements|
          && forall i :: 0 <= i < |vault["items"].elements| ==>
               IsStrippedElement(vault["items"].elements[i], out["items"].elements[i]))
  }

  lemma ItemIsStripped(item: Object)
    ensures IsStrippedItem(item, Stripped(item))
  {
    StrippedIsPublic(item);
    CardNumberLeft(item);
    hide Stripped, Public, Get, LastFour;
    forall path | path in SECRET_PATHS
      ensures Get(Stripped(item), path) == None
    {
      NoSecretIsLeft(item, path);
    }
    var out := Stripped(item);
    forall i | "fields" in out && out["fields"].Arr? && 0 <= i < |out["fields"].elements|
               && Hidden(out["fields"].elements[i])
      ensures "value" !in out["fields"].elements[i].fields
    {
      NoHiddenValueIsLeft(item, i);
    }
  }

  lemma ReadIsStripped(vault: Object)
    ensures IsStrippedRead(vault, StrippedVault(vault))
  {
    hide Stripped, IsStrippedItem;
    if "items" in vault && vault["items"].Arr? {
      forall i | 0 <= i < |vault["items"].elements|
        ensures IsStrippedElement(vault["items"].elements[i], StrippedVault(vault)["items"].elements[i])
      {
        if vault["items"].elements[i].Obj? {
          ItemIsStripped(vault["items"].elements[i].fields);
        }
      }
    }
  }

  /** Two elements of a vault read that differ at most in secrets. */
  ghost predicate ElementsAlike(x: Value, y: Value) {
    x == y || (x.Obj? && y.Obj? && Alike(x.fields, y.fields))
  }

  /** Two vault reads that differ at most in the secrets of their items. */
  ghost predicate ReadsAlike(a: Object, b: Object) {
    && a.Keys == b.Keys
    && (forall key :: key in a && key != "items" ==> a[key] == b[key])
    && ("items" in a ==>
          || a["items"] == b["items"]
          || (a["items"].Arr? && b["items"].Arr? && |a["items"].elements| == |b["items"].elements|
              && forall i :: 0 <= i < |a["items"].elements| ==>
                   ElementsAlike(a["items"].elements[i], b["items"].elements[i])))
  }

  lemma ElementIff(x: Value, y: Value)
    ensures (if x.Obj? then Obj(Stripped(x.fields)) else x) == (if y.Obj? then Obj(Stripped(y.fields)) else y)
            <==> ElementsAlike(x, y)
  {
    hide Stripped, Alike;
    if x.Obj? && y.Obj? {
      StrippingHidesExactlySecrets(x.fields, y.fields);
    }
  }

  /** What is shown of a vault read tells two of them apart exactly when they differ in more than secrets. */
  lemma ReadHidesExactlySecrets(a: Object, b: Object)
    ensures StrippedVault(a) == StrippedVault(b) <==> ReadsAlike(a, b)
  {
    hide Stripped, Alike, ElementsAlike, IsStrippedElement;
    ShownItems(a, b);
    var x, y := StrippedVault(a), StrippedVault(b);
    assert x.Keys == a.Keys && y.Keys == b.Keys;
    assert forall key :: key in a && key != "items" ==> x[key] == a[key];
    assert forall key :: key in b && key != "items" ==> y[key] == b[key];
    hide StrippedVault;
    if ReadsAlike(a, b) {
      assert forall key :: key in x ==> key in y && x[key] == y[key];
      assert x == y;
    }
  }

  lemma ShownItems(a: Object, b: Object)
    ensures "items" in a && "items" in b ==>
              (StrippedVault(a)["items"] == StrippedVault(b)["items"] <==>
               || a["items"] == b["items"]
               || (a["items"].Arr? && b["items"].Arr? && |a["items"].elements| == |b["items"].elements|
                   && forall i :: 0 <= i < |a["items"].elements| ==>
                        ElementsAlike(a["items"].elements[i], b["items"].elements[i])))
  {
    hide Stripped, ElementsAlike;
    if "items" in a && "items" in b && a["items"].Arr? && b["items"].Arr?
       && |a["items"].elements| == |b["items"].elements| {
      var x, y := a["items"].elements, b["items"].elements;
      forall i | 0 <= i < |x|
        ensures StrippedVault(a)["items"].elements[i] == StrippedVault(b)["items"].elements[i] <==>
                ElementsAlike(x[i], y[i])
      {
        ElementIff(x[i], y[i]);
      }
      if forall i :: 0 <= i < |x| ==> ElementsAlike(x[i], y[i]) {
        assert StrippedVault(a)["items"].elements == StrippedVault(b)["items"].elements;
      } else {
        var i :| 0 <= i < |x| && !ElementsAlike(x[i], y[i]);
        assert StrippedVault(a)["items"].elements[i] != StrippedVault(b)["items"].elements[i];
        assert x[i] != y[i] by {
          ElementIff(x[i], y[i]);
        }
      }
    }
  }

  function ListAt(vault: Object, key: string): seq<Value> {
    if key in vault && vault[key].Arr? then vault[key].elements else []
  }

  function Loaded(lower: Lowering, c: Contents, vault: Object, replace: bool): Contents {
    var start := if replace then NO_ITEMS else c.items;
    c.(items := InsertAll(lower, InsertAll(lower, start, ListAt(vault, "items")), ListAt(vault, "sshKeys")))
  }

  // ---- What a load leaves -----------------------------------------------------------------------

  function IdOf(item: Value): Option<string> {
    if item.Obj? && "id" in item.fields && item.fields["id"].Str? then Some(item.fields["id"].s) else None
  }

  /** The last item of a list with that id. */
  function LastOf(items: seq<Value>, id: string): Option<Object> {
    if items == [] then None
    else if IdOf(items[|items| - 1]) == Some(id) then Some(items[|items| - 1].fields)
    else LastOf(items[..|items| - 1], id)
  }

  lemma {:induction false} InsertedAt(lower: Lowering, m: Ordered, items: seq<Value>, id: string)
    ensures var after := InsertAll(lower, m, items);
            if LastOf(items, id).Some? then
              id in after.entries && after.entries[id] == HeldOf(lower, id, LastOf(items, id).value)
            else (id in after.entries <==> id in m.entries) && (id in m.entries ==> after.entries[id] == m.entries[id])
    decreases |items|
  {
    hide HeldOf;
    if items != [] {
      InsertedAt(lower, m, items[..|items| - 1], id);
    }
  }

  /** The order names exactly the entries, each once. */
  ghost predicate InStep(m: Ordered) {
    Distinct(m.order) && forall id :: id in m.order <==> id in m.entries
  }

  lemma {:induction false} InsertedInOrder(lower: Lowering, m: Ordered, items: seq<Value>)
    requires InStep(m)
    ensures InStep(InsertAll(lower, m, items)) && m.order <= InsertAll(lower, m, items).order
    decreases |items|
  {
    hide HeldOf;
    if items != [] {
      InsertedInOrder(lower, m, items[..|items| - 1]);
    }
  }

  /** After a vault read each item of it is held in full, the last one where an id comes twice and SSH keys
      after the items; when it replaces, nothing else is held, and otherwise everything else as before, at its
      place in the order. */
  lemma LoadHolds(lower: Lowering, c: Contents, vault: Object, replace: bool, id: string)
    requires InStep(c.items)
    ensures var after := Loaded(lower, c, vault, replace);
            var key, item := LastOf(ListAt(vault, "sshKeys"), id), LastOf(ListAt(vault, "items"), id);
            && after.session == c.session && after.secrets == c.secrets && after.generation == c.generation
            && InStep(after.items) && (!replace ==> c.items.order <= after.items.order)
            && (id in after.items.entries <==> key.Some? || item.Some? || (!replace && id in c.items.entries))
            && (id in after.items.entries ==>
                  after.items.entries[id] == if key.Some? then HeldOf(lower, id, key.value)
                                             else if item.Some? then HeldOf(lower, id, item.value)
                                             else c.items.entries[id])
  {
    hide HeldOf, InsertAll;
    var start := if replace then NO_ITEMS else c.items;
    var first := InsertAll(lower, start, ListAt(vault, "items"));
    InsertedAt(lower, start, ListAt(vault, "items"), id);
    InsertedAt(lower, first, ListAt(vault, "sshKeys"), id);
    InsertedInOrder(lower, start, ListAt(vault, "items"));
    InsertedInOrder(lower, first, ListAt(vault, "sshKeys"));
  }

  /** Forgetting an item takes out that one, and leaves the others as and where they were. */
  lemma DeleteLeaves(m: Ordered, id: string, other: string)
    requires InStep(m)
    ensures var after := Delete(m, id);
            && InStep(after) && Subsequence(after.order, m.order)
            && (other in after.entries <==> other in m.entries && other != id)
            && (other in after.entries ==> after.entries[other] == m.entries[other])
  {
    RetainIsFilter(m.order, Other(id));
    RetainInOrder(m.order, Other(id));
    RetainDistinct(m.order, Other(id));
  }

  /** What a query with a needle finds: the items that the panel's own search would, in load order. */
  lemma FoundExactly(lower: Lowering, m: Ordered, query: string, id: string)
    requires InStep(m) && Lowers(lower) && lower(Trim(query)) != "" && NUL !in lower(Trim(query))
    requires forall i :: i in m.entries ==> m.entries[i] == HeldOf(lower, i, m.entries[i].full)
    ensures id in Found(lower, m, query) <==>
            id in m.entries && MatchesQuery(lower, m.entries[id].full, lower(Trim(query)))
  {
    var needle := lower(Trim(query));
    RetainIsFilter(m.order, Matching(m, needle));
    hide Lowers, Matches, HeldOf, FieldMatches, MatchesQuery, Trim;
    if id in m.entries {
      WithoutNul(lower, id, m.entries[id].full, needle);
      FieldsAreSearched(lower, m.entries[id].full, needle);
    }
  }

  lemma FoundInOrder(lower: Lowering, m: Ordered, query: string)
    requires InStep(m)
    ensures Distinct(Found(lower, m, query)) && Subsequence(Found(lower, m, query), m.order)
    ensures lower(Trim(query)) == "" ==> Found(lower, m, query) == m.order
  {
    var needle := lower(Trim(query));
    RetainInOrder(m.order, Matching(m, needle));
    RetainDistinct(m.order, Matching(m, needle));
    SubsequenceOfItself(m.order);
  }

  lemma {:induction false} SubsequenceOfItself(s: seq<string>)
    ensures Subsequence(s, s)
    decreases |s|
  {
    if s != [] {
      SubsequenceOfItself(s[..|s| - 1]);
    }
  }

  class Store {
    const lower: Lowering
    var session: Option<string>
    var secrets: map<string, string>
    var items: seq<Held>
    var index: map<string, nat>
    var generation: nat

    /** The index gives exactly each item's position, and each item its own search text. */
    ghost predicate Valid()
      reads this
    {
      Indexed(items, index) && Faithful(lower, items)
    }

    ghost function Items(): Ordered
      reads this
      requires Valid()
    {
      AsOrdered(items, index)
    }

    ghost function View(): Contents
      reads this
      requires Valid()
    {
      Contents(session, secrets, Items(), generation)
    }

    constructor (lower: Lowering)
      ensures Valid() && View() == NOTHING && this.lower == lower
    {
      this.lower := lower;
      session, secrets, items, index, generation := None, map[], [], map[], 0;
    }

    method SetSession(key: string)
      requires Valid()
      modifies this`session
      ensures Valid() && View() == old(View()).(session := Some(key))
    {
      session := Some(key);
    }

    method SetSecret(name: string, value: string)
      requires Valid()
      modifies this`secrets
      ensures Valid() && View() == old(View()).(secrets := old(secrets)[name := value])
    {
      secrets := secrets[name := value];
    }

    method ForgetSecret(name: string)
      requires Valid()
      modifies this`secrets
      ensures Valid() && View() == old(View()).(secrets := old(secrets) - {name})
    {
      secrets := secrets - {name};
    }

    method Forget(keep: set<string>)
      requires Valid()
      modifies this
      ensures Valid() && View() == Forgotten(old(View()), keep)
    {
      generation := (generation + 1) % GENERATIONS;
      session := None;
      secrets := map name | name in secrets && name in keep :: secrets[name];
      items := [];
      index := map[];
    }

    method HoldSession(name: string) returns (held: bool)
      requires Valid()
      modifies this`secrets
      ensures Valid() && held == session.Some?
      ensures View() == if held then old(View()).(secrets := old(secrets)[name := session.value]) else old(View())
    {
      if session.None? {
        return false;
      }
      secrets := secrets[name := session.value];
      return true;
    }

    method Item(id: string) returns (full: Option<Object>)
      requires Valid()
      ensures full == if id in Items().entries then Some(Items().entries[id].full) else None
    {
      if id !in index {
        return None;
      }
      return Some(items[index[id]].full);
    }

    method Hold(id: string, full: Object)
      requires Valid()
      modifies this`items, this`index
      ensures Valid() && Items() == Insert(old(Items()), HeldOf(lower, id, full))
    {
      hide Haystack, Digits;
      var held := HeldOf(lower, id, full);
      if held.id in index {
        Replaced(items, index, held);
        items := items[index[held.id] := held];
      } else {
        Appended(items, index, held);
        index := index[held.id := |items|];
        items := items + [held];
      }
    }

    /** Closes the gap in the vector and moves every later index down by one. */
    method ForgetItem(id: string)
      requires Valid()
      modifies this`items, this`index
      ensures Valid() && Items() == Delete(old(Items()), id)
    {
      hide Faithful, Delete, AsOrdered;
      if id !in index {
        Absent(items, index, id);
        return;
      }
      StaysFaithful(lower, items, index[id]);
      var at := index[id];
      ghost var was, indexWas := items, index;
      index := index - {id};
      items := items[..at] + items[at + 1..];
      StillApart(was, indexWas, at);
      var position := at;
      while position < |items|
        invariant at <= position <= |items|
        invariant index.Keys == indexWas.Keys - {id}
        invariant forall i :: 0 <= i < |items| ==>
                    items[i].id in index && index[items[i].id] == if i < position then i else i + 1
        modifies this`index
      {
        index := index[items[position].id := position];
        position := position + 1;
      }
      Shifted(was, indexWas, at, items, index);
    }

    /** The ids whose text contains the query, or whose card ends with its digits. */
    method Search(query: string) returns (ids: seq<string>)
      requires Valid()
      ensures ids == Found(lower, Items(), query)
      ensures Distinct(ids) && Subsequence(ids, Items().order)
      ensures lower(Trim(query)) == "" ==> ids == Items().order
      ensures Lowers(lower) && lower(Trim(query)) != "" && NUL !in lower(Trim(query)) ==>
                forall id :: id in ids <==>
                  id in Items().entries && MatchesQuery(lower, Items().entries[id].full, lower(Trim(query)))
    {
      Searched(lower, items, index, query);
      hide Trim, Faithful, Lowers, MatchesQuery, Distinct, Subsequence;
      var needle := lower(Trim(query));
      if needle == "" {
        return Ids(items);
      }
      ids := Filter(needle);
    }

    method Filter(needle: string) returns (ids: seq<string>)
      requires Valid()
      ensures ids == Retain(Items().order, Matching(Items(), needle))
    {
      hide Matches, Faithful;
      var all := Ids(items);
      ids := [];
      var i := 0;
      while i < |items|
        invariant i <= |items|
        invariant ids == Retain(all[..i], Matching(Items(), needle))
      {
        assert all[..i + 1][..i] == all[..i];
        assert Items().entries[all[i]] == items[i];
        if Matches(items[i], needle) {
          ids := ids + [items[i].id];
        }
        i := i + 1;
      }
      assert all[..i] == all;
    }

    /** Holds a vault read in full and returns it with the secrets of its items removed. */
    method StripVault(vault: Object, replace: bool) returns (out: Object)
      requires Valid()
      modifies this`items, this`index
      ensures Valid() && View() == Loaded(lower, old(View()), vault, replace)
      ensures out == StrippedVault(vault) && IsStrippedRead(vault, out)
    {
      ReadIsStripped(vault);
      hide IsStrippedRead;
      hide Stripped, InsertItem;
      if replace {
        items, index := [], map[];
      }
      ghost var start := Items();
      assert replace ==> start == NO_ITEMS;
      out := vault;
      var list := ListAt(vault, "items");
      var shown := HoldAndStrip(list);
      if "items" in vault && vault["items"].Arr? {
        out := out["items" := Arr(shown)];
      }
      HoldEach(ListAt(out, "sshKeys"));
      assert ListAt(out, "sshKeys") == ListAt(vault, "sshKeys");
    }

    method HoldAndStrip(list: seq<Value>) returns (shown: seq<Value>)
      requires Valid()
      modifies this`items, this`index
      ensures Valid() && Items() == InsertAll(lower, old(Items()), list)
      ensures shown ==
              seq(|list|, i requires 0 <= i < |list| => if list[i].Obj? then Obj(Stripped(list[i].fields)) else list[i])
    {
      hide Stripped, InsertItem, Indexed, AsOrdered;
      shown := [];
      var i := 0;
      while i < |list|
        invariant Valid() && i <= |list| && |shown| == i
        invariant Items() == InsertAll(lower, old(Items()), list[..i])
        invariant forall k :: 0 <= k < i ==> shown[k] == if list[k].Obj? then Obj(Stripped(list[k].fields)) else list[k]
      {
        assert list[..i + 1][..i] == list[..i];
        HoldItem(list[i]);
        if list[i].Obj? {
          var stripped := StripItem(list[i].fields);
          shown := shown + [Obj(stripped)];
        } else {
          shown := shown + [list[i]];
        }
        i := i + 1;
      }
      assert list[..i] == list;
    }

    method HoldEach(list: seq<Value>)
      requires Valid()
      modifies this`items, this`index
      ensures Valid() && Items() == InsertAll(lower, old(Items()), list)
    {
      hide InsertItem, Indexed, AsOrdered;
      var i := 0;
      while i < |list|
        invariant Valid() && i <= |list|
        invariant Items() == InsertAll(lower, old(Items()), list[..i])
      {
        assert list[..i + 1][..i] == list[..i];
        HoldItem(list[i]);
        i := i + 1;
      }
      assert list[..i] == list;
    }

    method HoldItem(item: Value)
      requires Valid()
      modifies this`items, this`index
      ensures Valid() && Items() == InsertItem(lower, old(Items()), item)
    {
      if item.Obj? && "id" in item.fields && item.fields["id"].Str? {
        Hold(item.fields["id"].s, item.fields);
      }
    }
  }

  /** Each item is held with the search text and the card digits of its own. */
  ghost predicate Faithful(lower: Lowering, items: seq<Held>) {
    forall i :: 0 <= i < |items| ==> items[i] == HeldOf(lower, items[i].id, items[i].full)
  }

  lemma StaysFaithful(lower: Lowering, items: seq<Held>, at: nat)
    requires Faithful(lower, items) && at < |items|
    ensures Faithful(lower, items[..at] + items[at + 1..])
  {
    hide HeldOf;
    var after := items[..at] + items[at + 1..];
    assert forall i :: 0 <= i < |after| ==> after[i] == items[if i < at then i else i + 1];
  }

  /** The index gives exactly each item's position. */
  ghost predicate Indexed(items: seq<Held>, index: map<string, nat>) {
    && (forall i :: 0 <= i < |items| ==> items[i].id in index && index[items[i].id] == i)
    && (forall id :: id in index ==> index[id] < |items| && items[index[id]].id == id)
  }

  ghost function AsOrdered(items: seq<Held>, index: map<string, nat>): Ordered
    requires Indexed(items, index)
  {
    Ordered(Ids(items), map id | id in index :: items[index[id]])
  }

  lemma OrderedInStep(items: seq<Held>, index: map<string, nat>)
    requires Indexed(items, index)
    ensures InStep(AsOrdered(items, index))
  {
    DistinctIds(items, index);
    forall id | id in index
      ensures id in Ids(items)
    {
      assert Ids(items)[index[id]] == id;
    }
  }

  lemma Searched(lower: Lowering, items: seq<Held>, index: map<string, nat>, query: string)
    requires Indexed(items, index) && Faithful(lower, items)
    ensures var m := AsOrdered(items, index);
            var ids := Found(lower, m, query);
            && Distinct(ids) && Subsequence(ids, m.order)
            && (lower(Trim(query)) == "" ==> ids == m.order)
            && (Lowers(lower) && lower(Trim(query)) != "" && NUL !in lower(Trim(query)) ==>
                  forall id :: id in ids <==>
                    id in m.entries && MatchesQuery(lower, m.entries[id].full, lower(Trim(query))))
  {
    var m := AsOrdered(items, index);
    OrderedInStep(items, index);
    FoundInOrder(lower, m, query);
    hide Lowers, HeldOf, MatchesQuery, Trim, Found, Distinct, Subsequence, InStep;
    if Lowers(lower) && lower(Trim(query)) != "" && NUL !in lower(Trim(query)) {
      forall id
        ensures id in Found(lower, m, query) <==>
                id in m.entries && MatchesQuery(lower, m.entries[id].full, lower(Trim(query)))
      {
        FoundExactly(lower, m, query, id);
      }
    }
  }

  lemma Replaced(items: seq<Held>, index: map<string, nat>, held: Held)
    requires Indexed(items, index) && held.id in index
    ensures Indexed(items[index[held.id] := held], index)
    ensures AsOrdered(items[index[held.id] := held], index) == Insert(AsOrdered(items, index), held)
  {
    var after := items[index[held.id] := held];
    assert Ids(after) == Ids(items);
    assert AsOrdered(after, index).entries == AsOrdered(items, index).entries[held.id := held];
  }

  lemma Appended(items: seq<Held>, index: map<string, nat>, held: Held)
    requires Indexed(items, index) && held.id !in index
    ensures Indexed(items + [held], index[held.id := |items|])
    ensures AsOrdered(items + [held], index[held.id := |items|]) == Insert(AsOrdered(items, index), held)
  {
    var after, indexAfter := items + [held], index[held.id := |items|];
    assert Ids(after) == Ids(items) + [held.id];
    assert AsOrdered(after, indexAfter).entries == AsOrdered(items, index).entries[held.id := held];
  }

  lemma Absent(items: seq<Held>, index: map<string, nat>, id: string)
    requires Indexed(items, index) && id !in index
    ensures Delete(AsOrdered(items, index), id) == AsOrdered(items, index)
  {
    assert id !in Ids(items);
    RetainAll(Ids(items), Other(id));
    assert AsOrdered(items, index).entries - {id} == AsOrdered(items, index).entries;
  }

  /** The items left after one is taken out of the vector still have their old positions. */
  lemma StillApart(items: seq<Held>, index: map<string, nat>, at: nat)
    requires Indexed(items, index) && at < |items|
    ensures var after := items[..at] + items[at + 1..];
            forall i :: 0 <= i < |after| ==>
              && after[i].id in index - {items[at].id}
              && index[after[i].id] == (if i < at then i else i + 1)
              && forall j :: 0 <= j < i ==> after[j].id != after[i].id
  {
    var after := items[..at] + items[at + 1..];
    assert forall i :: 0 <= i < |after| ==> after[i] == items[if i < at then i else i + 1];
  }

  lemma ShiftedIndex(items: seq<Held>, index: map<string, nat>, at: nat, after: seq<Held>, indexAfter: map<string, nat>)
    requires Indexed(items, index) && at < |items| && after == items[..at] + items[at + 1..]
    requires indexAfter.Keys == index.Keys - {items[at].id}
    requires forall i :: 0 <= i < |after| ==> after[i].id in indexAfter && indexAfter[after[i].id] == i
    ensures Indexed(after, indexAfter)
    ensures forall other :: other in indexAfter ==> after[indexAfter[other]] == items[index[other]]
  {
    forall other | other in indexAfter
      ensures indexAfter[other] < |after| && after[indexAfter[other]].id == other
      ensures after[indexAfter[other]] == items[index[other]]
    {
      var was := index[other];
      assert items[was].id == other && was != at;
      var now := if was < at then was else was - 1;
      assert after[now] == items[was];
    }
  }

  lemma Shifted(items: seq<Held>, index: map<string, nat>, at: nat, after: seq<Held>, indexAfter: map<string, nat>)
    requires Indexed(items, index) && at < |items| && after == items[..at] + items[at + 1..]
    requires indexAfter.Keys == index.Keys - {items[at].id}
    requires forall i :: 0 <= i < |after| ==> after[i].id in indexAfter && indexAfter[after[i].id] == i
    ensures Indexed(after, indexAfter)
    ensures AsOrdered(after, indexAfter) == Delete(AsOrdered(items, index), items[at].id)
  {
    ShiftedIndex(items, index, at, after, indexAfter);
    ShiftedOrder(items, index, at);
    hide Indexed, Ids, Retain;
    assert AsOrdered(after, indexAfter).entries == AsOrdered(items, index).entries - {items[at].id};
  }

  lemma ShiftedOrder(items: seq<Held>, index: map<string, nat>, at: nat)
    requires Indexed(items, index) && at < |items|
    ensures Ids(items[..at] + items[at + 1..]) == Retain(Ids(items), Other(items[at].id))
  {
    DistinctIds(items, index);
    RemoveAtIsRetain(Ids(items), at, Other(items[at].id));
    assert Ids(items[..at] + items[at + 1..]) == Ids(items)[..at] + Ids(items)[at + 1..];
  }

  lemma DistinctIds(items: seq<Held>, index: map<string, nat>)
    requires Indexed(items, index)
    ensures forall i, j :: 0 <= i < j < |items| ==> Ids(items)[i] != Ids(items)[j]
  {
  }

  function Ids(items: seq<Held>): seq<string> {
    seq(|items|, i requires 0 <= i < |items| => items[i].id)
  }
}

/** Items as JSON and what is left of one when its secrets are taken out (store.rs). */
module VaultStrip {
  import opened Common

  /** A JSON value; a number is an integer or anything else, kept as its text. */
  datatype Value =
    | Null
    | Bool(b: bool)
    | Integer(n: int)
    | Fraction(text: string)
    | Str(s: string)
    | Arr(elements: seq<Value>)
    | Obj(fields: Object)

  type Object = map<string, Value>

  /** A path of object keys from the item root. */
  type Path = seq<string>

  const SECRET_PATHS: seq<Path> := [
    ["login", "password"], ["login", "totp"], ["login", "fido2Credentials"], ["passwordHistory"], ["notes"],
    ["card", "code"], ["identity", "ssn"], ["identity", "passportNumber"], ["identity", "licenseNumber"]]

  /** The flags that say which secrets there were. */
  const FLAGS: seq<(string, Path)> := [
    ("password", ["login", "password"]), ("totp", ["login", "totp"]), ("notes", ["notes"]),
    ("cardCode", ["card", "code"]), ("ssn", ["identity", "ssn"]),
    ("passportNumber", ["identity", "passportNumber"]), ("licenseNumber", ["identity", "licenseNumber"])]

  function Get(item: Object, path: Path): Option<Value>
    decreases |path|
  {
    if path == [] || path[0] !in item then None
    else if |path| == 1 then Some(item[path[0]])
    else if item[path[0]].Obj? then Get(item[path[0]].fields, path[1..])
    else None
  }

  predicate Present(v: Option<Value>) {
    match v
    case None => false
    case Some(Null) => false
    case Some(Str(s)) => s != ""
    case Some(Arr(a)) => a != []
    case _ => true
  }

  function Remove(item: Object, path: Path): Object
    decreases |path|
  {
    if path == [] || path[0] !in item then item
    else if |path| == 1 then item - {path[0]}
    else if item[path[0]].Obj? then item[path[0] := Obj(Remove(item[path[0]].fields, path[1..]))]
    else item
  }

  function LastFour(number: string): string {
    if |number| <= 4 then number else number[|number| - 4..]
  }

  predicate Hidden(field: Value) {
    field.Obj? && "type" in field.fields && field.fields["type"] == Integer(1)
  }

  // ---- The edit in place ------------------------------------------------------------------------

  /** Walks down the parents and takes the last key out. */
  method RemoveAt(item: Object, path: Path) returns (out: Object)
    ensures out == Remove(item, path)
    decreases |path|
  {
    if path == [] || path[0] !in item {
      return item;
    }
    if |path| == 1 {
      return item - {path[0]};
    }
    if item[path[0]].Obj? {
      var inner := RemoveAt(item[path[0]].fields, path[1..]);
      return item[path[0] := Obj(inner)];
    }
    return item;
  }

  function RemoveAll(item: Object, paths: seq<Path>): Object {
    if paths == [] then item else RemoveAll(Remove(item, paths[0]), paths[1..])
  }

  function HeldFlags(item: Object, flags: seq<(string, Path)>): Object {
    if flags == [] then map[]
    else HeldFlags(item, flags[..|flags| - 1])[flags[|flags| - 1].0 := Bool(Present(Get(item, flags[|flags| - 1].1)))]
  }

  function HideValue(field: Value): Value {
    if Hidden(field) then Obj(field.fields - {"value"}) else field
  }

  function TrimNumber(card: Value): Value {
    if card.Obj? && "number" in card.fields && card.fields["number"].Str? then
      Obj(card.fields["number" := Str(LastFour(card.fields["number"].s))])
    else
      card
  }

  function HideEach(v: Value): Value {
    if v.Arr? then Arr(seq(|v.elements|, i requires 0 <= i < |v.elements| => HideValue(v.elements[i]))) else v
  }

  /** Edits the value under a key, if there is one. */
  function EditAt(item: Object, key: string, v: Value -> Value): Object {
    if key in item then item[key := v(item[key])] else item
  }

  /** The last four characters, read off from the back. */
  method KeepLastFour(number: string) returns (kept: string)
    ensures kept == LastFour(number)
  {
    kept := "";
    var i := |number|;
    while i > 0 && |kept| < 4
      invariant 0 <= i <= |number| && |kept| == |number| - i <= 4
      invariant kept == number[i..]
    {
      i := i - 1;
      kept := [number[i]] + kept;
    }
    assert i == 0 ==> number[0..] == number;
  }

  method StripItem(item: Object) returns (out: Object)
    ensures out == Stripped(item)
  {
    hide Get, Present, Remove;
    var held: Object := map[];
    var i := 0;
    while i < |FLAGS|
      invariant i <= |FLAGS|
      invariant held == HeldFlags(item, FLAGS[..i])
    {
      assert FLAGS[..i + 1][..i] == FLAGS[..i];
      held := held[FLAGS[i].0 := Bool(Present(Get(item, FLAGS[i].1)))];
      i := i + 1;
    }
    assert FLAGS[..i] == FLAGS;
    out := item;
    i := 0;
    assert SECRET_PATHS[i..] == SECRET_PATHS;
    while i < |SECRET_PATHS|
      invariant i <= |SECRET_PATHS|
      invariant RemoveAll(out, SECRET_PATHS[i..]) == RemoveAll(item, SECRET_PATHS)
    {
      assert SECRET_PATHS[i..][1..] == SECRET_PATHS[i + 1..];
      out := RemoveAt(out, SECRET_PATHS[i]);
      i := i + 1;
    }
    out := TrimCardInPlace(out);
    out := HideInPlace(out);
    out := out["qsbwHeld" := Obj(held)];
  }

  method TrimCardInPlace(item: Object) returns (out: Object)
    ensures out == EditAt(item, "card", TrimNumber)
  {
    out := item;
    assert "card" in item ==> item["card" := item["card"]] == item;
    if "card" in out && out["card"].Obj? {
      var card := out["card"].fields;
      if "number" in card && card["number"].Str? {
        var keep := KeepLastFour(card["number"].s);
        out := out["card" := Obj(card["number" := Str(keep)])];
      }
    }
  }

  method HideInPlace(item: Object) returns (out: Object)
    ensures out == EditAt(item, "fields", HideEach)
  {
    out := item;
    assert "fields" in item ==> item["fields" := item["fields"]] == item;
    if "fields" in out && out["fields"].Arr? {
      var fields := out["fields"].elements;
      var shown: seq<Value> := [];
      var i := 0;
      while i < |fields|
        invariant i <= |fields| && |shown| == i
        invariant forall k :: 0 <= k < i ==> shown[k] == HideValue(fields[k])
      {
        var field := fields[i];
        if Hidden(field) {
          field := Obj(field.fields - {"value"});
        }
        shown := shown + [field];
        i := i + 1;
      }
      assert shown == seq(|fields|, k requires 0 <= k < |fields| => HideValue(fields[k]));
      out := out["fields" := Arr(shown)];
    }
  }

  function Stripped(item: Object): Object {
    var edited := EditAt(EditAt(RemoveAll(item, SECRET_PATHS), "card", TrimNumber), "fields", HideEach);
    edited["qsbwHeld" := Obj(HeldFlags(item, FLAGS))]
  }

  // ---- What is left, key by key -----------------------------------------------------------------

  const GONE: set<string> := {"passwordHistory", "notes", "qsbwHeld"}

  function Secrets(key: string): set<string> {
    if key == "login" then {"password", "totp", "fido2Credentials"}
    else if key == "card" then {"code"}
    else if key == "identity" then {"ssn", "passportNumber", "licenseNumber"}
    else {}
  }

  function Without(v: Value, keys: set<string>): Value {
    if v.Obj? then Obj(v.fields - keys) else v
  }

  /** What the panel sees under one key. */
  function Shown(key: string, v: Value): Value {
    if key == "login" || key == "identity" then Without(v, Secrets(key))
    else if key == "card" then TrimNumber(Without(v, Secrets(key)))
    else if key == "fields" then HideEach(v)
    else v
  }

  /** An item as the panel sees it. */
  function Public(item: Object): Object {
    (map key | key in item && key !in GONE :: Shown(key, item[key]))["qsbwHeld" := Obj(HeldFlags(item, FLAGS))]
  }

  /** The edits in their order leave exactly this. */
  lemma StrippedIsPublic(item: Object)
    ensures Stripped(item) == Public(item)
  {
    RemovedAll(item);
    hide HeldFlags, RemoveAll, Bare, Edited, Shown;
    forall key | key !in GONE
      ensures key in Edited(item) <==> key in item
      ensures key in item ==> Edited(item)[key] == Shown(key, item[key])
    {
      EditedAt(item, key);
    }
    EditedKeys(item);
    assert Edited(item)["qsbwHeld" := Obj(HeldFlags(item, FLAGS))] == Public(item);
  }

  /** The item after its secret paths, its card number and its hidden fields are seen to. */
  function Edited(item: Object): Object {
    EditAt(EditAt(Bare(item), "card", TrimNumber), "fields", HideEach)
  }

  lemma EditedKeys(item: Object)
    ensures forall key :: key in Edited(item) ==> key in item && key != "passwordHistory" && key != "notes"
    ensures Edited(item) == EditAt(EditAt(Bare(item), "card", TrimNumber), "fields", HideEach)
  {
  }

  lemma EditedAt(item: Object, key: string)
    requires key !in GONE
    ensures key in Edited(item) <==> key in item
    ensures key in item ==> Edited(item)[key] == Shown(key, item[key])
  {
    hide HideEach, TrimNumber, Without, Secrets;
    if key in item && key != "login" && key != "card" && key != "identity" {
      NothingSecret(item[key], key);
    }
  }

  lemma NothingSecret(v: Value, key: string)
    requires key != "login" && key != "card" && key != "identity"
    ensures Without(v, Secrets(key)) == v
  {
    if v.Obj? {
      assert v.fields - {} == v.fields;
    }
  }

  /** The item without its secret paths. */
  function Bare(item: Object): Object {
    map key | key in item && key != "passwordHistory" && key != "notes" :: Without(item[key], Secrets(key))
  }

  function Pared(item: Object, key: string, inner: set<string>): Object {
    if key in item then item[key := Without(item[key], inner)] else item
  }

  lemma RemoveTwoIsPared(item: Object, key: string, inner: string)
    ensures Remove(item, [key, inner]) == Pared(item, key, {inner})
  {
    var path := [key, inner];
    assert path[1..] == [inner];
    if key in item && item[key].Obj? {
      var o := item[key].fields;
      assert Remove(o, [inner]) == o - {inner};
    }
  }

  lemma ParedTwice(item: Object, key: string, a: set<string>, b: set<string>)
    ensures Pared(Pared(item, key, a), key, b) == Pared(item, key, a + b)
  {
    if key in item && item[key].Obj? {
      var o := item[key].fields;
      assert o - a - b == o - (a + b);
    }
  }

  lemma RemovedThree(item: Object, key: string, a: string, b: string, c: string)
    ensures Remove(Remove(Remove(item, [key, a]), [key, b]), [key, c]) == Pared(item, key, {a, b, c})
  {
    hide Remove, Pared;
    RemoveTwoIsPared(item, key, a);
    RemoveTwoIsPared(Pared(item, key, {a}), key, b);
    ParedTwice(item, key, {a}, {b});
    RemoveTwoIsPared(Pared(item, key, {a} + {b}), key, c);
    ParedTwice(item, key, {a} + {b}, {c});
    assert {a} + {b} + {c} == {a, b, c};
  }

  lemma {:induction false} RemoveAllSplits(item: Object, first: seq<Path>, rest: seq<Path>)
    ensures RemoveAll(item, first + rest) == RemoveAll(RemoveAll(item, first), rest)
    decreases |first|
  {
    if first == [] {
      assert first + rest == rest;
    } else {
      RemoveAllSplits(Remove(item, first[0]), first[1..], rest);
      assert (first + rest)[1..] == first[1..] + rest;
    }
  }

  lemma RemoveThree(item: Object, p: Path, q: Path, r: Path)
    ensures RemoveAll(item, [p, q, r]) == Remove(Remove(Remove(item, p), q), r)
  {
    hide Remove;
    assert [p, q, r][1..] == [q, r] && [q, r][1..] == [r] && [r][1..] == [];
    assert RemoveAll(Remove(Remove(Remove(item, p), q), r), []) == Remove(Remove(Remove(item, p), q), r);
    assert RemoveAll(Remove(Remove(item, p), q), [r]) == Remove(Remove(Remove(item, p), q), r);
  }

  lemma RemovedAll(item: Object)
    ensures RemoveAll(item, SECRET_PATHS) == Bare(item)
  {
    var logins := [["login", "password"], ["login", "totp"], ["login", "fido2Credentials"]];
    var tops := [["passwordHistory"], ["notes"], ["card", "code"]];
    var ids := [["identity", "ssn"], ["identity", "passportNumber"], ["identity", "licenseNumber"]];
    assert SECRET_PATHS == logins + tops + ids;
    RemoveAllSplits(item, logins + tops, ids);
    RemoveAllSplits(item, logins, tops);
    RemoveThree(item, logins[0], logins[1], logins[2]);
    RemovedThree(item, "login", "password", "totp", "fido2Credentials");
    var a := Pared(item, "login", Secrets("login"));
    RemoveThree(a, tops[0], tops[1], tops[2]);
    RemoveTwoIsPared(a - {"passwordHistory"} - {"notes"}, "card", "code");
    var b := Pared(a - {"passwordHistory"} - {"notes"}, "card", Secrets("card"));
    RemoveThree(b, ids[0], ids[1], ids[2]);
    RemovedThree(b, "identity", "ssn", "passportNumber", "licenseNumber");
    hide RemoveAll;
    assert Remove(a, ["passwordHistory"]) == a - {"passwordHistory"};
    assert Remove(a - {"passwordHistory"}, ["notes"]) == a - {"passwordHistory"} - {"notes"};
    hide Remove;
    ParedIsBare(item, a, b);
  }

  lemma ParedIsBare(item: Object, a: Object, b: Object)
    requires a == Pared(item, "login", Secrets("login"))
    requires b == Pared(a - {"passwordHistory"} - {"notes"}, "card", Secrets("card"))
    ensures Pared(b, "identity", Secrets("identity")) == Bare(item)
  {
    hide Without, Secrets;
    var out := Pared(b, "identity", Secrets("identity"));
    forall key | key in item && key != "passwordHistory" && key != "notes"
      ensures key in out && out[key] == Without(item[key], Secrets(key))
    {
      if key != "login" && key != "card" && key != "identity" {
        NothingSecret(item[key], key);
      }
    }
    assert out.Keys == Bare(item).Keys;
  }

  // ---- Noninterference --------------------------------------------------------------------------

  ghost predicate AgreeExcept(x: Object, y: Object, keys: set<string>) {
    forall k :: k !in keys ==> (k in x <==> k in y) && (k in x ==> x[k] == y[k])
  }

  ghost predicate SameNumber(x: Object, y: Object) {
    && ("number" in x <==> "number" in y)
    && ("number" in x ==>
          || x["number"] == y["number"]
          || (x["number"].Str? && y["number"].Str? && LastFour(x["number"].s) == LastFour(y["number"].s)))
  }

  ghost predicate FieldAlike(x: Value, y: Value) {
    x == y || (Hidden(x) && Hidden(y) && AgreeExcept(x.fields, y.fields, {"value"}))
  }

  ghost predicate FieldsAlike(x: Value, y: Value) {
    || x == y
    || (x.Arr? && y.Arr? && |x.elements| == |y.elements|
        && forall i :: 0 <= i < |x.elements| ==> FieldAlike(x.elements[i], y.elements[i]))
  }

  /** Under one key, two values that differ at most in what is secret there. */
  ghost predicate PartAlike(key: string, x: Value, y: Value) {
    if key == "login" || key == "identity" then
      x == y || (x.Obj? && y.Obj? && AgreeExcept(x.fields, y.fields, Secrets(key)))
    else if key == "card" then
      || x == y
      || (x.Obj? && y.Obj? && AgreeExcept(x.fields, y.fields, {"code", "number"}) && SameNumber(x.fields, y.fields))
    else if key == "fields" then
      FieldsAlike(x, y)
    else
      x == y
  }

  ghost predicate SameFlags(a: Object, b: Object) {
    forall i :: 0 <= i < |FLAGS| ==> Present(Get(a, FLAGS[i].1)) == Present(Get(b, FLAGS[i].1))
  }

  /** Two items that differ only in secret values, in hidden fields' values, in the card digits before
      the last four, and in a `qsbwHeld` of their own, and agree on which secrets there are. */
  ghost predicate Alike(a: Object, b: Object) {
    && (forall key :: key !in GONE ==> (key in a <==> key in b) && (key in a ==> PartAlike(key, a[key], b[key])))
    && SameFlags(a, b)
  }

  lemma AgreeIff(x: Object, y: Object, keys: set<string>)
    ensures x - keys == y - keys <==> AgreeExcept(x, y, keys)
  {
    if x - keys == y - keys {
      forall k | k !in keys
        ensures (k in x <==> k in y) && (k in x ==> x[k] == y[k])
      {
        assert k in x <==> k in x - keys;
        assert k in y <==> k in y - keys;
        if k in x {
          assert (x - keys)[k] == x[k] && (y - keys)[k] == y[k];
        }
      }
    }
  }

  lemma WithoutIff(x: Value, y: Value, keys: set<string>)
    ensures Without(x, keys) == Without(y, keys)
            <==> x == y || (x.Obj? && y.Obj? && AgreeExcept(x.fields, y.fields, keys))
  {
    if x.Obj? && y.Obj? {
      AgreeIff(x.fields, y.fields, keys);
    }
  }

  lemma HideValueIff(x: Value, y: Value)
    ensures HideValue(x) == HideValue(y) <==> FieldAlike(x, y)
  {
    assert "type" != "value" by {
      assert "type"[0] == 't' && "value"[0] == 'v';
    }
    if x.Obj? && y.Obj? {
      AgreeIff(x.fields, y.fields, {"value"});
      assert Hidden(x) ==> Hidden(HideValue(x));
      assert Hidden(y) ==> Hidden(HideValue(y));
    }
  }

  lemma HideEachIff(x: Value, y: Value)
    ensures HideEach(x) == HideEach(y) <==> FieldsAlike(x, y)
  {
    hide HideValue, FieldAlike;
    if x.Arr? && y.Arr? && |x.elements| == |y.elements| {
      forall i | 0 <= i < |x.elements|
        ensures HideEach(x).elements[i] == HideEach(y).elements[i] <==> FieldAlike(x.elements[i], y.elements[i])
      {
        HideValueIff(x.elements[i], y.elements[i]);
      }
      if FieldsAlike(x, y) {
        SameIsAlike(x, y);
        assert HideEach(x).elements == HideEach(y).elements;
      }
    } else if x.Arr? && y.Arr? {
      assert |HideEach(x).elements| == |x.elements| && |HideEach(y).elements| == |y.elements|;
    }
  }

  lemma SameIsAlike(x: Value, y: Value)
    requires x.Arr? && y.Arr? && FieldsAlike(x, y)
    ensures |x.elements| == |y.elements|
            && forall i :: 0 <= i < |x.elements| ==> FieldAlike(x.elements[i], y.elements[i])
  {
  }

  lemma CardIff(x: Object, y: Object)
    ensures TrimNumber(Obj(x - {"code"})) == TrimNumber(Obj(y - {"code"}))
            <==> AgreeExcept(x, y, {"code", "number"}) && SameNumber(x, y)
  {
    hide LastFour;
    assert "code" != "number" by {
      assert "code"[0] == 'c' && "number"[0] == 'n';
    }
    var u, v := TrimNumber(Obj(x - {"code"})).fields, TrimNumber(Obj(y - {"code"})).fields;
    assert u.Keys == x.Keys - {"code"} && v.Keys == y.Keys - {"code"};
    assert forall k :: k in u && k != "number" ==> u[k] == x[k];
    assert forall k :: k in v && k != "number" ==> v[k] == y[k];
    if u == v {
      assert AgreeExcept(x, y, {"code", "number"}) by {
        forall k | k !in {"code", "number"}
          ensures (k in x <==> k in y) && (k in x ==> x[k] == y[k])
        {
          assert k in x <==> k in u;
          assert k in y <==> k in v;
        }
      }
      assert "number" in x <==> "number" in u;
      assert "number" in y <==> "number" in v;
    }
    if AgreeExcept(x, y, {"code", "number"}) && SameNumber(x, y) {
      forall k
        ensures (k in u <==> k in v) && (k in u ==> u[k] == v[k])
      {
      }
      assert u == v;
    }
  }

  lemma PartIff(key: string, x: Value, y: Value)
    ensures Shown(key, x) == Shown(key, y) <==> PartAlike(key, x, y)
  {
    if key == "login" || key == "identity" {
      WithoutIff(x, y, Secrets(key));
    } else if key == "card" {
      CardPartIff(x, y);
    } else if key == "fields" {
      HideEachIff(x, y);
    }
  }

  lemma CardPartIff(x: Value, y: Value)
    ensures TrimNumber(Without(x, {"code"})) == TrimNumber(Without(y, {"code"}))
            <==> || x == y
                 || (x.Obj? && y.Obj? && AgreeExcept(x.fields, y.fields, {"code", "number"})
                     && SameNumber(x.fields, y.fields))
  {
    hide SameNumber;
    if x.Obj? && y.Obj? {
      CardIff(x.fields, y.fields);
    }
  }

  lemma {:induction false} FlagAt(item: Object, flags: seq<(string, Path)>, i: nat)
    requires i < |flags| && forall j, k :: 0 <= j < k < |flags| ==> flags[j].0 != flags[k].0
    ensures flags[i].0 in HeldFlags(item, flags)
    ensures HeldFlags(item, flags)[flags[i].0] == Bool(Present(Get(item, flags[i].1)))
    decreases |flags|
  {
    if i < |flags| - 1 {
      FlagAt(item, flags[..|flags| - 1], i);
    }
  }

  lemma {:induction false} FlagsFrom(a: Object, b: Object, flags: seq<(string, Path)>)
    requires forall i :: 0 <= i < |flags| ==> Present(Get(a, flags[i].1)) == Present(Get(b, flags[i].1))
    ensures HeldFlags(a, flags) == HeldFlags(b, flags)
    decreases |flags|
  {
    if flags != [] {
      FlagsFrom(a, b, flags[..|flags| - 1]);
    }
  }

  lemma FlagNames()
    ensures forall j, k :: 0 <= j < k < |FLAGS| ==> FLAGS[j].0 != FLAGS[k].0
  {
    forall j, k | 0 <= j < k < |FLAGS|
      ensures FLAGS[j].0 != FLAGS[k].0
    {
      assert FLAGS[j].0[0] != FLAGS[k].0[0] || |FLAGS[j].0| != |FLAGS[k].0|;
    }
  }

  lemma FlagsIff(a: Object, b: Object)
    ensures HeldFlags(a, FLAGS) == HeldFlags(b, FLAGS) <==> SameFlags(a, b)
  {
    hide Get, Present;
    if SameFlags(a, b) {
      FlagsFrom(a, b, FLAGS);
    }
    if HeldFlags(a, FLAGS) == HeldFlags(b, FLAGS) {
      forall i | 0 <= i < |FLAGS|
        ensures Present(Get(a, FLAGS[i].1)) == Present(Get(b, FLAGS[i].1))
      {
        FlagNames();
        FlagAt(a, FLAGS, i);
        FlagAt(b, FLAGS, i);
      }
    }
  }

  lemma PublicAt(item: Object, key: string)
    requires key !in GONE
    ensures key in Public(item) <==> key in item
    ensures key in item ==> Public(item)[key] == Shown(key, item[key])
  {
  }

  /** Stripping hides exactly the secrets: two items look the same to the panel if and only if they
      are alike in everything else. */
  lemma StrippingHidesExactlySecrets(a: Object, b: Object)
    ensures Stripped(a) == Stripped(b) <==> Alike(a, b)
  {
    hide Shown, PartAlike, HeldFlags, Stripped, SameFlags;
    StrippedIsPublic(a);
    StrippedIsPublic(b);
    FlagsIff(a, b);
    forall key | key !in GONE
      ensures key in Public(a) <==> key in a
      ensures key in Public(b) <==> key in b
      ensures key in a && key in b ==> (Public(a)[key] == Public(b)[key] <==> PartAlike(key, a[key], b[key]))
    {
      PublicAt(a, key);
      PublicAt(b, key);
      if key in a && key in b {
        PartIff(key, a[key], b[key]);
      }
    }
    assert Public(a)["qsbwHeld"] == Obj(HeldFlags(a, FLAGS)) && Public(b)["qsbwHeld"] == Obj(HeldFlags(b, FLAGS));
    if Alike(a, b) {
      SamePublic(a, b);
    }
  }

  lemma SamePublic(a: Object, b: Object)
    requires forall key :: key !in GONE ==> (key in a <==> key in b) && (key in a ==> Public(a)[key] == Public(b)[key])
    requires HeldFlags(a, FLAGS) == HeldFlags(b, FLAGS)
    ensures Public(a) == Public(b)
  {
    hide Shown, HeldFlags;
    forall key | key in Public(a) || key in Public(b)
      ensures key in Public(a) && key in Public(b) && Public(a)[key] == Public(b)[key]
    {
      if key !in GONE {
        PublicAt(a, key);
        PublicAt(b, key);
      }
    }
  }

  // ---- One edit at a time -----------------------------------------------------------------------

  /** Putting any value at a secret path, or changing the one there, as long as no flag moves. */
  lemma SecretEditIsInvisible(item: Object, key: string, inner: string, v: Value)
    requires key in item && item[key].Obj? && inner in Secrets(key)
    requires SameFlags(item, item[key := Obj(item[key].fields[inner := v])])
    ensures Stripped(item[key := Obj(item[key].fields[inner := v])]) == Stripped(item)
  {
    hide SameFlags, LastFour, Stripped;
    var edited := item[key := Obj(item[key].fields[inner := v])];
    assert AgreeExcept(item[key].fields, edited[key].fields, Secrets(key));
    if key == "card" {
      assert inner == "code";
      assert "number" != "code" by {
        assert "number"[0] == 'n' && "code"[0] == 'c';
      }
      assert SameNumber(item[key].fields, edited[key].fields);
    }
    assert PartAlike(key, item[key], edited[key]);
    forall k | k !in GONE && k in item && k != key
      ensures PartAlike(k, item[k], edited[k])
    {
      assert edited[k] == item[k];
    }
    StrippingHidesExactlySecrets(item, edited);
  }

  lemma TopEditIsInvisible(item: Object, key: string, v: Value)
    requires [key] in SECRET_PATHS && SameFlags(item, item[key := v])
    ensures Stripped(item[key := v]) == Stripped(item)
  {
    hide SameFlags, Stripped;
    var i :| 0 <= i < |SECRET_PATHS| && SECRET_PATHS[i] == [key];
    assert SECRET_PATHS[i][0] == key && key in GONE;
    StrippingHidesExactlySecrets(item, item[key := v]);
  }

  /** The value of a hidden custom field may be anything. */
  lemma HiddenEditIsInvisible(item: Object, i: nat, v: Value)
    requires "fields" in item && item["fields"].Arr? && i < |item["fields"].elements|
             && Hidden(item["fields"].elements[i])
    ensures var a := item["fields"].elements;
            Stripped(item["fields" := Arr(a[i := Obj(a[i].fields["value" := v])])]) == Stripped(item)
  {
    hide LastFour, Stripped, HeldFlags;
    var a := item["fields"].elements;
    var field := Obj(a[i].fields["value" := v]);
    var b := a[i := field];
    var edited := item["fields" := Arr(b)];
    assert "type" != "value" by {
      assert "type"[0] == 't' && "value"[0] == 'v';
    }
    assert Hidden(field) && FieldAlike(a[i], field);
    assert FieldsAlike(Arr(a), Arr(b));
    forall j | 0 <= j < |FLAGS|
      ensures Get(item, FLAGS[j].1) == Get(edited, FLAGS[j].1)
    {
      assert FLAGS[j].1[0] != "fields" by {
        assert FLAGS[j].1[0][0] != 'f' && "fields"[0] == 'f';
      }
    }
    StrippingHidesExactlySecrets(item, edited);
  }

  /** So may the digits of a card number before the last four. */
  lemma CardEditIsInvisible(item: Object, before: string, lastFour: string, other: string)
    requires |lastFour| == 4
    requires "card" in item && item["card"].Obj? && "number" in item["card"].fields
    requires item["card"].fields["number"] == Str(before + lastFour)
    ensures Stripped(item["card" := Obj(item["card"].fields["number" := Str(other + lastFour)])]) == Stripped(item)
  {
    hide Stripped, HeldFlags;
    var card := item["card"].fields;
    var changed := card["number" := Str(other + lastFour)];
    var edited := item["card" := Obj(changed)];
    assert LastFour(before + lastFour) == lastFour == LastFour(other + lastFour);
    assert SameNumber(card, changed) && AgreeExcept(card, changed, {"code", "number"});
    assert "code" != "number" by {
      assert "code"[0] == 'c' && "number"[0] == 'n';
    }
    forall j | 0 <= j < |FLAGS|
      ensures Get(item, FLAGS[j].1) == Get(edited, FLAGS[j].1)
    {
      CardPathsDiffer(item, edited, FLAGS[j].1);
    }
    hide LastFour;
    StrippingHidesExactlySecrets(item, edited);
  }

  lemma CardPathsDiffer(item: Object, edited: Object, path: Path)
    requires "card" in item && item["card"].Obj? && "card" in edited && edited["card"].Obj?
    requires edited == item["card" := edited["card"]]
    requires AgreeExcept(item["card"].fields, edited["card"].fields, {"number"})
    requires (|path| == 2 && path[1] != "number") || (|path| == 1 && path[0] != "card")
    ensures Get(item, path) == Get(edited, path)
  {
    if |path| == 2 {
      assert path[1..] == [path[1]];
    }
  }

  // ---- Nothing secret is left -------------------------------------------------------------------

  lemma GetTwo(item: Object, key: string, inner: string)
    ensures Get(item, [key, inner]) ==
            if key in item && item[key].Obj? && inner in item[key].fields then Some(item[key].fields[inner]) else None
  {
    assert [key, inner][1..] == [inner];
  }

  lemma NoSecretIsLeft(item: Object, path: Path)
    requires path in SECRET_PATHS
    ensures Get(Stripped(item), path) == None
  {
    StrippedIsPublic(item);
    hide Stripped, HeldFlags, LastFour, HideEach;
    var i :| 0 <= i < |SECRET_PATHS| && SECRET_PATHS[i] == path;
    var out := Public(item);
    if |path| == 2 {
      var key, inner := path[0], path[1];
      assert path == [key, inner];
      GetTwo(out, key, inner);
      assert key !in GONE by {
        assert key[0] != 'p' && key[0] != 'n' && key[0] != 'q';
      }
      PublicAt(item, key);
      if key in item {
        SecretIsGone(item, key, inner);
      }
    } else {
      assert path[0] in GONE && path[0] != "qsbwHeld";
      assert path[0] !in out;
    }
  }

  lemma SecretIsGone(item: Object, key: string, inner: string)
    requires key in item && [key, inner] in SECRET_PATHS
    ensures Shown(key, item[key]).Obj? ==> inner !in Shown(key, item[key]).fields
  {
    var i :| 0 <= i < |SECRET_PATHS| && SECRET_PATHS[i] == [key, inner];
    assert SECRET_PATHS[i][0] == key && SECRET_PATHS[i][1] == inner;
  }

  lemma NoHiddenValueIsLeft(item: Object, i: nat)
    requires "fields" in Stripped(item) && Stripped(item)["fields"].Arr? && i < |Stripped(item)["fields"].elements|
    requires Hidden(Stripped(item)["fields"].elements[i])
    ensures "value" !in Stripped(item)["fields"].elements[i].fields
  {
    StrippedIsPublic(item);
    hide Stripped, HeldFlags;
    PublicAt(item, "fields");
    assert item["fields"].Arr?;
    var field := item["fields"].elements[i];
    assert Stripped(item)["fields"].elements[i] == HideValue(field);
  }

  /** A card number that is text keeps its last four characters; one that is not text is kept whole. */
  lemma CardNumberLeft(item: Object)
    ensures Get(Stripped(item), ["card", "number"]) ==
            match Get(item, ["card", "number"])
            case Some(Str(number)) => Some(Str(LastFour(number)))
            case other => other
  {
    StrippedIsPublic(item);
    hide Stripped, HeldFlags, HideEach, LastFour;
    GetTwo(item, "card", "number");
    GetTwo(Public(item), "card", "number");
    PublicAt(item, "card");
    assert "code" != "number" by {
      assert "code"[0] == 'c' && "number"[0] == 'n';
    }
  }
}

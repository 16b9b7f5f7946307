/** Search in the vault helper (store.rs): one joined text for each item, against the panel's own search
    field by field (BitwardenModel.js `matchesQuery`). */
module VaultSearch {
  import opened Common
  import opened VaultStrip

  /** A held item: in full, its search text and its card digits. */
  datatype Held = Held(id: string, full: Object, haystack: string, cardDigits: string)

  // ---- Search text ------------------------------------------------------------------------------

  const NUL: char := '\0'

  /** `to_lowercase`. What one character becomes may depend on its neighbours. */
  type Lowering = string -> string

  /** A NUL stays and separates: the text before it and the text after it do not see each other. */
  ghost predicate Lowers(lower: Lowering) {
    && lower("") == ""
    && forall a, b :: lower(a + [NUL] + b) == lower(a) + [NUL] + lower(b)
  }

  /** Unicode white space, as `trim` takes it. */
  predicate IsSpace(c: char) {
    var n := c as int;
    || 0x09 <= n <= 0x0D || n == 0x20 || n == 0x85 || n == 0xA0 || n == 0x1680 || 0x2000 <= n <= 0x200A
    || n == 0x2028 || n == 0x2029 || n == 0x202F || n == 0x205F || n == 0x3000
  }

  function TrimStart(s: string): string {
    if s != "" && IsSpace(s[0]) then TrimStart(s[1..]) else s
  }

  function TrimEnd(s: string): string {
    if s != "" && IsSpace(s[|s| - 1]) then TrimEnd(s[..|s| - 1]) else s
  }

  function Trim(s: string): string {
    TrimEnd(TrimStart(s))
  }

  predicate IsDigit(c: char) {
    '0' <= c <= '9'
  }

  function Digits(s: string): string {
    Retain(s, IsDigit)
  }

  function Join(parts: seq<string>, separator: string): string {
    if parts == [] then ""
    else if |parts| == 1 then parts[0]
    else parts[0] + separator + Join(parts[1..], separator)
  }

  predicate FoundAt(s: string, needle: string, i: nat) {
    i + |needle| <= |s| && s[i..i + |needle|] == needle
  }

  predicate Contains(s: string, needle: string) {
    exists i :: 0 <= i <= |s| && FoundAt(s, needle, i)
  }

  function Text(item: Object, path: Path): string {
    match Get(item, path)
    case Some(Str(s)) => s
    case _ => ""
  }

  const NAME_PARTS: seq<string> := ["title", "firstName", "middleName", "lastName"]

  predicate Nonempty(s: string) {
    s != ""
  }

  function FullName(item: Object): string {
    Join(Retain(seq(4, i requires 0 <= i < 4 => Trim(Text(item, ["identity", NAME_PARTS[i]]))), Nonempty), " ")
  }

  /** Two parts of a name with a space between them, if both are there. */
  function Spaced(a: string, b: string): string {
    if a == "" then b else if b == "" then a else a + " " + b
  }

  lemma {:induction false} JoinLast(parts: seq<string>, last: string)
    ensures Join(parts + [last], " ") == if parts == [] then last else Join(parts, " ") + " " + last
    decreases |parts|
  {
    if parts == [] {
      assert parts + [last] == [last];
    } else {
      assert (parts + [last])[1..] == parts[1..] + [last];
      JoinLast(parts[1..], last);
    }
  }

  lemma JoinSpaced(parts: seq<string>, last: string)
    requires forall i :: 0 <= i < |parts| ==> parts[i] != ""
    ensures Join(if last == "" then parts else parts + [last], " ") == Spaced(Join(parts, " "), last)
  {
    if parts != [] {
      assert parts[0] != "";
      assert Join(parts, " ") != "";
    }
    JoinLast(parts, last);
  }

  /** A name is its parts without the blanks around them, those that are left with one space between them. */
  lemma FullNameIs(item: Object)
    ensures var part := (i: int) requires 0 <= i < 4 => Trim(Text(item, ["identity", NAME_PARTS[i]]));
            FullName(item) == Spaced(Spaced(Spaced(part(0), part(1)), part(2)), part(3))
  {
    hide Join, Trim, Text, Spaced;
    var parts := seq(4, i requires 0 <= i < 4 => Trim(Text(item, ["identity", NAME_PARTS[i]])));
    NamePrefix(parts, 0);
    NamePrefix(parts, 1);
    NamePrefix(parts, 2);
    NamePrefix(parts, 3);
    assert parts[..0] == [] && parts[..4] == parts;
    assert Retain(parts[..0], Nonempty) == [];
    EmptyName(parts[0]);
  }

  lemma EmptyName(a: string)
    ensures Join([], " ") == "" && Spaced("", a) == a
  {
  }

  lemma NamePrefix(parts: seq<string>, n: nat)
    requires n < |parts|
    ensures Join(Retain(parts[..n + 1], Nonempty), " ") ==
            Spaced(Join(Retain(parts[..n], Nonempty), " "), parts[n])
  {
    var before := parts[..n];
    assert parts[..n + 1] == before + [parts[n]] && (before + [parts[n]])[..n] == before;
    RetainIsFilter(before, Nonempty);
    var kept := Retain(before, Nonempty);
    assert forall i :: 0 <= i < |kept| ==> kept[i] in kept;
    assert forall i :: 0 <= i < |kept| ==> Nonempty(kept[i]);
    JoinSpaced(kept, parts[n]);
    hide Join;
    assert Retain(before + [parts[n]], Nonempty) == kept + if Nonempty(parts[n]) then [parts[n]] else [];
    assert kept + [] == kept;
  }

  function Uris(entries: seq<Value>): seq<string> {
    if entries == [] then [] else
    var rest := Uris(entries[1..]);
    match entries[0]
    case Obj(o) => if "uri" in o && o["uri"].Str? then [o["uri"].s] + rest else rest
    case _ => rest
  }

  function Websites(item: Object): seq<string> {
    match Get(item, ["login", "uris"])
    case Some(Arr(entries)) => Uris(entries)
    case _ => []
  }

  /** What is searched, field by field. Notes are left out where the item asks for the password. */
  function Fields(item: Object): seq<string> {
    [Text(item, ["name"]),
     Text(item, ["login", "username"]),
     if "reprompt" in item && item["reprompt"] == Integer(1) then "" else Text(item, ["notes"]),
     Text(item, ["publicKey"]),
     Text(item, ["fingerprint"]),
     Text(item, ["card", "brand"]),
     Text(item, ["card", "cardholderName"]),
     Text(item, ["identity", "email"]),
     Text(item, ["identity", "username"]),
     Text(item, ["identity", "company"]),
     FullName(item)] + Websites(item)
  }

  function Haystack(lower: Lowering, item: Object): string {
    lower(Join(Fields(item), [NUL]))
  }

  function HeldOf(lower: Lowering, id: string, item: Object): (h: Held)
    ensures h.id == id && h.full == item
  {
    Held(id, item, Haystack(lower, item), Digits(Text(item, ["card", "number"])))
  }

  predicate CardMatches(held: Held, digits: string) {
    digits != "" && |held.cardDigits| >= 4 && Contains(held.cardDigits[|held.cardDigits| - 4..], digits)
  }

  predicate Matches(held: Held, needle: string) {
    Contains(held.haystack, needle) || CardMatches(held, Digits(needle))
  }

  // ---- Searching the joined text is searching each field ----------------------------------------

  lemma {:induction false} LowerJoin(lower: Lowering, parts: seq<string>)
    requires Lowers(lower) && parts != []
    ensures lower(Join(parts, [NUL])) == Join(seq(|parts|, i requires 0 <= i < |parts| => lower(parts[i])), [NUL])
    decreases |parts|
  {
    var lowered := seq(|parts|, i requires 0 <= i < |parts| => lower(parts[i]));
    if |parts| > 1 {
      LowerJoin(lower, parts[1..]);
      assert lowered[1..] == seq(|parts[1..]|, i requires 0 <= i < |parts[1..]| => lower(parts[1..][i]));
      var rest := Join(parts[1..], [NUL]);
      assert lower(parts[0] + [NUL] + rest) == lower(parts[0]) + [NUL] + lower(rest);
    }
  }

  lemma FoundBefore(a: string, rest: string, needle: string, i: nat)
    requires i + |needle| <= |a|
    ensures FoundAt(a + rest, needle, i) <==> FoundAt(a, needle, i)
  {
    assert (a + rest)[i..i + |needle|] == a[i..i + |needle|];
  }

  lemma FoundAfter(front: string, b: string, needle: string, i: nat)
    ensures FoundAt(front + b, needle, |front| + i) <==> FoundAt(b, needle, i)
  {
    if i + |needle| <= |b| {
      assert (front + b)[|front| + i..|front| + i + |needle|] == b[i..i + |needle|];
    }
  }

  /** An occurrence over the separator would have it. */
  lemma NotOver(a: string, b: string, needle: string, i: nat)
    requires NUL !in needle && FoundAt(a + [NUL] + b, needle, i)
    ensures i + |needle| <= |a| || i > |a|
  {
    var s := a + [NUL] + b;
    assert s[|a|] == NUL;
    assert forall k :: i <= k < i + |needle| ==> s[k] == needle[k - i];
  }

  /** Across one separator: a needle without it lies on one side. */
  lemma ContainsAcross(a: string, b: string, needle: string)
    requires needle != "" && NUL !in needle
    ensures Contains(a + [NUL] + b, needle) <==> Contains(a, needle) || Contains(b, needle)
  {
    hide FoundAt;
    var front := a + [NUL];
    var s := front + b;
    if Contains(s, needle) {
      var i :| 0 <= i <= |s| && FoundAt(s, needle, i);
      NotOver(a, b, needle, i);
      if i + |needle| <= |a| {
        assert s == a + ([NUL] + b);
        FoundBefore(a, [NUL] + b, needle, i);
      } else {
        FoundAfter(front, b, needle, i - |front|);
      }
    }
    if i :| 0 <= i <= |a| && FoundAt(a, needle, i) {
      assert s == a + ([NUL] + b);
      FoundFits(a, needle, i);
      FoundBefore(a, [NUL] + b, needle, i);
    }
    if i :| 0 <= i <= |b| && FoundAt(b, needle, i) {
      FoundAfter(front, b, needle, i);
    }
  }

  lemma FoundFits(s: string, needle: string, i: nat)
    requires FoundAt(s, needle, i)
    ensures i + |needle| <= |s|
  {
  }

  ghost predicate InSomePart(parts: seq<string>, needle: string) {
    exists k :: 0 <= k < |parts| && Contains(parts[k], needle)
  }

  lemma {:induction false} JoinedSearch(parts: seq<string>, needle: string)
    requires needle != "" && NUL !in needle
    ensures Contains(Join(parts, [NUL]), needle) <==> InSomePart(parts, needle)
    decreases |parts|
  {
    if |parts| > 1 {
      hide Contains;
      ContainsAcross(parts[0], Join(parts[1..], [NUL]), needle);
      JoinedSearch(parts[1..], needle);
      if InSomePart(parts[1..], needle) {
        var k :| 0 <= k < |parts[1..]| && Contains(parts[1..][k], needle);
        assert Contains(parts[k + 1], needle);
      }
      if InSomePart(parts, needle) {
        var k :| 0 <= k < |parts| && Contains(parts[k], needle);
        assert k > 0 ==> Contains(parts[1..][k - 1], needle);
      }
    }
  }

  /** A needle holding the separator is found in the joined text of its two halves and in neither of
      them, so field-wise search is right for every text exactly when the needle has none. */
  lemma FieldwiseIff(needle: string)
    requires needle != ""
    ensures (forall parts :: Contains(Join(parts, [NUL]), needle) <==> InSomePart(parts, needle)) <==> NUL !in needle
  {
    if NUL !in needle {
      forall parts
        ensures Contains(Join(parts, [NUL]), needle) <==> InSomePart(parts, needle)
      {
        JoinedSearch(parts, needle);
      }
    } else {
      var i :| 0 <= i < |needle| && needle[i] == NUL;
      var parts := [needle[..i], needle[i + 1..]];
      assert parts[1..] == [parts[1]];
      assert Join(parts, [NUL]) == needle;
      assert FoundAt(needle, needle, 0);
      assert !Contains(parts[0], needle) && !Contains(parts[1], needle);
    }
  }

  /** The needle in the lowered text of a field. */
  predicate Has(lower: Lowering, text: string, needle: string) {
    Contains(lower(text), needle)
  }

  predicate AsksForPassword(item: Object) {
    "reprompt" in item && item["reprompt"] == Integer(1)
  }

  predicate UriHas(lower: Lowering, entry: Value, needle: string) {
    entry.Obj? && "uri" in entry.fields && entry.fields["uri"].Str? && Has(lower, entry.fields["uri"].s, needle)
  }

  /** One of the websites of a login has it. */
  ghost predicate HasWebsite(lower: Lowering, item: Object, needle: string) {
    var uris := Get(item, ["login", "uris"]);
    uris.Some? && uris.value.Arr?
    && exists i :: 0 <= i < |uris.value.elements| && UriHas(lower, uris.value.elements[i], needle)
  }

  /** The panel's own search of an item. Of a card number only the last four digits count, and notes stay
      out where the item asks for the password. */
  ghost predicate MatchesQuery(lower: Lowering, item: Object, needle: string) {
    || Has(lower, Text(item, ["name"]), needle)
    || Has(lower, Text(item, ["login", "username"]), needle)
    || (!AsksForPassword(item) && Has(lower, Text(item, ["notes"]), needle))
    || Has(lower, Text(item, ["publicKey"]), needle)
    || Has(lower, Text(item, ["fingerprint"]), needle)
    || Has(lower, Text(item, ["card", "brand"]), needle)
    || Has(lower, Text(item, ["card", "cardholderName"]), needle)
    || HasLastFour(Digits(Text(item, ["card", "number"])), Digits(needle))
    || Has(lower, FullName(item), needle)
    || Has(lower, Text(item, ["identity", "email"]), needle)
    || Has(lower, Text(item, ["identity", "username"]), needle)
    || Has(lower, Text(item, ["identity", "company"]), needle)
    || HasWebsite(lower, item, needle)
  }

  predicate HasLastFour(number: string, digits: string) {
    |number| >= 4 && digits != "" && Contains(number[|number| - 4..], digits)
  }

  lemma {:induction false} UrisHave(lower: Lowering, entries: seq<Value>, needle: string)
    ensures (exists k :: 0 <= k < |Uris(entries)| && Has(lower, Uris(entries)[k], needle)) <==>
            (exists i :: 0 <= i < |entries| && UriHas(lower, entries[i], needle))
    decreases |entries|
  {
    hide Has;
    if entries != [] {
      var rest, uris := Uris(entries[1..]), Uris(entries);
      UrisHave(lower, entries[1..], needle);
      var here := entries[0].Obj? && "uri" in entries[0].fields && entries[0].fields["uri"].Str?;
      assert uris == if here then [entries[0].fields["uri"].s] + rest else rest;
      hide Uris;
      if k :| 0 <= k < |uris| && Has(lower, uris[k], needle) {
        if here && k == 0 {
          assert UriHas(lower, entries[0], needle);
        } else {
          assert Has(lower, rest[if here then k - 1 else k], needle);
          var i :| 0 <= i < |entries[1..]| && UriHas(lower, entries[1..][i], needle);
          assert UriHas(lower, entries[i + 1], needle);
        }
      }
      if i :| 0 <= i < |entries| && UriHas(lower, entries[i], needle) {
        if i == 0 {
          assert Has(lower, uris[0], needle);
        } else {
          assert UriHas(lower, entries[1..][i - 1], needle);
          var k :| 0 <= k < |rest| && Has(lower, rest[k], needle);
          assert Has(lower, uris[if here then k + 1 else k], needle);
        }
      }
    }
  }

  lemma WebsitesHave(lower: Lowering, item: Object, needle: string)
    ensures (exists k :: 0 <= k < |Websites(item)| && Has(lower, Websites(item)[k], needle)) <==>
            HasWebsite(lower, item, needle)
  {
    hide Has, UriHas, Uris;
    var uris := Get(item, ["login", "uris"]);
    if uris.Some? && uris.value.Arr? {
      UrisHave(lower, uris.value.elements, needle);
      assert Websites(item) == Uris(uris.value.elements);
    }
  }

  /** The fields searched are those the panel looks at. */
  lemma FieldsAreSearched(lower: Lowering, item: Object, needle: string)
    requires Lowers(lower) && needle != ""
    ensures FieldMatches(lower, item, needle) <==> MatchesQuery(lower, item, needle)
  {
    TooShort("", needle);
    WebsitesHave(lower, item, needle);
    CardIs(lower, item, needle);
    var fields, sites := Fields(item), Websites(item);
    assert |fields| == 11 + |sites| && forall k :: 0 <= k < |sites| ==> fields[11 + k] == sites[k];
    hide Contains, Digits, Text, FullName, Websites, HasWebsite, CardMatches, HeldOf, HasLastFour;
    if k :| 0 <= k < |fields| && Has(lower, fields[k], needle) {
      if k >= 11 {
        assert Has(lower, sites[k - 11], needle);
      }
    }
    if k :| 0 <= k < |sites| && Has(lower, sites[k], needle) {
      assert Has(lower, fields[11 + k], needle);
    }
    TenFields(lower, item, fields, needle);
  }

  lemma TenFields(lower: Lowering, item: Object, fields: seq<string>, needle: string)
    requires fields == Fields(item) && Lowers(lower) && !Contains("", needle)
    ensures (exists k :: 0 <= k < 11 && Has(lower, fields[k], needle)) <==>
            || Has(lower, Text(item, ["name"]), needle)
            || Has(lower, Text(item, ["login", "username"]), needle)
            || (!AsksForPassword(item) && Has(lower, Text(item, ["notes"]), needle))
            || Has(lower, Text(item, ["publicKey"]), needle)
            || Has(lower, Text(item, ["fingerprint"]), needle)
            || Has(lower, Text(item, ["card", "brand"]), needle)
            || Has(lower, Text(item, ["card", "cardholderName"]), needle)
            || Has(lower, FullName(item), needle)
            || Has(lower, Text(item, ["identity", "email"]), needle)
            || Has(lower, Text(item, ["identity", "username"]), needle)
            || Has(lower, Text(item, ["identity", "company"]), needle)
  {
    hide Contains, Text, FullName, Websites;
    assert !Has(lower, "", needle);
    hide Has, Lowers;
    assert fields[0] == Text(item, ["name"]) && fields[1] == Text(item, ["login", "username"]);
    assert fields[2] == if AsksForPassword(item) then "" else Text(item, ["notes"]);
    assert fields[3] == Text(item, ["publicKey"]) && fields[4] == Text(item, ["fingerprint"]);
    assert fields[5] == Text(item, ["card", "brand"]) && fields[6] == Text(item, ["card", "cardholderName"]);
    assert fields[7] == Text(item, ["identity", "email"]) && fields[8] == Text(item, ["identity", "username"]);
    assert fields[9] == Text(item, ["identity", "company"]) && fields[10] == FullName(item);
  }

  lemma CardIs(lower: Lowering, item: Object, needle: string)
    ensures CardMatches(HeldOf(lower, "", item), Digits(needle)) <==>
            HasLastFour(Digits(Text(item, ["card", "number"])), Digits(needle))
  {
    hide Contains, Digits, Text, Haystack;
  }

  /** Some field has the needle, or the card ends with its digits. */
  ghost predicate FieldMatches(lower: Lowering, item: Object, needle: string) {
    || (exists k :: 0 <= k < |Fields(item)| && Has(lower, Fields(item)[k], needle))
    || CardMatches(HeldOf(lower, "", item), Digits(needle))
  }

  lemma SameCard(lower: Lowering, id: string, item: Object, needle: string)
    ensures CardMatches(HeldOf(lower, id, item), Digits(needle)) == CardMatches(HeldOf(lower, "", item), Digits(needle))
  {
    hide Contains, Digits, Text, Haystack;
  }

  lemma WithoutNul(lower: Lowering, id: string, item: Object, needle: string)
    requires Lowers(lower) && needle != "" && NUL !in needle
    ensures Matches(HeldOf(lower, id, item), needle) <==> FieldMatches(lower, item, needle)
  {
    var fields := Fields(item);
    assert fields != [];
    hide Fields, Contains, CardMatches, Digits;
    var lowered := seq(|fields|, i requires 0 <= i < |fields| => lower(fields[i]));
    LowerJoin(lower, fields);
    JoinedSearch(lowered, needle);
    SameCard(lower, id, item, needle);
    hide Lowers, Join;
    if k :| 0 <= k < |fields| && Has(lower, fields[k], needle) {
      assert Contains(lowered[k], needle);
    }
    if InSomePart(lowered, needle) {
      var k :| 0 <= k < |lowered| && Contains(lowered[k], needle);
      assert Has(lower, fields[k], needle);
    }
  }

  /** An item named by one half of the needle, with the other half for its user name. */
  function Halves(needle: string, i: nat): Object
    requires i < |needle|
  {
    map["name" := Str(needle[..i]), "login" := Obj(map["username" := Str(needle[i + 1..])])]
  }

  lemma HalvesFields(needle: string, i: nat)
    requires i < |needle|
    ensures var fields := Fields(Halves(needle, i));
            && |fields| == 11 && fields[0] == needle[..i] && fields[1] == needle[i + 1..]
            && forall k :: 2 <= k < 11 ==> fields[k] == ""
    ensures Digits(Text(Halves(needle, i), ["card", "number"])) == ""
  {
    var item := Halves(needle, i);
    assert ["login", "username"][1..] == ["username"] && ["login", "uris"][1..] == ["uris"];
    assert Websites(item) == [] && FullName(item) == "" by {
      NoName(item);
    }
  }

  lemma NoName(item: Object)
    requires "identity" !in item
    ensures FullName(item) == ""
  {
    forall i | 0 <= i < 4
      ensures Trim(Text(item, ["identity", NAME_PARTS[i]])) == ""
    {
      assert Text(item, ["identity", NAME_PARTS[i]]) == "";
    }
    var parts := seq(4, i requires 0 <= i < 4 => Trim(Text(item, ["identity", NAME_PARTS[i]])));
    NoneLeft(parts);
  }

  lemma {:induction false} NoneLeft(parts: seq<string>)
    requires forall i :: 0 <= i < |parts| ==> parts[i] == ""
    ensures Retain(parts, Nonempty) == []
    decreases |parts|
  {
    if parts != [] {
      NoneLeft(parts[..|parts| - 1]);
    }
  }

  /** Such an item is found, though no field of it has the needle. */
  lemma FoundAcrossFields(lower: Lowering, id: string, needle: string, i: nat)
    requires Lowers(lower) && lower(needle) == needle && i < |needle| && needle[i] == NUL
    ensures Matches(HeldOf(lower, id, Halves(needle, i)), needle) && !MatchesQuery(lower, Halves(needle, i), needle)
  {
    FieldsAreSearched(lower, Halves(needle, i), needle);
    hide MatchesQuery;
    HalvesFields(needle, i);
    hide Fields, Halves, Text, Digits;
    var item := Halves(needle, i);
    HalvesFound(lower, Fields(item), needle, i);
    assert !CardMatches(HeldOf(lower, "", item), Digits(needle));
    hide Contains, CardMatches;
  }

  lemma HalvesFound(lower: Lowering, fields: seq<string>, needle: string, i: nat)
    requires Lowers(lower) && lower(needle) == needle && i < |needle| && needle[i] == NUL
    requires |fields| == 11 && fields[0] == needle[..i] && fields[1] == needle[i + 1..]
    requires forall k :: 2 <= k < 11 ==> fields[k] == ""
    ensures Contains(lower(Join(fields, [NUL])), needle)
    ensures forall k :: 0 <= k < |fields| ==> !Contains(lower(fields[k]), needle)
  {
    HalvesLower(lower, needle, i);
    HaystackStarts(lower, fields);
    assert lower("") == "";
    hide Join, Lowers, Contains;
    var x, y := lower(fields[0]), lower(fields[1]);
    OnlyTogether(needle, x, y, lower(Join(fields, [NUL])));
    TooShort("", needle);
    forall k | 0 <= k < |fields|
      ensures !Contains(lower(fields[k]), needle)
    {
      assert k == 0 || k == 1 || fields[k] == "";
    }
  }

  lemma OnlyTogether(needle: string, x: string, y: string, s: string)
    requires needle == x + [NUL] + y && needle <= s
    ensures Contains(s, needle) && !Contains(x, needle) && !Contains(y, needle)
  {
    StartsWith(s, needle);
    TooShort(x, needle);
    TooShort(y, needle);
    hide Contains;
  }

  lemma HalvesLower(lower: Lowering, needle: string, i: nat)
    requires Lowers(lower) && lower(needle) == needle && i < |needle| && needle[i] == NUL
    ensures needle == lower(needle[..i]) + [NUL] + lower(needle[i + 1..])
  {
    assert needle == needle[..i] + [NUL] + needle[i + 1..];
  }

  lemma StartsWith(s: string, needle: string)
    requires needle <= s
    ensures Contains(s, needle)
  {
    assert FoundAt(s, needle, 0);
  }

  lemma TooShort(s: string, needle: string)
    requires |s| < |needle|
    ensures !Contains(s, needle)
  {
  }

  lemma HaystackStarts(lower: Lowering, fields: seq<string>)
    requires Lowers(lower) && |fields| > 2
    ensures lower(fields[0]) + [NUL] + lower(fields[1]) <= lower(Join(fields, [NUL]))
  {
    var rest := Join(fields[2..], [NUL]);
    assert fields[1..][1..] == fields[2..];
    assert Join(fields[1..], [NUL]) == fields[1] + [NUL] + rest;
    assert Join(fields, [NUL]) == fields[0] + [NUL] + (fields[1] + [NUL] + rest);
    assert lower(fields[1] + [NUL] + rest) == lower(fields[1]) + [NUL] + lower(rest);
  }

  /** The held text is searched as the panel searches an item, for every item, if and only if the needle has
      no NUL. A search lowers its needle first. */
  lemma SearchIsFieldwise(lower: Lowering, needle: string)
    requires Lowers(lower) && needle != "" && lower(needle) == needle
    ensures (forall id, item :: Matches(HeldOf(lower, id, item), needle) <==> MatchesQuery(lower, item, needle))
            <==> NUL !in needle
  {
    hide Lowers, Matches, HeldOf, FieldMatches, MatchesQuery;
    if NUL !in needle {
      forall id, item
        ensures Matches(HeldOf(lower, id, item), needle) <==> MatchesQuery(lower, item, needle)
      {
        WithoutNul(lower, id, item, needle);
        FieldsAreSearched(lower, item, needle);
      }
    } else {
      var i :| 0 <= i < |needle| && needle[i] == NUL;
      FoundAcrossFields(lower, "", needle, i);
    }
  }
}

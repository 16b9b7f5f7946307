/** Small types shared by the models of the three helpers. */
module Common {

  const U32_MAX: nat := 0xFFFF_FFFF
  const U64_MAX: nat := 0xFFFF_FFFF_FFFF_FFFF

  type byte = x: int | 0 <= x < 256

  type Bytes = seq<byte>

  datatype Option<+T> = None | Some(value: T)

  datatype Result<+T, +E> = Ok(value: T) | Err(error: E)

  /** `u64::saturating_add`. */
  function SatAdd(a: nat, b: nat): nat {
    if a + b > U64_MAX then U64_MAX else a + b
  }

  function Max(a: nat, b: nat): nat {
    if a < b then b else a
  }

  function Min(a: nat, b: nat): nat {
    if a < b then a else b
  }

  /** `Vec::retain`: the elements that pass, in order. */
  function Retain<T>(s: seq<T>, keep: T -> bool): seq<T> {
    if s == [] then [] else
    Retain(s[..|s| - 1], keep) + if keep(s[|s| - 1]) then [s[|s| - 1]] else []
  }

  lemma {:induction false} RetainIsFilter<T>(s: seq<T>, keep: T -> bool)
    ensures |Retain(s, keep)| <= |s|
    ensures forall x :: x in Retain(s, keep) <==> x in s && keep(x)
    decreases |s|
  {
    if s != [] {
      var init, last := s[..|s| - 1], s[|s| - 1];
      RetainIsFilter(init, keep);
      assert s == init + [last];
    }
  }

  /** Some of the elements, in the same order. */
  predicate Subsequence<T(==)>(a: seq<T>, b: seq<T>) {
    if a == [] then true
    else if b == [] then false
    else
      || (a[|a| - 1] == b[|b| - 1] && Subsequence(a[..|a| - 1], b[..|b| - 1]))
      || Subsequence(a, b[..|b| - 1])
  }

  lemma {:induction false} RetainInOrder<T>(s: seq<T>, keep: T -> bool)
    ensures Subsequence(Retain(s, keep), s)
    decreases |s|
  {
    if s != [] {
      var init, last := s[..|s| - 1], s[|s| - 1];
      RetainInOrder(init, keep);
      var kept := Retain(s, keep);
      if keep(last) {
        assert kept[..|kept| - 1] == Retain(init, keep);
      } else {
        assert kept == Retain(init, keep);
      }
    }
  }

  predicate Distinct<T(==)>(s: seq<T>) {
    forall i, j :: 0 <= i < j < |s| ==> s[i] != s[j]
  }

  lemma {:induction false} RetainDistinct<T>(s: seq<T>, keep: T -> bool)
    requires Distinct(s)
    ensures Distinct(Retain(s, keep))
    decreases |s|
  {
    if s != [] {
      var init := s[..|s| - 1];
      RetainDistinct(init, keep);
      var kept := Retain(init, keep);
      RetainIsFilter(init, keep);
      forall i | 0 <= i < |kept|
        ensures kept[i] != s[|s| - 1]
      {
        assert kept[i] in kept;
      }
    }
  }

  lemma {:induction false} RetainAll<T>(s: seq<T>, keep: T -> bool)
    requires forall x :: x in s ==> keep(x)
    ensures Retain(s, keep) == s
    decreases |s|
  {
    if s != [] {
      RetainAll(s[..|s| - 1], keep);
    }
  }

  /** Removing one position is keeping the others, where only that one fails. */
  lemma {:induction false} RemoveAtIsRetain<T>(s: seq<T>, at: nat, keep: T -> bool)
    requires at < |s| && !keep(s[at]) && forall i :: 0 <= i < |s| && i != at ==> keep(s[i])
    ensures Retain(s, keep) == s[..at] + s[at + 1..]
    decreases |s|
  {
    var init, last := s[..|s| - 1], s[|s| - 1];
    if at == |s| - 1 {
      RetainAll(init, keep);
    } else {
      RemoveAtIsRetain(init, at, keep);
      assert init[..at] == s[..at];
      assert init[at + 1..] + [last] == s[at + 1..];
    }
  }

  lemma {:induction false} LeastExists(ids: set<nat>)
    requires ids != {}
    ensures exists k :: IsLeast(ids, k)
    decreases |ids|
  {
    var x :| x in ids;
    if ids == {x} {
      assert IsLeast(ids, x);
    } else {
      var rest := ids - {x};
      assert ids == rest + {x};
      LeastExists(rest);
      var k :| IsLeast(rest, k);
      assert IsLeast(ids, if k < x then k else x);
    }
  }

  predicate IsLeast(ids: set<nat>, k: nat) {
    k in ids && forall j :: j in ids ==> k <= j
  }

  function Least(ids: set<nat>): (k: nat)
    requires ids != {}
    ensures IsLeast(ids, k)
  {
    LeastExists(ids);
    var k :| k in ids && IsLeast(ids, k);
    k
  }
}

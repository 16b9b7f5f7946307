/** The placeholder for a kept session key (main.rs `keep`): when the key is no longer in what is shown. */
module VaultRedaction {
  import opened Common
  import opened VaultSearch
  import opened VaultSession

  const HELD_SESSION: string := "HELD-BY-QS-BITWARDEN-VAULT-HELPER-SESSION"

  /** Each occurrence of a key, from the left, replaced by a placeholder; a key is not empty. */
  function Redacted(text: string, key: string, mark: string): string {
    if key == "" || |text| < |key| then text
    else if text[..|key|] == key then mark + Redacted(text[|key|..], key, mark)
    else [text[0]] + Redacted(text[1..], key, mark)
  }

  // ---- Keys that clash with the placeholder -----------------------------------------------------

  /** The key, laid over the placeholder from its character `d` on, agrees with it. */
  predicate AgreesFrom(key: string, mark: string, d: nat) {
    d < |mark| && forall i :: 0 <= i < |key| && d + i < |mark| ==> key[i] == mark[d + i]
  }

  /** The placeholder, laid over the key from its character `q` on, agrees with it. */
  predicate AgreesAfter(key: string, mark: string, q: nat) {
    0 < q < |key| && forall i :: q <= i < |key| && i - q < |mark| ==> key[i] == mark[i - q]
  }

  /** No occurrence of the key begins before place `q`. */
  predicate NoneBefore(text: string, key: string, q: nat) {
    forall j :: 0 <= j < q ==> !FoundAt(text, key, j)
  }

  ghost predicate Clashes(key: string, mark: string) {
    || (exists d :: AgreesFrom(key, mark, d))
    || (exists q :: 0 < q < |key| && AgreesAfter(key, mark, q) && NoneBefore(key[..q] + key, key, q))
  }

  // ---- What is replaced -------------------------------------------------------------------------

  lemma FoundAfterFirst(text: string, key: string, j: nat)
    requires text != ""
    ensures FoundAt(text, key, j + 1) <==> FoundAt(text[1..], key, j)
  {
    if j + 1 + |key| <= |text| {
      assert text[1..][j..j + |key|] == text[j + 1..j + 1 + |key|];
    }
  }

  lemma NoneAfterFirst(text: string, key: string, q: nat)
    requires text != "" && q > 0 && NoneBefore(text, key, q)
    ensures NoneBefore(text[1..], key, q - 1)
  {
    forall j | 0 <= j < q - 1
      ensures !FoundAt(text[1..], key, j)
    {
      FoundAfterFirst(text, key, j);
      assert !FoundAt(text, key, j + 1);
    }
  }

  lemma FoundFirst(text: string, key: string)
    ensures FoundAt(text, key, 0) <==> |key| <= |text| && text[..|key|] == key
  {
    assert |key| <= |text| ==> text[0..0 + |key|] == text[..|key|];
  }

  lemma {:induction false} Untouched(text: string, key: string, mark: string)
    requires NoneBefore(text, key, |text| + 1)
    ensures Redacted(text, key, mark) == text
    decreases |text|
  {
    hide FoundAt;
    FoundFirst(text, key);
    if key != "" && |text| >= |key| {
      assert !FoundAt(text, key, 0);
      NoneAfterFirst(text, key, |text| + 1);
      Untouched(text[1..], key, mark);
    }
  }

  lemma RedactedFirst(text: string, key: string, mark: string)
    requires key != "" && |key| <= |text|
    ensures Redacted(text, key, mark) ==
            if text[..|key|] == key then mark + Redacted(text[|key|..], key, mark)
            else [text[0]] + Redacted(text[1..], key, mark)
  {
  }

  /** The text up to its first occurrence of the key, and a placeholder. */
  lemma {:induction false} KeptUntil(text: string, key: string, mark: string, q: nat)
    requires key != "" && q + |key| <= |text| && FoundAt(text, key, q) && NoneBefore(text, key, q)
    ensures Redacted(text, key, mark) == text[..q] + mark + Redacted(text[q + |key|..], key, mark)
    decreases q
  {
    hide FoundAt, Redacted;
    FoundFirst(text, key);
    RedactedFirst(text, key, mark);
    if q == 0 {
      assert text[..0] == "" && "" + mark == mark;
    } else {
      assert !FoundAt(text, key, 0);
      FoundAfterFirst(text, key, q - 1);
      NoneAfterFirst(text, key, q);
      hide NoneBefore;
      var tail := text[1..];
      KeptUntil(tail, key, mark, q - 1);
      assert tail[q - 1 + |key|..] == text[q + |key|..];
      OneMore(text, mark, Redacted(text[q + |key|..], key, mark), q);
    }
  }

  lemma OneMore(text: string, mark: string, rest: string, q: nat)
    requires 0 < q <= |text|
    ensures [text[0]] + (text[1..][..q - 1] + mark + rest) == text[..q] + mark + rest
  {
    assert text[..q] == [text[0]] + text[1..][..q - 1];
  }

  /** The place of the first occurrence; past the end if there is none. */
  lemma FirstPlace(text: string, key: string) returns (q: nat)
    ensures q <= |text| + 1 && NoneBefore(text, key, q) && (q <= |text| ==> FoundAt(text, key, q))
  {
    hide FoundAt;
    q := 0;
    while q <= |text| && !FoundAt(text, key, q)
      invariant q <= |text| + 1 && NoneBefore(text, key, q)
    {
      q := q + 1;
    }
  }

  // ---- A key that does not clash is gone --------------------------------------------------------

  lemma {:induction false} NotShown(text: string, key: string, mark: string, p: nat)
    requires key != "" && !Clashes(key, mark)
    ensures !FoundAt(Redacted(text, key, mark), key, p)
    decreases |text|
  {
    hide Clashes;
    var out := Redacted(text, key, mark);
    if FoundAt(out, key, p) && |text| >= |key| {
      if text[..|key|] == key {
        var rest := Redacted(text[|key|..], key, mark);
        if p >= |mark| {
          assert out[p..p + |key|] == rest[p - |mark|..p - |mark| + |key|];
          NotShown(text[|key|..], key, mark, p - |mark|);
        } else {
          OverTheEnd(key, mark, rest, p);
        }
      } else if p > 0 {
        assert out[p..p + |key|] == Redacted(text[1..], key, mark)[p - 1..p - 1 + |key|];
        NotShown(text[1..], key, mark, p - 1);
      } else {
        FirstShown(text, key, mark);
      }
    }
  }

  /** An occurrence at the very front covers the beginning of a placeholder. */
  lemma FirstShown(text: string, key: string, mark: string)
    requires key != "" && |text| >= |key| && text[..|key|] != key && FoundAt(Redacted(text, key, mark), key, 0)
    ensures Clashes(key, mark)
  {
    var out := Redacted(text, key, mark);
    FoundFirst(out, key);
    FoundFirst(text, key);
    var q := FirstPlace(text, key);
    if q == |text| + 1 {
      Untouched(text, key, mark);
    } else {
      KeptUntil(text, key, mark, q);
      FrontAgrees(text, key, mark, out, q, Redacted(text[q + |key|..], key, mark));
    }
  }

  lemma FrontAgrees(text: string, key: string, mark: string, out: string, q: nat, rest: string)
    requires q + |key| <= |text| && out == text[..q] + mark + rest && |key| <= |out| && out[..|key|] == key
    requires text[..|key|] != key && FoundAt(text, key, q) && NoneBefore(text, key, q)
    ensures Clashes(key, mark)
  {
    hide Clashes;
    assert out[..q] == text[..q] && out[q..] == mark + rest;
    assert q > 0 by {
      assert text[0..0 + |key|] == text[..|key|];
    }
    OverTheStart(text, key, mark, out, q);
  }

  lemma OverTheEnd(key: string, mark: string, rest: string, p: nat)
    requires p < |mark| && FoundAt(mark + rest, key, p)
    ensures Clashes(key, mark)
  {
    var out := mark + rest;
    assert forall i :: 0 <= i < |key| ==> key[i] == out[p..p + |key|][i] == out[p + i];
    assert AgreesFrom(key, mark, p);
  }

  lemma OverTheStart(text: string, key: string, mark: string, out: string, q: nat)
    requires 0 < q < |key| <= |out| && q <= |text| && out[..|key|] == key && out[..q] == text[..q]
    requires mark <= out[q..] && FoundAt(text, key, q) && NoneBefore(text, key, q)
    ensures Clashes(key, mark)
  {
    assert forall i :: 0 <= i < |key| ==> key[i] == out[..|key|][i] == out[i];
    forall i | q <= i < |key| && i - q < |mark|
      ensures key[i] == mark[i - q]
    {
      assert mark[i - q] == out[q..][i - q];
    }
    var doubled := key[..q] + key;
    assert key[..q] == out[..q];
    assert text[..q + |key|] == doubled;
    forall j | 0 <= j < q
      ensures !FoundAt(doubled, key, j)
    {
      assert doubled[j..j + |key|] == text[j..j + |key|];
      assert !FoundAt(text, key, j);
    }
  }

  // ---- A key that clashes can stay --------------------------------------------------------------

  /** A key and the rest of it after a placeholder it began in. */
  lemma StaysFrom(key: string, mark: string, d: nat, text: string)
    requires key != "" && AgreesFrom(key, mark, d) && text == key + key[Min(|key|, |mark| - d)..]
    ensures Contains(Redacted(text, key, mark), key)
  {
    var rest := key[Min(|key|, |mark| - d)..];
    assert text[..|key|] == key && text[|key|..] == rest;
    assert Redacted(rest, key, mark) == rest;
    var out := mark + rest;
    assert Redacted(text, key, mark) == out;
    assert out[d..d + |key|] == key;
    assert FoundAt(out, key, d);
  }

  lemma NoneBeforeLonger(text: string, more: string, key: string, q: nat)
    requires q + |key| <= |text| && NoneBefore(text, key, q)
    ensures NoneBefore(text + more, key, q)
  {
    forall j | 0 <= j < q
      ensures !FoundAt(text + more, key, j)
    {
      assert (text + more)[j..j + |key|] == text[j..j + |key|];
      assert !FoundAt(text, key, j);
    }
  }

  /** The beginning of the key in front of a placeholder, and what is left of it after. */
  lemma StaysAfter(key: string, mark: string, q: nat, text: string)
    requires 0 < q < |key| && AgreesAfter(key, mark, q) && NoneBefore(key[..q] + key, key, q)
    requires text == key[..q] + key + key[Min(|key|, q + |mark|)..]
    ensures Contains(Redacted(text, key, mark), key)
  {
    var rest := key[Min(|key|, q + |mark|)..];
    NoneBeforeLonger(key[..q] + key, rest, key, q);
    assert text[q..q + |key|] == key;
    KeptUntil(text, key, mark, q);
    assert text[q + |key|..] == rest && text[..q] == key[..q];
    assert Redacted(rest, key, mark) == rest;
    hide Redacted, NoneBefore;
    var out := key[..q] + mark + rest;
    assert Redacted(text, key, mark) == out;
    assert out[..|key|] == key;
    FoundFirst(out, key);
  }

  /** A character that the key has not stays where it is. */
  lemma ForeignStays(c: char, text: string, key: string, mark: string)
    requires key != "" && c !in key
    ensures Redacted([c] + text, key, mark) == [c] + Redacted(text, key, mark)
  {
    var s := [c] + text;
    assert s[1..] == text;
    if |s| >= |key| {
      assert s[..|key|][0] == c;
    }
  }

  lemma ContainsLonger(before: string, s: string, needle: string)
    requires Contains(s, needle)
    ensures Contains(before + s, needle)
  {
    var i :| 0 <= i <= |s| && FoundAt(s, needle, i);
    assert (before + s)[|before| + i..|before| + i + |needle|] == s[i..i + |needle|];
    assert FoundAt(before + s, needle, |before| + i);
  }

  /** Where the key is exported on a line of its own, what stays in the lines after it is shown. */
  lemma ExportedStays(key: string, mark: string, tail: string)
    requires IsSessionToken(key) && Contains(Redacted(tail, key, mark), key)
    ensures Contains(Redacted(Exported(key, ['\n'] + tail), key, mark), key)
  {
    hide Contains, Redacted;
    var text := Exported(key, ['\n'] + tail);
    var q := |EXPORT| + 1;
    ExportedAt(key, ['\n'] + tail);
    KeptUntil(text, key, mark, q);
    var rest := ['"'] + (['\n'] + tail);
    assert text[q + |key|..] == rest;
    TokenLacks(key);
    ForeignStays('"', ['\n'] + tail, key, mark);
    ForeignStays('\n', tail, key, mark);
    ContainsLonger(['"'] + ['\n'], Redacted(tail, key, mark), key);
    assert ['"'] + (['\n'] + Redacted(tail, key, mark)) == ['"'] + ['\n'] + Redacted(tail, key, mark);
    ContainsLonger(text[..q] + mark, Redacted(rest, key, mark), key);
  }

  lemma TokenLacks(key: string)
    requires IsSessionToken(key)
    ensures '"' !in key && '\n' !in key
  {
    assert forall i :: 0 <= i < |key| ==> IsTokenChar(key[i]) && key[i] != '"' && key[i] != '\n';
  }

  /** The exported key is the first occurrence: one before it would cover the quote. */
  lemma ExportedAt(key: string, after: string)
    requires IsSessionToken(key)
    ensures FoundAt(Exported(key, after), key, |EXPORT| + 1)
    ensures NoneBefore(Exported(key, after), key, |EXPORT| + 1)
  {
    var text, q := Exported(key, after), |EXPORT| + 1;
    assert text[q..q + |key|] == key;
    assert text[|EXPORT|] == '"';
    TokenLacks(key);
    forall j | 0 <= j < q
      ensures !FoundAt(text, key, j)
    {
      var k := |EXPORT| - j;
      assert j + |key| <= |text| ==> text[j..j + |key|][k] == '"';
    }
  }

  // ---- What `keep` shows ------------------------------------------------------------------------

  /** No output from which this key is read is shown with the key in it. */
  ghost predicate NeverShown(key: string, mark: string) {
    forall text :: ExtractSession(text) == Some(key) ==> !Contains(Redacted(text, key, mark), key)
  }

  lemma ShownIfClashes(key: string, mark: string)
    requires IsSessionToken(key) && Clashes(key, mark)
    ensures !NeverShown(key, mark)
  {
    var tail;
    if d :| AgreesFrom(key, mark, d) {
      tail := key + key[Min(|key|, |mark| - d)..];
      StaysFrom(key, mark, d, tail);
    } else {
      var q :| 0 < q < |key| && AgreesAfter(key, mark, q) && NoneBefore(key[..q] + key, key, q);
      tail := key[..q] + key + key[Min(|key|, q + |mark|)..];
      StaysAfter(key, mark, q, tail);
    }
    hide Clashes, Redacted, Contains, ExtractSession;
    ExportedStays(key, mark, tail);
    ExportedIsRead(key, ['\n'] + tail);
  }

  lemma HiddenUnlessClashes(key: string, mark: string)
    requires key != "" && !Clashes(key, mark)
    ensures NeverShown(key, mark)
  {
    hide Clashes, ExtractSession;
    forall text
      ensures !Contains(Redacted(text, key, mark), key)
    {
      forall p | 0 <= p <= |Redacted(text, key, mark)|
        ensures !FoundAt(Redacted(text, key, mark), key, p)
      {
        NotShown(text, key, mark, p);
      }
    }
  }

  /** For every session key: no output it is read from is shown with the key in it, if and only if the key
      does not clash with the placeholder. */
  lemma RedactionHidesIff(key: string)
    requires IsSessionToken(key)
    ensures NeverShown(key, HELD_SESSION) <==> !Clashes(key, HELD_SESSION)
  {
    hide NeverShown, Clashes;
    if Clashes(key, HELD_SESSION) {
      ShownIfClashes(key, HELD_SESSION);
    } else {
      HiddenUnlessClashes(key, HELD_SESSION);
    }
  }

  /** The placeholder ends in N. Every key that begins with one is read from this output, and the output
      is shown with the key still in it. */
  lemma KeysInNStayShown(key: string)
    requires IsSessionToken(key) && key[0] == 'N'
    ensures var text := Exported(key, ['\n'] + (key + key[1..]));
            && ExtractSession(text) == Some(key)
            && Contains(Redacted(text, key, HELD_SESSION), key)
  {
    assert HELD_SESSION[|HELD_SESSION| - 1] == 'N';
    LastOfMark(key, HELD_SESSION);
    hide Redacted, Contains, ExtractSession;
    ExportedIsRead(key, ['\n'] + (key + key[1..]));
    ExportedStays(key, HELD_SESSION, key + key[1..]);
  }

  lemma LastOfMark(key: string, mark: string)
    requires key != "" && mark != "" && key[0] == mark[|mark| - 1]
    ensures Contains(Redacted(key + key[1..], key, mark), key)
  {
    StaysFrom(key, mark, |mark| - 1, key + key[1..]);
  }
}

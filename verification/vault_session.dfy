/** Session keys in the output of `bw unlock` and `bw login` (store.rs). */
module VaultSession {
  import opened Common
  import opened VaultSearch

  const EXPORT: string := "BW_SESSION="
  const MIN_TOKEN: nat := 32

  predicate IsTokenChar(c: char) {
    || 'a' <= c <= 'z' || 'A' <= c <= 'Z' || '0' <= c <= '9'
    || c == '+' || c == '/' || c == '=' || c == '_' || c == '-'
  }

  predicate IsSessionToken(value: string) {
    |value| >= MIN_TOKEN && forall i :: 0 <= i < |value| ==> IsTokenChar(value[i])
  }

  /** The place of the first occurrence. */
  function Find(s: string, needle: string): Option<nat> {
    if FoundAt(s, needle, 0) then Some(0)
    else if s == "" then None
    else match Find(s[1..], needle) case None => None case Some(i) => Some(i + 1)
  }

  lemma {:induction false} FindIsFound(s: string, needle: string)
    ensures Find(s, needle).Some? ==> FoundAt(s, needle, Find(s, needle).value)
    decreases |s|
  {
    if !FoundAt(s, needle, 0) && s != "" && Find(s[1..], needle).Some? {
      FindIsFound(s[1..], needle);
      var i := Find(s[1..], needle).value;
      assert s[1..][i..i + |needle|] == s[i + 1..i + 1 + |needle|];
    }
  }

  function DropQuotes(s: string): string {
    if s != "" && s[0] == '"' then DropQuotes(s[1..]) else s
  }

  predicate EndsValue(c: char) {
    c == '"' || c == '\n' || c == '\r'
  }

  /** Up to the first character that ends a value. */
  function Value(s: string): string {
    if s == "" || EndsValue(s[0]) then "" else [s[0]] + Value(s[1..])
  }

  function Line(s: string): string {
    if s == "" || s[0] == '\n' then "" else [s[0]] + Line(s[1..])
  }

  lemma {:induction false} LineIsPrefix(s: string)
    ensures |Line(s)| <= |s| && (|Line(s)| < |s| ==> s[|Line(s)|] == '\n')
    decreases |s|
  {
    if s != "" && s[0] != '\n' {
      LineIsPrefix(s[1..]);
    }
  }

  /** The first line that is a key, without the blanks around it. */
  function TokenLine(s: string): Option<string>
    decreases |s|
  {
    LineIsPrefix(s);
    var line := Trim(Line(s));
    if IsSessionToken(line) then Some(line)
    else if |Line(s)| == |s| then None
    else TokenLine(s[|Line(s)| + 1..])
  }

  /** The key after `BW_SESSION=`, or else the first line that is one. */
  function ExtractSession(raw: string): Option<string> {
    var text := Trim(raw);
    var at := Find(text, EXPORT);
    FindIsFound(text, EXPORT);
    if at.Some? then
      var value := Trim(Value(DropQuotes(text[at.value + |EXPORT|..])));
      if IsSessionToken(value) then Some(value) else TokenLine(text)
    else
      TokenLine(text)
  }

  lemma {:induction false} TokenLineIsToken(s: string)
    ensures TokenLine(s).Some? ==> IsSessionToken(TokenLine(s).value)
    decreases |s|
  {
    LineIsPrefix(s);
    if !IsSessionToken(Trim(Line(s))) && |Line(s)| < |s| {
      TokenLineIsToken(s[|Line(s)| + 1..]);
    }
  }

  /** Only a key is read. */
  lemma ExtractedIsToken(raw: string)
    ensures ExtractSession(raw).Some? ==> IsSessionToken(ExtractSession(raw).value)
  {
    TokenLineIsToken(Trim(raw));
    hide IsSessionToken, TokenLine, Trim, Value, DropQuotes, Find;
    FindIsFound(Trim(raw), EXPORT);
  }

  // ---- A key that is exported is read -----------------------------------------------------------

  /** Output that exports a key, whatever follows. */
  function Exported(key: string, after: string): string {
    EXPORT + ['"'] + key + ['"'] + after
  }

  lemma {:induction false} TrimEndKeeps(s: string, after: string)
    requires s != "" && !IsSpace(s[|s| - 1])
    ensures TrimEnd(s + after) == s + TrimEnd(after)
    decreases |after|
  {
    if after == "" {
      assert s + after == s;
    } else if IsSpace(after[|after| - 1]) {
      var init := after[..|after| - 1];
      assert (s + after)[..|s + after| - 1] == s + init;
      TrimEndKeeps(s, init);
    }
  }

  lemma TokenIsTrimmed(key: string)
    requires IsSessionToken(key)
    ensures Trim(key) == key
  {
    assert IsTokenChar(key[0]) && IsTokenChar(key[|key| - 1]);
  }

  lemma {:induction false} ValueIs(key: string, after: string)
    requires forall i :: 0 <= i < |key| ==> !EndsValue(key[i])
    ensures Value(key + ['"'] + after) == key
    decreases |key|
  {
    var s := key + ['"'] + after;
    if key != "" {
      ValueIs(key[1..], after);
      assert s[1..] == key[1..] + ['"'] + after;
    }
  }

  /** Every key that is exported is the one read. */
  lemma ExportedIsRead(key: string, after: string)
    requires IsSessionToken(key)
    ensures ExtractSession(Exported(key, after)) == Some(key)
  {
    var head := EXPORT + ['"'] + key + ['"'];
    var text := Exported(key, after);
    assert text == head + after && head[0] == 'B' && head[|head| - 1] == '"';
    TrimEndKeeps(head, after);
    var cut := TrimEnd(after);
    assert TrimStart(text) == text && Trim(text) == head + cut;
    ExportIsRead(key, cut, head + cut);
  }

  lemma ExportIsRead(key: string, cut: string, text: string)
    requires IsSessionToken(key) && text == Exported(key, cut)
    ensures Find(text, EXPORT) == Some(0)
    ensures Trim(Value(DropQuotes(text[|EXPORT|..]))) == key
  {
    assert text[0..0 + |EXPORT|] == EXPORT;
    assert IsTokenChar(key[0]);
    var rest := key + ['"'] + cut;
    assert text[|EXPORT|..] == ['"'] + rest && (['"'] + rest)[1..] == rest && rest[0] == key[0];
    assert DropQuotes(text[|EXPORT|..]) == rest;
    assert forall i :: 0 <= i < |key| ==> IsTokenChar(key[i]) && !EndsValue(key[i]);
    ValueIs(key, cut);
    TokenIsTrimmed(key);
  }
}

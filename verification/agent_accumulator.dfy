/** The line accumulator of the key-load FIFO (runtime.rs). */
module Accumulator {
  import opened Common
  import opened KeyStores

  const NEWLINE: byte := 10

  /** Where a load's payload starts in a line, if the line is its own. Left to the caller: any
      function whose offset is within the line. */
  type Filter = f: Bytes -> Option<nat> | forall line: Bytes :: f(line).Some? ==> f(line).value <= |line| witness NoLine

  function NoLine(line: Bytes): Option<nat> {
    None
  }

  function FirstNewline(s: Bytes): Option<nat> {
    if s == [] then None
    else if s[0] == NEWLINE then Some(0)
    else
      match FirstNewline(s[1..])
      case None => None
      case Some(i) => Some(i + 1)
  }

  /** What a whole stream is to give: the payload of its first complete line that is not over the
      cap and that the filter locates. */
  function FirstPayload(f: Filter, stream: Bytes): Option<Bytes>
    decreases |stream|
  {
    match FirstNewline(stream)
    case None => None
    case Some(i) =>
      FirstNewlineIs(stream);
      var line := stream[..i];
      if |line| <= MAX_FILTERED_BYTES && f(line).Some? then Some(line[f(line).value..])
      else FirstPayload(f, stream[i + 1..])
  }

  lemma {:induction false} FirstNewlineIs(s: Bytes)
    ensures FirstNewline(s).None? <==> NEWLINE !in s
    ensures FirstNewline(s).Some? ==>
              var i := FirstNewline(s).value; i < |s| && s[i] == NEWLINE && NEWLINE !in s[..i]
    decreases |s|
  {
    if s != [] && s[0] != NEWLINE {
      FirstNewlineIs(s[1..]);
      assert s == [s[0]] + s[1..];
      if FirstNewline(s[1..]).Some? {
        var i := FirstNewline(s[1..]).value;
        assert s[..i + 1] == [s[0]] + s[1..][..i];
      }
    }
  }

  lemma {:induction false} FirstNewlineAfter(a: Bytes, b: Bytes)
    requires NEWLINE !in a
    ensures FirstNewline(a + b) == (match FirstNewline(b) case None => None case Some(i) => Some(|a| + i))
    decreases |a|
  {
    if a == [] {
      assert a + b == b;
    } else {
      assert (a + b)[1..] == a[1..] + b;
      FirstNewlineAfter(a[1..], b);
    }
  }

  /** The tail of a stream that has given nothing yet: what follows its last newline. */
  function Tail(stream: Bytes): Bytes
    decreases |stream|
  {
    match FirstNewline(stream)
    case None => stream
    case Some(i) => FirstNewlineIs(stream); Tail(stream[i + 1..])
  }

  /** A first line stays the first line, whatever follows the stream. */
  lemma FirstLineStays(seen: Bytes, more: Bytes)
    requires FirstNewline(seen).Some?
    ensures FirstNewline(seen + more) == FirstNewline(seen)
    ensures var i := FirstNewline(seen).value;
            && i < |seen|
            && (seen + more)[..i] == seen[..i]
            && (seen + more)[i + 1..] == seen[i + 1..] + more
  {
    FirstNewlineIs(seen);
    var i := FirstNewline(seen).value;
    assert seen + more == seen[..i] + (seen[i..] + more);
    FirstNewlineAfter(seen[..i], seen[i..] + more);
  }

  /** Nothing found before means only the unfinished line matters from here on. */
  lemma {:induction false} OnlyTheTailMatters(f: Filter, seen: Bytes, more: Bytes)
    requires FirstPayload(f, seen).None?
    ensures FirstPayload(f, seen + more) == FirstPayload(f, Tail(seen) + more)
    ensures Tail(seen + more) == Tail(Tail(seen) + more)
    ensures NEWLINE !in Tail(seen)
    decreases |seen|
  {
    hide FirstNewline;
    FirstNewlineIs(seen);
    if FirstNewline(seen).Some? {
      var i := FirstNewline(seen).value;
      FirstLineStays(seen, more);
      OnlyTheTailMatters(f, seen[i + 1..], more);
    }
  }

  class PayloadAccumulator {
    const filter: Filter
    var line: Bytes
    var oversized: bool

    constructor (filter: Filter)
      ensures this.filter == filter && Holds([])
    {
      this.filter := filter;
      line, oversized := [], false;
    }

    /** The state after a stream that has given nothing: its unfinished line, kept only while it is
        within the cap. */
    ghost predicate Holds(seen: Bytes)
      reads this
    {
      && FirstPayload(filter, seen).None?
      && oversized == (|Tail(seen)| > MAX_FILTERED_BYTES)
      && line == if oversized then [] else Tail(seen)
    }

    /** Appends a piece of a line, or drops the line once it is past the cap. */
    method Extend(part: Bytes, ghost seen: Bytes)
      requires Holds(seen) && NEWLINE !in part
      modifies this
      ensures Holds(seen + part)
      ensures Tail(seen + part) == Tail(seen) + part
    {
      OnlyTheTailMatters(filter, seen, part);
      PartKeepsLine(seen, part);
      FirstNewlineIs(Tail(seen) + part);
      hide FirstNewline, Tail;
      if !oversized {
        if |line| + |part| > MAX_FILTERED_BYTES {
          line, oversized := [], true;
        } else {
          line := line + part;
        }
      }
    }

    /** Ends the line: its payload if it has one, and else a fresh line. */
    method EndLine(ghost seen: Bytes) returns (payload: Option<Bytes>)
      requires Holds(seen)
      modifies this
      ensures payload == FirstPayload(filter, seen + [NEWLINE])
      ensures payload.None? ==> Holds(seen + [NEWLINE])
    {
      OnlyTheTailMatters(filter, seen, []);
      LineEnds(filter, seen);
      hide FirstNewline, Tail, FirstPayload;
      var start := if oversized then None else filter(line);
      if start.Some? {
        payload := Some(line[start.value..]);
        line := [];
        return;
      }
      line, oversized := [], false;
      return None;
    }

    /** Takes what is left of one line off the front of `rest`. */
    method TakeLine(rest: Bytes, ghost seen: Bytes) returns (payload: Option<Bytes>, used: nat)
      requires Holds(seen) && rest != []
      modifies this
      ensures 0 < used <= |rest|
      ensures payload == FirstPayload(filter, seen + rest[..used])
      ensures payload.None? ==> Holds(seen + rest[..used])
    {
      var newline := FirstNewline(rest);
      FirstNewlineIs(rest);
      hide FirstPayload, Tail, Holds, FirstNewline;
      match newline
      case None =>
        Extend(rest, seen);
        assert rest[..|rest|] == rest;
        FoundNothing(seen + rest);
        return None, |rest|;
      case Some(at) =>
        Extend(rest[..at], seen);
        payload := EndLine(seen + rest[..at]);
        SameBytes(seen, rest, at, [NEWLINE]);
        used := at + 1;
    }

    method Push(chunk: Bytes, ghost seen: Bytes) returns (payload: Option<Bytes>)
      requires Holds(seen)
      modifies this
      ensures payload == FirstPayload(filter, seen + chunk)
      ensures payload.None? ==> Holds(seen + chunk)
    {
      hide FirstPayload, Holds;
      var rest := chunk;
      ghost var n: nat := 0;
      assert seen + chunk[..n] == seen;
      while rest != []
        invariant n <= |chunk| && rest == chunk[n..]
        invariant Holds(seen + chunk[..n])
        decreases |rest|
      {
        var used: nat;
        payload, used := TakeLine(rest, seen + chunk[..n]);
        SameBytes(seen, chunk, n, rest[..used]);
        n := n + used;
        rest := rest[used..];
        if payload.Some? {
          FoundIsFound(filter, seen + chunk[..n], rest);
          SameBytes(seen, chunk, n, rest);
          assert chunk[..|chunk|] == chunk;
          return;
        }
      }
      assert chunk[..n] == chunk;
      FoundNothing(seen + chunk);
      return None;
    }

    lemma FoundNothing(seen: Bytes)
      requires Holds(seen)
      ensures FirstPayload(filter, seen).None?
    {
    }
  }

  lemma SameBytes(seen: Bytes, chunk: Bytes, n: nat, part: Bytes)
    requires n + |part| <= |chunk| && part == chunk[n..n + |part|]
    ensures seen + chunk[..n] + part == seen + chunk[..n + |part|]
  {
    assert chunk[..n] + part == chunk[..n + |part|];
  }

  /** Bytes without a newline only grow the unfinished line. */
  lemma PartKeepsLine(seen: Bytes, part: Bytes)
    requires NEWLINE !in part && NEWLINE !in Tail(seen)
    ensures Tail(Tail(seen) + part) == Tail(seen) + part
  {
    FirstNewlineIs(Tail(seen) + part);
  }

  /** A newline ends the line: it gives the payload if it can, and else is forgotten. */
  lemma LineEnds(f: Filter, seen: Bytes)
    requires FirstPayload(f, seen).None?
    ensures var line := Tail(seen);
            var given := |line| <= MAX_FILTERED_BYTES && f(line).Some?;
            && FirstPayload(f, seen + [NEWLINE]) == (if given then Some(line[f(line).value..]) else None)
            && (!given ==> Tail(seen + [NEWLINE]) == [])
  {
    hide FirstNewline;
    var line := Tail(seen);
    OnlyTheTailMatters(f, seen, [NEWLINE]);
    FirstNewlineAfter(line, [NEWLINE]);
    assert FirstNewline([NEWLINE]) == Some(0) by { FirstNewlineIs([NEWLINE]); }
    assert (line + [NEWLINE])[..|line|] == line;
    assert (line + [NEWLINE])[|line| + 1..] == [];
    FirstNewlineIs([]);
  }

  function Concat(chunks: seq<Bytes>): Bytes {
    if chunks == [] then [] else Concat(chunks[..|chunks| - 1]) + chunks[|chunks| - 1]
  }

  lemma {:induction false} FoundIsFound(f: Filter, seen: Bytes, more: Bytes)
    requires FirstPayload(f, seen).Some?
    ensures FirstPayload(f, seen + more) == FirstPayload(f, seen)
    decreases |seen|
  {
    hide FirstNewline;
    FirstLineStays(seen, more);
    var i := FirstNewline(seen).value;
    if !(i <= MAX_FILTERED_BYTES && f(seen[..i]).Some?) {
      FoundIsFound(f, seen[i + 1..], more);
    }
  }

  lemma {:induction false} ConcatPrefix(chunks: seq<Bytes>, n: nat)
    requires n <= |chunks|
    ensures exists rest :: Concat(chunks) == Concat(chunks[..n]) + rest
    decreases |chunks|
  {
    if n == |chunks| {
      assert chunks[..n] == chunks;
      assert Concat(chunks) == Concat(chunks[..n]) + [];
    } else {
      var init := chunks[..|chunks| - 1];
      ConcatPrefix(init, n);
      assert init[..n] == chunks[..n];
      var rest :| Concat(init) == Concat(chunks[..n]) + rest;
      assert Concat(chunks) == Concat(chunks[..n]) + (rest + chunks[|chunks| - 1]);
    }
  }

  /** Feeds a stream cut into chunks in any way, as the reader does: the result is that of the
      stream in one piece. */
  method Feed(filter: Filter, chunks: seq<Bytes>) returns (payload: Option<Bytes>)
    ensures payload == FirstPayload(filter, Concat(chunks))
  {
    var accumulator := new PayloadAccumulator(filter);
    var i := 0;
    while i < |chunks|
      invariant i <= |chunks|
      invariant accumulator.filter == filter
      invariant accumulator.Holds(Concat(chunks[..i]))
    {
      assert chunks[..i + 1][..i] == chunks[..i];
      payload := accumulator.Push(chunks[i], Concat(chunks[..i]));
      if payload.Some? {
        ConcatPrefix(chunks, i + 1);
        ghost var rest :| Concat(chunks) == Concat(chunks[..i + 1]) + rest;
        FoundIsFound(filter, Concat(chunks[..i + 1]), rest);
        return;
      }
      i := i + 1;
    }
    assert chunks[..i] == chunks;
    payload := None;
  }
}

/** Per-connection forwarding state of the agent's server (server.rs). */
module Connection {
  import opened Common
  import opened Wire
  import opened WireStrings

  const MAX_SESSION_BINDS: nat := 16

  /** The bind a frame parses to, if it is one. */
  function ParsedBind(frame: Bytes): Option<AgentRequest> {
    var r := DecodeRequest(frame);
    if r.Some? && r.value.SessionBind? then r else None
  }

  /** Every binding parsed so far, oldest first. */
  function AllBindings(frames: seq<Bytes>): seq<SessionBinding> {
    if frames == [] then [] else
    var init, last := frames[..|frames| - 1], frames[|frames| - 1];
    AllBindings(init) + if ParsedBind(last).Some? then [ParsedBind(last).value.binding] else []
  }

  function FirstOf<T>(s: seq<T>, n: nat): seq<T> {
    if |s| <= n then s else s[..n]
  }

  /** What marks a connection as forwarded: a bind that says so, an extension refused that names a
      bind or cannot be read, or a bind there is no room to record. */
  ghost predicate Marks(frames: seq<Bytes>, i: nat)
    requires i < |frames|
  {
    || (ParsedBind(frames[i]).Some?
        && (ParsedBind(frames[i]).value.forwarding || |AllBindings(frames[..i])| >= MAX_SESSION_BINDS))
    || (DecodeRequest(frames[i]).None? && MayBeSessionBind(frames[i]))
  }

  ghost predicate Marked(frames: seq<Bytes>) {
    exists i :: 0 <= i < |frames| && Marks(frames, i)
  }

  lemma MarkedStep(frames: seq<Bytes>, n: nat)
    requires n < |frames|
    ensures Marked(frames[..n + 1]) <==> Marked(frames[..n]) || Marks(frames, n)
  {
    var before, after := frames[..n], frames[..n + 1];
    forall i | 0 <= i < n ensures Marks(before, i) <==> Marks(after, i) {
      assert before[..i] == after[..i] && before[i] == after[i];
    }
    assert after[..n] == frames[..n];
    assert Marks(after, n) <==> Marks(frames, n);
    if Marked(before) {
      var i :| 0 <= i < n && Marks(before, i);
      assert Marks(after, i);
    }
  }

  /** Handles the frames of one connection in order: the loop over `forwarded` and `binds`. */
  method Serve(frames: seq<Bytes>) returns (forwarded: bool, binds: seq<SessionBinding>)
    ensures forwarded <==> Marked(frames)
    ensures binds == FirstOf(AllBindings(frames), MAX_SESSION_BINDS)
  {
    forwarded, binds := false, [];
    var i := 0;
    while i < |frames|
      invariant i <= |frames|
      invariant forwarded <==> Marked(frames[..i])
      invariant binds == FirstOf(AllBindings(frames[..i]), MAX_SESSION_BINDS)
    {
      var frame := frames[i];
      MarkedStep(frames, i);
      assert frames[..i + 1][..i] == frames[..i];
      var request := DecodeRequest(frame);
      if request.None? {
        if MayBeSessionBind(frame) {
          forwarded := true;
        }
      } else if request.value.SessionBind? {
        if |binds| < MAX_SESSION_BINDS {
          binds := binds + [request.value.binding];
          forwarded := forwarded || request.value.forwarding;
        } else {
          forwarded := true;
        }
      }
      i := i + 1;
    }
    assert frames[..i] == frames;
  }

  /** A frame as the reader hands it over: the declared length is the length. */
  predicate WellFramed(frame: Bytes) {
    |frame| >= 5 && ReadU32(frame) == |frame| - 4 <= MAX_FRAME_LEN
  }

  lemma RefusedOrBind(frame: Bytes)
    requires WellFramed(frame) && MayBeSessionBind(frame)
    ensures ParsedBind(frame).Some? || DecodeRequest(frame).None?
  {
    assert frame[4..][1..] == frame[5..];
    BindIsBind(frame[5..]);
    hide ReadU32, DecodeString, DecodeSessionBind;
  }

  lemma {:induction false} ParsedIsListed(frames: seq<Bytes>, i: nat)
    requires i < |frames| && ParsedBind(frames[i]).Some?
    ensures ParsedBind(frames[i]).value.binding in AllBindings(frames)
    decreases |frames|
  {
    if i < |frames| - 1 {
      ParsedIsListed(frames[..|frames| - 1], i);
    }
  }

  /** `Marked` once, marked for good: no later frame clears it. */
  lemma MarkedForGood(frames: seq<Bytes>, more: seq<Bytes>)
    requires Marked(frames)
    ensures Marked(frames + more)
  {
    var i :| 0 <= i < |frames| && Marks(frames, i);
    assert (frames + more)[..i] == frames[..i];
    assert Marks(frames + more, i);
  }

  lemma {:induction false} CountIsRecorded(frames: seq<Bytes>)
    requires !Marked(frames)
    ensures |AllBindings(frames)| <= MAX_SESSION_BINDS
    decreases |frames|
  {
    if frames != [] {
      var init := frames[..|frames| - 1];
      assert init + frames[|frames| - 1..] == frames;
      if Marked(init) {
        MarkedForGood(init, frames[|frames| - 1..]);
      }
      CountIsRecorded(init);
      assert !Marks(frames, |frames| - 1);
    }
  }

  /** While a connection is not marked, every session bind it has sent parsed, said it is not
      forwarding, and is on record: a local grant can only answer what is known to be local. */
  lemma UnmarkedBindsAreOnRecord(frames: seq<Bytes>, i: nat)
    requires i < |frames| && WellFramed(frames[i]) && MayBeSessionBind(frames[i]) && !Marked(frames)
    ensures var bind := ParsedBind(frames[i]);
            && bind.Some? && !bind.value.forwarding
            && bind.value.binding in FirstOf(AllBindings(frames), MAX_SESSION_BINDS)
  {
    RefusedOrBind(frames[i]);
    assert !Marks(frames, i);
    ParsedIsListed(frames, i);
    CountIsRecorded(frames);
  }
}

/** From the frames a client sends to the signature it gets: what a grant can sign, and what a forwarded
    connection cannot get. */
module AgentGrants {
  import opened Common
  import opened AgentSpec
  import opened AgentRequests
  import T = AgentTheorems
  import A = Approvals
  import W = Wire
  import C = Connection
  import S = AgentSafety

  // ---- Runs whose requests come from connections ------------------------------------------------

  function Recorded(frames: seq<Bytes>): seq<W.SessionBinding> {
    C.FirstOf(C.AllBindings(frames), C.MAX_SESSION_BINDS)
  }

  /** The request is the last of these frames of one connection: its kind is read off its own bytes and the
      binds on record, and it is forwarded exactly when the connection is marked. */
  ghost predicate FromConnection(r: SignRequest, frames: seq<Bytes>) {
    && frames != []
    && W.DecodeRequest(frames[|frames| - 1]) == Some(W.Sign(r.blob, r.message, r.flags))
    && r.scope == A.SignScope(W.ClassifySign(r.blob, r.message, Recorded(frames)), C.Marked(frames))
  }

  /** A frame of a connection. */
  datatype Origin = Origin(connection: nat, at: nat)

  /** All frames each connection ever sends, and for each event of a run the frame that brought it. */
  datatype Traffic = Traffic(sent: nat -> seq<Bytes>, origin: nat -> Origin)

  predicate InTraffic(traffic: Traffic, i: nat) {
    traffic.origin(i).at < |traffic.sent(traffic.origin(i).connection)|
  }

  /** What its connection had sent when the event came, the frame that brought it last. */
  function FramesAt(traffic: Traffic, i: nat): seq<Bytes>
    requires InTraffic(traffic, i)
  {
    traffic.sent(traffic.origin(i).connection)[..traffic.origin(i).at + 1]
  }

  ghost predicate AllGenuine(traffic: Traffic, events: seq<Event>) {
    forall i :: 0 <= i < |events| && events[i].AskSign? ==>
      InTraffic(traffic, i) && FromConnection(events[i].request, FramesAt(traffic, i))
  }

  /** The event that brought the request with this ticket. */
  ghost predicate Brought(events: seq<Event>, states: seq<State>, i: nat, t: Ticket)
    requires |states| == |events| + 1
  {
    i < |events| && events[i].AskSign? && !states[i].stopped && states[i].arrivals == t
  }

  lemma NothingAsked(uid: nat)
    ensures Requests(Initial(uid).log) == {}
  {
  }

  lemma {:induction false} AskedByEvent(uid: nat, events: seq<Event>, states: seq<State>, n: nat, t: Ticket,
                                        r: SignRequest)
    returns (i: nat)
    requires T.IsRun(uid, events, states) && n <= |events| && (t, r) in Requests(states[n].log)
    ensures i < n && Brought(events, states, i, t) && events[i].request == r
    decreases n
  {
    NothingAsked(uid);
    hide Step, Requests;
    assert n > 0;
    StepAsks(states[n - 1], events[n - 1]);
    if (t, r) in Requests(states[n - 1].log) {
      i := AskedByEvent(uid, events, states, n - 1, t, r);
    } else {
      i := n - 1;
    }
  }

  lemma {:induction false} BroughtIsAsked(uid: nat, events: seq<Event>, states: seq<State>, n: nat, i: nat, t: Ticket)
    requires T.IsRun(uid, events, states) && i < n <= |events| && Brought(events, states, i, t)
    ensures (t, events[i].request) in Requests(states[n].log)
    decreases n
  {
    hide Step;
    StepAsks(states[n - 1], events[n - 1]);
    if i < n - 1 {
      BroughtIsAsked(uid, events, states, n - 1, i, t);
    }
  }

  lemma {:induction false} EarlierRequests(p: Log, log: Log)
    requires T.Earlier(p, log)
    ensures Requests(p) <= Requests(log)
    decreases log
  {
    if p != log {
      EarlierRequests(p, log.past);
    }
  }

  /** The data is what the kind says: a signature in that namespace, or a login of that user to that host with
      the signing key. */
  ghost predicate Describes(kind: A.SignKind, blob: Bytes, message: Bytes, binds: seq<W.SessionBinding>) {
    match kind
    case SshSig(namespace) => W.IsSshSig(namespace, message)
    case UserAuth(user, host) => W.IsLogin(user, host, blob, message, binds)
    case Other => false
  }

  lemma KindDescribes(blob: Bytes, message: Bytes, binds: seq<W.SessionBinding>)
    ensures var kind := W.ClassifySign(blob, message, binds);
            kind != A.Other ==> Describes(kind, blob, message, binds)
  {
    hide W.IsSshSig, W.IsLogin, W.SshSigNamespace, W.UserAuthKind;
    if W.SshSigNamespace(message).Some? {
      W.SshSigOnlyEncoding(message);
    } else if W.ClassifySign(blob, message, binds).UserAuth? {
      W.LoginShownIsLoginSigned(blob, message, binds);
    } else {
      KindIsLogin(blob, message, binds);
    }
  }

  lemma KindIsLogin(blob: Bytes, message: Bytes, binds: seq<W.SessionBinding>)
    ensures W.UserAuthKind(blob, message, binds).Some? ==> W.UserAuthKind(blob, message, binds).value.UserAuth?
  {
    hide W.DecodeLogin, W.Displayable, W.BoundHost;
  }

  /** The grant covers this request of a connection: same unlock, key and program, still open, for exactly
      the kind of data the message is, on a connection not marked as forwarded. */
  ghost predicate Answers(g: A.Grant, r: SignRequest, frames: seq<Bytes>, epoch: nat, now: nat) {
    && g.epoch == epoch && g.blob == r.blob && now < g.expiresAtMs
    && g.peer.uid == r.peer.uid && g.peer.executable == r.peer.executable
    && FromConnection(r, frames) && !C.Marked(frames)
    && g.kind == W.ClassifySign(r.blob, r.message, Recorded(frames))
    && Describes(g.kind, r.blob, r.message, Recorded(frames))
  }

  lemma GrantAnswers(past: Log, r: SignRequest, epoch: nat, now: nat, frames: seq<Bytes>)
    requires CoveredByGrant(past, r, epoch, now) && FromConnection(r, frames)
    ensures exists g :: g in Granted(past) && Answers(g, r, frames, epoch, now)
  {
    hide W.ClassifySign, Describes, C.Marked, Recorded, W.DecodeRequest;
    T.GrantsAreLocal(past, r, epoch, now);
    var g :| g in Granted(past) && g.epoch == epoch && g.blob == r.blob && g.kind == r.scope.kind
             && g.peer.uid == r.peer.uid && g.peer.executable == r.peer.executable && now < g.expiresAtMs;
    KindDescribes(r.blob, r.message, Recorded(frames));
    assert Answers(g, r, frames, epoch, now);
  }

  /** Over every run whose requests come from connections: a signature the panel was not asked about answers
      the request some event brought for exactly this data, the connection that sent it was not marked then,
      and an open grant of this unlock is for exactly what the message is by the binds of that connection:
      that namespace, or that user at that host. */
  lemma GrantSignsOnlyWhatItNames(traffic: Traffic, uid: nat, events: seq<Event>, states: seq<State>, n: nat,
                                  past: Log, t: Ticket, blob: Bytes, message: Bytes, flags: nat, now: nat)
    requires T.IsRun(uid, events, states) && AllGenuine(traffic, events) && n <= |events|
    requires T.Earlier(Then(past, Signed(t, blob, message, flags, now)), states[n].log)
    ensures ServiceOf(past).Serving?
    ensures || ApprovedByPanel(past, t, ServiceOf(past).epoch)
            || (exists i, g ::
                  && 0 <= i < n && Brought(events, states, i, t) && g in Granted(past)
                  && events[i].request.blob == blob && events[i].request.message == message
                  && events[i].request.flags == flags
                  && Answers(g, events[i].request, FramesAt(traffic, i), ServiceOf(past).epoch, now))
  {
    hide Step, ApprovedByPanel, Answers, FromConnection, T.Earlier, FramesAt;
    T.EverySignatureWasAllowed(uid, events, states, n, past, t, blob, message, flags, now);
    var epoch := ServiceOf(past).epoch;
    var peer, scope :| && Has(past, Asked(t, SignRequest(blob, message, flags, peer, scope)))
                       && (|| ApprovedByPanel(past, t, epoch)
                           || CoveredByGrant(past, SignRequest(blob, message, flags, peer, scope), epoch, now));
    if !ApprovedByPanel(past, t, epoch) {
      var r := SignRequest(blob, message, flags, peer, scope);
      AskedIffRequested(past, t, r);
      EarlierRequests(Then(past, Signed(t, blob, message, flags, now)), states[n].log);
      var i := AskedByEvent(uid, events, states, n, t, r);
      GrantAnswers(past, r, epoch, now, FramesAt(traffic, i));
    }
  }

  // ---- Marked connections -----------------------------------------------------------------------

  lemma {:induction false} AskedIsArrived(log: Log, t: Ticket, r: SignRequest)
    requires Has(log, Asked(t, r))
    ensures t in Arrived(log)
    decreases log
  {
    if log.entry != Asked(t, r) {
      AskedIsArrived(log.past, t, r);
    }
  }

  /** A ticket stands for one request. */
  lemma {:induction false} AskedOnce(log: Log, t: Ticket, r: SignRequest, r': SignRequest)
    requires SafeLog(log) && Has(log, Asked(t, r)) && Has(log, Asked(t, r'))
    ensures r == r'
    decreases log
  {
    if log.entry == Asked(t, r) || log.entry == Asked(t, r') {
      if r != r' {
        AskedIsArrived(log.past, t, if log.entry == Asked(t, r) then r' else r);
      }
    } else {
      AskedOnce(log.past, t, r, r');
    }
  }

  /** Over every run: a request that came when its connection was marked as forwarded is signed only if the
      panel approved that very request. */
  lemma MarkedNeedsThePanel(traffic: Traffic, uid: nat, events: seq<Event>, states: seq<State>, n: nat, i: nat,
                            past: Log, t: Ticket, blob: Bytes, message: Bytes, flags: nat, now: nat)
    requires T.IsRun(uid, events, states) && AllGenuine(traffic, events) && i < n <= |events|
    requires T.Earlier(Then(past, Signed(t, blob, message, flags, now)), states[n].log)
    requires Brought(events, states, i, t) && C.Marked(FramesAt(traffic, i))
    ensures ServiceOf(past).Serving? && ApprovedByPanel(past, t, ServiceOf(past).epoch)
  {
    hide Step, ApprovedByPanel, T.Earlier, W.DecodeRequest, W.ClassifySign, C.Marked, FramesAt;
    T.EverySignatureWasAllowed(uid, events, states, n, past, t, blob, message, flags, now);
    var epoch, r := ServiceOf(past).epoch, events[i].request;
    var peer, scope :| && Has(past, Asked(t, SignRequest(blob, message, flags, peer, scope)))
                       && (|| ApprovedByPanel(past, t, epoch)
                           || CoveredByGrant(past, SignRequest(blob, message, flags, peer, scope), epoch, now));
    var asked := SignRequest(blob, message, flags, peer, scope);
    AskedIffRequested(past, t, asked);
    EarlierRequests(Then(past, Signed(t, blob, message, flags, now)), states[n].log);
    BroughtIsAsked(uid, events, states, n, i, t);
    SameRequest(uid, events, states, n, t, r, asked);
    if CoveredByGrant(past, r, epoch, now) {
      T.GrantsAreLocal(past, r, epoch, now);
    }
  }

  lemma SameRequest(uid: nat, events: seq<Event>, states: seq<State>, n: nat, t: Ticket, r: SignRequest,
                    r': SignRequest)
    requires T.IsRun(uid, events, states) && n <= |events|
    requires (t, r) in Requests(states[n].log) && (t, r') in Requests(states[n].log)
    ensures r == r'
  {
    hide Step;
    T.EveryRunIsSafe(uid, events, states, n);
    T.LogIsSafe(states[n]);
    AskedIffRequested(states[n].log, t, r);
    AskedIffRequested(states[n].log, t, r');
    hide S.Inv;
    AskedOnce(states[n].log, t, r, r');
  }
}

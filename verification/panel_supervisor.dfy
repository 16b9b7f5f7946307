/** The panel's supervisor of the SSH helper (BitwardenModel.js): one pure transition, a restart budget
    and a gate flag. */
module Supervisor {
  import opened Common
  import opened Arithmetic

  const BACKOFF_BASE_MS: nat := 500
  const BACKOFF_MAX_MS: nat := 30000
  const MAX_RESTARTS: nat := 5
  const HEALTHY_MS: nat := 60 * 1000
  const ELSEWHERE_RETRY_MS: nat := 30 * 1000

  datatype Phase = Disabled | Starting | Handshaking | Ready | Restarting | Backoff | Elsewhere | Failed

  datatype State = State(
    phase: Phase,
    gateOpen: bool,
    socketPath: string,
    fifoPath: string,
    agentVersion: string,
    failures: nat,
    readyAtMs: nat,
    errorCode: string)

  datatype Action = Action(
    start: bool, stop: bool, writeHello: bool, cancelRestart: bool, restartInMs: int, message: Option<string>)

  /** A line of the helper, read: unreadable, the answer to hello, or anything else. */
  datatype Parsed =
    | Unreadable(fatal: bool, code: string)
    | Greeting(socket: string, fifo: string, version: string)
    | Message(text: string)

  datatype Event =
    | Enabled(value: bool)
    | Started
    | HandshakeTimeout
    | Line(parsed: Parsed, now: nat)
    | Exited(lockHeld: bool, now: nat)
    | RestartTimer
    | Unknown

  const INITIAL: State := State(Disabled, false, "", "", "", 0, 0, "")
  const NO_ACTION: Action := Action(false, false, false, false, -1, None)

  /** 500 ms doubling to 30 s. */
  function RestartDelayMs(failures: nat): nat {
    if failures < 1 then BACKOFF_BASE_MS else Min(BACKOFF_MAX_MS, BACKOFF_BASE_MS * Power(2, failures - 1))
  }

  function FailMidRun(s: State, code: string): (State, Action) {
    (s.(gateOpen := false, phase := Restarting, errorCode := code), NO_ACTION.(stop := true, cancelRestart := true))
  }

  /** The run that ended was up for long enough. */
  predicate WasHealthy(s: State, now: nat) {
    s.readyAtMs > 0 && now - s.readyAtMs >= HEALTHY_MS
  }

  function FailOnExit(s: State, now: nat): (State, Action) {
    var failures := (if WasHealthy(s, now) then 0 else s.failures) + 1;
    var ended := s.(gateOpen := false, socketPath := "", fifoPath := "", agentVersion := "", readyAtMs := 0,
                    failures := failures);
    if failures > MAX_RESTARTS then
      (ended.(phase := Failed, errorCode := "CRASH_LOOP"), NO_ACTION)
    else
      (ended.(phase := Backoff, errorCode := if s.errorCode == "" then "EXITED" else s.errorCode),
       NO_ACTION.(restartInMs := RestartDelayMs(failures)))
  }

  function OnLine(s: State, parsed: Parsed, now: nat): (State, Action) {
    if s.phase != Handshaking && s.phase != Ready then (s, NO_ACTION) else
    match parsed
    case Unreadable(fatal, code) => if fatal then FailMidRun(s, code) else (s, NO_ACTION)
    case Greeting(socket, fifo, version) =>
      if s.phase != Handshaking then FailMidRun(s, "PROTOCOL")
      else (s.(phase := Ready, gateOpen := true, socketPath := socket, fifoPath := fifo, agentVersion := version,
               readyAtMs := now, errorCode := ""), NO_ACTION)
    case Message(text) =>
      if s.phase == Handshaking then FailMidRun(s, "PROTOCOL") else (s, NO_ACTION.(message := Some(text)))
  }

  function Reduce(s: State, e: Event): (State, Action) {
    if e.Enabled? then
      if !e.value then
        if s.phase == Disabled then (s, NO_ACTION) else (INITIAL, NO_ACTION.(stop := true, cancelRestart := true))
      else if s.phase != Disabled && s.phase != Failed then (s, NO_ACTION)
      else (INITIAL.(phase := Starting), NO_ACTION.(start := true))
    else if s.phase == Disabled || s.phase == Failed then
      (s, NO_ACTION)
    else
      match e
      case Started =>
        if s.phase != Starting then (s, NO_ACTION) else (s.(phase := Handshaking), NO_ACTION.(writeHello := true))
      case HandshakeTimeout =>
        if s.phase != Starting && s.phase != Handshaking then (s, NO_ACTION) else FailMidRun(s, "HANDSHAKE_TIMEOUT")
      case Line(parsed, now) => OnLine(s, parsed, now)
      case Exited(lockHeld, now) =>
        if lockHeld && s.readyAtMs == 0 then
          (s.(gateOpen := false, socketPath := "", fifoPath := "", agentVersion := "", phase := Elsewhere,
              errorCode := "ELSEWHERE"),
           NO_ACTION.(restartInMs := ELSEWHERE_RETRY_MS))
        else
          FailOnExit(s, now)
      case RestartTimer =>
        if s.phase != Backoff && s.phase != Elsewhere then (s, NO_ACTION)
        else (s.(phase := Starting), NO_ACTION.(start := true))
      case Unknown => (s, NO_ACTION)
  }

  // ---- Every sequence of events -----------------------------------------------------------------

  function After(s: State, events: seq<Event>): State {
    if events == [] then s else Reduce(After(s, events[..|events| - 1]), events[|events| - 1]).0
  }

  /** How often the helper was started. */
  function Starts(s: State, events: seq<Event>): nat {
    if events == [] then 0 else
    Starts(s, events[..|events| - 1])
    + if Reduce(After(s, events[..|events| - 1]), events[|events| - 1]).1.start then 1 else 0
  }

  /** The gate is open in the one phase where the helper answered; a helper given up on has used its
      budget, and any other has some left. */
  ghost predicate Sound(s: State) {
    && (s.gateOpen <==> s.phase == Ready)
    && (if s.phase == Failed then s.failures == MAX_RESTARTS + 1 else s.failures <= MAX_RESTARTS)
    && (s.phase == Disabled ==> s == INITIAL)
    && (s.phase == Failed ==> s.errorCode == "CRASH_LOOP")
    && (s.phase == Elsewhere ==> s.errorCode == "ELSEWHERE")
    && (s.phase == Ready ==> s.errorCode == "")
  }

  lemma ReduceKeepsSound(s: State, e: Event)
    requires Sound(s)
    ensures Sound(Reduce(s, e).0)
  {
  }

  lemma {:induction false} EveryRunIsSound(s: State, events: seq<Event>)
    requires Sound(s)
    ensures Sound(After(s, events))
    decreases |events|
  {
    if events != [] {
      EveryRunIsSound(s, events[..|events| - 1]);
      ReduceKeepsSound(After(s, events[..|events| - 1]), events[|events| - 1]);
    }
  }

  /** Over every sequence of events: the gate is open if and only if the phase is ready. */
  lemma {:induction false} GateIffReady(events: seq<Event>)
    ensures After(INITIAL, events).gateOpen <==> After(INITIAL, events).phase == Ready
  {
    EveryRunIsSound(INITIAL, events);
  }

  /** The gate opens only on a well-formed answer to hello, and stays open only while nothing goes wrong. */
  lemma GateOpensOnGreeting(events: seq<Event>, e: Event)
    ensures var s, s' := After(INITIAL, events), After(INITIAL, events + [e]);
            && (s'.gateOpen && !s.gateOpen <==> s.phase == Handshaking && e.Line? && e.parsed.Greeting?)
            && (s.gateOpen && !s'.gateOpen <==>
                  s.phase == Ready
                  && (e == Enabled(false) || e.Exited?
                      || (e.Line? && (e.parsed.Greeting? || (e.parsed.Unreadable? && e.parsed.fatal)))))
  {
    EveryRunIsSound(INITIAL, events);
    assert (events + [e])[..|events|] == events;
  }

  // ---- The restart budget -----------------------------------------------------------------------

  /** An event that gives the budget back: the user's switch, a run that was healthy, a held lock. */
  predicate Resets(s: State, e: Event) {
    || e.Enabled?
    || (e.Exited? && (WasHealthy(s, e.now) || (e.lockHeld && s.readyAtMs == 0)))
  }

  ghost predicate NoResets(s: State, events: seq<Event>) {
    forall i :: 0 <= i < |events| ==> !Resets(After(s, events[..i]), events[i])
  }

  /** Starts still to come without a reset. */
  function Budget(s: State): int {
    if s.phase == Disabled || s.phase == Failed then 0
    else MAX_RESTARTS - s.failures + if s.phase == Backoff || s.phase == Elsewhere then 1 else 0
  }

  lemma OneStepSpends(s: State, e: Event)
    requires Sound(s) && !Resets(s, e)
    ensures (if Reduce(s, e).1.start then 1 else 0) + Budget(Reduce(s, e).0) <= Budget(s)
    ensures Budget(s) >= 0
  {
  }

  lemma {:induction false} StartsWithinBudget(s: State, events: seq<Event>)
    requires Sound(s) && NoResets(s, events)
    ensures Starts(s, events) + Budget(After(s, events)) <= Budget(s)
    decreases |events|
  {
    if events != [] {
      var init := events[..|events| - 1];
      forall i | 0 <= i < |init|
        ensures !Resets(After(s, init[..i]), init[i])
      {
        assert init[..i] == events[..i];
      }
      StartsWithinBudget(s, init);
      EveryRunIsSound(s, init);
      OneStepSpends(After(s, init), events[|events| - 1]);
    }
  }

  /** From switching it on, without another reset, the helper is started at most six times. */
  lemma AtMostSixStarts(before: seq<Event>, events: seq<Event>)
    requires var s := After(INITIAL, before); s.phase == Disabled || s.phase == Failed
    requires NoResets(After(INITIAL, before + [Enabled(true)]), events)
    ensures 1 + Starts(After(INITIAL, before + [Enabled(true)]), events) <= MAX_RESTARTS + 1
  {
    assert (before + [Enabled(true)])[..|before|] == before;
    var s := After(INITIAL, before + [Enabled(true)]);
    assert s == INITIAL.(phase := Starting);
    StartsWithinBudget(s, events);
    EveryRunIsSound(s, events);
    hide After, Starts;
    assert Budget(After(s, events)) >= 0;
  }

  /** In any state, without a reset there are at most six starts left. */
  lemma AtMostSixFromAnywhere(before: seq<Event>, events: seq<Event>)
    requires NoResets(After(INITIAL, before), events)
    ensures Starts(After(INITIAL, before), events) <= MAX_RESTARTS + 1
  {
    EveryRunIsSound(INITIAL, before);
    StartsWithinBudget(After(INITIAL, before), events);
    EveryRunIsSound(After(INITIAL, before), events);
  }

  /** Once failed, nothing but the user's switch changes anything. */
  lemma {:induction false} FailedStays(s: State, events: seq<Event>)
    requires s.phase == Failed && forall i :: 0 <= i < |events| ==> !events[i].Enabled?
    ensures After(s, events) == s && Starts(s, events) == 0
    decreases |events|
  {
    if events != [] {
      FailedStays(s, events[..|events| - 1]);
    }
  }

  /** A helper that dies at once every time. */
  function CrashLoop(n: nat, now: nat): seq<Event> {
    if n == 0 then [Enabled(true)] else CrashLoop(n - 1, now) + [Exited(false, now), RestartTimer]
  }

  lemma CrashStep(s: State, now: nat)
    requires s.phase == Starting && s.readyAtMs == 0 && s.failures < MAX_RESTARTS
    ensures var (s1, a1) := Reduce(s, Exited(false, now));
            var (s2, a2) := Reduce(s1, RestartTimer);
            !a1.start && a2.start && s2.phase == Starting && s2.readyAtMs == 0 && s2.failures == s.failures + 1
  {
  }

  lemma {:induction false} CrashLoopSpends(n: nat, now: nat)
    requires n <= MAX_RESTARTS
    ensures After(INITIAL, CrashLoop(n, now)).phase == Starting && After(INITIAL, CrashLoop(n, now)).failures == n
    ensures After(INITIAL, CrashLoop(n, now)).readyAtMs == 0 && Starts(INITIAL, CrashLoop(n, now)) == n + 1
    decreases n
  {
    var events := CrashLoop(n, now);
    if n == 0 {
      assert events[..0] == [];
      assert After(INITIAL, []) == INITIAL;
    } else {
      CrashLoopSpends(n - 1, now);
      CrashStep(After(INITIAL, CrashLoop(n - 1, now)), now);
      hide Reduce;
      var init := CrashLoop(n - 1, now);
      assert events[..|events| - 1] == init + [Exited(false, now)];
      assert (init + [Exited(false, now)])[..|init|] == init;
    }
  }

  /** The bound is reached: six starts, and the next death is the last. */
  lemma SixStartsThenFailed(now: nat)
    ensures Starts(INITIAL, CrashLoop(MAX_RESTARTS, now)) == MAX_RESTARTS + 1
    ensures After(INITIAL, CrashLoop(MAX_RESTARTS, now) + [Exited(false, now)]).phase == Failed
  {
    CrashLoopSpends(MAX_RESTARTS, now);
    var events := CrashLoop(MAX_RESTARTS, now);
    assert (events + [Exited(false, now)])[..|events|] == events;
    hide CrashLoop;
  }

  // ---- Backoff ----------------------------------------------------------------------------------

  lemma {:induction false} PowerGrows(m: nat, n: nat)
    requires m <= n
    ensures Power(2, m) <= Power(2, n)
    decreases n
  {
    if m < n {
      PowerGrows(m, n - 1);
      PowerPositive(2, n - 1);
    }
  }

  /** The delay never shrinks as failures add up and stays between half a second and thirty. */
  lemma DelayGrows(m: nat, n: nat)
    requires m <= n
    ensures BACKOFF_BASE_MS <= RestartDelayMs(m) <= RestartDelayMs(n) <= BACKOFF_MAX_MS
    ensures 1 <= m <= MAX_RESTARTS ==> RestartDelayMs(m) == BACKOFF_BASE_MS * Power(2, m - 1)
  {
    PowerPositive(2, if m == 0 then 0 else m - 1);
    if 1 <= m {
      PowerGrows(m - 1, n - 1);
    } else if 1 <= n {
      PowerPositive(2, n - 1);
    }
    if m <= MAX_RESTARTS {
      assert Power(2, 0) == 1 && Power(2, 1) == 2 && Power(2, 2) == 2 * Power(2, 1);
      assert Power(2, 3) == 2 * Power(2, 2) && Power(2, 4) == 2 * Power(2, 3);
    }
  }

  // ---- What the panel is told to do -------------------------------------------------------------

  predicate Off(s: State) {
    s.phase == Disabled || s.phase == Failed
  }

  /** The answer to hello is read. */
  predicate Greets(s: State, e: Event) {
    s.phase == Handshaking && e.Line? && e.parsed.Greeting?
  }

  /** The exit of a run, and not a wait for another process's lock. */
  predicate Crash(events: seq<Event>, e: Event) {
    e.Exited? && !Off(After(INITIAL, events)) && !(e.lockHeld && ReadySince(events) == 0)
  }

  /** When the run that is on answered hello, or 0. */
  function ReadySince(events: seq<Event>): nat {
    if events == [] then 0 else
    var init, e := events[..|events| - 1], events[|events| - 1];
    var s := After(INITIAL, init);
    if Greets(s, e) then e.now
    else if (e.Exited? && !Off(s)) || e == Enabled(false) || (e == Enabled(true) && Off(s)) then 0
    else ReadySince(init)
  }

  /** It was up for at least a minute. */
  predicate Lasted(events: seq<Event>, now: nat) {
    ReadySince(events) > 0 && now >= ReadySince(events) + HEALTHY_MS
  }

  /** The runs in a row that crashed, since the switch or a run that lasted. */
  function Crashes(events: seq<Event>): nat {
    if events == [] then 0 else
    var init, e := events[..|events| - 1], events[|events| - 1];
    if Crash(init, e) then (if Lasted(init, e.now) then 0 else Crashes(init)) + 1
    else if e == Enabled(false) || (e == Enabled(true) && Off(After(INITIAL, init))) then 0
    else Crashes(init)
  }

  lemma {:induction false} CountsCrashes(events: seq<Event>)
    ensures After(INITIAL, events).failures == Crashes(events)
    ensures After(INITIAL, events).readyAtMs == ReadySince(events)
    decreases |events|
  {
    if events != [] {
      CountsCrashes(events[..|events| - 1]);
      EveryRunIsSound(INITIAL, events[..|events| - 1]);
    }
  }

  /** Over every sequence of events, a crash: the k-th in a row, for k up to five, is followed by a restart in
      500 ms doubled k - 1 times and by nothing else; the sixth by giving up. */
  lemma CrashSetsDelay(events: seq<Event>, e: Event)
    requires Crash(events, e)
    ensures var (s, a) := Reduce(After(INITIAL, events), e);
            var k := (if Lasted(events, e.now) then 0 else Crashes(events)) + 1;
            && s.failures == k && !s.gateOpen && s.socketPath == "" && s.fifoPath == "" && s.agentVersion == ""
            && (k <= MAX_RESTARTS ==>
                  s.phase == Backoff && a == NO_ACTION.(restartInMs := BACKOFF_BASE_MS * Power(2, k - 1)))
            && (k > MAX_RESTARTS ==> s.phase == Failed && a == NO_ACTION)
  {
    CountsCrashes(events);
    var k := (if Lasted(events, e.now) then 0 else Crashes(events)) + 1;
    DelayGrows(k, k);
    hide After, Crashes, ReadySince, Power;
  }

  /** An exit that waits for another process's lock: another try in thirty seconds, and no crash. */
  lemma LockSetsDelay(events: seq<Event>, now: nat)
    requires !Off(After(INITIAL, events)) && ReadySince(events) == 0
    ensures var (s, a) := Reduce(After(INITIAL, events), Exited(true, now));
            s.phase == Elsewhere && !s.gateOpen && s.failures == Crashes(events)
            && a == NO_ACTION.(restartInMs := ELSEWHERE_RETRY_MS)
  {
    CountsCrashes(events);
  }

  /** Over every sequence of events, exactly when each thing is asked of the panel. */
  lemma EveryAction(events: seq<Event>, e: Event)
    ensures var s := After(INITIAL, events);
            var (s', a) := Reduce(s, e);
            && (a.restartInMs >= 0 <==> e.Exited? && (s'.phase == Backoff || s'.phase == Elsewhere))
            && (a.start <==>
                  (e == Enabled(true) && Off(s)) || (e == RestartTimer && (s.phase == Backoff || s.phase == Elsewhere)))
            && (a.start ==> s'.phase == Starting)
            && (a.writeHello <==> e == Started && s.phase == Starting)
            && (a.writeHello ==> s'.phase == Handshaking)
            && (a.stop <==> (e == Enabled(false) && s.phase != Disabled) || FailsMidRun(s, e))
            && (a.stop ==> s'.phase == if e.Enabled? then Disabled else Restarting)
            && (a.cancelRestart <==> a.stop)
            && a.message == if e.Line? && e.parsed.Message? && s.phase == Ready then Some(e.parsed.text) else None
  {
    EveryRunIsSound(INITIAL, events);
    var s := After(INITIAL, events);
    DelayGrows(s.failures + 1, s.failures + 1);
    DelayGrows(1, 1);
    hide After, Power;
  }

  /** A run that is on misbehaves: it does not answer in time, is unreadable, or speaks out of turn. */
  predicate FailsMidRun(s: State, e: Event) {
    || (e == HandshakeTimeout && (s.phase == Starting || s.phase == Handshaking))
    || (e.Line? && e.parsed.Unreadable? && e.parsed.fatal && (s.phase == Handshaking || s.phase == Ready))
    || (e.Line? && e.parsed.Greeting? && s.phase == Ready)
    || (e.Line? && e.parsed.Message? && s.phase == Handshaking)
  }

  /** The phase changes on those events only, the error shown is the reason of the failure, and switching off
      forgets everything. */
  lemma EveryMove(events: seq<Event>, e: Event)
    ensures var s := After(INITIAL, events);
            var (s', a) := Reduce(s, e);
            && (s'.phase != s.phase ==> a.start || a.stop || a.writeHello || e.Exited? || Greets(s, e))
            && (Greets(s, e) ==>
                  s'.phase == Ready && a == NO_ACTION
                  && s'.socketPath == e.parsed.socket && s'.fifoPath == e.parsed.fifo
                  && s'.agentVersion == e.parsed.version)
            && (s.phase == Ready && s'.phase == Ready ==>
                  s'.socketPath == s.socketPath && s'.fifoPath == s.fifoPath && s'.agentVersion == s.agentVersion)
            && (a.restartInMs >= 0 && s'.phase == Backoff ==>
                  s'.errorCode == if s.errorCode == "" then "EXITED" else s.errorCode)
            && (s'.phase == Restarting && a.stop ==>
                  s'.errorCode == if e == HandshakeTimeout then "HANDSHAKE_TIMEOUT"
                                  else if e.Line? && e.parsed.Unreadable? then e.parsed.code else "PROTOCOL")
            && (e == Enabled(false) ==> s' == INITIAL)
            && (e == Enabled(true) && Off(s) ==> s' == INITIAL.(phase := Starting))
            && (e.Enabled? && e.value && !Off(s) ==> s' == s && a == NO_ACTION)
  {
    EveryRunIsSound(INITIAL, events);
    hide After, Power;
  }
}

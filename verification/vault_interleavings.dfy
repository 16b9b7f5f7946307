/** Interleavings of the vault helper's threads that show where its promises end. */
module VaultInterleavings {
  import opened Common
  import opened VaultRuns

  lemma AfterNext(actions: seq<Action>, a: Action)
    ensures After(actions + [a]) == Step(After(actions), a)
  {
    assert (actions + [a])[..|actions|] == actions;
  }

  // ---- A delayed kill that misses ---------------------------------------------------------------

  /** A run is started and takes its place on the list. */
  const FIRST: seq<Action> := [] + [Exec(7)] + [Spawn(100)] + [List]

  /** It is killed, ends and is reaped before the grace period is over. */
  const KILLED: seq<Action> := FIRST + [KillRun(7)] + [Exit(0, false)]
  const ENDED: seq<Action> := KILLED + [Leave(0, false)] + [Reap(0)]

  /** A second run under the same id is given the same pid. */
  const AGAIN: seq<Action> := ENDED + [Exec(7)] + [Spawn(100)] + [List]

  const TERM: Hit := Hit(Term, ByRequest, 100, Some(0), 0, true)
  const STOP: Stop := Stop(7, 100, 0, 1)

  lemma FirstRun()
    ensures After(FIRST) == Start.(runs := map[7 := 100], workers := map[0 := Worker(ForRun(7), 100, Listed)],
                                   owner := map[100 := 0], nextProc := 1, started := [(7, 0)])
  {
    AfterNext([], Exec(7));
    assert After([]) == Start;
    AfterNext([] + [Exec(7)], Spawn(100));
    AfterNext([] + [Exec(7)] + [Spawn(100)], List);
    hide After;
    var s1 := Step(Start, Exec(7));
    assert s1 == Start.(main := Ready(ForRun(7)));
    var s2 := Step(s1, Spawn(100));
    assert s2 == Start.(main := Spawned(ForRun(7), 100, 0), owner := map[100 := 0], nextProc := 1);
  }

  lemma KillFirst(s: State)
    requires s.main == Idle && s.runs == map[7 := 100] && s.owner == map[100 := 0] && s.started == [(7, 0)]
    requires s.exits == map[] && s.hits == {} && s.stops == []
    ensures Step(s, KillRun(7)) == s.(hits := {TERM}, stops := [STOP])
  {
    assert LastStart(s.started, 7) == Some(0);
    assert RunHit(s, Term, ByRequest, 7) == TERM;
    assert Die(s.exits, {TERM}) == map[];
    assert {} + {TERM} == {TERM};
  }

  lemma FirstKilled()
    ensures After(KILLED) ==
            Start.(runs := map[7 := 100], workers := map[0 := Worker(ForRun(7), 100, Listed)], owner := map[100 := 0],
                   nextProc := 1, started := [(7, 0)], exits := map[0 := false], stops := [STOP], hits := {TERM})
  {
    FirstRun();
    KillFirst(After(FIRST));
    AfterNext(FIRST, KillRun(7));
    AfterNext(FIRST + [KillRun(7)], Exit(0, false));
    hide After;
    var s := After(FIRST + [KillRun(7)]);
    hide DoKill;
    assert s.owner[100] == 0;
  }

  lemma FirstLeft()
    ensures After(KILLED + [Leave(0, false)]) ==
            Start.(workers := map[0 := Worker(ForRun(7), 100, Unlisted(false, false))], owner := map[100 := 0],
                   nextProc := 1,
                   started := [(7, 0)], exits := map[0 := false], stops := [STOP], hits := {TERM})
  {
    hide After, Step;
    FirstKilled();
    LeaveFirst(After(KILLED));
    AfterNext(KILLED, Leave(0, false));
  }

  lemma LeaveFirst(s: State)
    requires s.workers == map[0 := Worker(ForRun(7), 100, Listed)] && s.runs == map[7 := 100]
    ensures Step(s, Leave(0, false)) ==
            s.(workers := map[0 := Worker(ForRun(7), 100, Unlisted(false, false))], runs := map[])
  {
    assert map[7 := 100] - {7} == map[];
  }

  lemma ReapFirst(s: State)
    requires s.workers == map[0 := Worker(ForRun(7), 100, Unlisted(false, false))] && s.owner == map[100 := 0]
             && 0 in s.exits
    ensures Step(s, Reap(0)) == s.(workers := map[0 := Worker(ForRun(7), 100, Reaped(false, false))], owner := map[])
  {
  }

  lemma FirstEnded()
    ensures After(ENDED) == Start.(workers := map[0 := Worker(ForRun(7), 100, Reaped(false, false))], nextProc := 1,
                                   started := [(7, 0)], exits := map[0 := false], stops := [STOP], hits := {TERM})
  {
    hide After, Step;
    FirstLeft();
    AfterNext(KILLED + [Leave(0, false)], Reap(0));
    ReapFirst(After(KILLED + [Leave(0, false)]));
  }

  lemma SecondRun()
    ensures After(AGAIN).runs == map[7 := 100] && After(AGAIN).owner == map[100 := 1]
    ensures After(AGAIN).stops == [STOP] && After(AGAIN).exits == map[0 := false] && |After(AGAIN).started| == 2
  {
    FirstEnded();
    AfterNext(ENDED, Exec(7));
    AfterNext(ENDED + [Exec(7)], Spawn(100));
    AfterNext(ENDED + [Exec(7)] + [Spawn(100)], List);
    hide After;
    var s1 := Step(After(ENDED), Exec(7));
    assert s1 == After(ENDED).(main := Ready(ForRun(7)));
    var s2 := Step(s1, Spawn(100));
    assert s2 == s1.(main := Spawned(ForRun(7), 100, 1), owner := map[100 := 1], nextProc := 2);
  }

  /** The delayed kill of the first run then goes to the second, which is running. */
  lemma DelayedKillCanMiss()
    ensures Hit(Kill, ByDelay(STOP, 2), 100, Some(1), 0, true) in After(AGAIN + [StopFires(0)]).hits
  {
    SecondRun();
    AfterNext(AGAIN, StopFires(0));
    hide After;
    var s := After(AGAIN);
    assert HitOn(s, Kill, ByDelay(STOP, 2), 100, 0) == Hit(Kill, ByDelay(STOP, 2), 100, Some(1), 0, true);
  }

  // ---- A stop that comes too late ---------------------------------------------------------------

  /** An auto-type is started and ends by itself, with this status. */
  function Typed(success: bool): seq<Action> {
    [] + [AutoType] + [Swap(false)] + [Spawn(100)] + [List] + [Exit(0, success)]
  }

  /** Only then is it stopped; its thread finds the entry gone, reaps it and answers. */
  function Late(success: bool): seq<Action> {
    Typed(success) + [StopTyping] + [Leave(0, true)] + [Reap(0)] + [Finish(0)]
  }

  const LATE_KILL: Hit := Hit(Kill, ByTyping, 100, Some(0), 0, false)

  lemma TypingStarts()
    ensures After([] + [AutoType] + [Swap(false)] + [Spawn(100)] + [List]) ==
            Start.(typing := 1, typingGroup := Some(100), workers := map[0 := Worker(ForTyping, 100, Listed)],
                   owner := map[100 := 0], nextProc := 1, typist := Some(0))
  {
    AfterNext([], AutoType);
    assert After([]) == Start;
    AfterNext([] + [AutoType], Swap(false));
    AfterNext([] + [AutoType] + [Swap(false)], Spawn(100));
    AfterNext([] + [AutoType] + [Swap(false)] + [Spawn(100)], List);
    hide After;
    var s1 := Step(Start, AutoType);
    assert s1 == Start.(main := Claiming(ForTyping, 0));
    var s2 := Step(s1, Swap(false));
    assert s2 == Start.(main := Ready(ForTyping), typing := 1);
    var s3 := Step(s2, Spawn(100));
    assert s3 == s2.(main := Spawned(ForTyping, 100, 0), owner := map[100 := 0], nextProc := 1);
  }

  lemma TypingEnded(success: bool)
    ensures After(Typed(success)) ==
            Start.(typing := 1, typingGroup := Some(100), workers := map[0 := Worker(ForTyping, 100, Listed)],
                   owner := map[100 := 0], nextProc := 1, typist := Some(0), exits := map[0 := success])
  {
    TypingStarts();
    AfterNext([] + [AutoType] + [Swap(false)] + [Spawn(100)] + [List], Exit(0, success));
    hide After;
    var s := After([] + [AutoType] + [Swap(false)] + [Spawn(100)] + [List]);
    assert s.owner[100] == 0;
  }

  lemma StopsLate(s: State, success: bool)
    requires s.main == Idle && s.typingGroup == Some(100) && s.owner == map[100 := 0] && s.typist == Some(0)
    requires s.exits == map[0 := success] && s.hits == {}
    ensures Step(s, StopTyping) == s.(typingGroup := None, hits := {LATE_KILL})
  {
    assert TypingHits(s) == {LATE_KILL};
    assert Victims({LATE_KILL}) == {0};
    assert Die(s.exits, {LATE_KILL}) == s.exits;
    assert {} + {LATE_KILL} == {LATE_KILL};
  }

  lemma TypingLeft(success: bool)
    ensures After(Typed(success) + [StopTyping] + [Leave(0, true)]) ==
            Start.(typing := 1, workers := map[0 := Worker(ForTyping, 100, Unlisted(true, true))],
                   owner := map[100 := 0],
                   nextProc := 1, typist := Some(0), exits := map[0 := success], hits := {LATE_KILL})
  {
    hide After, Step, Typed;
    TypingEnded(success);
    StopsLate(After(Typed(success)), success);
    AfterNext(Typed(success), StopTyping);
    LeaveTyping(After(Typed(success) + [StopTyping]));
    AfterNext(Typed(success) + [StopTyping], Leave(0, true));
  }

  lemma LeaveTyping(s: State)
    requires s.workers == map[0 := Worker(ForTyping, 100, Listed)] && s.typingGroup == None
    ensures Step(s, Leave(0, true)) == s.(workers := map[0 := Worker(ForTyping, 100, Unlisted(true, true))])
  {
  }

  lemma ReapTyping(s: State)
    requires s.workers == map[0 := Worker(ForTyping, 100, Unlisted(true, true))] && s.owner == map[100 := 0]
             && 0 in s.exits
    ensures Step(s, Reap(0)) == s.(workers := map[0 := Worker(ForTyping, 100, Reaped(true, true))], owner := map[])
  {
  }

  lemma FinishTyping(s: State)
    requires s.workers == map[0 := Worker(ForTyping, 100, Reaped(true, true))] && 0 in s.exits && s.answers == map[]
    ensures Step(s, Finish(0)).answers == map[0 := Answer(true, true, s.exits[0])] && Step(s, Finish(0)).hits == s.hits
  {
  }

  /** Stopped after it ended: the kill reaches it before it is reaped, yet one that had typed everything
      answers that it did, and one that had failed by itself answers "stopped". */
  lemma LateStop(success: bool)
    ensures After(Late(success)).hits == {LATE_KILL} && !LATE_KILL.alive
    ensures 0 in After(Late(success)).answers
    ensures Said(After(Late(success)).answers[0]) == if success then All else Stopped
  {
    hide After, Step, Typed;
    TypingLeft(success);
    var before := Typed(success) + [StopTyping] + [Leave(0, true)];
    ReapTyping(After(before));
    AfterNext(before, Reap(0));
    FinishTyping(After(before + [Reap(0)]));
    AfterNext(before + [Reap(0)], Finish(0));
  }
}

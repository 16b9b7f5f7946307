/** What each step of the vault helper's loop and threads brings about (main.rs): which signals are sent, which
    requests are taken, and how a child leaves. */
module VaultSignals {
  import opened Common
  import opened VaultRuns

  /** The thread of a listed run. */
  predicate IsRun(s: State, p: Proc, id: nat) {
    p in s.workers && id in s.runs && s.workers[p] == Worker(ForRun(id), s.runs[id], Listed)
  }

  /** The thread of the auto-type that has not left its entry. */
  predicate IsTypist(s: State, p: Proc) {
    s.typingGroup.Some? && p in s.workers && s.workers[p] == Worker(ForTyping, s.typingGroup.value, Listed)
  }

  /** A signal reached that process. */
  ghost predicate Got(hits: set<Hit>, signal: Signal, sender: Sender, p: Proc) {
    exists h :: h in hits && h.signal == signal && h.sender == sender && h.receiver == Some(p) && h.meant == p
  }

  /** Each listed run has one thread, whose process holds the listed pid. */
  lemma RunHasThread(s: State, id: nat) returns (p: Proc)
    requires Inv(s) && id in s.runs
    ensures IsRun(s, p, id) && Holder(s.owner, s.runs[id]) == Some(p) && LastStart(s.started, id) == Some(p)
  {
    ListedIsOurs(s, id);
    p := LastStart(s.started, id).value;
    hide Held, Counted, Room, Aimed, Born, SafeHits, PastHits, Deadly, Ended, Told, ListedTypist, LastStart;
  }

  lemma ThreadIsListed(s: State, p: Proc, id: nat)
    requires Inv(s) && IsRun(s, p, id)
    ensures Holder(s.owner, s.runs[id]) == Some(p) && LastStart(s.started, id) == Some(p)
  {
    var q := RunHasThread(s, id);
    hide Held, Counted, Room, Aimed, Born, SafeHits, PastHits, Deadly, Ended, Told, ListedTypist, LastStart;
  }

  lemma TypistIsHolder(s: State, p: Proc)
    requires Inv(s) && IsTypist(s, p)
    ensures Holder(s.owner, s.typingGroup.value) == Some(p) && s.typist == Some(p)
  {
    hide Counted, Room, Aimed, Born, SafeHits, PastHits, Deadly, Ended, Told, ListedRuns, Struck;
  }

  lemma HitIsGot(s: State, signal: Signal, sender: Sender, pid: Pid, p: Proc, more: set<Hit>)
    requires Holder(s.owner, pid) == Some(p) && HitOn(s, signal, sender, pid, p) in more
    ensures Got(Signalled(s, more).hits, signal, sender, p)
    ensures signal == Kill ==> p in Signalled(s, more).exits
  {
    var h := HitOn(s, signal, sender, pid, p);
    assert h in Signalled(s, more).hits;
    assert signal == Kill ==> p in Victims(more);
  }

  // ---- Signals ----------------------------------------------------------------------------------

  /** In every state of every interleaving: killing a listed run terminates its own process and leaves a
      stop for it; killing any other id does nothing. */
  lemma KillTerminates(s: State, id: nat, p: Proc)
    requires Inv(s) && s.main == Idle
    ensures var s' := Step(s, KillRun(id));
            && (id !in s.runs ==> s' == s)
            && (IsRun(s, p, id) ==>
                  && Got(s'.hits, Term, ByRequest, p)
                  && s'.stops == s.stops + [Stop(id, s.runs[id], p, |s.started|)])
            && s'.runs == s.runs && s'.workers == s.workers && s'.exits == s.exits
  {
    hide Got, Inv;
    if IsRun(s, p, id) {
      ThreadIsListed(s, p, id);
      HitIsGot(s, Term, ByRequest, s.runs[id], p, {RunHit(s, Term, ByRequest, id)});
    }
    if id in s.runs {
      assert Victims({RunHit(s, Term, ByRequest, id)}) == {};
      assert Die(s.exits, {RunHit(s, Term, ByRequest, id)}) == s.exits;
    }
  }

  /** A stop whose grace period is over kills the run still listed under its id with its group, and only then. */
  lemma StopKills(s: State, k: nat, p: Proc)
    requires Inv(s) && k < |s.stops|
    ensures var s', stop := Step(s, StopFires(k)), s.stops[k];
            && (!(stop.id in s.runs && s.runs[stop.id] == stop.group) ==> s' == s)
            && (IsRun(s, p, stop.id) && s.runs[stop.id] == stop.group ==>
                  && p in s'.exits
                  && exists h :: h in s'.hits && h.signal == Kill && h.receiver == Some(p) && h.sender.ByDelay?
                                 && h.sender.stop == stop)
            && s'.runs == s.runs && s'.workers == s.workers && s'.main == s.main
  {
    hide Inv;
    var stop := s.stops[k];
    if IsRun(s, p, stop.id) && s.runs[stop.id] == stop.group {
      ThreadIsListed(s, p, stop.id);
      var h := HitOn(s, Kill, ByDelay(stop, |s.started|), stop.group, stop.meant);
      assert h in Step(s, StopFires(k)).hits && h.receiver == Some(p);
      assert p in Victims({h});
    }
  }

  /** Stopping the typing, or quitting, kills the auto-type that has not left its entry. */
  lemma TypingIsKilled(s: State, a: Action, p: Proc)
    requires Inv(s) && s.main == Idle && (a == StopTyping || a == Quit)
    ensures var s' := Step(s, a);
            && s'.typingGroup == None && s'.main == (if a == Quit then Quitting else Idle)
            && (IsTypist(s, p) ==> Got(s'.hits, Kill, ByTyping, p) && p in s'.exits)
            && (s.typingGroup == None ==> s'.hits == s.hits && s'.exits == s.exits)
            && s'.runs == s.runs && s'.workers == s.workers
  {
    hide Inv, Got;
    if IsTypist(s, p) {
      TypistIsHolder(s, p);
      HitIsGot(s, Kill, ByTyping, s.typingGroup.value, p, TypingHits(s));
    }
    if s.typingGroup == None {
      assert s.hits + {} == s.hits && Victims({}) == {};
      assert Die(s.exits, {}) == s.exits;
    }
  }

  /** Quitting terminates every listed run, waits if there is one, and then kills every run still listed. */
  lemma QuitSignalsAll(s: State, p: Proc, id: nat)
    requires Inv(s)
    ensures && (s.main == Quitting ==>
                  var s' := Step(s, QuitTerm);
                  && s'.main == (if s.runs == map[] then Done else Waiting) && s'.exits == s.exits
                  && (IsRun(s, p, id) ==> Got(s'.hits, Term, ByQuit, p)))
            && (s.main == Waiting ==>
                  var s' := Step(s, QuitKill);
                  && s'.main == Done && (IsRun(s, p, id) ==> Got(s'.hits, Kill, ByQuit, p) && p in s'.exits))
  {
    hide Inv, Got;
    if IsRun(s, p, id) {
      QuitHit(s, Term, p, id);
      QuitHit(s, Kill, p, id);
    }
    NoVictims(s);
  }

  lemma NoVictims(s: State)
    ensures SignalAll(s, Term).exits == s.exits
  {
    var more := set id | id in s.runs :: RunHit(s, Term, ByQuit, id);
    assert Victims(more) == {};
  }

  lemma QuitHit(s: State, signal: Signal, p: Proc, id: nat)
    requires Inv(s) && IsRun(s, p, id)
    ensures Got(SignalAll(s, signal).hits, signal, ByQuit, p)
    ensures signal == Kill ==> p in SignalAll(s, signal).exits
  {
    ThreadIsListed(s, p, id);
    hide Inv;
    var more := set id | id in s.runs :: RunHit(s, signal, ByQuit, id);
    assert RunHit(s, signal, ByQuit, id) in more;
    HitIsGot(s, signal, ByQuit, s.runs[id], p, more);
  }

  // ---- Requests and children --------------------------------------------------------------------

  /** A run is taken exactly when fewer than `MAX_RUNS` are listed and its id is not; an auto-type or a detached
      child when its counter is below its cap, which it then raises by one. */
  lemma RequestsAreTaken(s: State, id: nat, use: Use)
    requires s.main == Idle && !use.ForRun?
    ensures var asked := Step(s, if use.ForTyping? then AutoType else Detach);
            var claimed := Step(asked, Swap(false));
            && (Step(s, Exec(id)).main == Ready(ForRun(id)) <==> |s.runs| < MAX_RUNS && id !in s.runs)
            && (|s.runs| >= MAX_RUNS || id in s.runs ==> Step(s, Exec(id)) == s)
            && (asked.main.Claiming? <==> Count(s, use) < Cap(use)) && (asked.main.Claiming? || asked.main == Idle)
            && (asked.main.Claiming? ==> claimed.main == Ready(use) && Count(claimed, use) == Count(s, use) + 1)
  {
  }

  /** A child that is spawned is listed under the pid it got, with a thread of its own. */
  lemma SpawnedIsListed(s: State, pid: Pid)
    requires Inv(s) && s.main.Ready? && pid !in s.owner && pid !in s.foreign
    ensures var p, s' := s.nextProc, Step(Step(s, Spawn(pid)), List);
            && s'.main == Idle && Holder(s'.owner, pid) == Some(p)
            && p in s'.workers && s'.workers[p] == Worker(s.main.use, pid, Listed)
            && (s.main.use.ForRun? ==> IsRun(s', p, s.main.use.id) && s'.started == s.started + [(s.main.use.id, p)])
            && (s.main.use.ForTyping? ==> IsTypist(s', p) && s'.typist == Some(p))
            && (forall q :: q in s.workers && q != p ==> q in s'.workers && s'.workers[q] == s.workers[q])
  {
    hide Held, Counted, ListedRuns, ListedTypist, Aimed, SafeHits, PastHits, Deadly, Ended, Told;
    assert Holder(s.owner[pid := s.nextProc], pid) == Some(s.nextProc);
  }

  /** The three steps of the thread of a child. */
  function Leaving(s: State, p: Proc, written: bool): State {
    Step(Step(Step(s, Leave(p, written)), Reap(p)), Finish(p))
  }

  /** A child that has ended goes: off its list, its pid free, its slot given back, its thread gone, and an
      auto-type answered with whether a stop took its entry, whether it took the text and its status. */
  lemma EndedChildGoes(s: State, p: Proc, written: bool)
    requires Inv(s) && p in s.workers && s.workers[p].stage == Listed && p in s.exits
    ensures var w, s' := s.workers[p], Leaving(s, p, written);
            && p !in s'.workers && w.pid !in s'.owner
            && (w.use.ForRun? ==> s'.runs == s.runs - {w.use.id})
            && (w.use.ForTyping? ==>
                  && s'.typingGroup == None && s'.typing == s.typing - 1
                  && p in s'.answers && s'.answers[p] == Answer(Struck(s.hits, p), written, s.exits[p]))
            && (w.use.ForDetached? ==> s'.detached == s.detached - 1)
  {
    EntryGone(s, p);
    hide Inv, Struck, Step;
    LeaveStep(s, p, written);
    var s1 := Step(s, Leave(p, written));
    ReapStep(s1, p);
    FinishStep(Step(s1, Reap(p)), p);
  }

  lemma LeaveStep(s: State, p: Proc, written: bool)
    requires p in s.workers && s.workers[p].stage == Listed
    ensures var w, s' := s.workers[p], Step(s, Leave(p, written));
            && p in s'.workers
            && s'.workers[p] == Worker(w.use, w.pid, Unlisted(w.use.ForTyping? && s.typingGroup.None?, written))
            && s'.exits == s.exits && s'.typing == s.typing && s'.detached == s.detached
            && s'.runs == (if w.use.ForRun? then s.runs - {w.use.id} else s.runs)
            && s'.typingGroup == (if w.use.ForTyping? then None else s.typingGroup)
  {
  }

  lemma ReapStep(s: State, p: Proc)
    requires p in s.workers && s.workers[p].stage.Unlisted? && p in s.exits
    ensures var w, s' := s.workers[p], Step(s, Reap(p));
            && p in s'.workers
            && s'.workers[p] == Worker(w.use, w.pid, Reaped(w.stage.stopped, w.stage.written))
            && w.pid !in s'.owner && s'.exits == s.exits && s'.typing == s.typing && s'.detached == s.detached
            && s'.runs == s.runs && s'.typingGroup == s.typingGroup
  {
  }

  lemma FinishStep(s: State, p: Proc)
    requires p in s.workers && s.workers[p].stage.Reaped? && p in s.exits
    ensures var w, s' := s.workers[p], Step(s, Finish(p));
            && p !in s'.workers && s'.owner == s.owner && s'.runs == s.runs && s'.typingGroup == s.typingGroup
            && s'.typing == s.typing - (if w.use.ForTyping? then 1 else 0)
            && s'.detached == s.detached - (if w.use.ForDetached? then 1 else 0)
            && (w.use.ForTyping? ==>
                  p in s'.answers && s'.answers[p] == Answer(w.stage.stopped, w.stage.written, s.exits[p]))
  {
  }

  lemma EntryGone(s: State, p: Proc)
    requires Inv(s) && p in s.workers && s.workers[p].stage == Listed
    ensures s.workers[p].use.ForTyping? ==> (s.typingGroup.None? <==> Struck(s.hits, p))
  {
    hide Held, Counted, ListedRuns, Aimed, SafeHits, PastHits, Deadly, Ended, Told, Born, Room, Struck;
  }

  /** One that has not ended keeps its pid. */
  lemma RunningChildKeepsPid(s: State, p: Proc, a: Action)
    requires Inv(s) && p in s.workers && p !in s.exits
    ensures Holder(Step(s, a).owner, s.workers[p].pid) == Some(p)
  {
    hide Counted, ListedRuns, ListedTypist, Aimed, SafeHits, PastHits, Deadly, Told, Room, Born;
    assert !s.workers[p].stage.Reaped?;
    if a.Reap? && a.proc in s.workers && a.proc != p {
      assert s.workers[a.proc].stage.Unlisted? ==> Holder(s.owner, s.workers[a.proc].pid) == Some(a.proc);
    }
  }
}

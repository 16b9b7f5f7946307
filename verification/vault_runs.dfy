/** Process groups of the vault helper (main.rs): the request loop, the threads that wait on
    children, the delayed stop threads and the kernel, interleaved step by step. Every lock the
    helper takes is one step here. */
module VaultRuns {
  import opened Common

  const MAX_RUNS: nat := 32
  const MAX_DETACHED: nat := 8

  type Pid = nat

  /** A process, told apart from any other that is given the same pid after it. */
  type Proc = nat

  datatype Signal = Term | Kill

  /** What a child is for. Only runs and auto-types are ever signalled. */
  datatype Use = ForRun(id: nat) | ForTyping | ForDetached

  /** How far a thread is with its child. An auto-type also remembers whether its entry was gone when it
      came for it, and whether the child took the whole text. */
  datatype Stage = Listed | Unlisted(stopped: bool, written: bool) | Reaped(stopped: bool, written: bool)

  /** The thread waiting on a child. */
  datatype Worker = Worker(use: Use, pid: Pid, stage: Stage)

  /** A thread that kills a run if it is still there after the grace period. `meant` and `since`
      are not known to it: the process it was started for, and the runs started before it. */
  datatype Stop = Stop(id: nat, group: Pid, meant: Proc, since: nat)

  /** Where the request loop is. */
  datatype Main =
    | Idle
    | Claiming(wanted: Use, seen: int)
    | Ready(use: Use)
    | Spawned(use: Use, pid: Pid, proc: Proc)
    | Quitting
    | Waiting
    | Done

  /** Who sends a signal; a delayed one with its stop and the runs started by then. */
  datatype Sender = ByRequest | ByTyping | ByQuit | ByDelay(stop: Stop, upto: nat)

  /** A signal as sent: who has the pid at that moment, who it was meant for, and whether the receiver was
      still running (a child that ended and was not reaped still has its pid). */
  datatype Hit = Hit(signal: Signal, sender: Sender, pid: Pid, receiver: Option<Proc>, meant: Proc, alive: bool)

  /** What a finished auto-type goes by: its entry was gone, the text was taken, the exit status was 0. */
  datatype Answer = Answer(stopped: bool, written: bool, success: bool)

  datatype Typed = All | Stopped | Failed

  function Said(a: Answer): Typed {
    if a.written && a.success then All else if a.stopped then Stopped else Failed
  }

  datatype State = State(
    runs: map<nat, Pid>,
    typingGroup: Option<Pid>,
    typing: int,
    detached: int,
    main: Main,
    workers: map<Proc, Worker>,
    stops: seq<Stop>,
    /** The kernel: which of our children holds which pid, and the pids of everybody else. */
    owner: map<Pid, Proc>,
    foreign: set<Pid>,
    nextProc: Proc,
    /** The children that ended, with whether their status was 0. */
    exits: map<Proc, bool>,
    /** The runs listed so far, the last auto-type listed, the signals sent and the auto-types answered. */
    started: seq<(nat, Proc)>,
    typist: Option<Proc>,
    hits: set<Hit>,
    answers: map<Proc, Answer>)

  datatype Action =
    | Exec(id: nat)
    | AutoType
    | Detach
    | Swap(spurious: bool)
    | Spawn(pid: Pid)
    | GiveUp
    | List
    | KillRun(id: nat)
    | StopTyping
    | Quit
    | QuitTerm
    | QuitKill
    | StopFires(k: nat)
    | Exit(proc: Proc, success: bool)
    | Leave(proc: Proc, written: bool)
    | Reap(proc: Proc)
    | Finish(proc: Proc)
    | Others(pids: set<Pid>)

  const Start: State := State(map[], None, 0, 0, Idle, map[], [], map[], {}, 0, map[], [], None, {}, map[])

  /** Who has the pid now. */
  function Holder(owner: map<Pid, Proc>, pid: Pid): Option<Proc> {
    if pid in owner then Some(owner[pid]) else None
  }

  /** The last run listed under `id`. */
  function LastStart(started: seq<(nat, Proc)>, id: nat): Option<Proc> {
    if started == [] then None
    else if started[|started| - 1].0 == id then Some(started[|started| - 1].1)
    else LastStart(started[..|started| - 1], id)
  }

  function Meant(last: Option<Proc>): Proc {
    if last.Some? then last.value else 0
  }

  function HitOn(s: State, signal: Signal, sender: Sender, pid: Pid, meant: Proc): Hit {
    var receiver := Holder(s.owner, pid);
    Hit(signal, sender, pid, receiver, meant, receiver.Some? && receiver.value !in s.exits)
  }

  function RunHit(s: State, signal: Signal, sender: Sender, id: nat): Hit
    requires id in s.runs
  {
    HitOn(s, signal, sender, s.runs[id], Meant(LastStart(s.started, id)))
  }

  function TypingHits(s: State): set<Hit> {
    if s.typingGroup.None? then {} else {HitOn(s, Kill, ByTyping, s.typingGroup.value, Meant(s.typist))}
  }

  /** Those a kill reaches. */
  function Victims(hits: set<Hit>): set<Proc> {
    set h | h in hits && h.signal == Kill && h.receiver.Some? :: h.receiver.value
  }

  /** A kill ends a child that is still running; one that has ended keeps its status. */
  function Die(exits: map<Proc, bool>, hits: set<Hit>): map<Proc, bool> {
    map p | p in exits.Keys + Victims(hits) :: if p in exits then exits[p] else false
  }

  function Signalled(s: State, hits: set<Hit>): State {
    s.(hits := s.hits + hits, exits := Die(s.exits, hits))
  }

  /** `Slot` counters: the cap and count of a kind of child. */
  function Cap(use: Use): nat {
    if use.ForTyping? then 1 else MAX_DETACHED
  }

  function Count(s: State, use: Use): int {
    if use.ForTyping? then s.typing else s.detached
  }

  function Add(s: State, use: Use, n: int): State {
    match use
    case ForTyping => s.(typing := s.typing + n)
    case ForDetached => s.(detached := s.detached + n)
    case ForRun(_) => s
  }

  function Retry(s: State, use: Use): State {
    s.(main := if Count(s, use) < Cap(use) then Claiming(use, Count(s, use)) else Idle)
  }

  function StopTypist(s: State): State {
    Signalled(s, TypingHits(s)).(typingGroup := None)
  }

  /** One step of whoever takes it; a step that is not possible changes nothing. */
  function Step(s: State, a: Action): State {
    match a
    case Exec(id) =>
      if s.main != Idle || |s.runs| >= MAX_RUNS || id in s.runs then s else s.(main := Ready(ForRun(id)))
    case AutoType => if s.main != Idle then s else Retry(s, ForTyping)
    case Detach => if s.main != Idle then s else Retry(s, ForDetached)
    case Swap(spurious) => DoSwap(s, spurious)
    case Spawn(pid) =>
      if !s.main.Ready? || pid in s.owner || pid in s.foreign then s
      else s.(main := Spawned(s.main.use, pid, s.nextProc), owner := s.owner[pid := s.nextProc],
              nextProc := s.nextProc + 1)
    case GiveUp => DoGiveUp(s)
    case List => DoList(s)
    case KillRun(id) => DoKill(s, id)
    case StopTyping => if s.main != Idle then s else StopTypist(s)
    case Quit => if s.main != Idle then s else StopTypist(s).(main := Quitting)
    case QuitTerm =>
      if s.main != Quitting then s
      else SignalAll(s, Term).(main := if s.runs == map[] then Done else Waiting)
    case QuitKill => if s.main != Waiting then s else SignalAll(s, Kill).(main := Done)
    case StopFires(k) => DoFire(s, k)
    case Exit(p, success) =>
      if p in s.exits || p !in s.owner.Values then s else s.(exits := s.exits[p := success])
    case Leave(p, written) => DoLeave(s, p, written)
    case Reap(p) => DoReap(s, p)
    case Finish(p) => DoFinish(s, p)
    case Others(pids) => if pids !! s.owner.Keys then s.(foreign := pids) else s
  }

  /** `compare_exchange_weak`: fails when the count moved, and may fail for no reason. */
  function DoSwap(s: State, spurious: bool): State {
    if !s.main.Claiming? || s.main.wanted.ForRun? then s
    else if !spurious && Count(s, s.main.wanted) == s.main.seen then
      Add(s, s.main.wanted, 1).(main := Ready(s.main.wanted))
    else
      Retry(s, s.main.wanted)
  }

  /** Nothing to type, or the spawn failed: the slot goes back with the request. */
  function DoGiveUp(s: State): State {
    if !s.main.Ready? then s else Add(s, s.main.use, -1).(main := Idle)
  }

  function DoList(s: State): State {
    if !s.main.Spawned? then s else
    var (use, pid, p) := (s.main.use, s.main.pid, s.main.proc);
    var s1 := s.(main := Idle, workers := s.workers[p := Worker(use, pid, Listed)]);
    match use
    case ForRun(id) => s1.(runs := s.runs[id := pid], started := s.started + [(id, p)])
    case ForTyping => s1.(typingGroup := Some(pid), typist := Some(p))
    case ForDetached => s1
  }

  function DoKill(s: State, id: nat): State {
    if s.main != Idle || id !in s.runs then s else
    var hit := RunHit(s, Term, ByRequest, id);
    Signalled(s, {hit}).(stops := s.stops + [Stop(id, s.runs[id], hit.meant, |s.started|)])
  }

  function SignalAll(s: State, signal: Signal): State {
    Signalled(s, set id | id in s.runs :: RunHit(s, signal, ByQuit, id))
  }

  /** Only if the list still holds this id with this group. */
  function DoFire(s: State, k: nat): State {
    if k >= |s.stops| || !(s.stops[k].id in s.runs && s.runs[s.stops[k].id] == s.stops[k].group) then s else
    var stop := s.stops[k];
    Signalled(s, {HitOn(s, Kill, ByDelay(stop, |s.started|), stop.group, stop.meant)})
  }

  /** Off the list before the child is reaped. */
  function DoLeave(s: State, p: Proc, written: bool): State {
    if p !in s.workers || s.workers[p].stage != Listed then s else
    var w := s.workers[p];
    var stage := Unlisted(w.use.ForTyping? && s.typingGroup.None?, written);
    var s1 := s.(workers := s.workers[p := w.(stage := stage)]);
    match w.use
    case ForRun(id) => s1.(runs := s.runs - {id})
    case ForTyping => s1.(typingGroup := None)
    case ForDetached => s1
  }

  /** Waits for the end of the child and gives its pid back. */
  function DoReap(s: State, p: Proc): State {
    if p !in s.workers || !s.workers[p].stage.Unlisted? || p !in s.exits then s else
    var w := s.workers[p];
    s.(owner := s.owner - {w.pid}, workers := s.workers[p := w.(stage := Reaped(w.stage.stopped, w.stage.written))])
  }

  function DoFinish(s: State, p: Proc): State {
    if p !in s.workers || !s.workers[p].stage.Reaped? || p !in s.exits then s else
    var w := s.workers[p];
    var answers := if w.use.ForTyping? then s.answers[p := Answer(w.stage.stopped, w.stage.written, s.exits[p])]
                   else s.answers;
    Add(s.(workers := s.workers - {p}, answers := answers), w.use, -1)
  }

  // ---- What every step keeps --------------------------------------------------------------------

  /** A child that was not reaped still holds its pid. */
  ghost predicate Held(owner: map<Pid, Proc>, workers: map<Proc, Worker>, main: Main) {
    && (forall p :: p in workers && !workers[p].stage.Reaped? ==> Holder(owner, workers[p].pid) == Some(p))
    && (main.Spawned? ==> Holder(owner, main.pid) == Some(main.proc) && main.proc !in workers)
  }

  ghost predicate Born(owner: map<Pid, Proc>, workers: map<Proc, Worker>, main: Main, started: seq<(nat, Proc)>,
                       typist: Option<Proc>, nextProc: Proc) {
    && (forall p :: p in workers ==> p < nextProc)
    && (forall pid :: pid in owner ==> owner[pid] < nextProc)
    && (forall i :: 0 <= i < |started| ==> started[i].1 < nextProc)
    && (typist.Some? ==> typist.value < nextProc)
    && (main.Spawned? ==>
          && main.proc < nextProc && typist != Some(main.proc)
          && (forall i :: 0 <= i < |started| ==> started[i].1 != main.proc))
    && (forall i, j :: 0 <= i < j < |started| ==> started[i].1 != started[j].1)
  }

  /** The list is exactly the run threads that have not left it. */
  ghost predicate ListedRuns(runs: map<nat, Pid>, workers: map<Proc, Worker>, started: seq<(nat, Proc)>) {
    && (forall id :: id in runs ==>
          var last := LastStart(started, id);
          last.Some? && last.value in workers && workers[last.value] == Worker(ForRun(id), runs[id], Listed))
    && (forall p :: p in workers && workers[p].stage == Listed && workers[p].use.ForRun? ==>
          workers[p].use.id in runs && LastStart(started, workers[p].use.id) == Some(p))
  }

  ghost predicate Room(runs: map<nat, Pid>, main: Main) {
    && |runs| <= MAX_RUNS
    && (main.Ready? && main.use.ForRun? ==> |runs| < MAX_RUNS && main.use.id !in runs)
    && (main.Spawned? && main.use.ForRun? ==> |runs| < MAX_RUNS && main.use.id !in runs)
    && (main.Claiming? ==> !main.wanted.ForRun? && main.seen < Cap(main.wanted))
  }

  /** A stop took the entry of this auto-type and sent it a kill. */
  ghost predicate Struck(hits: set<Hit>, p: Proc) {
    exists h :: h in hits && h.sender == ByTyping && h.receiver == Some(p)
  }

  /** The typing entry is the auto-type that has not left it, unless it was stopped. */
  ghost predicate ListedTypist(group: Option<Pid>, workers: map<Proc, Worker>, typist: Option<Proc>, hits: set<Hit>) {
    && (group.Some? ==>
          && typist.Some? && typist.value in workers
          && workers[typist.value] == Worker(ForTyping, group.value, Listed))
    && (forall p :: p in workers && workers[p].use.ForTyping? && workers[p].stage == Listed ==>
          typist == Some(p) && (group.None? <==> Struck(hits, p)))
    && (forall p :: p in workers && workers[p].use.ForTyping? && !workers[p].stage.Listed? ==>
          (workers[p].stage.stopped <==> Struck(hits, p)))
  }

  function Those(workers: map<Proc, Worker>, use: Use): set<Proc> {
    set p | p in workers && workers[p].use == use
  }

  function Claimed(main: Main, use: Use): int {
    if (main.Ready? || main.Spawned?) && main.use == use then 1 else 0
  }

  /** A counter is the number of live slots, and within its cap. */
  ghost predicate Counted(count: int, workers: map<Proc, Worker>, main: Main, use: Use) {
    count == |Those(workers, use)| + Claimed(main, use) <= Cap(use)
  }

  ghost predicate Aimed(stops: seq<Stop>, started: seq<(nat, Proc)>) {
    forall k :: 0 <= k < |stops| ==>
      stops[k].since <= |started| && LastStart(started[..stops[k].since], stops[k].id) == Some(stops[k].meant)
  }

  /** No run was started under the id of this stop since it was asked for. */
  ghost predicate Unrepeated(stop: Stop, started: seq<(nat, Proc)>) {
    forall i :: stop.since <= i < |started| ==> started[i].0 != stop.id
  }

  /** The signal went to a child of ours that was not reaped: to the one it was meant for, or for a delayed
      kill, to that one exactly when its id was not used again by then. */
  ghost predicate WellAimed(h: Hit, started: seq<(nat, Proc)>) {
    && h.receiver.Some?
    && match h.sender
       case ByDelay(stop, upto) =>
         && h.meant == stop.meant && stop.since <= upto <= |started|
         && LastStart(started[..stop.since], stop.id) == Some(stop.meant)
         && (h.receiver == Some(h.meant) <==> Unrepeated(stop, started[..upto]))
       case _ => h.receiver == Some(h.meant)
  }

  ghost predicate SafeHits(hits: set<Hit>, started: seq<(nat, Proc)>) {
    forall h :: h in hits ==> WellAimed(h, started)
  }

  /** A kill that found its receiver running ended it. */
  ghost predicate Deadly(hits: set<Hit>, exits: map<Proc, bool>) {
    forall h :: h in hits && h.signal == Kill && h.alive && h.receiver.Some? ==>
      h.receiver.value in exits && !exits[h.receiver.value]
  }

  ghost predicate Ended(workers: map<Proc, Worker>, exits: map<Proc, bool>, nextProc: Proc) {
    && (forall p :: p in exits ==> p < nextProc)
    && (forall p :: p in workers && workers[p].stage.Reaped? ==> p in exits)
  }

  /** Every answer goes by what happened to that auto-type. */
  ghost predicate Told(answers: map<Proc, Answer>, workers: map<Proc, Worker>, main: Main, hits: set<Hit>,
                       exits: map<Proc, bool>) {
    forall p :: p in answers ==>
      && p !in workers && (main.Spawned? ==> p != main.proc)
      && p in exits && answers[p].success == exits[p]
      && (answers[p].stopped <==> Struck(hits, p))
  }

  ghost predicate PastHits(hits: set<Hit>, main: Main, nextProc: Proc) {
    forall h :: h in hits && h.receiver.Some? ==>
      h.receiver.value < nextProc && (main.Spawned? ==> h.receiver.value != main.proc)
  }

  ghost predicate Inv(s: State) {
    && Held(s.owner, s.workers, s.main)
    && s.owner.Keys !! s.foreign
    && Born(s.owner, s.workers, s.main, s.started, s.typist, s.nextProc)
    && ListedRuns(s.runs, s.workers, s.started)
    && Room(s.runs, s.main)
    && ListedTypist(s.typingGroup, s.workers, s.typist, s.hits)
    && Counted(s.typing, s.workers, s.main, ForTyping)
    && Counted(s.detached, s.workers, s.main, ForDetached)
    && Aimed(s.stops, s.started)
    && SafeHits(s.hits, s.started)
    && PastHits(s.hits, s.main, s.nextProc)
    && Deadly(s.hits, s.exits)
    && Ended(s.workers, s.exits, s.nextProc)
    && Told(s.answers, s.workers, s.main, s.hits, s.exits)
  }

  lemma StartsSound()
    ensures Inv(Start)
  {
  }

  /** The request loop moves between places where it holds no child. */
  lemma MainKeeps(s: State, main: Main, typing: int, detached: int)
    requires Inv(s) && !main.Spawned? && !s.main.Spawned? && Room(s.runs, main)
    requires typing == s.typing - Claimed(s.main, ForTyping) + Claimed(main, ForTyping) <= 1
    requires detached == s.detached - Claimed(s.main, ForDetached) + Claimed(main, ForDetached) <= MAX_DETACHED
    ensures Inv(s.(main := main, typing := typing, detached := detached))
  {
    hide ListedRuns, ListedTypist, Aimed, SafeHits, LastStart, Those, Deadly, Ended, Struck;
  }

  lemma SpawnKeeps(s: State, pid: Pid)
    requires Inv(s)
    ensures Inv(Step(s, Spawn(pid)))
  {
    hide ListedRuns, ListedTypist, Aimed, SafeHits, LastStart, Those, Deadly, Struck;
  }

  lemma ExitKeeps(s: State, p: Proc, success: bool)
    requires Inv(s)
    ensures Inv(Step(s, Exit(p, success)))
  {
    hide Held, ListedRuns, ListedTypist, Aimed, SafeHits, PastHits, Counted, Room, Struck;
  }

  // ---- A thread's own steps ---------------------------------------------------------------------

  function Restaged(workers: map<Proc, Worker>, p: Proc, stage: Stage): map<Proc, Worker>
    requires p in workers
  {
    workers[p := workers[p].(stage := stage)]
  }

  lemma RestagedCounts(count: int, workers: map<Proc, Worker>, main: Main, use: Use, p: Proc, stage: Stage)
    requires p in workers && Counted(count, workers, main, use)
    ensures Counted(count, Restaged(workers, p, stage), main, use)
  {
    assert Those(Restaged(workers, p, stage), use) == Those(workers, use);
  }

  /** What does not depend on stages, whatever happens to one thread. */
  lemma RestagedRest(s: State, p: Proc, stage: Stage)
    requires Inv(s) && p in s.workers && (stage.Reaped? ==> p in s.exits)
    ensures Born(s.owner, Restaged(s.workers, p, stage), s.main, s.started, s.typist, s.nextProc)
    ensures Counted(s.typing, Restaged(s.workers, p, stage), s.main, ForTyping)
    ensures Counted(s.detached, Restaged(s.workers, p, stage), s.main, ForDetached)
    ensures Ended(Restaged(s.workers, p, stage), s.exits, s.nextProc)
    ensures Told(s.answers, Restaged(s.workers, p, stage), s.main, s.hits, s.exits)
  {
    hide Held, ListedRuns, ListedTypist, Aimed, SafeHits, PastHits, Counted, Deadly, Struck;
    RestagedCounts(s.typing, s.workers, s.main, ForTyping, p, stage);
    RestagedCounts(s.detached, s.workers, s.main, ForDetached, p, stage);
  }

  lemma RoomShrinks(runs: map<nat, Pid>, id: nat, main: Main)
    requires Room(runs, main)
    ensures Room(runs - {id}, main)
  {
    assert (runs - {id}).Keys == runs.Keys - {id};
    if id in runs {
      assert |runs.Keys - {id}| < |runs.Keys|;
    } else {
      assert runs.Keys - {id} == runs.Keys;
    }
  }

  lemma LeaveRun(runs: map<nat, Pid>, workers: map<Proc, Worker>, started: seq<(nat, Proc)>, p: Proc, written: bool)
    requires ListedRuns(runs, workers, started)
    requires p in workers && workers[p].stage == Listed && workers[p].use.ForRun?
    ensures ListedRuns(runs - {workers[p].use.id}, Restaged(workers, p, Unlisted(false, written)), started)
  {
    hide LastStart;
  }

  lemma LeaveTypist(group: Option<Pid>, workers: map<Proc, Worker>, typist: Option<Proc>, hits: set<Hit>, p: Proc,
                    written: bool)
    requires ListedTypist(group, workers, typist, hits)
    requires p in workers && workers[p].stage == Listed && workers[p].use.ForTyping?
    ensures ListedTypist(None, Restaged(workers, p, Unlisted(group.None?, written)), typist, hits)
  {
    hide Struck;
  }

  lemma OtherRuns(runs: map<nat, Pid>, workers: map<Proc, Worker>, started: seq<(nat, Proc)>, p: Proc, stage: Stage)
    requires ListedRuns(runs, workers, started) && p in workers && !stage.Listed?
    requires workers[p].use.ForRun? ==> !workers[p].stage.Listed?
    ensures ListedRuns(runs, Restaged(workers, p, stage), started)
  {
    hide LastStart;
  }

  lemma OtherTypist(group: Option<Pid>, workers: map<Proc, Worker>, typist: Option<Proc>, hits: set<Hit>, p: Proc,
                    stage: Stage)
    requires ListedTypist(group, workers, typist, hits) && p in workers && !stage.Listed?
    requires workers[p].use.ForTyping? ==> !workers[p].stage.Listed? && workers[p].stage.stopped == stage.stopped
    ensures ListedTypist(group, Restaged(workers, p, stage), typist, hits)
  {
    hide Struck;
  }

  lemma StillHeld(owner: map<Pid, Proc>, workers: map<Proc, Worker>, main: Main, p: Proc, stage: Stage)
    requires Held(owner, workers, main) && p in workers && !workers[p].stage.Reaped?
    ensures Held(owner, Restaged(workers, p, stage), main)
    ensures stage.Reaped? ==> Held(owner - {workers[p].pid}, Restaged(workers, p, stage), main)
  {
  }

  lemma LeaveKeeps(s: State, p: Proc, written: bool)
    requires Inv(s)
    ensures Inv(DoLeave(s, p, written))
  {
    if p in s.workers && s.workers[p].stage == Listed {
      var stage := Unlisted(s.workers[p].use.ForTyping? && s.typingGroup.None?, written);
      RestagedRest(s, p, stage);
      StillHeld(s.owner, s.workers, s.main, p, stage);
      hide Held, Born, Counted, ListedRuns, ListedTypist, Room, Aimed, SafeHits, PastHits, Deadly, Ended, Told;
      match s.workers[p].use
      case ForRun(id) =>
        RoomShrinks(s.runs, id, s.main);
        LeaveRun(s.runs, s.workers, s.started, p, written);
        OtherTypist(s.typingGroup, s.workers, s.typist, s.hits, p, stage);
      case ForTyping =>
        OtherRuns(s.runs, s.workers, s.started, p, stage);
        LeaveTypist(s.typingGroup, s.workers, s.typist, s.hits, p, written);
      case ForDetached =>
        OtherRuns(s.runs, s.workers, s.started, p, stage);
        OtherTypist(s.typingGroup, s.workers, s.typist, s.hits, p, stage);
    }
  }

  lemma ReapKeeps(s: State, p: Proc)
    requires Inv(s)
    ensures Inv(DoReap(s, p))
  {
    if p in s.workers && s.workers[p].stage.Unlisted? && p in s.exits {
      var stage := Reaped(s.workers[p].stage.stopped, s.workers[p].stage.written);
      RestagedRest(s, p, stage);
      StillHeld(s.owner, s.workers, s.main, p, stage);
      OtherRuns(s.runs, s.workers, s.started, p, stage);
      OtherTypist(s.typingGroup, s.workers, s.typist, s.hits, p, stage);
      hide Held, Counted, ListedRuns, ListedTypist, Room, Aimed, SafeHits, PastHits, Deadly, Ended, Told;
    }
  }

  lemma FinishKeeps(s: State, p: Proc)
    requires Inv(s)
    ensures Inv(DoFinish(s, p))
  {
    if p in s.workers && s.workers[p].stage.Reaped? && p in s.exits {
      FinishCounts(s.typing, s.workers, s.main, ForTyping, p);
      FinishCounts(s.detached, s.workers, s.main, ForDetached, p);
      FinishLists(s, p);
      FinishTold(s, p);
      hide Held, Counted, ListedRuns, ListedTypist, Room, Aimed, SafeHits, PastHits, Deadly, Ended, Told;
    }
  }

  lemma FinishTold(s: State, p: Proc)
    requires Inv(s) && p in s.workers && s.workers[p].stage.Reaped? && p in s.exits
    ensures Ended(s.workers - {p}, s.exits, s.nextProc)
    ensures Told(s.answers, s.workers - {p}, s.main, s.hits, s.exits)
    ensures s.workers[p].use.ForTyping? ==>
              Told(s.answers[p := Answer(s.workers[p].stage.stopped, s.workers[p].stage.written, s.exits[p])],
                   s.workers - {p}, s.main, s.hits, s.exits)
  {
    hide Counted, Room, Aimed, SafeHits, PastHits, Deadly, Struck, Born, ListedRuns;
  }

  lemma FinishCounts(count: int, workers: map<Proc, Worker>, main: Main, use: Use, p: Proc)
    requires Counted(count, workers, main, use) && p in workers
    ensures Counted(if workers[p].use == use then count - 1 else count, workers - {p}, main, use)
  {
    var rest := Those(workers - {p}, use);
    if workers[p].use == use {
      assert rest == Those(workers, use) - {p} && p in Those(workers, use);
    } else {
      assert rest == Those(workers, use);
    }
  }

  lemma FinishLists(s: State, p: Proc)
    requires Inv(s) && p in s.workers && s.workers[p].stage.Reaped?
    ensures Held(s.owner, s.workers - {p}, s.main)
    ensures ListedRuns(s.runs, s.workers - {p}, s.started)
    ensures ListedTypist(s.typingGroup, s.workers - {p}, s.typist, s.hits)
  {
    hide Counted, Room, Aimed, SafeHits, PastHits, LastStart, Struck, Born;
  }

  // ---- Signals ----------------------------------------------------------------------------------

  /** A run on the list is the last one started under its id, and its pid is still its own. */
  lemma ListedIsOurs(s: State, id: nat)
    requires Inv(s) && id in s.runs
    ensures LastStart(s.started, id).Some?
    ensures Holder(s.owner, s.runs[id]) == LastStart(s.started, id)
    ensures var p := LastStart(s.started, id).value;
            p in s.workers && s.workers[p].use == ForRun(id) && p < s.nextProc
            && (s.main.Spawned? ==> p != s.main.proc)
  {
    hide Counted, Room, Aimed, SafeHits, PastHits, LastStart, ListedTypist;
  }

  /** A signal to a run on the list, well aimed and not one of the typing stops. */
  ghost predicate OnARun(s: State, h: Hit) {
    && h.receiver.Some? && h.receiver.value in s.workers && s.workers[h.receiver.value].use.ForRun?
    && h.receiver.value < s.nextProc && (s.main.Spawned? ==> h.receiver.value != s.main.proc)
    && h.sender != ByTyping && WellAimed(h, s.started) && h.alive == (h.receiver.value !in s.exits)
  }

  lemma StruckSame(hits: set<Hit>, more: set<Hit>, p: Proc)
    requires forall h :: h in more ==> h.sender != ByTyping || h.receiver != Some(p)
    ensures Struck(hits + more, p) <==> Struck(hits, p)
  {
    if Struck(hits, p) {
      var h :| h in hits && h.sender == ByTyping && h.receiver == Some(p);
      assert h in hits + more;
    }
  }

  /** What signals do to statuses, whoever sends them. */
  lemma DieKeeps(s: State, more: set<Hit>)
    requires Inv(s)
    requires forall h :: h in more ==>
               h.receiver.Some? && h.receiver.value < s.nextProc && h.alive == (h.receiver.value !in s.exits)
    ensures Deadly(s.hits + more, Die(s.exits, more)) && Ended(s.workers, Die(s.exits, more), s.nextProc)
  {
    hide Held, ListedRuns, ListedTypist, Aimed, SafeHits, PastHits, Counted, Room, Born, Told, WellAimed;
    forall h | h in s.hits + more && h.signal == Kill && h.alive && h.receiver.Some?
      ensures h.receiver.value in Die(s.exits, more) && !Die(s.exits, more)[h.receiver.value]
    {
      if h in more {
        assert h.receiver.value in Victims(more);
      }
    }
  }

  lemma MoreHits(s: State, more: set<Hit>)
    requires SafeHits(s.hits, s.started) && PastHits(s.hits, s.main, s.nextProc)
    requires forall h :: h in more ==>
               && WellAimed(h, s.started) && h.receiver.Some? && h.receiver.value < s.nextProc
               && (s.main.Spawned? ==> h.receiver.value != s.main.proc)
    ensures SafeHits(s.hits + more, s.started) && PastHits(s.hits + more, s.main, s.nextProc)
  {
    hide WellAimed;
  }

  lemma UntouchedTypists(s: State, more: set<Hit>)
    requires Inv(s) && forall p :: Struck(s.hits + more, p) <==> Struck(s.hits, p)
    ensures ListedTypist(s.typingGroup, s.workers, s.typist, s.hits + more)
    ensures Told(s.answers, s.workers, s.main, s.hits + more, Die(s.exits, more))
  {
    hide Counted, Room, Aimed, LastStart, ListedRuns, SafeHits, PastHits, Deadly, Ended, Struck, Held, Born, Victims;
  }

  /** Signals to listed runs keep the rest as it is. */
  lemma RunHitsKeep(s: State, more: set<Hit>)
    requires Inv(s) && forall h :: h in more ==> OnARun(s, h)
    ensures Inv(Signalled(s, more))
  {
    hide Counted, Room, Aimed, ListedRuns, ListedTypist, Held, Born, WellAimed, Struck, Deadly, Ended, Told, Die,
         SafeHits, PastHits;
    DieKeeps(s, more);
    forall p
      ensures Struck(s.hits + more, p) <==> Struck(s.hits, p)
    {
      StruckSame(s.hits, more, p);
    }
    UntouchedTypists(s, more);
    MoreHits(s, more);
  }

  lemma StopsKeep(s: State, stops: seq<Stop>)
    requires Inv(s) && Aimed(stops, s.started)
    ensures Inv(s.(stops := stops))
  {
    hide Held, Counted, ListedRuns, ListedTypist, Room, Born, Aimed, SafeHits, PastHits, Deadly, Ended, Told;
  }

  lemma NewStopIsAimed(s: State, id: nat)
    requires Inv(s) && id in s.runs
    ensures Aimed(s.stops + [Stop(id, s.runs[id], RunHit(s, Term, ByRequest, id).meant, |s.started|)], s.started)
  {
    ListedIsOurs(s, id);
    assert s.started[..|s.started|] == s.started;
    hide Held, Counted, ListedTypist, Room, Born, SafeHits, PastHits, Deadly, Ended, Told, LastStart;
  }

  lemma KillKeeps(s: State, id: nat)
    requires Inv(s)
    ensures Inv(DoKill(s, id))
  {
    if s.main == Idle && id in s.runs {
      ListedIsOurs(s, id);
      NewStopIsAimed(s, id);
      hide Inv, Aimed, RunHit;
      var hit := RunHit(s, Term, ByRequest, id);
      RunHitsKeep(s, {hit});
      StopsKeep(Signalled(s, {hit}), s.stops + [Stop(id, s.runs[id], hit.meant, |s.started|)]);
    }
  }

  lemma SignalAllKeeps(s: State, signal: Signal)
    requires Inv(s)
    ensures Inv(SignalAll(s, signal))
  {
    forall id | id in s.runs
      ensures OnARun(s, RunHit(s, signal, ByQuit, id))
    {
      ListedIsOurs(s, id);
    }
    hide Inv, RunHit, OnARun;
    RunHitsKeep(s, set id | id in s.runs :: RunHit(s, signal, ByQuit, id));
  }

  /** With ids never used again, the last start under an id does not change. */
  lemma {:induction false} LastStartStays(started: seq<(nat, Proc)>, since: nat, id: nat)
    requires since <= |started|
    requires forall i :: since <= i < |started| ==> started[i].0 != id
    ensures LastStart(started, id) == LastStart(started[..since], id)
    decreases |started|
  {
    if since == |started| {
      assert started[..since] == started;
    } else {
      var init := started[..|started| - 1];
      LastStartStays(init, since, id);
      assert init[..since] == started[..since];
    }
  }

  lemma {:induction false} LastStartAt(started: seq<(nat, Proc)>, id: nat) returns (at: nat)
    requires LastStart(started, id).Some?
    ensures at < |started| && started[at] == (id, LastStart(started, id).value)
    ensures forall i :: at < i < |started| ==> started[i].0 != id
    decreases |started|
  {
    if started[|started| - 1].0 == id {
      at := |started| - 1;
    } else {
      at := LastStartAt(started[..|started| - 1], id);
    }
  }

  /** A delayed kill that goes out hits the run it was meant for if and only if no other run was
      started under that id in the meantime. */
  lemma DelayedKillAim(s: State, k: nat)
    requires Inv(s) && k < |s.stops|
    requires s.stops[k].id in s.runs && s.runs[s.stops[k].id] == s.stops[k].group
    ensures Holder(s.owner, s.stops[k].group).Some?
    ensures Holder(s.owner, s.stops[k].group) == Some(s.stops[k].meant) <==> Unrepeated(s.stops[k], s.started)
  {
    var stop := s.stops[k];
    ListedIsOurs(s, stop.id);
    hide LastStart, Held, ListedRuns, ListedTypist, Counted, Room, SafeHits, PastHits;
    assert LastStart(s.started[..stop.since], stop.id) == Some(stop.meant);
    if Unrepeated(stop, s.started) {
      LastStartStays(s.started, stop.since, stop.id);
    } else {
      var at := LastStartAt(s.started, stop.id);
      var before := LastStartAt(s.started[..stop.since], stop.id);
      assert s.started[before] == (stop.id, stop.meant) && before < stop.since <= at;
    }
  }

  lemma FireKeeps(s: State, k: nat)
    requires Inv(s)
    ensures Inv(DoFire(s, k))
  {
    if k < |s.stops| && s.stops[k].id in s.runs && s.runs[s.stops[k].id] == s.stops[k].group {
      var stop := s.stops[k];
      ListedIsOurs(s, stop.id);
      DelayedKillAim(s, k);
      assert s.started[..|s.started|] == s.started;
      var h := HitOn(s, Kill, ByDelay(stop, |s.started|), stop.group, stop.meant);
      assert LastStart(s.started[..stop.since], stop.id) == Some(stop.meant);
      hide LastStart, Unrepeated, Held, ListedRuns, ListedTypist, Counted, Room, SafeHits, PastHits, Born, Deadly,
           Ended, Told;
      assert WellAimed(h, s.started);
      hide Inv;
      RunHitsKeep(s, {h});
    }
  }

  lemma StopTypistKeeps(s: State)
    requires Inv(s)
    ensures Inv(StopTypist(s))
  {
    hide Inv;
    if s.typingGroup.Some? {
      StopOneKeeps(s);
    } else {
      assert Die(s.exits, {}) == s.exits && s.hits + {} == s.hits;
      assert StopTypist(s) == s;
    }
  }

  lemma StopOneKeeps(s: State)
    requires Inv(s) && s.typingGroup.Some?
    ensures Inv(StopTypist(s))
  {
    hide Counted, Room, Aimed, ListedRuns, ListedTypist, Held, Born, Struck, Deadly, Ended, Told, Die, SafeHits,
         PastHits;
    TypistIsOurs(s);
    var more := TypingHits(s);
    DieKeeps(s, more);
    StruckMore(s, more);
    StoppedLists(s, more, s.typist.value);
    MoreHits(s, more);
  }

  lemma StruckMore(s: State, more: set<Hit>)
    requires s.typingGroup.Some? && s.typist.Some? && Holder(s.owner, s.typingGroup.value) == s.typist
             && more == TypingHits(s)
    ensures forall q :: Struck(s.hits + more, q) <==> Struck(s.hits, q) || q == s.typist.value
  {
    var p := s.typist.value;
    forall q
      ensures Struck(s.hits + more, q) <==> Struck(s.hits, q) || q == p
    {
      if q == p {
        var h :| h in more;
        assert h in s.hits + more && h.sender == ByTyping && h.receiver == Some(p);
      } else {
        StruckSame(s.hits, more, q);
      }
    }
  }

  lemma TypistIsOurs(s: State)
    requires Inv(s) && s.typingGroup.Some?
    ensures s.typist.Some? && Holder(s.owner, s.typingGroup.value) == s.typist && s.typist.value in s.workers
    ensures s.typist.value < s.nextProc && (s.main.Spawned? ==> s.main.proc != s.typist.value)
    ensures s.workers[s.typist.value] == Worker(ForTyping, s.typingGroup.value, Listed)
  {
    hide Counted, Room, Aimed, LastStart, ListedRuns, SafeHits, PastHits, Deadly, Ended, Told, Struck;
  }

  lemma StoppedLists(s: State, more: set<Hit>, p: Proc)
    requires Inv(s) && p in s.workers && s.typist == Some(p) && s.workers[p].stage == Listed
    requires forall q :: Struck(s.hits + more, q) <==> Struck(s.hits, q) || q == p
    ensures ListedTypist(None, s.workers, s.typist, s.hits + more)
    ensures Told(s.answers, s.workers, s.main, s.hits + more, Die(s.exits, more))
  {
    hide Counted, Room, Aimed, LastStart, ListedRuns, SafeHits, PastHits, Deadly, Ended, Struck, Held, Born, Victims;
  }

  // ---- The request loop -------------------------------------------------------------------------

  lemma ListKeeps(s: State)
    requires Inv(s)
    ensures Inv(DoList(s))
  {
    hide Inv;
    if s.main.Spawned? {
      match s.main.use
      case ForRun(_) => ListRunKeeps(s);
      case _ => ListOtherKeeps(s);
    }
  }

  lemma ListRunKeeps(s: State)
    requires Inv(s) && s.main.Spawned? && s.main.use.ForRun?
    ensures Inv(DoList(s))
  {
    hide Held, Counted, ListedRuns, ListedTypist, Aimed, SafeHits, Born, Room, PastHits, Deadly, Ended, Told;
    var id, pid, p := s.main.use.id, s.main.pid, s.main.proc;
    ListMore(s);
    ListRoom(s.runs, s.main, s.hits, s.nextProc);
    ListRun(s);
    ListNotTypist(s);
    ListAims(s.stops, s.started, (id, p));
    ListHits(s.hits, s.started, (id, p));
  }

  lemma ListRoom(runs: map<nat, Pid>, main: Main, hits: set<Hit>, nextProc: Proc)
    requires main.Spawned? && main.use.ForRun? && Room(runs, main) && PastHits(hits, main, nextProc)
    ensures Room(runs[main.use.id := main.pid], Idle) && PastHits(hits, Idle, nextProc)
  {
    assert runs[main.use.id := main.pid].Keys == runs.Keys + {main.use.id};
  }

  lemma ListOtherKeeps(s: State)
    requires Inv(s) && s.main.Spawned? && !s.main.use.ForRun?
    ensures Inv(DoList(s))
  {
    hide Held, Counted, ListedRuns, ListedTypist, Aimed, SafeHits, Born, Deadly, Ended, Told;
    ListMore(s);
    ListNotRun(s);
    if s.main.use.ForTyping? {
      ListTypist(s);
    } else {
      ListNotTypist(s);
    }
  }

  lemma ListMore(s: State)
    requires Inv(s) && s.main.Spawned?
    ensures Held(s.owner, Joined(s), Idle)
    ensures Born(s.owner, Joined(s), Idle, s.started, s.typist, s.nextProc)
    ensures Born(s.owner, Joined(s), Idle, s.started, Some(s.main.proc), s.nextProc)
    ensures Counted(s.typing, Joined(s), Idle, ForTyping)
    ensures Counted(s.detached, Joined(s), Idle, ForDetached)
    ensures Ended(Joined(s), s.exits, s.nextProc) && Told(s.answers, Joined(s), Idle, s.hits, s.exits)
  {
    hide Counted, ListedRuns, ListedTypist, Aimed, SafeHits, PastHits, Room, Deadly, Struck;
    ListCounts(s.typing, s.workers, s.main, ForTyping);
    ListCounts(s.detached, s.workers, s.main, ForDetached);
  }

  function Joined(s: State): map<Proc, Worker>
    requires s.main.Spawned?
  {
    s.workers[s.main.proc := Worker(s.main.use, s.main.pid, Listed)]
  }

  lemma ListCounts(count: int, workers: map<Proc, Worker>, main: Main, use: Use)
    requires main.Spawned? && main.proc !in workers && Counted(count, workers, main, use)
    ensures Counted(count, workers[main.proc := Worker(main.use, main.pid, Listed)], Idle, use)
  {
    var those := Those(workers[main.proc := Worker(main.use, main.pid, Listed)], use);
    if main.use == use {
      assert those == Those(workers, use) + {main.proc};
    } else {
      assert those == Those(workers, use);
    }
  }

  lemma ListRun(s: State)
    requires Inv(s) && s.main.Spawned? && s.main.use.ForRun?
    ensures ListedRuns(s.runs[s.main.use.id := s.main.pid], Joined(s), s.started + [(s.main.use.id, s.main.proc)])
    ensures Born(s.owner, Joined(s), Idle, s.started + [(s.main.use.id, s.main.proc)], s.typist, s.nextProc)
  {
    hide Counted, Aimed, SafeHits, PastHits, ListedTypist;
    var id, p := s.main.use.id, s.main.proc;
    var started := s.started + [(id, p)];
    forall other: nat
      ensures LastStart(started, other) == if other == id then Some(p) else LastStart(s.started, other)
    {
      assert started[..|started| - 1] == s.started;
    }
    hide LastStart;
  }

  lemma ListNotRun(s: State)
    requires Inv(s) && s.main.Spawned? && !s.main.use.ForRun?
    ensures ListedRuns(s.runs, Joined(s), s.started)
  {
    hide Counted, Aimed, SafeHits, PastHits, ListedTypist, LastStart, Born;
  }

  lemma ListNotTypist(s: State)
    requires Inv(s) && s.main.Spawned? && !s.main.use.ForTyping?
    ensures ListedTypist(s.typingGroup, Joined(s), s.typist, s.hits)
  {
    hide Counted, Aimed, SafeHits, PastHits, ListedRuns, LastStart, Born;
  }

  /** The slot makes a new auto-type the only one. */
  lemma ListTypist(s: State)
    requires Inv(s) && s.main.Spawned? && s.main.use.ForTyping?
    ensures ListedTypist(Some(s.main.pid), Joined(s), Some(s.main.proc), s.hits)
  {
    hide Aimed, SafeHits, ListedRuns, LastStart, Born;
    assert Those(s.workers, ForTyping) == {};
    forall p | p in s.workers
      ensures !s.workers[p].use.ForTyping?
    {
      assert p !in Those(s.workers, ForTyping);
    }
  }

  lemma ListAims(stops: seq<Stop>, started: seq<(nat, Proc)>, start: (nat, Proc))
    requires Aimed(stops, started)
    ensures Aimed(stops, started + [start])
  {
    forall k | 0 <= k < |stops|
      ensures stops[k].since <= |started| + 1
              && LastStart((started + [start])[..stops[k].since], stops[k].id) == Some(stops[k].meant)
    {
      assert (started + [start])[..stops[k].since] == started[..stops[k].since];
    }
  }

  lemma ListHits(hits: set<Hit>, started: seq<(nat, Proc)>, start: (nat, Proc))
    requires SafeHits(hits, started)
    ensures SafeHits(hits, started + [start])
  {
    hide LastStart, Unrepeated;
    forall h | h in hits
      ensures WellAimed(h, started + [start])
    {
      if h.sender.ByDelay? {
        assert (started + [start])[..h.sender.stop.since] == started[..h.sender.stop.since];
        assert (started + [start])[..h.sender.upto] == started[..h.sender.upto];
      }
    }
  }

  lemma ExecKeeps(s: State, id: nat)
    requires Inv(s)
    ensures Inv(Step(s, Exec(id)))
  {
    hide Held, Counted, ListedRuns, ListedTypist, Aimed, SafeHits, Born, PastHits;
    if s.main == Idle && |s.runs| < MAX_RUNS && id !in s.runs {
      CountersInRange(s);
      hide Inv;
      MainKeeps(s, Ready(ForRun(id)), s.typing, s.detached);
    }
  }

  lemma CountersInRange(s: State)
    requires Inv(s)
    ensures Claimed(s.main, ForTyping) <= s.typing <= 1 && Claimed(s.main, ForDetached) <= s.detached <= MAX_DETACHED
    ensures Room(s.runs, s.main)
  {
    hide Held, ListedRuns, ListedTypist, Aimed, SafeHits, Born, PastHits;
  }

  lemma RetryKeeps(s: State, use: Use)
    requires Inv(s) && (s.main.Idle? || s.main.Claiming?) && !use.ForRun?
    ensures Inv(Retry(s, use))
  {
    CountersInRange(s);
    hide Inv;
    MainKeeps(s, Retry(s, use).main, s.typing, s.detached);
  }

  lemma SwapKeeps(s: State, spurious: bool)
    requires Inv(s)
    ensures Inv(DoSwap(s, spurious))
  {
    hide Inv, Retry;
    if s.main.Claiming? && !s.main.wanted.ForRun? {
      CountersInRange(s);
      if !spurious && Count(s, s.main.wanted) == s.main.seen {
        MainKeeps(s, Ready(s.main.wanted), DoSwap(s, spurious).typing, DoSwap(s, spurious).detached);
      } else {
        RetryKeeps(s, s.main.wanted);
      }
    }
  }

  lemma GiveUpKeeps(s: State)
    requires Inv(s)
    ensures Inv(DoGiveUp(s))
  {
    hide Inv;
    if s.main.Ready? {
      CountersInRange(s);
      MainKeeps(s, Idle, DoGiveUp(s).typing, DoGiveUp(s).detached);
    }
  }

  lemma StepKeeps(s: State, a: Action)
    requires Inv(s)
    ensures Inv(Step(s, a))
  {
    hide Inv, DoSwap, DoGiveUp, DoList, DoKill, StopTypist, SignalAll, DoFire, DoLeave, DoReap, DoFinish, Retry;
    match a
    case Exec(id) => ExecKeeps(s, id);
    case AutoType =>
      if s.main == Idle {
        RetryKeeps(s, ForTyping);
      }
    case Detach =>
      if s.main == Idle {
        RetryKeeps(s, ForDetached);
      }
    case Swap(spurious) => SwapKeeps(s, spurious);
    case GiveUp => GiveUpKeeps(s);
    case Spawn(pid) => SpawnKeeps(s, pid);
    case List => ListKeeps(s);
    case KillRun(id) => KillKeeps(s, id);
    case StopTyping => StopTypistKeeps(s);
    case Quit => QuitFirstKeeps(s);
    case QuitTerm =>
      if s.main == Quitting {
        QuitSignalKeeps(s, Term, if s.runs == map[] then Done else Waiting);
      }
    case QuitKill =>
      if s.main == Waiting {
        QuitSignalKeeps(s, Kill, Done);
      }
    case StopFires(k) => FireKeeps(s, k);
    case Exit(p, success) => ExitKeeps(s, p, success);
    case Leave(p, written) => LeaveKeeps(s, p, written);
    case Reap(p) => ReapKeeps(s, p);
    case Finish(p) => FinishKeeps(s, p);
    case Others(pids) => OthersKeep(s, pids);
  }

  lemma QuitFirstKeeps(s: State)
    requires Inv(s)
    ensures Inv(Step(s, Quit))
  {
    hide Inv, TypingHits, Die;
    if s.main == Idle {
      StopTypistKeeps(s);
      QuitKeeps(StopTypist(s), Quitting);
    }
  }

  lemma QuitSignalKeeps(s: State, signal: Signal, main: Main)
    requires Inv(s) && (s.main.Quitting? || s.main.Waiting?) && (main.Waiting? || main.Done?)
    ensures Inv(SignalAll(s, signal).(main := main))
  {
    hide Inv, RunHit;
    SignalAllKeeps(s, signal);
    assert SignalAll(s, signal).main == s.main;
    hide SignalAll;
    QuitKeeps(SignalAll(s, signal), main);
  }

  lemma QuitKeeps(s: State, main: Main)
    requires Inv(s) && (main.Quitting? || main.Waiting? || main.Done?)
    ensures s.main.Idle? || s.main.Quitting? || s.main.Waiting? ==> Inv(s.(main := main))
  {
    if s.main.Idle? || s.main.Quitting? || s.main.Waiting? {
      MainKeeps(s, main, s.typing, s.detached);
    }
  }

  lemma OthersKeep(s: State, pids: set<Pid>)
    requires Inv(s)
    ensures Inv(Step(s, Others(pids)))
  {
    hide Held, Counted, ListedRuns, ListedTypist, Aimed, SafeHits, Born, PastHits, Room, Deadly, Ended, Told;
  }

  // ---- Whole runs of the helper -----------------------------------------------------------------

  function After(actions: seq<Action>): State {
    if actions == [] then Start else Step(After(actions[..|actions| - 1]), actions[|actions| - 1])
  }

  lemma {:induction false} EveryRunKeeps(actions: seq<Action>)
    ensures Inv(After(actions))
    decreases |actions|
  {
    if actions == [] {
      StartsSound();
    } else {
      EveryRunKeeps(actions[..|actions| - 1]);
      StepKeeps(After(actions[..|actions| - 1]), actions[|actions| - 1]);
    }
  }

  /** Over every interleaving: each signal sent reached a child of the helper that was not reaped. Every
      signal but a delayed kill reached the very child it was meant for, and a delayed kill did if and only
      if no run was started under its id between the request and the kill. */
  lemma SignalsReachTheirOwn(actions: seq<Action>, h: Hit)
    requires h in After(actions).hits
    ensures h.receiver.Some?
    ensures !h.sender.ByDelay? ==> h.receiver == Some(h.meant)
    ensures h.sender.ByDelay? ==>
              && h.sender.upto <= |After(actions).started|
              && (h.receiver == Some(h.meant) <==> Unrepeated(h.sender.stop, After(actions).started[..h.sender.upto]))
  {
    EveryRunKeeps(actions);
    hide After, LastStart, Unrepeated;
    assert WellAimed(h, After(actions).started);
  }

  /** So with ids never used again every signal reaches its own. */
  lemma NoReuseNoMiss(actions: seq<Action>, h: Hit)
    requires h in After(actions).hits
    requires forall i, j :: 0 <= i < j < |After(actions).started| ==>
               After(actions).started[i].0 != After(actions).started[j].0
    ensures h.receiver == Some(h.meant)
  {
    EveryRunKeeps(actions);
    hide After;
    var started := After(actions).started;
    assert WellAimed(h, started);
    if h.sender.ByDelay? {
      var stop := h.sender.stop;
      var before := LastStartAt(started[..stop.since], stop.id);
      assert started[before].0 == stop.id;
      hide LastStart;
      assert Unrepeated(stop, started[..h.sender.upto]);
    }
  }

  /** No pid on either list is anybody else's, and each counter is its live slots, within its cap. */
  lemma ListsAndCounters(actions: seq<Action>)
    ensures var s := After(actions);
            && (forall id :: id in s.runs ==> s.runs[id] in s.owner && s.runs[id] !in s.foreign)
            && (s.typingGroup.Some? ==> s.typingGroup.value in s.owner && s.typingGroup.value !in s.foreign)
            && s.typing == |Those(s.workers, ForTyping)| + Claimed(s.main, ForTyping) <= 1
            && s.detached == |Those(s.workers, ForDetached)| + Claimed(s.main, ForDetached) <= MAX_DETACHED
            && |s.runs| <= MAX_RUNS
  {
    EveryRunKeeps(actions);
    hide After;
    var s := After(actions);
    forall id | id in s.runs
      ensures s.runs[id] in s.owner
    {
      ListedIsOurs(s, id);
    }
  }

  /** A run id is never given to another run while it is listed. */
  lemma RunIdsAreNotOverwritten(actions: seq<Action>, a: Action, id: nat)
    requires id in After(actions).runs && id in Step(After(actions), a).runs
    ensures Step(After(actions), a).runs[id] == After(actions).runs[id]
  {
    EveryRunKeeps(actions);
    hide After, Held, Counted, ListedRuns, ListedTypist, Aimed, SafeHits, Born, PastHits;
  }

  /** Over every interleaving: an auto-type answers "stopped" if and only if a stop took its entry and it did
      not both take the whole text and end with status 0. */
  lemma StoppedIff(actions: seq<Action>, p: Proc)
    requires p in After(actions).answers
    ensures p in After(actions).exits
    ensures Said(After(actions).answers[p]) == Stopped <==>
            Struck(After(actions).hits, p) && !(After(actions).answers[p].written && After(actions).exits[p])
    ensures Said(After(actions).answers[p]) == All <==> After(actions).answers[p].written && After(actions).exits[p]
  {
    EveryRunKeeps(actions);
    hide After, Struck;
  }

  /** One that the stop found running answers "stopped". */
  lemma FoundRunningIsStopped(actions: seq<Action>, p: Proc, h: Hit)
    requires p in After(actions).answers && h in After(actions).hits
    requires h.sender == ByTyping && h.signal == Kill && h.receiver == Some(p) && h.alive
    ensures Said(After(actions).answers[p]) == Stopped
  {
    EveryRunKeeps(actions);
    hide After;
    assert Struck(After(actions).hits, p);
  }

  /** Over every interleaving: a delayed kill goes to the run it was asked for if and only if no run
      was started under the same id since it was asked. */
  lemma DelayedKillHitsItsOwn(actions: seq<Action>, k: nat)
    requires k < |After(actions).stops|
    requires var stop := After(actions).stops[k];
             stop.id in After(actions).runs && After(actions).runs[stop.id] == stop.group
    ensures Holder(After(actions).owner, After(actions).stops[k].group) == Some(After(actions).stops[k].meant)
            <==> Unrepeated(After(actions).stops[k], After(actions).started)
  {
    EveryRunKeeps(actions);
    DelayedKillAim(After(actions), k);
  }
}

/**
 The supervisor as a transition system: one step per shared read, write, send, receive or kernel call of
   - the creator        (restoreHandlerCount, createHandlers, createHandler),
   - the creation listener    (CreateMonitoringThreads, createMonitorThread, createMonitorProcessThread),
   - the termination listener (MonitorProcessTermination, terminateMonitorThread),
   - every monitor thread     (monitorProcessThread),
   - every child, the worker threads of system children, and the console.
 Any enabled step may come next, so a list of steps is one interleaving.
 */
module Supervisor {
  import opened Common
  import opened Decimal
  import opened Messages
  import opened TypedQueue
  import opened Registry

  /** A pid a kernel hands out is positive and fits into a pid_t. */
  type Pid = n: int | 1 <= n <= INT_MAX witness 1

  /** What stays fixed for a run: numProcesses, whether the process type is "system", and the smallest and the largest
      pid the kernel hands out. */
  datatype Config = Config(limit: int, system: bool, minPid: Pid, maxPid: Pid)

  /** How many pids there are. */
  function PidSpace(cfg: Config): nat { Clamp(cfg.maxPid - cfg.minPid + 1) }

  /** createHandlers runs no turn of its loop for a non-positive count. */
  function Clamp(n: int): nat { if n < 0 then 0 else n }

  // ---------- children ----------

  datatype WaitStatus = Exited(code: int) | Signalled(signal: int) | Neither

  const STATUS_OK: int := 0
  const STATUS_SIGNAL: int := 1
  const STATUS_UNKNOWN: int := 2

  /** Any exit code at all counts as a normal end. */
  function DisplayProcessStatus(status: WaitStatus): (r: int)
    ensures r == STATUS_OK <==> status.Exited?
    ensures r == STATUS_SIGNAL <==> status.Signalled?
  {
    match status
    case Exited(_) => STATUS_OK
    case Signalled(_) => STATUS_SIGNAL
    case Neither => STATUS_UNKNOWN
  }

  /** Starting: the creation message is still to be sent. Leaving: postWork has tried to send the termination
      message and only _exit is left. Zombie: over, not yet waited for. */
  datatype Life = Starting | Working | Leaving | Zombie(status: WaitStatus) | Reaped(status: WaitStatus)

  /** The thread of a system child that spawned it: blocked in waitpid, about to run postWork, or past it. */
  datatype Worker = NoWorker | Waiting | Reporting | Gone

  /** A launched child with the handler object made for it (pid_, monitor_). The last three fields record history
      and no step tests them: which termination messages for this child were queued, and whether it was killed
      between sending its own and _exit. */
  datatype Child = Child(pid: int, life: Life, worker: Worker, monitoring: bool,
                         selfSent: bool, reaperSent: bool, lateKill: bool)

  predicate Over(life: Life) { life.Zombie? || life.Reaped? }

  predicate Abnormal(life: Life) {
    Over(life) && DisplayProcessStatus(life.status) != STATUS_OK
  }

  function NewChild(pid: int, system: bool): Child {
    Child(pid, if system then Working else Starting, if system then Waiting else NoWorker,
          false, false, false, false)
  }

  /** The child a waitpid or kill on this pid reaches: the one with that pid nobody has waited for. */
  function FindUnreaped(children: seq<Child>, pid: int): (found: Option<nat>)
    ensures found.Some? ==> found.value < |children| && children[found.value].pid == pid
                            && !children[found.value].life.Reaped?
    ensures found.None? ==> forall i :: 0 <= i < |children| && children[i].pid == pid ==> children[i].life.Reaped?
  {
    if children == [] then None
    else if children[|children| - 1].pid == pid && !children[|children| - 1].life.Reaped?
    then Some(|children| - 1)
    else FindUnreaped(children[..|children| - 1], pid)
  }

  // ---------- messages ----------

  datatype Sender = TheChild | ItsReaper

  /** A queued text. The listeners read only `text`; `from` and `sender` record where it came from. */
  datatype Letter = Letter(from: nat, sender: Sender, text: string)

  // ---------- program counters ----------

  /** Creator. In CLaunch and CCount, `left` turns of the launch loop are still to be counted. */
  datatype CreatorPc =
    | CLaunch(left: nat) | CCount(left: nat) | CRegister(left: nat)
    | CWaiting
    | CHead | CPaused | CRunning | CRespawn | CGuard | CRead | CDone

  datatype CreationPc =
    | KIdle | KHead | KPollHead | KPollReceive | KGot(letter: Letter)
    | KTest(handler: nat) | KRetest(handler: nat) | KSpawn(handler: nat) | KDone

  datatype TerminationPc =
    | TIdle | THead | TPollHead | TPollReceive | TGot(letter: Letter) | TLookup(pid: int)
    | TTest(pid: int, handler: nat) | TClear(pid: int, handler: nat) | TSpin(pid: int, handler: nat, polls: nat)
    | TRecheck(pid: int, handler: nat) | TMark(pid: int) | TDone

  datatype MonitorPc =
    | MStart | MHead | MFlag | MPaused | MProbe | MWait | MReport(child: nat) | MStop | MDone

  /** A monitor thread: whose handler it runs on; `cause` records which creation message made it. */
  datatype Thread = Thread(owner: nat, cause: nat, pc: MonitorPc)

  // ---------- state ----------

  datatype Flags = Flags(running: bool, respawn: bool, paused: bool, started: bool)

  /** What has happened so far; no step tests it. The termination messages queued and how many of them were
      counted, the creation messages queued and how many were received, `consumed` at the latest second read of
      counter_, the counted messages whose handling ended without one more deceased pid, and for every deceased pid
      the latest message that marked it. */
  datatype History = History(sent: seq<Letter>, consumed: nat, announced: seq<Letter>, heard: nat,
                             base: nat, misses: nat, markedBy: map<int, nat>)

  datatype State = State(
    flags: Flags,
    counter: int,
    children: seq<Child>,
    handlers: map<int, nat>, deceased: set<int>,
    queue: seq<Message<Letter>>,
    creator: CreatorPc, creation: CreationPc, termination: TerminationPc, threads: seq<Thread>,
    log: History)

  /** initializeController is about to run its batch; no thread exists yet. */
  function Init(cfg: Config): State {
    State(Flags(true, true, false, false), 0, [], map[], {}, [],
          CLaunch(Clamp(cfg.limit)), KIdle, TIdle, [], History([], 0, [], 0, 0, 0, map[]))
  }

  function WithChild(s: State, i: nat, c: Child): State
    requires i < |s.children|
  {
    s.(children := s.children[i := c])
  }

  function PostCreation(s: State, letter: Letter): State {
    s.(queue := s.queue + [Message(CREATION_MSG, letter)], log := s.log.(announced := s.log.announced + [letter]))
  }

  function PostTermination(s: State, letter: Letter): State {
    s.(queue := s.queue + [Message(TERMINATION_MSG, letter)], log := s.log.(sent := s.log.sent + [letter]))
  }

  // ---------- steps ----------

  /** Choices the scheduler, the kernel and the console make. `delivered`: the send succeeded. `quit`: a receive
      failed or timed out, or the wait for a monitor thread timed out. `alive`: kill(pid, 0) found a process. */
  datatype Action =
    | StartThreads
    | Launch(pid: int)
    | Creator
    | Announce(child: nat, delivered: bool, duration: string)
    | Report(child: nat, delivered: bool, duration: string, exitCode: int)
    | End(child: nat, status: WaitStatus)
    | WorkerReap(child: nat)
    | WorkerReport(child: nat, delivered: bool, duration: string, exitCode: int)
    | CreationListener(quit: bool)
    | TerminationListener(quit: bool)
    | Monitor(thread: nat, alive: bool, delivered: bool, exitCode: int)
    | Stop
    | SetRespawn(on: bool)
    | SetPaused(on: bool)

  const SPIN_LIMIT_MS: nat := 500
  const NAP_MS: nat := 10

  /** A kernel may hand out a pid again once its former owner has been waited for. */
  predicate CanLaunch(cfg: Config, s: State, pid: int) {
    s.creator.CLaunch? && s.creator.left > 0 && cfg.minPid <= pid <= cfg.maxPid
    && FindUnreaped(s.children, pid).None?
  }

  predicate CanCreate(s: State) {
    !s.creator.CWaiting? && !s.creator.CDone? && (s.creator.CLaunch? ==> s.creator.left == 0)
  }

  predicate CanReport(system: bool, s: State, i: nat) {
    i < |s.children| && s.children[i].life.Working? && !system
  }

  predicate CanListen(s: State, quit: bool) {
    && !s.termination.TIdle? && !s.termination.TDone?
    // the wait is over once more than SPIN_LIMIT_MS have passed, and every nap lasts at least NAP_MS
    && (s.termination.TSpin? && (s.termination.polls + 1) * NAP_MS > SPIN_LIMIT_MS ==> quit)
  }

  predicate CanMonitor(s: State, t: nat, alive: bool) {
    && t < |s.threads| && !s.threads[t].pc.MDone? && s.threads[t].owner < |s.children|
    && (s.threads[t].pc.MReport? ==> s.threads[t].pc.child < |s.children|)
    // kill(pid, 0) cannot miss a child that nobody has waited for
    && (s.threads[t].pc.MProbe? && FindUnreaped(s.children, s.children[s.threads[t].owner].pid).Some? ==> alive)
  }

  predicate Enabled(cfg: Config, s: State, a: Action) {
    match a
    case StartThreads => s.creator.CWaiting? && !s.flags.started
    case Launch(pid) => CanLaunch(cfg, s, pid)
    case Creator => CanCreate(s)
    case Announce(i, _, _) => i < |s.children| && s.children[i].life.Starting?
    case Report(i, _, _, code) => CanReport(cfg.system, s, i) && IsInt32(code)
    case End(i, _) => i < |s.children| && !Over(s.children[i].life)
    case WorkerReap(i) => i < |s.children| && s.children[i].life.Zombie? && s.children[i].worker.Waiting?
    case WorkerReport(i, _, _, code) => i < |s.children| && s.children[i].worker.Reporting? && IsInt32(code)
    case CreationListener(_) => !s.creation.KIdle? && !s.creation.KDone?
    case TerminationListener(quit) => CanListen(s, quit)
    case Monitor(t, alive, _, code) => CanMonitor(s, t, alive) && IsInt32(code)
    case Stop => true
    case SetRespawn(_) => true
    case SetPaused(_) => true
  }

  function StartStep(s: State): State {
    s.(flags := s.flags.(started := true), creator := CHead, creation := KHead, termination := THead)
  }

  function LaunchStep(cfg: Config, s: State, pid: int): State
    requires s.creator.CLaunch?
  {
    s.(children := s.children + [NewChild(pid, cfg.system)], creator := CCount(s.creator.left))
  }

  /** Where the creator goes next. The second read of counter_ sizes the batch. */
  function CreatorMove(cfg: Config, s: State): CreatorPc {
    match s.creator
    case CLaunch(left) => if s.flags.started then CHead else CWaiting
    case CCount(left) => CRegister(Clamp(left - 1))
    case CRegister(left) => CLaunch(left)
    case CHead => if s.flags.running then CPaused else CDone
    case CPaused => if s.flags.paused then CHead else CRunning
    case CRunning => if s.flags.running then CRespawn else CHead
    case CRespawn => if s.flags.respawn then CGuard else CHead
    case CGuard => if s.counter < cfg.limit then CRead else CHead
    case CRead => CLaunch(Clamp(cfg.limit - s.counter))
    case CWaiting => CWaiting
    case CDone => CDone
  }

  function CreatorStep(cfg: Config, s: State): State {
    var s' := s.(creator := CreatorMove(cfg, s));
    if s.creator.CCount? then s'.(counter := s.counter + 1)
    else if s.creator.CRegister? && s.children != [] then
      var h := |s.children| - 1;
      s'.(handlers := Added(s.handlers, s.children[h].pid, h))
    else if s.creator.CRead? then s'.(log := s.log.(base := s.log.consumed))
    else s'
  }

  function AnnounceStep(s: State, i: nat, delivered: bool, duration: string): State
    requires i < |s.children|
  {
    var c := s.children[i];
    var s' := WithChild(s, i, c.(life := Working));
    if delivered then PostCreation(s', Letter(i, TheChild, Payload(CreationText(c.pid, duration)))) else s'
  }

  function ReportStep(s: State, i: nat, delivered: bool, duration: string, exitCode: int): State
    requires i < |s.children|
  {
    var c := s.children[i];
    var s' := WithChild(s, i, c.(life := Leaving, selfSent := delivered));
    if delivered
    then PostTermination(s', Letter(i, TheChild, Payload(TerminationText(c.pid, duration, exitCode))))
    else s'
  }

  function EndStep(s: State, i: nat, status: WaitStatus): State
    requires i < |s.children|
  {
    var c := s.children[i];
    WithChild(s, i, c.(life := Zombie(status), lateKill := c.life.Leaving? && Abnormal(Zombie(status))))
  }

  function ReapStep(s: State, i: nat, worker: Worker): State
    requires i < |s.children| && s.children[i].life.Zombie?
  {
    var c := s.children[i];
    WithChild(s, i, c.(life := Reaped(c.life.status), worker := worker))
  }

  /** A reaper's termination message: the spawning worker's, or a monitor thread's with an empty duration. */
  function ReaperReport(s: State, i: nat, worker: Worker, duration: string, exitCode: int): State
    requires i < |s.children|
  {
    var c := s.children[i];
    PostTermination(WithChild(s, i, c.(reaperSent := true, worker := worker)),
                    Letter(i, ItsReaper, Payload(TerminationText(c.pid, duration, exitCode))))
  }

  function WorkerReportStep(s: State, i: nat, delivered: bool, duration: string, exitCode: int): State
    requires i < |s.children|
  {
    if delivered then ReaperReport(s, i, Gone, duration, exitCode)
    else WithChild(s, i, s.children[i].(worker := Gone))
  }

  /** Where the creation listener goes when it only looks: reading flags, finding no message, decoding the one in
      hand, looking the pid up, and testing monitoring() twice. */
  function CreationMove(s: State, quit: bool): CreationPc {
    match s.creation
    case KHead => if s.flags.running then KPollHead else KDone
    case KPollHead => if s.flags.running then KPollReceive else KHead
    case KPollReceive => if quit then KHead else KPollHead
    case KGot(letter) =>
      var pid := DecodePid(letter.text);
      if pid.None? || pid.value == -1 || pid.value !in s.handlers then KHead else KTest(s.handlers[pid.value])
    case KTest(h) => if h < |s.children| && !s.children[h].monitoring then KRetest(h) else KHead
    case KRetest(h) => if h < |s.children| && !s.children[h].monitoring then KSpawn(h) else KHead
    case KSpawn(h) => KHead
    case KIdle => KIdle
    case KDone => KDone
  }

  function CreationStep(s: State, quit: bool): State {
    if s.creation.KPollReceive? && !quit && Taken(s.queue, CREATION_MSG) != [] then
      s.(creation := KGot(Taken(s.queue, CREATION_MSG)[0]), queue := Remaining(s.queue, CREATION_MSG),
         log := s.log.(heard := s.log.heard + 1))
    else if s.creation.KSpawn? then
      s.(threads := s.threads + [Thread(s.creation.handler, Clamp(s.log.heard - 1), MStart)], creation := KHead)
    else
      s.(creation := CreationMove(s, quit))
  }

  /** Where the termination listener goes when it changes nothing else. */
  function TerminationMove(s: State, quit: bool): TerminationPc {
    match s.termination
    case THead => if s.flags.running then TPollHead else TDone
    case TPollHead => if s.flags.running then TPollReceive else THead
    case TPollReceive => if quit then THead else TPollHead
    case TGot(_) => THead
    case TLookup(pid) => if pid == -1 || pid !in s.handlers then THead else TTest(pid, s.handlers[pid])
    case TTest(pid, h) => if h < |s.children| && s.children[h].monitoring then TClear(pid, h) else TRecheck(pid, h)
    case TClear(pid, h) => TSpin(pid, h, 0)
    case TSpin(pid, h, polls) =>
      if h < |s.children| && s.children[h].monitoring && !quit then TSpin(pid, h, polls + 1) else TRecheck(pid, h)
    case TRecheck(pid, h) => if h < |s.children| && s.children[h].monitoring then THead else TMark(pid)
    case TMark(pid) => THead
    case TIdle => TIdle
    case TDone => TDone
  }

  /** The handling of a counted message ends here without marking its pid: a pid that is -1 or not registered, or
      a monitor thread that did not stop. */
  predicate Misses(s: State, quit: bool) {
    (s.termination.TLookup? || s.termination.TRecheck?) && TerminationMove(s, quit).THead?
  }

  function TerminationStep(s: State, quit: bool): State {
    var s' := s.(termination := TerminationMove(s, quit));
    match s.termination
    case TPollReceive =>
      if quit || Taken(s.queue, TERMINATION_MSG) == [] then s'
      else s.(termination := TGot(Taken(s.queue, TERMINATION_MSG)[0]), queue := Remaining(s.queue, TERMINATION_MSG))
    case TGot(letter) =>
      var pid := DecodePid(letter.text);
      if pid.None? then s'
      else s.(counter := s.counter - 1, log := s.log.(consumed := s.log.consumed + 1),
              termination := TLookup(pid.value))
    case TClear(_, h) =>
      if h < |s.children| then WithChild(s', h, s.children[h].(monitoring := false)) else s'
    case TMark(pid) =>
      if pid in s.handlers
      then s'.(deceased := Marked(s.handlers, s.deceased, pid),
               log := s.log.(markedBy := s.log.markedBy[pid := Clamp(s.log.consumed - 1)],
                             misses := if pid in s.deceased then s.log.misses + 1 else s.log.misses))
      else s'.(log := s.log.(misses := s.log.misses + 1))
    case _ => if Misses(s, quit) then s'.(log := s.log.(misses := s.log.misses + 1)) else s'
  }

  function WithPc(s: State, t: nat, pc: MonitorPc): State
    requires t < |s.threads|
  {
    s.(threads := s.threads[t := s.threads[t].(pc := pc)])
  }

  /** Where a monitor thread goes when it only looks. */
  function MonitorMove(s: State, t: nat, alive: bool): MonitorPc
    requires t < |s.threads| && s.threads[t].owner < |s.children|
  {
    match s.threads[t].pc
    case MStart => MHead
    case MHead => if s.flags.running then MFlag else MStop
    case MFlag => if s.children[s.threads[t].owner].monitoring then MPaused else MStop
    case MPaused => if s.flags.paused then MHead else MProbe
    case MProbe => if alive then MWait else MStop
    case MWait => if FindUnreaped(s.children, s.children[s.threads[t].owner].pid).None? then MStop else MHead
    case MReport(_) => MStop
    case MStop => MDone
    case MDone => MDone
  }

  /** What waitpid(pid, WNOHANG) would collect for this thread. */
  function Collectable(s: State, t: nat): (found: Option<nat>)
    requires t < |s.threads| && s.threads[t].owner < |s.children|
    ensures found.Some? ==> found.value < |s.children| && s.children[found.value].life.Zombie?
  {
    var found := FindUnreaped(s.children, s.children[s.threads[t].owner].pid);
    if found.Some? && s.children[found.value].life.Zombie? then found else None
  }

  function MonitorStep(s: State, t: nat, alive: bool, delivered: bool, exitCode: int): State
    requires t < |s.threads| && s.threads[t].owner < |s.children|
    requires s.threads[t].pc.MReport? ==> s.threads[t].pc.child < |s.children|
  {
    var h := s.threads[t].owner;
    var pc := MonitorMove(s, t, alive);
    match s.threads[t].pc
    case MStart => WithPc(WithChild(s, h, s.children[h].(monitoring := true)), t, pc)
    case MStop => WithPc(WithChild(s, h, s.children[h].(monitoring := false)), t, pc)
    case MWait =>
      var found := Collectable(s, t);
      if found.None? then WithPc(s, t, pc)
      else WithPc(ReapStep(s, found.value, s.children[found.value].worker), t,
                  if Abnormal(s.children[found.value].life) then MReport(found.value) else MStop)
    case MReport(i) =>
      WithPc(if delivered then ReaperReport(s, i, s.children[i].worker, "", exitCode) else s, t, pc)
    case _ => WithPc(s, t, pc)
  }

  function Apply(cfg: Config, s: State, a: Action): State
    requires Enabled(cfg, s, a)
  {
    match a
    case StartThreads => StartStep(s)
    case Launch(pid) => LaunchStep(cfg, s, pid)
    case Creator => CreatorStep(cfg, s)
    case Announce(i, delivered, duration) => AnnounceStep(s, i, delivered, duration)
    case Report(i, delivered, duration, exitCode) => ReportStep(s, i, delivered, duration, exitCode)
    case End(i, status) => EndStep(s, i, status)
    case WorkerReap(i) => ReapStep(s, i, Reporting)
    case WorkerReport(i, delivered, duration, exitCode) => WorkerReportStep(s, i, delivered, duration, exitCode)
    case CreationListener(quit) => CreationStep(s, quit)
    case TerminationListener(quit) => TerminationStep(s, quit)
    case Monitor(t, alive, delivered, exitCode) => MonitorStep(s, t, alive, delivered, exitCode)
    case Stop => s.(flags := s.flags.(running := false))
    case SetRespawn(on) => s.(flags := s.flags.(respawn := on))
    case SetPaused(on) => s.(flags := s.flags.(paused := on))
  }

  // ---------- runs ----------

  /** Every step of the list is enabled when its turn comes. */
  predicate Legal(cfg: Config, s: State, run: seq<Action>)
    decreases |run|
  {
    run == [] || (Enabled(cfg, s, run[0]) && Legal(cfg, Apply(cfg, s, run[0]), run[1..]))
  }

  function Exec(cfg: Config, s: State, run: seq<Action>): State
    requires Legal(cfg, s, run)
    decreases |run|
  {
    if run == [] then s else Exec(cfg, Apply(cfg, s, run[0]), run[1..])
  }
}

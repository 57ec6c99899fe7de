/** What exit statuses, the console's switches and the monitoring flags do to runs. */
module SupervisorConduct {
  import opened Common
  import opened Messages
  import opened TypedQueue
  import opened Supervisor
  import opened SupervisorInvariant
  import opened SupervisorCapacity
  import opened SupervisorFrames
  import opened SupervisorShutdown
  import opened SupervisorRegistry
  import opened SupervisorReports

  /** Every step of the run is as p says, in the state in which it is taken. */
  predicate Throughout(cfg: Config, s: State, run: seq<Action>, p: (State, Action) -> bool)
    requires Legal(cfg, s, run)
    decreases |run|
  {
    run == [] || (p(s, run[0]) && Throughout(cfg, Apply(cfg, s, run[0]), run[1..], p))
  }

  // ---------- exit statuses ----------

  /** A monitor thread never reports a forked child that exited, whatever its exit code. */
  lemma ExitIsNotReported(cfg: Config, s: State, i: nat)
    requires Reachable(cfg, s) && !cfg.system && i < |s.children| && s.children[i].reaperSent
    ensures s.children[i].life.Reaped? && !s.children[i].life.status.Exited?
  {
    ReachableInv(cfg, s);
    ChildIsOk(cfg, s, i);
  }

  /** So a child reported twice did not exit. */
  lemma ExitIsReportedOnce(cfg: Config, s: State, k: nat, l: nat)
    requires Reachable(cfg, s) && k < l < |s.log.sent| && s.log.sent[k].from == s.log.sent[l].from
    ensures s.log.sent[k].from < |s.children|
    ensures var life := s.children[s.log.sent[k].from].life; life.Reaped? && !life.status.Exited?
  {
    AtMostOneReport(cfg, s, k, l);
    ReachableInv(cfg, s);
    SentPart(cfg, s, k);
    SentPart(cfg, s, l);
    ChildIsOk(cfg, s, s.log.sent[k].from);
  }

  /** A child that has tried its own message ends by exiting, with any code. */
  predicate ExitsAfterReport(s: State, a: Action) {
    a.End? && a.child < |s.children| && s.children[a.child].life.Leaving? ==> a.status.Exited?
  }

  lemma {:induction false} ExitsAreNotLateKills(cfg: Config, s: State, run: seq<Action>)
    requires Legal(cfg, s, run) && Throughout(cfg, s, run, ExitsAfterReport)
    ensures CountLateKills(cfg, s, run) == 0
    decreases |run|
  {
    hide Enabled, Apply;
    if run == [] {
    } else {
      assert !IsLateKill(s, run[0]);
      ExitsAreNotLateKills(cfg, Apply(cfg, s, run[0]), run[1..]);
    }
  }

  /** A run in which every child that has tried its own message then exits reports nobody twice and never overshoots. */
  lemma ExitingRunIsExact(cfg: Config, run: seq<Action>)
    requires Legal(cfg, Init(cfg), run) && Throughout(cfg, Init(cfg), run, ExitsAfterReport)
    ensures Total(Doubled, Exec(cfg, Init(cfg), run).children) == 0
    ensures Total(Unfinished, Exec(cfg, Init(cfg), run).children) <= Clamp(cfg.limit)
  {
    var s := Exec(cfg, Init(cfg), run);
    assert Reachable(cfg, s);
    ExitsAreNotLateKills(cfg, Init(cfg), run);
    InitInv(cfg);
    LateKillsAreCounted(cfg, Init(cfg), run);
    Capacity(cfg, s);
  }

  // ---------- the console's switches ----------

  lemma SwitchesChange(cfg: Config, s: State, a: Action)
    requires Enabled(cfg, s, a)
    ensures var flags := Apply(cfg, s, a).flags;
      && flags.running == (s.flags.running && !a.Stop?)
      && flags.respawn == (if a.SetRespawn? then a.on else s.flags.respawn)
      && flags.paused == (if a.SetPaused? then a.on else s.flags.paused)
  {
    hide CanLaunch, CanCreate, CanReport, CanListen, CanMonitor, CreatorMove, CreationMove, TerminationMove, Misses,
      MonitorStep, DecodePid, Payload, Taken, Remaining;
    if a.Monitor? {
      MonitorCanStep(s, a.thread, a.alive);
      MonitorKeepsFlags(s, a.thread, a.alive, a.delivered, a.exitCode);
    }
  }

  lemma MonitorKeepsFlags(s: State, t: nat, alive: bool, delivered: bool, exitCode: int)
    requires t < |s.threads| && s.threads[t].owner < |s.children|
    requires s.threads[t].pc.MReport? ==> s.threads[t].pc.child < |s.children|
    ensures MonitorStep(s, t, alive, delivered, exitCode).flags == s.flags
  {
    hide MonitorMove, Payload, FindUnreaped, Collectable;
  }

  /** Why the creator launches nothing: respawning is off, monitoring is paused, or there is no free place, and it has
      not passed the test in question. */
  datatype Reason = RespawnOff | MonitoringPaused | NoRoom

  predicate Barred(cfg: Config, s: State, reason: Reason) {
    match reason
    case RespawnOff =>
      !s.flags.respawn && (s.creator.CHead? || s.creator.CPaused? || s.creator.CRunning? || s.creator.CRespawn?
                           || s.creator.CDone?)
    case MonitoringPaused => s.flags.paused && (s.creator.CHead? || s.creator.CPaused? || s.creator.CDone?)
    case NoRoom =>
      s.counter >= cfg.limit && (s.creator.CHead? || s.creator.CPaused? || s.creator.CRunning? || s.creator.CRespawn?
                                 || s.creator.CGuard? || s.creator.CDone?)
  }

  /** The step that takes the reason away. */
  predicate Lifts(s: State, a: Action, reason: Reason) {
    match reason
    case RespawnOff => a == SetRespawn(true)
    case MonitoringPaused => a == SetPaused(false)
    case NoRoom => a.TerminationListener? && s.termination.TGot?
  }

  lemma BarredStep(cfg: Config, s: State, a: Action, reason: Reason)
    requires Enabled(cfg, s, a) && Barred(cfg, s, reason) && !Lifts(s, a, reason)
    ensures Barred(cfg, Apply(cfg, s, a), reason) && |Apply(cfg, s, a).children| == |s.children|
  {
    hide LaunchStep, TerminationStep, CreationStep, MonitorStep, AnnounceStep, ReportStep, EndStep, ReapStep,
      WorkerReportStep, CanReport, CanListen, CanMonitor;
    SwitchesChange(cfg, s, a);
    if !a.Creator? && !a.Launch? && !a.StartThreads? {
      OthersKeep(cfg, TheCreator, s, a);
      if reason.NoRoom? {
        OnlyCountingLowers(cfg, s, a);
      }
    }
  }

  lemma OnlyCountingLowers(cfg: Config, s: State, a: Action)
    requires Enabled(cfg, s, a) && !(a.TerminationListener? && s.termination.TGot?) && !a.StartThreads?
    ensures Apply(cfg, s, a).log.consumed == s.log.consumed
  {
    hide CanLaunch, CanCreate, CanReport, CanListen, CanMonitor, DecodePid, Taken, Remaining, Misses, TerminationMove,
      CreatorStep, LaunchStep, CreationStep, MonitorStep, AnnounceStep, ReportStep, EndStep, ReapStep, WorkerReportStep;
    if !a.TerminationListener? {
      OthersKeep(cfg, TheTerminationListener, s, a);
    }
  }

  /** With respawning off, in a pause, or without room, not a single child is launched until that changes. */
  lemma {:induction false} NothingIsLaunched(cfg: Config, s: State, run: seq<Action>, reason: Reason)
    requires Legal(cfg, s, run) && Barred(cfg, s, reason)
    requires Throughout(cfg, s, run, (x, a) => !Lifts(x, a, reason))
    ensures |Exec(cfg, s, run).children| == |s.children|
    decreases |run|
  {
    hide Enabled, Apply, Barred, Lifts;
    if run == [] {
    } else {
      BarredStep(cfg, s, run[0], reason);
      NothingIsLaunched(cfg, Apply(cfg, s, run[0]), run[1..], reason);
    }
  }

  // ---------- monitoring flags ----------

  /** A monitor thread's first step, which sets its handler's flag. */
  predicate Sets(s: State, a: Action, h: nat) {
    a.Monitor? && a.thread < |s.threads| && s.threads[a.thread].pc.MStart? && s.threads[a.thread].owner == h
  }

  /** Nothing else ever sets a flag. */
  lemma FlagStaysClear(cfg: Config, s: State, a: Action, h: nat)
    requires Enabled(cfg, s, a) && h < |s.children| && !Sets(s, a, h)
    ensures h < |Apply(cfg, s, a).children|
    ensures Apply(cfg, s, a).children[h].monitoring ==> s.children[h].monitoring
  {
    hide Apply;
    ChangeIsRight(cfg, s, a);
    FlagOfChange(cfg, s, a, h);
  }

  lemma FlagOfChange(cfg: Config, s: State, a: Action, h: nat)
    requires Enabled(cfg, s, a) && h < |s.children| && !Sets(s, a, h)
    ensures var change := ChangeOf(cfg, s, a);
      change.Replaced? && change.i == h ==> (change.c.monitoring ==> s.children[h].monitoring)
  {
    hide CanLaunch, CanListen, FindUnreaped;
  }

  /** The listener has counted a message for this pid, whose handler is h, and is on its way to the mark: it has
      looked and, if a thread was running, has told it to stop. */
  predicate OnItsWay(s: State, pid: int, h: nat) {
    match s.termination
    case TLookup(p) => p == pid && pid in s.handlers && s.handlers[pid] == h
    case TTest(p, g) => p == pid && g == h
    case TClear(p, g) => p == pid && g == h
    case TSpin(p, g, _) => p == pid && g == h && h < |s.children| && !s.children[h].monitoring
    case TRecheck(p, g) => p == pid && g == h && h < |s.children| && !s.children[h].monitoring
    case TMark(p) => p == pid
    case _ => false
  }

  function StepsToMark(pc: TerminationPc): nat {
    match pc
    case TLookup(_) => 6
    case TTest(_, _) => 5
    case TClear(_, _) => 4
    case TSpin(_, _, _) => 3
    case TRecheck(_, _) => 2
    case _ => 1
  }

  lemma MarkComes(cfg: Config, s: State, a: Action, pid: int, h: nat)
    requires Enabled(cfg, s, a) && !Sets(s, a, h) && h < |s.children| && pid in s.handlers && pid != -1
    requires OnItsWay(s, pid, h) && s.flags.started
    ensures var s' := Apply(cfg, s, a);
      && h < |s'.children| && pid in s'.handlers && s'.flags.started
      && (pid in s'.deceased || (OnItsWay(s', pid, h)
            && StepsToMark(s'.termination) + Own(a, TheTerminationListener) <= StepsToMark(s.termination)))
  {
    hide Apply, TerminationStep;
    FlagStaysClear(cfg, s, a, h);
    if a.TerminationListener? {
      TerminationApplies(cfg, s, a);
      MarkComesCloser(s, a.quit, pid, h);
      OthersKeep(cfg, TheCreator, s, a);
    } else {
      StartIsOver(cfg, s, a);
      OthersKeep(cfg, TheTerminationListener, s, a);
    }
  }

  lemma TerminationApplies(cfg: Config, s: State, a: Action)
    requires Enabled(cfg, s, a) && a.TerminationListener?
    ensures Apply(cfg, s, a) == TerminationStep(s, a.quit)
  {
    hide TerminationStep;
  }

  lemma StartIsOver(cfg: Config, s: State, a: Action)
    requires Enabled(cfg, s, a) && s.flags.started
    ensures !a.StartThreads?
  {
  }

  lemma MarkComesCloser(s: State, quit: bool, pid: int, h: nat)
    requires h < |s.children| && pid in s.handlers && pid != -1 && OnItsWay(s, pid, h)
    ensures var s' := TerminationStep(s, quit);
      pid in s'.deceased ||
      (OnItsWay(s', pid, h) && StepsToMark(s'.termination) + 1 <= StepsToMark(s.termination))
  {
    hide DecodePid;
  }

  lemma DeceasedStay(cfg: Config, s: State, a: Action)
    requires Enabled(cfg, s, a)
    ensures s.deceased <= Apply(cfg, s, a).deceased
  {
    hide Apply, TerminationStep;
    if a.TerminationListener? {
      TerminationApplies(cfg, s, a);
      MarksGrow(s, a.quit);
    } else if a.StartThreads? {
      StartKeepsMarks(cfg, s, a);
    } else {
      OthersKeep(cfg, TheTerminationListener, s, a);
    }
  }

  lemma MarksGrow(s: State, quit: bool)
    ensures s.deceased <= TerminationStep(s, quit).deceased
  {
    hide DecodePid, TerminationMove, Misses, Taken, Remaining;
  }

  lemma StartKeepsMarks(cfg: Config, s: State, a: Action)
    requires Enabled(cfg, s, a) && a.StartThreads?
    ensures Apply(cfg, s, a).deceased == s.deceased
  {
  }

  /** A registered pid is marked within six steps of the listener after its message was counted, whatever the monitor
      threads in their loops do: the listener tells them to stop by clearing the flag, and nobody but a new thread on
      that handler sets it again. So a miss needs such a thread. */
  lemma {:induction false} CountedPidIsMarked(cfg: Config, s: State, run: seq<Action>, pid: int, h: nat)
    requires Legal(cfg, s, run) && Throughout(cfg, s, run, (x, a) => !Sets(x, a, h))
    requires h < |s.children| && pid in s.handlers && pid != -1 && s.flags.started
    requires pid in s.deceased ||
             (OnItsWay(s, pid, h) && OwnSteps(run, TheTerminationListener) >= StepsToMark(s.termination))
    ensures pid in Exec(cfg, s, run).deceased
    decreases |run|
  {
    hide Enabled, Apply, OnItsWay, Sets, ActsFor;
    if run == [] {
    } else {
      DeceasedStay(cfg, s, run[0]);
      RegisteredStay(cfg, s, run[0], pid, h);
      if pid !in s.deceased {
        MarkComes(cfg, s, run[0], pid, h);
      }
      CountedPidIsMarked(cfg, Apply(cfg, s, run[0]), run[1..], pid, h);
    }
  }

  lemma RegisteredStay(cfg: Config, s: State, a: Action, pid: int, h: nat)
    requires Enabled(cfg, s, a) && pid in s.handlers && h < |s.children| && s.flags.started
    ensures var s' := Apply(cfg, s, a); pid in s'.handlers && h < |s'.children| && s'.flags.started
  {
    hide Apply;
    StartIsOver(cfg, s, a);
    ChangeIsRight(cfg, s, a);
    OthersKeep(cfg, if a.Creator? || a.Launch? then TheCreationListener else TheCreator, s, a);
  }

  /** A registered pid goes unmarked at the recheck only if a new thread on its handler has set the flag since. */
  lemma {:induction false} MissNeedsNewThread(cfg: Config, s: State, run: seq<Action>, pid: int, h: nat)
    requires Legal(cfg, s, run) && Throughout(cfg, s, run, (x, a) => !Sets(x, a, h))
    requires h < |s.children| && pid in s.handlers && pid != -1 && s.flags.started && OnItsWay(s, pid, h)
    ensures var s' := Exec(cfg, s, run);
      pid in s'.deceased || (OnItsWay(s', pid, h) && h < |s'.children|
                             && (s'.termination.TRecheck? ==> !s'.children[h].monitoring))
    decreases |run|
  {
    hide Enabled, Apply, Sets;
    if run == [] {
    } else {
      RegisteredStay(cfg, s, run[0], pid, h);
      MarkComes(cfg, s, run[0], pid, h);
      var next := Apply(cfg, s, run[0]);
      if pid in next.deceased {
        RunKeepsMark(cfg, next, run[1..], pid);
      } else {
        MissNeedsNewThread(cfg, next, run[1..], pid, h);
      }
    }
  }

  lemma {:induction false} RunKeepsMark(cfg: Config, s: State, run: seq<Action>, pid: int)
    requires Legal(cfg, s, run) && pid in s.deceased
    ensures pid in Exec(cfg, s, run).deceased
    decreases |run|
  {
    hide Enabled, Apply;
    if run == [] {
    } else {
      DeceasedStay(cfg, s, run[0]);
      RunKeepsMark(cfg, Apply(cfg, s, run[0]), run[1..], pid);
    }
  }

  // ---------- a monitor thread told to stop ----------

  /** Thread t is past its first step and its handler's flag is clear. */
  predicate ToldToStop(s: State, t: nat, h: nat) {
    && t < |s.threads| && s.threads[t].owner == h && !s.threads[t].pc.MStart?
    && h < |s.children| && !s.children[h].monitoring
  }

  function StepsToStop(pc: MonitorPc): nat {
    match pc
    case MDone => 0
    case MStop => 1
    case MReport(_) => 2
    case MFlag => 2
    case MHead => 3
    case MWait => 4
    case MProbe => 5
    case MPaused => 6
    case MStart => 0
  }

  lemma StopComes(cfg: Config, s: State, a: Action, t: nat, h: nat)
    requires Enabled(cfg, s, a) && !Sets(s, a, h) && ToldToStop(s, t, h) && s.flags.started
    ensures var s' := Apply(cfg, s, a);
      && ToldToStop(s', t, h) && s'.flags.started
      && StepsToStop(s'.threads[t].pc) + Own(a, TheMonitor(t)) <= StepsToStop(s.threads[t].pc)
  {
    hide Apply, Enabled, MonitorStep, Sets;
    FlagStaysClear(cfg, s, a, h);
    StartIsOver(cfg, s, a);
    if ActsFor(a, TheMonitor(t)) {
      MonitorApplies(cfg, s, a);
      StopComesCloser(s, t, a.alive, a.delivered, a.exitCode);
      OthersKeep(cfg, TheCreator, s, a);
    } else {
      OthersKeep(cfg, TheMonitor(t), s, a);
    }
  }

  lemma StopComesCloser(s: State, t: nat, alive: bool, delivered: bool, exitCode: int)
    requires t < |s.threads| && s.threads[t].owner < |s.children| && !s.threads[t].pc.MDone?
    requires s.threads[t].pc.MReport? ==> s.threads[t].pc.child < |s.children|
    requires !s.children[s.threads[t].owner].monitoring && !s.threads[t].pc.MStart?
    ensures var s' := MonitorStep(s, t, alive, delivered, exitCode);
      && t < |s'.threads| && s'.threads[t].owner == s.threads[t].owner && !s'.threads[t].pc.MStart?
      && StepsToStop(s'.threads[t].pc) + 1 <= StepsToStop(s.threads[t].pc)
  {
    hide FindUnreaped, Collectable, Payload;
  }

  /** A monitor thread past its first step ends within six steps once its flag is clear, unless a new thread on the
      same handler sets the flag again. */
  lemma {:induction false} ClearedFlagStopsMonitor(cfg: Config, s: State, run: seq<Action>, t: nat, h: nat)
    requires Legal(cfg, s, run) && Throughout(cfg, s, run, (x, a) => !Sets(x, a, h))
    requires ToldToStop(s, t, h) && s.flags.started
    requires OwnSteps(run, TheMonitor(t)) >= StepsToStop(s.threads[t].pc)
    ensures t < |Exec(cfg, s, run).threads| && Exec(cfg, s, run).threads[t].pc.MDone?
    decreases |run|
  {
    hide Enabled, Apply, Sets, ActsFor;
    if run == [] {
    } else {
      StopComes(cfg, s, run[0], t, h);
      ClearedFlagStopsMonitor(cfg, Apply(cfg, s, run[0]), run[1..], t, h);
    }
  }

  // ---------- monitor threads in a pause ----------

  /** Monitoring is paused, and no thread is past the test of that switch. */
  ghost predicate Paused(s: State) {
    s.flags.paused && forall t :: 0 <= t < |s.threads| ==> !s.threads[t].pc.MProbe? && !s.threads[t].pc.MWait?
  }

  lemma PauseStep(cfg: Config, s: State, a: Action)
    requires Inv(cfg, s) && !cfg.system && Enabled(cfg, s, a) && Paused(s) && a != SetPaused(false)
    ensures Paused(Apply(cfg, s, a))
    ensures Total(Collected, Apply(cfg, s, a).children) == Total(Collected, s.children)
  {
    hide Inv, Apply, Enabled, MonitorStep, Total;
    SwitchesChange(cfg, s, a);
    if a.Monitor? {
      MonitorApplies(cfg, s, a);
      HuntStep(s, a.thread, a.alive, a.delivered, a.exitCode);
      PausedThreads(s, a.thread, a.alive, a.delivered, a.exitCode);
    } else {
      OthersCollectNothing(cfg, s, a);
      ThreadsStay(cfg, s, a);
    }
  }

  lemma PausedThreads(s: State, t: nat, alive: bool, delivered: bool, exitCode: int)
    requires t < |s.threads| && s.threads[t].owner < |s.children|
    requires s.threads[t].pc.MReport? ==> s.threads[t].pc.child < |s.children|
    requires Paused(s)
    ensures Paused(MonitorStep(s, t, alive, delivered, exitCode).(flags := s.flags))
  {
    hide FindUnreaped, Payload, Collectable;
  }

  /** While monitoring is paused no forked child is collected. */
  lemma {:induction false} NothingIsCollected(cfg: Config, s: State, run: seq<Action>)
    requires Inv(cfg, s) && !cfg.system && Legal(cfg, s, run) && Paused(s)
    requires Throughout(cfg, s, run, (x, a) => a != SetPaused(false))
    ensures Total(Collected, Exec(cfg, s, run).children) == Total(Collected, s.children)
    decreases |run|
  {
    hide Inv, Enabled, Apply, Paused, Total;
    if run == [] {
    } else {
      StepInv(cfg, s, run[0]);
      PauseStep(cfg, s, run[0]);
      NothingIsCollected(cfg, Apply(cfg, s, run[0]), run[1..]);
    }
  }

  // ---------- an announced child gets its thread ----------

  predicate ThreadIsDue(s: State, pid: int, h: nat) {
    && h < |s.children| && !s.children[h].monitoring
    && match s.creation
       case KGot(letter) =>
         DecodePid(letter.text) == Some(pid) && pid != -1 && pid in s.handlers && s.handlers[pid] == h
       case KTest(g) => g == h
       case KRetest(g) => g == h
       case KSpawn(g) => g == h
       case _ => false
  }

  function StepsToThread(pc: CreationPc): nat {
    match pc
    case KGot(_) => 4
    case KTest(_) => 3
    case KRetest(_) => 2
    case _ => 1
  }

  /** A thread on h was spawned after the first n threads. */
  ghost predicate Spawned(s: State, n: nat, h: nat) {
    exists t :: n <= t < |s.threads| && s.threads[t].owner == h
  }

  lemma OwnersStay(cfg: Config, s: State, a: Action, n: nat, h: nat)
    requires Enabled(cfg, s, a) && n <= |s.threads|
    ensures n <= |Apply(cfg, s, a).threads|
    ensures Spawned(s, n, h) ==> Spawned(Apply(cfg, s, a), n, h)
  {
    hide Apply, Enabled, MonitorStep;
    if a.Monitor? {
      MonitorApplies(cfg, s, a);
      OwnerStays(s, a.thread, a.alive, a.delivered, a.exitCode);
    } else {
      ThreadsStay(cfg, s, a);
    }
    var after := Apply(cfg, s, a).threads;
    assert forall t :: 0 <= t < |s.threads| ==> t < |after| && after[t].owner == s.threads[t].owner;
  }

  lemma OwnerStays(s: State, t: nat, alive: bool, delivered: bool, exitCode: int)
    requires t < |s.threads| && s.threads[t].owner < |s.children|
    requires s.threads[t].pc.MReport? ==> s.threads[t].pc.child < |s.children|
    ensures var after := MonitorStep(s, t, alive, delivered, exitCode).threads;
      |after| == |s.threads| && forall u :: 0 <= u < |after| ==> after[u].owner == s.threads[u].owner
  {
    hide FindUnreaped, Collectable, Payload, MonitorMove;
  }

  lemma ThreadComes(cfg: Config, s: State, a: Action, pid: int, h: nat)
    requires Enabled(cfg, s, a) && !Sets(s, a, h) && ThreadIsDue(s, pid, h) && s.flags.started
    ensures var s' := Apply(cfg, s, a);
      && s'.flags.started
      && (Spawned(s', |s.threads|, h) || (ThreadIsDue(s', pid, h)
            && StepsToThread(s'.creation) + Own(a, TheCreationListener) <= StepsToThread(s.creation)))
  {
    hide Apply, CreationStep, DecodePid;
    FlagStaysClear(cfg, s, a, h);
    StartIsOver(cfg, s, a);
    if a.CreationListener? {
      CreationApplies(cfg, s, a);
      ThreadComesCloser(s, a.quit, pid, h);
      OthersKeep(cfg, TheCreator, s, a);
    } else {
      OthersKeep(cfg, TheCreationListener, s, a);
    }
  }

  lemma CreationApplies(cfg: Config, s: State, a: Action)
    requires Enabled(cfg, s, a) && a.CreationListener?
    ensures Apply(cfg, s, a) == CreationStep(s, a.quit)
  {
    hide CreationStep;
  }

  lemma ThreadComesCloser(s: State, quit: bool, pid: int, h: nat)
    requires ThreadIsDue(s, pid, h)
    ensures var s' := CreationStep(s, quit);
      Spawned(s', |s.threads|, h) ||
      (ThreadIsDue(s', pid, h) && StepsToThread(s'.creation) + 1 <= StepsToThread(s.creation))
  {
    hide DecodePid, Taken, Remaining;
    if s.creation.KSpawn? {
      assert CreationStep(s, quit).threads[|s.threads|].owner == h;
    }
  }

  /** A received creation message whose pid is registered with an unwatched handler leads to a thread on that handler
      within four steps of the listener, unless another thread on it starts in between. */
  lemma {:induction false} AnnouncedGetsThread(cfg: Config, s: State, run: seq<Action>, pid: int, h: nat, n: nat)
    requires Legal(cfg, s, run) && Throughout(cfg, s, run, (x, a) => !Sets(x, a, h)) && s.flags.started
    requires n <= |s.threads|
    requires Spawned(s, n, h) ||
             (ThreadIsDue(s, pid, h) && OwnSteps(run, TheCreationListener) >= StepsToThread(s.creation))
    ensures Spawned(Exec(cfg, s, run), n, h)
    decreases |run|
  {
    hide Enabled, Apply, ThreadIsDue, Sets, ActsFor;
    if run == [] {
    } else {
      var next := Apply(cfg, s, run[0]);
      OwnersStay(cfg, s, run[0], n, h);
      StillStarted(cfg, s, run[0]);
      if !Spawned(s, n, h) {
        ThreadComes(cfg, s, run[0], pid, h);
        assert Spawned(next, |s.threads|, h) ==> Spawned(next, n, h);
      }
      AnnouncedGetsThread(cfg, next, run[1..], pid, h, n);
    }
  }

  lemma StillStarted(cfg: Config, s: State, a: Action)
    requires Enabled(cfg, s, a) && s.flags.started
    ensures Apply(cfg, s, a).flags.started
  {
    hide Apply;
    StartIsOver(cfg, s, a);
    OthersKeep(cfg, if a.Creator? || a.Launch? then TheCreationListener else TheCreator, s, a);
  }

  // ---------- a dead child is collected ----------

  /** Thread t is on its way to collect child v, which has its handler's pid. */
  predicate OnTheHunt(s: State, t: nat, v: nat) {
    && t < |s.threads| && s.threads[t].owner < |s.children| && v < |s.children|
    && s.children[v].pid == s.children[s.threads[t].owner].pid && s.children[v].life.Zombie?
    && Hunting(s.threads[t].pc)
  }

  function StepsToCatch(pc: MonitorPc): nat {
    match pc
    case MStart => 6
    case MHead => 5
    case MFlag => 4
    case MPaused => 3
    case MProbe => 2
    case _ => 1
  }

  /** Nothing keeps thread t from its work: no shutdown, no pause, and its flag stays set. */
  predicate LetsWork(s: State, t: nat) {
    && s.flags.running && !s.flags.paused
    && (t < |s.threads| && s.threads[t].owner < |s.children| ==>
          s.threads[t].pc.MStart? || s.children[s.threads[t].owner].monitoring)
  }

  lemma CatchComes(cfg: Config, s: State, a: Action, t: nat, v: nat)
    requires Inv(cfg, s) && Enabled(cfg, s, a) && OnTheHunt(s, t, v) && LetsWork(s, t) && s.flags.started
    ensures var s' := Apply(cfg, s, a);
      && v < |s'.children| && s'.flags.started
      && (s'.children[v].life.Reaped? || (OnTheHunt(s', t, v)
            && StepsToCatch(s'.threads[t].pc) + Own(a, TheMonitor(t)) <= StepsToCatch(s.threads[t].pc)))
  {
    hide Inv, Apply, MonitorStep, CanLaunch, CanCreate, CanReport, CanListen, CanMonitor;
    StillStarted(cfg, s, a);
    StartIsOver(cfg, s, a);
    StepEvolves(cfg, s, a);
    DeadStaysDead(cfg, s, a, v);
    if ActsFor(a, TheMonitor(t)) {
      MonitorApplies(cfg, s, a);
      NobodyElseHasPid(cfg, s, v);
      AliveIfUnreaped(s, a.thread, a.alive);
      CatchComesCloser(s, t, v, a.alive, a.delivered, a.exitCode);
    } else {
      OthersKeep(cfg, TheMonitor(t), s, a);
    }
  }

  lemma AliveIfUnreaped(s: State, t: nat, alive: bool)
    requires CanMonitor(s, t, alive)
    ensures s.threads[t].pc.MProbe? && FindUnreaped(s.children, s.children[s.threads[t].owner].pid).Some? ==> alive
  {
    hide FindUnreaped;
  }

  lemma NobodyElseHasPid(cfg: Config, s: State, v: nat)
    requires Inv(cfg, s) && v < |s.children| && !s.children[v].life.Reaped?
    ensures FindUnreaped(s.children, s.children[v].pid) == Some(v)
  {
    hide CreatorOk, SentOk, TerminationOk, AnnouncedOk, CreationOk, RegistryOk, MarksOk, ThreadsOk, ReportersOk;
    Unpack(cfg, s);
  }

  lemma DeadStaysDead(cfg: Config, s: State, a: Action, v: nat)
    requires Enabled(cfg, s, a) && v < |s.children| && s.children[v].life.Zombie?
    ensures var after := Apply(cfg, s, a).children;
      v < |after| && (after[v].life == s.children[v].life || after[v].life.Reaped?)
  {
    hide Apply, FindUnreaped;
    ChangeIsRight(cfg, s, a);
  }

  lemma CatchComesCloser(s: State, t: nat, v: nat, alive: bool, delivered: bool, exitCode: int)
    requires OnTheHunt(s, t, v) && LetsWork(s, t)
    requires FindUnreaped(s.children, s.children[v].pid) == Some(v)
    requires s.threads[t].pc.MProbe? ==> alive
    ensures var s' := MonitorStep(s, t, alive, delivered, exitCode);
      && v < |s'.children| && t < |s'.threads|
      && s'.threads[t].owner == s.threads[t].owner
      && (s'.children[v].life.Reaped? ||
          (Hunting(s'.threads[t].pc) && StepsToCatch(s'.threads[t].pc) + 1 <= StepsToCatch(s.threads[t].pc)))
  {
    hide FindUnreaped, Payload;
  }

  /** A child that has ended is collected within six steps of a monitor thread on its pid that is let work. */
  lemma {:induction false} DeadChildIsCollected(cfg: Config, s: State, run: seq<Action>, t: nat, v: nat)
    requires Inv(cfg, s) && Legal(cfg, s, run) && Throughout(cfg, s, run, (x, a) => LetsWork(x, t)) && s.flags.started
    requires v < |s.children|
    requires s.children[v].life.Reaped? ||
             (OnTheHunt(s, t, v) && OwnSteps(run, TheMonitor(t)) >= StepsToCatch(s.threads[t].pc))
    ensures v < |Exec(cfg, s, run).children| && Exec(cfg, s, run).children[v].life.Reaped?
    decreases |run|
  {
    hide Inv, Enabled, Apply, OnTheHunt, LetsWork, ActsFor;
    if run == [] {
      assert StepsToCatch(if |s.threads| > t then s.threads[t].pc else MDone) > 0;
      HuntsWithin(s, t, v);
    } else {
      StepInv(cfg, s, run[0]);
      StillStarted(cfg, s, run[0]);
      if s.children[v].life.Reaped? {
        ReapedStays(cfg, s, run[0], v);
      } else {
        CatchComes(cfg, s, run[0], t, v);
      }
      DeadChildIsCollected(cfg, Apply(cfg, s, run[0]), run[1..], t, v);
    }
  }

  lemma HuntsWithin(s: State, t: nat, v: nat)
    ensures OnTheHunt(s, t, v) ==> t < |s.threads|
  {
  }

  lemma ReapedStays(cfg: Config, s: State, a: Action, v: nat)
    requires Enabled(cfg, s, a) && v < |s.children| && s.children[v].life.Reaped?
    ensures v < |Apply(cfg, s, a).children| && Apply(cfg, s, a).children[v].life.Reaped?
  {
    hide Apply, FindUnreaped;
    ChangeIsRight(cfg, s, a);
  }
}

/** Progress while the supervisor runs: free places are filled within a bounded number of the creator's own steps. */
module SupervisorProgress {
  import opened Supervisor
  import opened SupervisorCapacity
  import opened SupervisorFrames
  import opened SupervisorShutdown

  /** Nobody shuts down, pauses or turns respawning off during the run. */
  predicate KeepsGoing(cfg: Config, s: State, run: seq<Action>)
    requires Legal(cfg, s, run)
    decreases |run|
  {
    && s.flags.running && s.flags.respawn && !s.flags.paused
    && (run == [] || KeepsGoing(cfg, Apply(cfg, s, run[0]), run[1..]))
  }

  /** Children still missing to `goal`. */
  function Missing(s: State, goal: int): nat {
    Clamp(goal - |s.children|)
  }

  /** The creator will size a batch, or is in one, that reaches the goal. */
  predicate OnCourse(cfg: Config, s: State, goal: int) {
    Missing(s, goal) == 0 ||
    match s.creator
    case CLaunch(left) => left >= Missing(s, goal)
    case CCount(left) => left > Missing(s, goal)
    case CRegister(left) => left >= Missing(s, goal)
    case CWaiting => false
    case CDone => false
    case _ => cfg.limit - s.counter >= Missing(s, goal)
  }

  /** A bound on the creator's steps to the goal: three a child, and the way through the guard. */
  function StepsTo(s: State, goal: int): nat {
    var missing := Missing(s, goal);
    if missing == 0 then 0 else
      match s.creator
      case CHead => 6 + 3 * missing
      case CPaused => 5 + 3 * missing
      case CRunning => 4 + 3 * missing
      case CRespawn => 3 + 3 * missing
      case CGuard => 2 + 3 * missing
      case CRead => 1 + 3 * missing
      case CLaunch(_) => 3 * missing
      case CCount(_) => 3 * missing + 2
      case CRegister(_) => 3 * missing + 1
      case CWaiting => 0
      case CDone => 0
  }

  lemma CourseStep(cfg: Config, s: State, a: Action, goal: int)
    requires Enabled(cfg, s, a) && OnCourse(cfg, s, goal) && s.flags.started
    requires s.flags.running && s.flags.respawn && !s.flags.paused
    ensures OnCourse(cfg, Apply(cfg, s, a), goal)
    ensures Missing(s, goal) > 0 ==> StepsTo(Apply(cfg, s, a), goal) + Own(a, TheCreator) <= StepsTo(s, goal)
    ensures Apply(cfg, s, a).flags.started
  {
    hide CreatorStep, LaunchStep, TerminationStep, CreationStep, MonitorStep, AnnounceStep, ReportStep, EndStep,
      ReapStep, WorkerReportStep, CanReport, CanListen, CanMonitor;
    if a.Creator? {
      CreatorCourse(cfg, s, goal);
    } else if a.Launch? {
      LaunchCourse(cfg, s, a.pid, goal);
    } else {
      OthersKeep(cfg, TheCreator, s, a);
    }
  }

  lemma CreatorCourse(cfg: Config, s: State, goal: int)
    requires CanCreate(s) && OnCourse(cfg, s, goal) && s.flags.running && s.flags.respawn && !s.flags.paused
    ensures var s' := CreatorStep(cfg, s);
      && OnCourse(cfg, s', goal) && s'.flags == s.flags
      && (Missing(s, goal) > 0 ==> StepsTo(s', goal) + 1 <= StepsTo(s, goal))
  {
  }

  lemma LaunchCourse(cfg: Config, s: State, pid: int, goal: int)
    requires CanLaunch(cfg, s, pid) && OnCourse(cfg, s, goal)
    ensures var s' := LaunchStep(cfg, s, pid);
      && OnCourse(cfg, s', goal) && s'.flags == s.flags
      && (Missing(s, goal) > 0 ==> StepsTo(s', goal) + 1 <= StepsTo(s, goal))
  {
    hide FindUnreaped;
  }

  lemma {:induction false} ReachesGoal(cfg: Config, s: State, run: seq<Action>, goal: int)
    requires Legal(cfg, s, run) && KeepsGoing(cfg, s, run) && OnCourse(cfg, s, goal) && s.flags.started
    requires Missing(s, goal) == 0 || OwnSteps(run, TheCreator) >= StepsTo(s, goal)
    ensures |Exec(cfg, s, run).children| >= goal
    decreases |run|
  {
    hide Enabled, Apply, OnCourse, ActsFor;
    if run == [] {
      assert Missing(s, goal) > 0 ==> StepsTo(s, goal) == 0;
      StepsAreLeft(cfg, s, goal);
    } else {
      CourseStep(cfg, s, run[0], goal);
      ChildrenStay(cfg, s, run[0]);
      ReachesGoal(cfg, Apply(cfg, s, run[0]), run[1..], goal);
    }
  }

  lemma StepsAreLeft(cfg: Config, s: State, goal: int)
    requires OnCourse(cfg, s, goal)
    ensures Missing(s, goal) > 0 ==> StepsTo(s, goal) > 0
  {
  }

  lemma ChildrenStay(cfg: Config, s: State, a: Action)
    requires Enabled(cfg, s, a)
    ensures |Apply(cfg, s, a).children| >= |s.children|
  {
    hide Apply, ChangeOf;
    ChangeIsRight(cfg, s, a);
  }

  /** While the supervisor keeps running, respawning and unpaused, the places that are free when the creator is at the
      head of its loop are all filled after six of its own steps and three for each place. */
  lemma PlacesAreFilled(cfg: Config, s: State, run: seq<Action>)
    requires s.flags.started && s.creator == CHead && s.counter < cfg.limit
    requires Legal(cfg, s, run) && KeepsGoing(cfg, s, run)
    requires OwnSteps(run, TheCreator) >= 6 + 3 * (cfg.limit - s.counter)
    ensures |Exec(cfg, s, run).children| >= |s.children| + (cfg.limit - s.counter)
  {
    ReachesGoal(cfg, s, run, |s.children| + (cfg.limit - s.counter));
  }
}

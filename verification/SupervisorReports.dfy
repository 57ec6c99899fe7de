/** Doubled termination messages: exactly which configurations rule them out, and with them keep the plain bounds of
    counter_ and of the launches after shutdown. */
module SupervisorReports {
  import opened Messages
  import opened TypedQueue
  import opened Supervisor
  import opened SupervisorInvariant
  import opened SupervisorCapacity
  import opened SupervisorFrames
  import opened SupervisorShutdown
  import opened SupervisorLimits
  import opened SupervisorBoundaries

  /** Every child yields at most one termination message. */
  ghost predicate KeepsSingleReports(cfg: Config) {
    forall s :: Reachable(cfg, s) ==> Total(Doubled, s.children) == 0
  }

  /** counter_ is never below 0, or below -1 between a launch and its ++counter_. */
  ghost predicate KeepsCounterFloor(cfg: Config) {
    forall s :: Reachable(cfg, s) ==> 0 <= s.counter + InFlight(s)
  }

  /** Once `running` is false, at most numProcesses further children are launched. */
  ghost predicate KeepsLastBatch(cfg: Config) {
    forall s, run :: Reachable(cfg, s) && !s.flags.running && Legal(cfg, s, run) ==>
      |Exec(cfg, s, run).children| <= |s.children| + Clamp(cfg.limit)
  }

  // ---------- a first batch that is reported twice ----------

  /** The first k children of a full house were counted twice, and nothing was refilled. */
  ghost predicate Drained(cfg: Config, s: State, k: nat) {
    && Reachable(cfg, s) && AtEase(s) && s.counter == cfg.limit - 2 * k
    && |s.children| == cfg.limit && s.handlers == KidHandlers(cfg, cfg.limit)
    && (forall i :: 0 <= i < k && i < |s.children| ==> s.children[i] == Doubly(cfg.minPid + i))
    && (forall i :: k <= i < |s.children| ==> s.children[i] == NewChild(cfg.minPid + i, false))
  }

  lemma {:induction false} DrainedReachable(cfg: Config, k: nat) returns (s: State)
    requires GetsStarted(cfg) && !cfg.system && k <= cfg.limit
    ensures Drained(cfg, s, k)
  {
    hide Reachable;
    if k == 0 {
      s := House(cfg);
    } else {
      s := DrainedReachable(cfg, k - 1);
      s := CountedTwice(cfg, s, k - 1);
    }
  }

  // ---------- single reports ----------

  lemma NobodyTwice(cfg: Config, s: State)
    requires Reachable(cfg, s) && (cfg.system || !GetsStarted(cfg))
    ensures Total(Doubled, s.children) == 0
  {
    if cfg.system {
      SystemChildrenReportOnce(cfg, s);
    } else {
      ReachableNotYet(cfg, s);
      ReachableInv(cfg, s);
      CountingPart(cfg, s);
      ChildrenAreOk(cfg, s);
      TotalZero(Doubled, s.children);
    }
  }

  /** System children are reported once. A forked one is reported twice in some run as soon as there is a first batch
      and the pids suffice for it. */
  lemma SingleReportsExactly(cfg: Config)
    ensures KeepsSingleReports(cfg) <==> cfg.system || !GetsStarted(cfg)
  {
    hide Reachable, GetsStarted, Total;
    if !cfg.system && GetsStarted(cfg) {
      assert 0 < cfg.limit by { StartedMeans(cfg); }
      var s := DrainedReachable(cfg, 1);
      WeightInTotal(Doubled, s.children, 0);
      assert Reachable(cfg, s);
    } else {
      forall s | Reachable(cfg, s) ensures Total(Doubled, s.children) == 0 {
        NobodyTwice(cfg, s);
      }
    }
  }

  lemma StartedMeans(cfg: Config)
    requires GetsStarted(cfg)
    ensures 0 < cfg.limit && (!cfg.system ==> cfg.limit <= PidSpace(cfg))
  {
  }

  /** The floor of counter_ gives way under the same condition. */
  lemma CounterFloorExactly(cfg: Config)
    ensures KeepsCounterFloor(cfg) <==> cfg.system || !GetsStarted(cfg)
  {
    hide Reachable, GetsStarted, Total;
    if !cfg.system && GetsStarted(cfg) {
      assert 0 < cfg.limit by { StartedMeans(cfg); }
      var s := DrainedReachable(cfg, cfg.limit);
      assert Reachable(cfg, s) && s.counter + InFlight(s) == -cfg.limit;
    } else {
      forall s | Reachable(cfg, s) ensures 0 <= s.counter + InFlight(s) {
        NobodyTwice(cfg, s);
        CounterBounds(cfg, s);
      }
    }
  }

  // ---------- the batch after shutdown ----------

  lemma Prepend(cfg: Config, s: State, a: Action, rest: seq<Action>) returns (run: seq<Action>)
    requires Enabled(cfg, s, a) && Legal(cfg, Apply(cfg, s, a), rest)
    ensures Legal(cfg, s, run) && Exec(cfg, s, run) == Exec(cfg, Apply(cfg, s, a), rest)
  {
    hide Enabled, Apply;
    run := [a] + rest;
    assert run[1..] == rest;
  }

  /** Nobody holds a pid from p on. */
  ghost predicate FreeFrom(s: State, p: int) {
    forall i :: 0 <= i < |s.children| && s.children[i].pid >= p ==> s.children[i].life.Reaped?
  }

  /** The creator goes through k turns of a batch alone. */
  lemma {:induction false} LaunchRun(cfg: Config, s: State, p: int, k: nat) returns (run: seq<Action>)
    requires s.creator.CLaunch? && s.creator.left >= k && FreeFrom(s, p)
    requires cfg.minPid <= p && p + k - 1 <= cfg.maxPid
    ensures Legal(cfg, s, run) && |Exec(cfg, s, run).children| == |s.children| + k
    decreases k
  {
    hide Enabled, Apply;
    if k == 0 {
      run := [];
    } else {
      var a, b, c := OneLaunch(cfg, s, p);
      var rest := LaunchRun(cfg, c, p + 1, k - 1);
      run := Prepend(cfg, b, Creator, rest);
      run := Prepend(cfg, a, Creator, run);
      run := Prepend(cfg, s, Launch(p), run);
    }
  }

  lemma OneLaunch(cfg: Config, s: State, p: int) returns (a: State, b: State, c: State)
    requires s.creator.CLaunch? && s.creator.left > 0 && FreeFrom(s, p) && cfg.minPid <= p <= cfg.maxPid
    ensures Enabled(cfg, s, Launch(p)) && a == Apply(cfg, s, Launch(p))
    ensures Enabled(cfg, a, Creator) && b == Apply(cfg, a, Creator)
    ensures Enabled(cfg, b, Creator) && c == Apply(cfg, b, Creator)
    ensures c.creator == CLaunch(s.creator.left - 1) && |c.children| == |s.children| + 1 && FreeFrom(c, p + 1)
  {
    a := LaunchStep(cfg, s, p);
    b := CreatorStep(cfg, a);
    c := CreatorStep(cfg, b);
  }

  /** The batch sized at -numProcesses is twice as long as there are places, and shutdown does not stop it. */
  lemma OneLaunchTooMany(cfg: Config) returns (s: State, run: seq<Action>)
    requires !cfg.system && 0 < cfg.limit < PidSpace(cfg)
    ensures Reachable(cfg, s) && !s.flags.running && Legal(cfg, s, run)
    ensures |Exec(cfg, s, run).children| == |s.children| + cfg.limit + 1
  {
    hide Reachable, Legal, Exec;
    s := DrainedReachable(cfg, cfg.limit);
    s := SizesBatch(cfg, s);
    s := Step(cfg, s, Stop);
    run := LaunchRun(cfg, s, cfg.minPid, cfg.limit + 1);
  }

  // ---------- collecting needs threads ----------

  /** A monitor thread that may still collect a child, and one that may do so after shutdown. */
  predicate Hunting(pc: MonitorPc) {
    pc.MStart? || pc.MHead? || Armed(pc)
  }

  predicate Armed(pc: MonitorPc) {
    pc.MFlag? || pc.MPaused? || pc.MProbe? || pc.MWait?
  }

  function Hunters(threads: seq<Thread>): nat {
    if threads == [] then 0
    else Hunters(threads[..|threads| - 1]) + if Hunting(threads[|threads| - 1].pc) then 1 else 0
  }

  function ArmedOnes(threads: seq<Thread>): nat {
    if threads == [] then 0
    else ArmedOnes(threads[..|threads| - 1]) + if Armed(threads[|threads| - 1].pc) then 1 else 0
  }

  lemma {:induction false} ThreadMoved(threads: seq<Thread>, t: nat, thread: Thread)
    requires t < |threads|
    ensures Hunters(threads[t := thread]) == Hunters(threads) - (if Hunting(threads[t].pc) then 1 else 0)
                                             + if Hunting(thread.pc) then 1 else 0
    ensures ArmedOnes(threads[t := thread]) == ArmedOnes(threads) - (if Armed(threads[t].pc) then 1 else 0)
                                               + if Armed(thread.pc) then 1 else 0
  {
    var last := |threads| - 1;
    if t == last {
      assert threads[t := thread][..last] == threads[..last];
    } else {
      ThreadMoved(threads[..last], t, thread);
      assert threads[t := thread][..last] == threads[..last][t := thread];
    }
  }

  lemma ThreadAdded(threads: seq<Thread>, thread: Thread)
    requires thread.pc == MStart
    ensures Hunters(threads + [thread]) == Hunters(threads) + 1 && ArmedOnes(threads + [thread]) == ArmedOnes(threads)
  {
    assert (threads + [thread])[..|threads|] == threads;
  }

  lemma {:induction false} ArmedHunt(threads: seq<Thread>)
    ensures ArmedOnes(threads) <= Hunters(threads)
  {
    if threads == [] {
    } else {
      ArmedHunt(threads[..|threads| - 1]);
    }
  }

  /** Without `running`, a thread at the head of its loop or before it will not collect anything. */
  lemma HuntStep(s: State, t: nat, alive: bool, delivered: bool, exitCode: int)
    requires t < |s.threads| && s.threads[t].owner < |s.children| && !s.threads[t].pc.MDone?
    requires s.threads[t].pc.MReport? ==> s.threads[t].pc.child < |s.children|
    ensures var s' := MonitorStep(s, t, alive, delivered, exitCode);
      var collects := if s.threads[t].pc.MWait? && Collectable(s, t).Some? then 1 else 0;
      && |s'.threads| == |s.threads|
      && Total(Collected, s'.children) == Total(Collected, s.children) + collects
      && Hunters(s'.threads) <= Hunters(s.threads) - collects
      && (!s.flags.running ==> ArmedOnes(s'.threads) <= ArmedOnes(s.threads) - collects)
  {
    hide Total, FindUnreaped, Payload, MonitorMove;
    MonitorThreads(s, t, alive, delivered, exitCode);
    MonitorChangeIsRight(s, t, alive, delivered, exitCode);
    var change := MonitorChange(s, t, delivered);
    if change.Replaced? {
      TotalUpdate(Collected, s.children, change.i, change.c);
    }
    ThreadMoved(s.threads, t, MonitorStep(s, t, alive, delivered, exitCode).threads[t]);
  }

  lemma MonitorThreads(s: State, t: nat, alive: bool, delivered: bool, exitCode: int)
    requires t < |s.threads| && s.threads[t].owner < |s.children| && !s.threads[t].pc.MDone?
    requires s.threads[t].pc.MReport? ==> s.threads[t].pc.child < |s.children|
    ensures var s' := MonitorStep(s, t, alive, delivered, exitCode);
      var collects := s.threads[t].pc.MWait? && Collectable(s, t).Some?;
      && t < |s'.threads| && s'.threads == s.threads[t := s'.threads[t]]
      && (Hunting(s'.threads[t].pc) ==> Hunting(s.threads[t].pc) && !collects)
      && (Armed(s'.threads[t].pc) && !s.flags.running ==> Armed(s.threads[t].pc) && !collects)
  {
    hide FindUnreaped, Payload;
  }

  /** Nobody but a monitor thread collects a forked child. */
  lemma OthersCollectNothing(cfg: Config, s: State, a: Action)
    requires Inv(cfg, s) && !cfg.system && Enabled(cfg, s, a) && !a.Monitor?
    ensures Total(Collected, Apply(cfg, s, a).children) == Total(Collected, s.children)
  {
    hide Inv, Apply, Total, ChangeOf;
    ChangeIsRight(cfg, s, a);
    CollectedChange(cfg, s, a);
    match ChangeOf(cfg, s, a)
    case Same =>
    case Grown(c) => TotalAppend(Collected, s.children, c);
    case Replaced(i, c) => TotalUpdate(Collected, s.children, i, c);
  }

  lemma CollectedChange(cfg: Config, s: State, a: Action)
    requires Inv(cfg, s) && !cfg.system && Enabled(cfg, s, a) && !a.Monitor?
    ensures var change := ChangeOf(cfg, s, a);
      && (change.Grown? ==> !change.c.life.Reaped?)
      && (change.Replaced? ==> change.i < |s.children| && change.c.life.Reaped? == s.children[change.i].life.Reaped?)
  {
    hide Inv, CanLaunch, CanListen, FindUnreaped;
    if a.WorkerReap? {
      ChildIsOk(cfg, s, a.child);
    }
  }

  lemma ThreadsStay(cfg: Config, s: State, a: Action)
    requires Enabled(cfg, s, a) && !a.Monitor?
    ensures var after := Apply(cfg, s, a).threads;
      after == s.threads ||
      (after != [] && after == s.threads + [after[|after| - 1]] && after[|after| - 1].pc == MStart)
  {
    hide CanLaunch, CanCreate, CanReport, CanListen, CreationMove, Taken, Remaining;
    hide CreatorStep, LaunchStep, TerminationStep, AnnounceStep, ReportStep, EndStep, ReapStep, WorkerReportStep;
    if !a.CreationListener? && !a.StartThreads? {
      OthersKeep(cfg, TheCreationListener, s, a);
      forall t: nat | t < |s.threads| ensures Apply(cfg, s, a).threads[t] == s.threads[t] {
        OthersKeep(cfg, TheMonitor(t), s, a);
      }
      assert Apply(cfg, s, a).threads == s.threads;
    }
  }

  lemma CollectStep(cfg: Config, s: State, a: Action)
    requires Inv(cfg, s) && !cfg.system && Enabled(cfg, s, a)
    ensures var s' := Apply(cfg, s, a);
      && Total(Collected, s'.children) + Hunters(s'.threads) - |s'.threads|
           <= Total(Collected, s.children) + Hunters(s.threads) - |s.threads|
      && (!s.flags.running ==> Total(Collected, s'.children) + ArmedOnes(s'.threads)
                               <= Total(Collected, s.children) + ArmedOnes(s.threads))
  {
    hide Inv, Total, Apply, Enabled, MonitorStep;
    if a.Monitor? {
      MonitorApplies(cfg, s, a);
      HuntStep(s, a.thread, a.alive, a.delivered, a.exitCode);
    } else {
      OthersCollectNothing(cfg, s, a);
      ThreadsStay(cfg, s, a);
      var after := Apply(cfg, s, a).threads;
      if after != s.threads {
        ThreadAdded(s.threads, after[|after| - 1]);
      }
    }
  }

  lemma MonitorApplies(cfg: Config, s: State, a: Action)
    requires Enabled(cfg, s, a) && a.Monitor?
    ensures a.thread < |s.threads| && s.threads[a.thread].owner < |s.children| && !s.threads[a.thread].pc.MDone?
    ensures s.threads[a.thread].pc.MReport? ==> s.threads[a.thread].pc.child < |s.children|
    ensures Apply(cfg, s, a) == MonitorStep(s, a.thread, a.alive, a.delivered, a.exitCode)
  {
    hide MonitorStep, FindUnreaped;
  }

  /** In every run, collected children and threads that may still collect one are at most the threads. */
  lemma {:induction false} RunCollects(cfg: Config, s: State, run: seq<Action>)
    requires Inv(cfg, s) && !cfg.system && Legal(cfg, s, run)
    ensures var s' := Exec(cfg, s, run);
      && Total(Collected, s'.children) + Hunters(s'.threads) - |s'.threads|
           <= Total(Collected, s.children) + Hunters(s.threads) - |s.threads|
      && (!s.flags.running ==> Total(Collected, s'.children) + ArmedOnes(s'.threads)
                               <= Total(Collected, s.children) + ArmedOnes(s.threads))
    decreases |run|
  {
    hide Inv, Apply, Enabled, Total, Hunters, ArmedOnes;
    if run == [] {
    } else {
      StepInv(cfg, s, run[0]);
      CollectStep(cfg, s, run[0]);
      StoppedStaysStopped(cfg, s, run[0]);
      RunCollects(cfg, Apply(cfg, s, run[0]), run[1..]);
    }
  }

  // ---------- threads need children ----------

  function Elements(values: seq<int>): (elements: set<int>)
    ensures forall v :: v in elements ==> exists i :: 0 <= i < |values| && values[i] == v
  {
    if values == [] then {} else Elements(values[..|values| - 1]) + {values[|values| - 1]}
  }

  /** So many different indices below n are at most n. */
  lemma {:induction false} DistinctElements(values: seq<int>)
    requires forall i, j :: 0 <= i < j < |values| ==> values[i] != values[j]
    ensures |Elements(values)| == |values|
  {
    if values == [] {
    } else {
      DistinctElements(values[..|values| - 1]);
      assert values[|values| - 1] !in Elements(values[..|values| - 1]);
    }
  }

  lemma DistinctFit(values: seq<int>, n: nat)
    requires forall i, j :: 0 <= i < j < |values| ==> values[i] != values[j]
    requires forall i :: 0 <= i < |values| ==> 0 <= values[i] < n
    ensures |values| <= n
  {
    DistinctElements(values);
    RangeSize(Elements(values), 0, n);
  }

  /** Every thread has a creation message of its own, and every creation message a child of its own. */
  lemma ThreadsFitChildren(cfg: Config, s: State)
    requires Inv(cfg, s)
    ensures |s.threads| <= |s.children|
  {
    hide ChildrenOk, CreatorOk, SentOk, TerminationOk, RegistryOk, MarksOk, ReportersOk, Caused;
    Unpack(cfg, s);
    DistinctFit(seq(|s.log.announced|, i requires 0 <= i < |s.log.announced| => s.log.announced[i].from), |s.children|);
    DistinctFit(seq(|s.threads|, t requires 0 <= t < |s.threads| => s.threads[t].cause), |s.log.announced|);
  }

  // ---------- launches after shutdown ----------

  /** Forked children launched after shutdown are not collected any more, so they need a pid each. */
  lemma PidsEndTheBatch(cfg: Config, s: State, run: seq<Action>)
    requires Reachable(cfg, s) && !cfg.system && !s.flags.running && Legal(cfg, s, run)
    ensures |Exec(cfg, s, run).children| <= |s.children| + PidSpace(cfg)
  {
    hide Reachable, Total, Hunters, ArmedOnes, Legal, Exec, Inv;
    ReachableInv(cfg, s);
    CollectedFitThreads(cfg, s);
    RunCollects(cfg, s, run);
    ArmedHunt(s.threads);
    ThreadsFitChildren(cfg, s);
    RunInv(cfg, s, run);
    PidsRunOut(cfg, Exec(cfg, s, run));
  }

  lemma CollectedFitThreads(cfg: Config, s: State)
    requires Reachable(cfg, s) && !cfg.system
    ensures Total(Collected, s.children) + Hunters(s.threads) <= |s.threads|
  {
    var run :| Legal(cfg, Init(cfg), run) && Exec(cfg, Init(cfg), run) == s;
    InitInv(cfg);
    RunCollects(cfg, Init(cfg), run);
  }

  /** At most numProcesses launches after shutdown, in every run: for system processes, for a limit that admits none,
      and when there are no more pids than places. Elsewhere doubled reports can stretch the last batch. */
  lemma LastBatchExactly(cfg: Config)
    ensures KeepsLastBatch(cfg) <==> cfg.system || cfg.limit <= 0 || cfg.limit >= PidSpace(cfg)
  {
    hide Reachable, Legal, Exec;
    if !cfg.system && 0 < cfg.limit < PidSpace(cfg) {
      var s, run := OneLaunchTooMany(cfg);
      assert Reachable(cfg, s) && !s.flags.running && Legal(cfg, s, run);
    } else {
      forall s, run | Reachable(cfg, s) && !s.flags.running && Legal(cfg, s, run)
        ensures |Exec(cfg, s, run).children| <= |s.children| + Clamp(cfg.limit)
      {
        ShortLastBatch(cfg, s, run);
      }
    }
  }

  lemma ShortLastBatch(cfg: Config, s: State, run: seq<Action>)
    requires Reachable(cfg, s) && !s.flags.running && Legal(cfg, s, run)
    requires cfg.system || cfg.limit <= 0 || cfg.limit >= PidSpace(cfg)
    ensures |Exec(cfg, s, run).children| <= |s.children| + Clamp(cfg.limit)
  {
    hide Total;
    ReachableInv(cfg, s);
    RunInv(cfg, s, run);
    if cfg.system {
      LaunchesAfterShutdown(cfg, s, run);
      ChildrenAreOk(cfg, Exec(cfg, s, run));
      TotalZero(Doubled, Exec(cfg, s, run).children);
    } else if cfg.limit <= 0 {
      CountingPart(cfg, Exec(cfg, s, run));
    } else {
      PidsEndTheBatch(cfg, s, run);
    }
  }
}

/** Four guarantees one might expect of the supervisor, and exactly for which configurations they hold: a working child
    stays visible, a handler has one monitor thread, a deceased pid has none left, a settled house is full. They fail
    as soon as a first batch can be launched, or for forked children then. */
module SupervisorBoundaries {
  import opened Common
  import opened Messages
  import opened TypedQueue
  import opened Registry
  import opened Supervisor
  import opened SupervisorInvariant
  import opened SupervisorCapacity
  import opened SupervisorFrames
  import opened SupervisorRegistry
  import opened SupervisorLimits

  /** There is a first batch and the pids suffice for it. The workers of system children, which collect them, run
      from the start, so one pid is enough for those; forked children are collected by monitor threads only. */
  predicate GetsStarted(cfg: Config) {
    0 < cfg.limit && 0 < PidSpace(cfg) && (cfg.system || cfg.limit <= PidSpace(cfg))
  }

  /** No child that is still working is hidden from the snapshot of the registry. */
  ghost predicate KeepsWorkersVisible(cfg: Config) {
    forall s, i :: Reachable(cfg, s) && 0 <= i < |s.children| && Weight(Unfinished, s.children[i]) == 1 ==>
      s.children[i].pid !in s.deceased
  }

  /** No handler ever gets a second monitor thread. */
  ghost predicate KeepsOneMonitor(cfg: Config) {
    forall s, t, u :: Reachable(cfg, s) && 0 <= t < u < |s.threads| ==> s.threads[t].owner != s.threads[u].owner
  }

  predicate WatchesDeceased(s: State, t: int) {
    0 <= t < |s.threads| && s.threads[t].owner < |s.children| && s.children[s.threads[t].owner].pid in s.deceased
  }

  /** The monitor threads on a deceased pid have ended. */
  ghost predicate KeepsDeceasedUnwatched(cfg: Config) {
    forall s, t :: Reachable(cfg, s) && WatchesDeceased(s, t) ==> s.threads[t].pc.MDone?
  }

  /** Nobody will say anything more about the children that have finished, and the creator sees no room. */
  predicate Settled(cfg: Config, s: State) {
    && AtEase(s) && s.counter >= cfg.limit
    && (forall i :: 0 <= i < |s.children| && Weight(Unfinished, s.children[i]) == 0 ==>
          s.children[i].life.Reaped? && (s.children[i].worker.NoWorker? || s.children[i].worker.Gone?))
    && (forall t :: 0 <= t < |s.threads| ==> !s.threads[t].pc.MReport?)
  }

  /** Every dead child is replaced: once all is settled, numProcesses children are unfinished. */
  ghost predicate KeepsFull(cfg: Config) {
    forall s :: Reachable(cfg, s) && Settled(cfg, s) ==> Total(Unfinished, s.children) >= cfg.limit
  }

  // ---------- a place that has become free ----------

  /** The child launched first is finished and collected, and everyone who could report it has tried. The letter about
      it is queued, or lost; all threads are at the top of their loops. */
  ghost predicate OneHasLeft(cfg: Config, s: State, letter: Letter, delivered: bool) {
    && Reachable(cfg, s) && AtEase(s.(queue := [])) && s.counter == cfg.limit
    && s.queue == (if delivered then [Message(TERMINATION_MSG, letter)] else [])
    && DecodePid(letter.text) == Some(cfg.minPid)
    && s.children != [] && s.children[0].pid == cfg.minPid && !s.children[0].monitoring
    && cfg.minPid in s.handlers && s.handlers[cfg.minPid] == 0
    && Total(Unfinished, s.children) < cfg.limit
    && (forall i :: 0 <= i < |s.children| && s.children[i].pid == cfg.minPid ==> s.children[i].life.Reaped?)
    && (forall i :: 0 <= i < |s.children| && Weight(Unfinished, s.children[i]) == 0 ==>
          s.children[i].life.Reaped? && (s.children[i].worker.NoWorker? || s.children[i].worker.Gone?))
    && (forall t :: 0 <= t < |s.threads| ==> !s.threads[t].pc.MReport?)
  }

  /** The first child of a full house becomes c, a collected one. */
  lemma OneLess(cfg: Config, c: Child)
    requires 0 < cfg.limit && c.life.Reaped?
    ensures Total(Unfinished, Kids(cfg, cfg.limit)[0 := c]) == cfg.limit - 1
  {
    var kids := Kids(cfg, cfg.limit);
    TotalFull(Unfinished, kids);
    TotalUpdate(Unfinished, kids, 0, c);
  }

  /** A forked child: its own message, and a monitor thread that collects it. */
  lemma ForkedLeaves(cfg: Config, delivered: bool) returns (s: State)
    requires GetsStarted(cfg) && !cfg.system
    ensures OneHasLeft(cfg, s, Goodbye(0, cfg.minPid), delivered)
    ensures |s.threads| == 1 && s.threads[0].owner == 0
  {
    hide Reachable, Total, Payload, TerminationText, DecodePid;
    s := House(cfg);
    OnlyUnreaped(cfg, s, 0);
    s := Announces(cfg, s, 0);
    s := Leaves(cfg, s, 0, delivered, Exited(0));
    s := Reaps(cfg, s, 0, 0);
    s := MonitorEnds(cfg, s, 0);
    assert s.children == Kids(cfg, cfg.limit)[0 := s.children[0]];
    OneLess(cfg, s.children[0]);
    TerminationRoundTrip(cfg.minPid, "", 0);
  }

  function WorkersLetter(v: nat, pid: int): Letter {
    Letter(v, ItsReaper, Payload(TerminationText(pid, "", 0)))
  }

  /** A system child that has ended and been collected. */
  function Husk(pid: int, worker: Worker): Child {
    Child(pid, Reaped(Exited(0)), worker, false, false, false, false)
  }

  /** A system child ends normally; the worker that spawned it collects it and tries to report it. */
  lemma WorkerDone(cfg: Config, s: State, v: nat, delivered: bool) returns (next: State)
    requires Reachable(cfg, s) && cfg.system && v < |s.children|
    requires s.children[v] == NewChild(s.children[v].pid, true)
    ensures Reachable(cfg, next)
    ensures var pid := s.children[v].pid;
      next == s.(children := s.children[v := Husk(pid, Gone).(reaperSent := delivered)], log := next.log,
                 queue := if delivered then s.queue + [Message(TERMINATION_MSG, WorkersLetter(v, pid))] else s.queue)
  {
    hide Reachable, Payload, TerminationText;
    next := Step(cfg, s, End(v, Exited(0)));
    next := Step(cfg, next, WorkerReap(v));
    next := Step(cfg, next, WorkerReport(v, delivered, "", 0));
  }

  lemma SystemLeaves(cfg: Config, delivered: bool) returns (s: State)
    requires GetsStarted(cfg) && cfg.system && cfg.limit <= PidSpace(cfg)
    ensures OneHasLeft(cfg, s, WorkersLetter(0, cfg.minPid), delivered)
  {
    hide Reachable, Total, Payload, TerminationText, DecodePid;
    s := House(cfg);
    OnlyUnreaped(cfg, s, 0);
    s := WorkerDone(cfg, s, 0, delivered);
    assert s.children == Kids(cfg, cfg.limit)[0 := s.children[0]];
    OneLess(cfg, s.children[0]);
    TerminationRoundTrip(cfg.minPid, "", 0);
  }

  // ---------- more system children than pids ----------

  /** One turn of createHandlers whose child is gone at once. */
  lemma LaunchesHusk(cfg: Config, s: State) returns (next: State)
    requires Reachable(cfg, s) && cfg.system && 0 < PidSpace(cfg) && s.creator.CLaunch? && s.creator.left > 0
    requires forall i :: 0 <= i < |s.children| ==> s.children[i].life.Reaped?
    ensures Reachable(cfg, next)
    ensures next == s.(children := s.children + [Husk(cfg.minPid, Reporting)], counter := s.counter + 1,
                       handlers := Added(s.handlers, cfg.minPid, |s.children|), creator := CLaunch(s.creator.left - 1))
  {
    hide Reachable;
    var i := |s.children|;
    next := LaunchesOne(cfg, s, cfg.minPid);
    next := Step(cfg, next, End(i, Exited(0)));
    next := Step(cfg, next, WorkerReap(i));
    assert next.children == s.children + [Husk(cfg.minPid, Reporting)];
  }

  /** k children were launched one after the other, all with that pid, since there are fewer pids than places; only
      the first one's worker has still to report, the messages of the others were lost. */
  function Husks(cfg: Config, k: nat): (husks: seq<Child>)
    requires k > 0
    ensures |husks| == k
  {
    [Husk(cfg.minPid, Reporting)] + seq(k - 1, _ => Husk(cfg.minPid, Gone))
  }

  function HuskBatch(cfg: Config, k: nat): State
    requires 0 < k <= Clamp(cfg.limit)
  {
    Init(cfg).(counter := k, children := Husks(cfg, k), handlers := map[cfg.minPid := 0],
               creator := CLaunch(Clamp(cfg.limit) - k))
  }

  lemma {:induction false} HuskBatchReachable(cfg: Config, k: nat)
    requires 0 < k <= Clamp(cfg.limit) && cfg.system && 0 < PidSpace(cfg)
    ensures Reachable(cfg, HuskBatch(cfg, k))
  {
    hide Reachable, Payload, TerminationText;
    if k == 1 {
      InitReachable(cfg);
      var s := LaunchesHusk(cfg, Init(cfg));
      assert s.children == Husks(cfg, 1);
    } else {
      HuskBatchReachable(cfg, k - 1);
      var s := LaunchesHusk(cfg, HuskBatch(cfg, k - 1));
      s := Step(cfg, s, WorkerReport(k - 1, false, "", 0));
      assert s.children == Husks(cfg, k);
    }
  }

  lemma HusksLeave(cfg: Config, delivered: bool) returns (s: State)
    requires GetsStarted(cfg) && cfg.system
    ensures OneHasLeft(cfg, s, WorkersLetter(0, cfg.minPid), delivered) && s.handlers == map[cfg.minPid := 0]
  {
    hide Reachable, Total, Payload, TerminationText, DecodePid;
    HuskBatchReachable(cfg, cfg.limit);
    s := Starts(cfg, HuskBatch(cfg, cfg.limit));
    s := Step(cfg, s, WorkerReport(0, delivered, "", 0));
    TotalZero(Unfinished, s.children);
    TerminationRoundTrip(cfg.minPid, "", 0);
  }

  // ---------- the failing runs ----------

  lemma SomeoneLeaves(cfg: Config, delivered: bool) returns (s: State, letter: Letter)
    requires GetsStarted(cfg)
    ensures OneHasLeft(cfg, s, letter, delivered)
    ensures !cfg.system ==> |s.threads| == 1 && s.threads[0].owner == 0
  {
    hide OneHasLeft;
    if !cfg.system {
      letter := Goodbye(0, cfg.minPid);
      s := ForkedLeaves(cfg, delivered);
    } else {
      letter := WorkersLetter(0, cfg.minPid);
      if cfg.limit <= PidSpace(cfg) {
        s := SystemLeaves(cfg, delivered);
      } else {
        s := HusksLeave(cfg, delivered);
      }
    }
  }

  /** Counted and marked, the pid is handed out again: the new child works behind the mark of the old one. */
  lemma Reuse(cfg: Config) returns (s: State, i: nat)
    requires GetsStarted(cfg)
    ensures Reachable(cfg, s) && i < |s.children| && s.children[i] == NewChild(cfg.minPid, cfg.system)
    ensures cfg.minPid in s.deceased && cfg.minPid in s.handlers && s.handlers[cfg.minPid] == 0
    ensures !s.children[0].monitoring && s.flags.running && s.creation == KHead && s.queue == []
    ensures !cfg.system ==> |s.threads| == 1 && s.threads[0].owner == 0
  {
    hide Reachable, DecodePid, Total;
    var letter;
    s, letter := SomeoneLeaves(cfg, true);
    s := HandlesFirst(cfg, s, letter, [], cfg.minPid);
    s := SizesBatch(cfg, s);
    s := LaunchesOne(cfg, s, cfg.minPid);
    i := |s.children| - 1;
  }

  /** The new child announces itself, and the handler of the old one gets a second thread. */
  lemma SecondMonitor(cfg: Config) returns (s: State)
    requires GetsStarted(cfg) && !cfg.system
    ensures Reachable(cfg, s) && |s.threads| == 2 && s.threads[0].owner == s.threads[1].owner
  {
    hide Reachable;
    var i;
    s, i := Reuse(cfg);
    s := Announces(cfg, s, i);
    assert s.threads[0] == s.threads[..1][0];
  }

  /** The child's own message is handled before its monitor thread has run at all. */
  lemma MarkedBeforeWatched(cfg: Config) returns (s: State)
    requires GetsStarted(cfg) && !cfg.system
    ensures Reachable(cfg, s) && WatchesDeceased(s, 0) && s.threads[0].pc == MStart
  {
    hide Reachable, Payload, TerminationText, DecodePid;
    s := House(cfg);
    s := Announces(cfg, s, 0);
    s := Step(cfg, s, Report(0, true, "", 0));
    assert s.queue == [Message(TERMINATION_MSG, Goodbye(0, cfg.minPid))] + [];
    TerminationRoundTrip(cfg.minPid, "", 0);
    s := HandlesFirst(cfg, s, Goodbye(0, cfg.minPid), [], cfg.minPid);
  }

  // ---------- configurations that never get started ----------

  /** Before the threads start, nothing is counted, marked or watched, and forked children stay uncollected. */
  ghost predicate NotYet(cfg: Config, s: State) {
    !s.flags.started ==>
      && s.log.consumed == 0 && s.threads == []
      && (!cfg.system ==> forall i :: 0 <= i < |s.children| ==> !s.children[i].life.Reaped?)
      && (s.creator.CWaiting? ==> |s.children| == Clamp(cfg.limit))
  }

  /** Which steps can be taken before the start. */
  lemma EarlySteps(cfg: Config, s: State, a: Action)
    requires Inv(cfg, s) && !s.flags.started && s.threads == [] && Enabled(cfg, s, a)
    ensures !a.CreationListener? && !a.TerminationListener? && !a.Monitor?
    ensures a.WorkerReap? ==> cfg.system
  {
    hide Inv, CanLaunch, CanCreate;
    CountingPart(cfg, s);
    if a.WorkerReap? {
      ChildIsOk(cfg, s, a.child);
    }
  }

  lemma NotYetStep(cfg: Config, s: State, a: Action)
    requires Inv(cfg, s) && NotYet(cfg, s) && Enabled(cfg, s, a)
    ensures NotYet(cfg, Apply(cfg, s, a))
  {
    hide Inv, FindUnreaped, TerminationStep, CreationStep, MonitorStep, Payload, DecodePid;
    if s.flags.started {
      StartedStays(cfg, s, a);
    } else {
      EarlySteps(cfg, s, a);
      CountingPart(cfg, s);
    }
  }

  lemma StartedStays(cfg: Config, s: State, a: Action)
    requires Enabled(cfg, s, a) && s.flags.started
    ensures Apply(cfg, s, a).flags.started
  {
    hide CanLaunch, CanCreate, CanReport, CanListen, CanMonitor;
    if !a.StartThreads? {
      OthersKeep(cfg, if a.Creator? || a.Launch? then TheCreationListener else TheCreator, s, a);
    }
  }

  /** Not enough pids for the first batch: it never ends, so no thread ever starts. */
  lemma StillWaiting(cfg: Config, s: State, a: Action)
    requires Inv(cfg, s) && NotYet(cfg, s) && !s.flags.started && Enabled(cfg, s, a)
    requires 0 < cfg.limit && !GetsStarted(cfg)
    ensures !Apply(cfg, s, a).flags.started
  {
    hide Inv, LaunchStep, CreatorStep, TerminationStep, CreationStep, MonitorStep, AnnounceStep, ReportStep, EndStep,
      ReapStep, WorkerReportStep, CanLaunch, CanCreate, CanReport;
    EarlySteps(cfg, s, a);
    if a.StartThreads? {
      TooManyForPids(cfg, s);
    } else {
      OthersKeep(cfg, if a.Creator? || a.Launch? then TheCreationListener else TheCreator, s, a);
    }
  }

  lemma TooManyForPids(cfg: Config, s: State)
    requires Inv(cfg, s) && NotYet(cfg, s) && !s.flags.started
    requires 0 < cfg.limit && !GetsStarted(cfg)
    ensures !s.creator.CWaiting?
  {
    hide Inv;
    PidsRunOut(cfg, s);
    if !cfg.system {
      TotalZero(Collected, s.children);
    }
    if s.creator.CWaiting? && cfg.system {
      ChildIsOk(cfg, s, 0);
    }
  }

  lemma {:induction false} RunNotYet(cfg: Config, s: State, run: seq<Action>)
    requires Inv(cfg, s) && NotYet(cfg, s) && Legal(cfg, s, run)
    ensures NotYet(cfg, Exec(cfg, s, run))
    ensures 0 < cfg.limit && !GetsStarted(cfg) && !s.flags.started ==> !Exec(cfg, s, run).flags.started
    decreases |run|
  {
    hide Inv, NotYet, GetsStarted, Enabled, Apply;
    if run == [] {
    } else {
      StepInv(cfg, s, run[0]);
      NotYetStep(cfg, s, run[0]);
      if 0 < cfg.limit && !GetsStarted(cfg) && !s.flags.started {
        StillWaiting(cfg, s, run[0]);
      }
      RunNotYet(cfg, Apply(cfg, s, run[0]), run[1..]);
    }
  }

  lemma ReachableNotYet(cfg: Config, s: State)
    requires Reachable(cfg, s)
    ensures NotYet(cfg, s)
    ensures 0 < cfg.limit && !GetsStarted(cfg) ==> !s.flags.started
  {
    var run :| Legal(cfg, Init(cfg), run) && Exec(cfg, Init(cfg), run) == s;
    InitInv(cfg);
    RunNotYet(cfg, Init(cfg), run);
  }

  /** Without a complete first batch there are no marks and no threads; without a limit there are no children. */
  lemma NeverStarted(cfg: Config, s: State)
    requires Reachable(cfg, s) && !GetsStarted(cfg)
    ensures s.deceased == {} && s.threads == []
    ensures 0 < cfg.limit ==> !s.flags.started && s.creator != CHead
  {
    ReachableNotYet(cfg, s);
    ReachableInv(cfg, s);
    CountingPart(cfg, s);
    if cfg.limit <= 0 {
      NoChildren(cfg, s);
    } else {
      NoMarks(cfg, s);
    }
  }

  lemma NoMarks(cfg: Config, s: State)
    requires Inv(cfg, s) && s.log.consumed == 0
    ensures s.deceased == {}
  {
    hide ChildrenOk, CreatorOk, SentOk, TerminationOk, AnnouncedOk, CreationOk, RegistryOk, ThreadsOk, ReportersOk;
    Unpack(cfg, s);
    assert forall p :: p !in s.log.markedBy;
    assert s.log.markedBy.Keys == {};
  }

  lemma NoChildren(cfg: Config, s: State)
    requires Inv(cfg, s) && cfg.limit <= 0
    ensures s.deceased == {} && s.threads == []
  {
    hide ChildrenOk, SentOk, TerminationOk, AnnouncedOk, CreationOk, ReportersOk;
    Unpack(cfg, s);
    assert s.children == [];
    assert |s.threads| == 0 by {
      assert |s.threads| > 0 ==>
        Caused(s.children, s.handlers, s.log.announced, s.threads[0].owner, s.threads[0].cause);
    }
    assert forall p :: p !in s.handlers;
  }

  lemma SystemChildrenAreUnwatched(cfg: Config, s: State)
    requires Reachable(cfg, s) && cfg.system
    ensures s.threads == []
  {
    ReachableInv(cfg, s);
    if |s.threads| > 0 {
      ThreadsAreEarned(cfg, s, 0);
      NoAnnouncements(cfg, s);
      assert false;
    }
  }

  lemma NoAnnouncements(cfg: Config, s: State)
    requires Inv(cfg, s) && cfg.system
    ensures s.log.announced == []
  {
    Unpack(cfg, s);
  }

  // ---------- the four boundaries ----------

  /** Whenever the supervisor gets started at all, there is a run in which a reused pid hides a working child. */
  lemma WorkersVisibleExactly(cfg: Config)
    ensures KeepsWorkersVisible(cfg) <==> !GetsStarted(cfg)
  {
    hide Reachable, GetsStarted;
    if GetsStarted(cfg) {
      var s, i := Reuse(cfg);
      assert Reachable(cfg, s) && Weight(Unfinished, s.children[i]) == 1 && s.children[i].pid in s.deceased;
    } else {
      forall s, i | Reachable(cfg, s) && 0 <= i < |s.children| ensures s.children[i].pid !in s.deceased {
        NeverStarted(cfg, s);
      }
    }
  }

  /** System children have no monitor thread; forked ones can have two on one handler once a pid comes back. */
  lemma OneMonitorExactly(cfg: Config)
    ensures KeepsOneMonitor(cfg) <==> cfg.system || !GetsStarted(cfg)
  {
    hide Reachable, GetsStarted;
    if !cfg.system && GetsStarted(cfg) {
      var s := SecondMonitor(cfg);
      assert Reachable(cfg, s) && 0 <= 0 < 1 < |s.threads|;
    } else {
      forall s | Reachable(cfg, s) ensures s.threads == [] {
        NoThreads(cfg, s);
      }
    }
  }

  /** A pid can be marked while its monitor thread is still on its way. */
  lemma DeceasedUnwatchedExactly(cfg: Config)
    ensures KeepsDeceasedUnwatched(cfg) <==> cfg.system || !GetsStarted(cfg)
  {
    hide Reachable, GetsStarted;
    if !cfg.system && GetsStarted(cfg) {
      var s := MarkedBeforeWatched(cfg);
      assert Reachable(cfg, s) && WatchesDeceased(s, 0);
    } else {
      forall s | Reachable(cfg, s) ensures s.threads == [] {
        NoThreads(cfg, s);
      }
    }
  }

  lemma NoThreads(cfg: Config, s: State)
    requires Reachable(cfg, s) && (cfg.system || !GetsStarted(cfg))
    ensures s.threads == []
  {
    hide Reachable, GetsStarted;
    if cfg.system {
      SystemChildrenAreUnwatched(cfg, s);
    } else {
      NeverStarted(cfg, s);
    }
  }

  /** A lost termination message leaves a place empty for good. */
  lemma FullExactly(cfg: Config)
    ensures KeepsFull(cfg) <==> !GetsStarted(cfg)
  {
    hide Reachable, Total;
    if GetsStarted(cfg) {
      var s := LeftShort(cfg);
      assert Reachable(cfg, s) && Settled(cfg, s);
    } else {
      forall s | Reachable(cfg, s) && Settled(cfg, s) ensures Total(Unfinished, s.children) >= cfg.limit {
        NeverStarted(cfg, s);
      }
    }
  }

  lemma LeftShort(cfg: Config) returns (s: State)
    requires GetsStarted(cfg)
    ensures Reachable(cfg, s) && Settled(cfg, s) && Total(Unfinished, s.children) < cfg.limit
  {
    hide Reachable, Total;
    var letter;
    s, letter := SomeoneLeaves(cfg, false);
    assert s.(queue := []) == s;
  }

  /** How far a settled house is from full: the finished children nobody has reported, less those reported twice. */
  lemma ShortExactlyBy(cfg: Config, s: State)
    requires Reachable(cfg, s) && Settled(cfg, s) && 0 <= cfg.limit
    ensures Total(Unfinished, s.children) == cfg.limit - Total(Unreported, s.children) + Total(Doubled, s.children)
  {
    CounterLaw(cfg, s);
    CounterBounds(cfg, s);
  }
}

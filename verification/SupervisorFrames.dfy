/** Runs one step longer; who takes which step, and what everyone else's steps leave alone. */
module SupervisorFrames {
  import opened Decimal
  import opened Messages
  import opened TypedQueue
  import opened Supervisor
  import opened SupervisorInvariant
  import opened SupervisorCapacity

  // ---------- one more step of a run ----------

  lemma InitReachable(cfg: Config)
    ensures Reachable(cfg, Init(cfg))
  {
    assert Legal(cfg, Init(cfg), []) && Exec(cfg, Init(cfg), []) == Init(cfg);
  }

  lemma {:induction false} ExtendRun(cfg: Config, s: State, run: seq<Action>, a: Action)
    requires Legal(cfg, s, run) && Enabled(cfg, Exec(cfg, s, run), a)
    ensures Legal(cfg, s, run + [a]) && Exec(cfg, s, run + [a]) == Apply(cfg, Exec(cfg, s, run), a)
    decreases |run|
  {
    hide Enabled, Apply;
    if run == [] {
      assert [a][1..] == [];
      assert run + [a] == [a];
    } else {
      ExtendRun(cfg, Apply(cfg, s, run[0]), run[1..], a);
      assert (run + [a])[1..] == run[1..] + [a];
    }
  }

  lemma Step(cfg: Config, s: State, a: Action) returns (next: State)
    requires Reachable(cfg, s) && Enabled(cfg, s, a)
    ensures Reachable(cfg, next) && next == Apply(cfg, s, a)
  {
    hide Enabled, Apply, Init;
    var run :| Legal(cfg, Init(cfg), run) && Exec(cfg, Init(cfg), run) == s;
    ExtendRun(cfg, Init(cfg), run, a);
    next := Apply(cfg, s, a);
  }

  lemma Launched(cfg: Config, s: State, pid: int) returns (next: State)
    requires Reachable(cfg, s) && CanLaunch(cfg, s, pid)
    ensures Reachable(cfg, next) && next == LaunchStep(cfg, s, pid)
  {
    hide Reachable;
    next := Step(cfg, s, Launch(pid));
  }

  lemma Created(cfg: Config, s: State) returns (next: State)
    requires Reachable(cfg, s) && CanCreate(s)
    ensures Reachable(cfg, next) && next == CreatorStep(cfg, s)
  {
    hide Reachable, CreatorStep;
    next := Step(cfg, s, Creator);
  }

  lemma Heard(cfg: Config, s: State, quit: bool) returns (next: State)
    requires Reachable(cfg, s) && !s.creation.KIdle? && !s.creation.KDone?
    ensures Reachable(cfg, next) && next == CreationStep(s, quit)
  {
    hide Reachable, CreationStep;
    next := Step(cfg, s, CreationListener(quit));
  }

  lemma Listened(cfg: Config, s: State, quit: bool) returns (next: State)
    requires Reachable(cfg, s) && CanListen(s, quit)
    ensures Reachable(cfg, next) && next == TerminationStep(s, quit)
  {
    hide Reachable, TerminationStep;
    next := Step(cfg, s, TerminationListener(quit));
  }

  lemma Monitored(cfg: Config, s: State, t: nat, alive: bool, delivered: bool, exitCode: int) returns (next: State)
    requires Reachable(cfg, s) && CanMonitor(s, t, alive) && IsInt32(exitCode)
    ensures CanMonitor(s, t, alive) && Reachable(cfg, next) && next == MonitorStep(s, t, alive, delivered, exitCode)
  {
    hide Reachable, MonitorStep;
    next := Step(cfg, s, Monitor(t, alive, delivered, exitCode));
  }

  // ---------- the threads ----------

  datatype Actor = TheCreator | TheCreationListener | TheTerminationListener | TheMonitor(thread: nat)

  /** Steps only this thread takes. */
  predicate ActsFor(a: Action, actor: Actor) {
    match actor
    case TheCreator => a.Creator? || a.Launch?
    case TheCreationListener => a.CreationListener?
    case TheTerminationListener => a.TerminationListener?
    case TheMonitor(t) => a.Monitor? && a.thread == t
  }

  /** Handlers are only added. */
  ghost predicate Grows(before: map<int, nat>, after: map<int, nat>) {
    forall p :: p in before ==> p in after && after[p] == before[p]
  }

  /** What the others leave alone, besides what Evolves says about the children. */
  ghost predicate Kept(actor: Actor, s: State, s': State) {
    && s'.flags.started == s.flags.started && (s'.flags.running ==> s.flags.running)
    && Grows(s.handlers, s'.handlers)
    && s.log.sent <= s'.log.sent && s.log.announced <= s'.log.announced
    && match actor
       case TheCreator =>
         && s'.creator == s.creator && s'.handlers == s.handlers && |s'.children| == |s.children|
         && s'.counter + s'.log.consumed == s.counter + s.log.consumed && s'.log.base == s.log.base
         && s'.log.consumed >= s.log.consumed
       case TheCreationListener =>
         s'.creation == s.creation && s'.log.heard == s.log.heard && |s'.threads| == |s.threads|
       case TheTerminationListener =>
         && s'.termination == s.termination && s'.deceased == s.deceased && s'.log.markedBy == s.log.markedBy
         && s'.log.consumed == s.log.consumed && s'.log.misses == s.log.misses
       case TheMonitor(t) => t < |s.threads| ==> t < |s'.threads| && s'.threads[t] == s.threads[t]
  }

  lemma OthersKeep(cfg: Config, actor: Actor, s: State, a: Action)
    requires Enabled(cfg, s, a) && !ActsFor(a, actor) && !a.StartThreads?
    ensures Kept(actor, s, Apply(cfg, s, a))
  {
    hide Kept, CreatorStep, LaunchStep, TerminationStep, CreationStep, AnnounceStep, ReportStep, EndStep, ReapStep,
      WorkerReportStep, MonitorStep, CanLaunch, CanCreate, CanReport, CanListen, CanMonitor;
    match a
    case StartThreads =>
    case Launch(pid) => LaunchKeeps(cfg, actor, s, pid);
    case Creator => CreatorKeeps(cfg, actor, s);
    case Announce(i, delivered, duration) => AnnounceKeeps(actor, s, i, delivered, duration);
    case Report(i, delivered, duration, exitCode) =>
      CanReportChild(cfg, s, i);
      ReportKeeps(actor, s, i, delivered, duration, exitCode);
    case End(i, status) => EndKeeps(actor, s, i, status);
    case WorkerReap(i) => ReapKeeps(actor, s, i);
    case WorkerReport(i, delivered, duration, exitCode) => WorkerKeeps(actor, s, i, delivered, duration, exitCode);
    case CreationListener(quit) => CreationListenerKeeps(actor, s, quit);
    case TerminationListener(quit) => TerminationListenerKeeps(actor, s, quit);
    case Monitor(t, alive, delivered, exitCode) =>
      MonitorCanStep(s, t, alive);
      MonitorKeeps(actor, s, t, alive, delivered, exitCode);
    case _ => FlagsKeep(actor, s, Apply(cfg, s, a).flags);
  }

  lemma CanReportChild(cfg: Config, s: State, i: nat)
    requires CanReport(cfg.system, s, i)
    ensures i < |s.children|
  {
  }

  lemma LaunchKeeps(cfg: Config, actor: Actor, s: State, pid: int)
    requires CanLaunch(cfg, s, pid) && actor != TheCreator
    ensures s.creator.CLaunch? && Kept(actor, s, LaunchStep(cfg, s, pid))
  {
    hide FindUnreaped;
  }

  lemma CreatorKeeps(cfg: Config, actor: Actor, s: State)
    requires actor != TheCreator
    ensures Kept(actor, s, CreatorStep(cfg, s))
  {
    hide CreatorMove;
  }

  lemma AnnounceKeeps(actor: Actor, s: State, i: nat, delivered: bool, duration: string)
    requires i < |s.children|
    ensures Kept(actor, s, AnnounceStep(s, i, delivered, duration))
  {
    hide Payload;
  }

  lemma ReportKeeps(actor: Actor, s: State, i: nat, delivered: bool, duration: string, exitCode: int)
    requires i < |s.children|
    ensures Kept(actor, s, ReportStep(s, i, delivered, duration, exitCode))
  {
    hide Payload;
  }

  lemma EndKeeps(actor: Actor, s: State, i: nat, status: WaitStatus)
    requires i < |s.children|
    ensures Kept(actor, s, EndStep(s, i, status))
  {
  }

  lemma ReapKeeps(actor: Actor, s: State, i: nat)
    requires i < |s.children| && s.children[i].life.Zombie?
    ensures Kept(actor, s, ReapStep(s, i, Reporting))
  {
  }

  lemma WorkerKeeps(actor: Actor, s: State, i: nat, delivered: bool, duration: string, exitCode: int)
    requires i < |s.children|
    ensures Kept(actor, s, WorkerReportStep(s, i, delivered, duration, exitCode))
  {
    hide Payload;
  }

  lemma CreationListenerKeeps(actor: Actor, s: State, quit: bool)
    requires actor != TheCreationListener
    ensures Kept(actor, s, CreationStep(s, quit))
  {
    hide CreationMove, Taken, Remaining;
  }

  lemma TerminationListenerKeeps(actor: Actor, s: State, quit: bool)
    requires actor != TheTerminationListener
    ensures Kept(actor, s, TerminationStep(s, quit))
  {
    hide TerminationMove, Misses, DecodePid, Taken, Remaining;
  }

  lemma FlagsKeep(actor: Actor, s: State, flags: Flags)
    requires flags.started == s.flags.started && (flags.running ==> s.flags.running)
    ensures Kept(actor, s, s.(flags := flags))
  {
  }

  lemma MonitorKeeps(actor: Actor, s: State, t: nat, alive: bool, delivered: bool, exitCode: int)
    requires t < |s.threads| && s.threads[t].owner < |s.children| && actor != TheMonitor(t)
    requires s.threads[t].pc.MReport? ==> s.threads[t].pc.child < |s.children|
    ensures Kept(actor, s, MonitorStep(s, t, alive, delivered, exitCode))
  {
    hide MonitorMove, Payload, FindUnreaped, Collectable;
  }

  lemma KeptTwice(actor: Actor, s: State, s': State, s'': State)
    requires Kept(actor, s, s') && Kept(actor, s', s'')
    ensures Kept(actor, s, s'')
  {
  }

  lemma EvolvesTwice(a: seq<Child>, b: seq<Child>, c: seq<Child>)
    requires Evolves(a, b) && Evolves(b, c)
    ensures Evolves(a, c)
  {
  }

  lemma KeptNone(actor: Actor, s: State)
    ensures Kept(actor, s, s) && Evolves(s.children, s.children)
  {
  }

  // ---------- the children ----------

  /** Steps of child i's own code, and of the worker thread that spawned it. */
  predicate ChildActs(a: Action, i: nat) {
    (a.Announce? || a.Report? || a.WorkerReap? || a.WorkerReport?) && a.child == i
  }

  /** A child goes on as it was unless it is killed. */
  predicate Carries(before: Child, after: Child) {
    && after.pid == before.pid && after.worker == before.worker && after.selfSent == before.selfSent
    && (after.life == before.life || Over(after.life))
  }

  lemma OthersCarry(cfg: Config, s: State, i: nat, a: Action)
    requires i < |s.children| && Enabled(cfg, s, a) && !ChildActs(a, i)
    ensures i < |Apply(cfg, s, a).children| && Carries(s.children[i], Apply(cfg, s, a).children[i])
  {
    hide Apply;
    ChangeIsRight(cfg, s, a);
    ChangeCarries(cfg, s, i, a);
  }

  lemma ChangeCarries(cfg: Config, s: State, i: nat, a: Action)
    requires i < |s.children| && Enabled(cfg, s, a) && !ChildActs(a, i)
    ensures var change := ChangeOf(cfg, s, a);
      change.Replaced? && change.i == i ==> Carries(s.children[i], change.c)
  {
    hide CanLaunch, CanListen, FindUnreaped;
  }

  /** No message is ever struck from the record. */
  lemma LogsGrow(cfg: Config, s: State, a: Action)
    requires Enabled(cfg, s, a)
    ensures s.log.sent <= Apply(cfg, s, a).log.sent && s.log.announced <= Apply(cfg, s, a).log.announced
  {
    hide CanLaunch, CanCreate, CanReport, CanListen, CanMonitor;
    if !a.StartThreads? {
      OthersKeep(cfg, if a.Creator? || a.Launch? then TheCreationListener else TheCreator, s, a);
    }
  }
}

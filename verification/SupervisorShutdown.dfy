/** Theorems about a run after `running` has become false. */
module SupervisorShutdown {
  import opened Messages
  import opened TypedQueue
  import opened Supervisor
  import opened SupervisorInvariant
  import opened SupervisorCapacity
  import opened SupervisorFrames
  import opened SupervisorRegistry

  /** No step ever sets `running` again, and threads once started stay started. */
  lemma StoppedStaysStopped(cfg: Config, s: State, a: Action)
    requires Enabled(cfg, s, a)
    ensures !s.flags.running ==> !Apply(cfg, s, a).flags.running
    ensures s.flags.started ==> Apply(cfg, s, a).flags.started
  {
    hide Payload, DecodePid, CanMonitor, FindUnreaped, Collectable, CreationMove, TerminationMove, MonitorMove,
      CreatorMove, Misses;
    if a.Monitor? {
      MonitorCanStep(s, a.thread, a.alive);
    }
  }

  /** Over any run: what was shut down stays shut down. */
  lemma {:induction false} RunStaysStopped(cfg: Config, s: State, run: seq<Action>)
    requires Legal(cfg, s, run)
    ensures !s.flags.running ==> !Exec(cfg, s, run).flags.running
    ensures s.flags.started ==> Exec(cfg, s, run).flags.started
    decreases |run|
  {
    if run == [] {
    } else {
      StoppedStaysStopped(cfg, s, run[0]);
      RunStaysStopped(cfg, Apply(cfg, s, run[0]), run[1..]);
    }
  }

  // ---------- how many children are still launched ----------

  function Ceiling(cfg: Config, s: State): nat {
    Clamp(cfg.limit) + Total(Doubled, s.children)
  }

  /** With n children at shutdown: a batch under way is at most Ceiling long, and no second one follows. */
  predicate LastBatch(cfg: Config, n: nat, s: State) {
    match s.creator
    case CRespawn => |s.children| <= n
    case CGuard => |s.children| <= n
    case CRead => |s.children| <= n
    case _ => |s.children| + Owed(s) <= n + Ceiling(cfg, s)
  }

  lemma LastBatchStep(cfg: Config, n: nat, s: State, a: Action)
    requires Inv(cfg, s) && !s.flags.running && LastBatch(cfg, n, s) && Enabled(cfg, s, a)
    ensures LastBatch(cfg, n, Apply(cfg, s, a))
  {
    hide Inv, LastBatch;
    StepEvolves(cfg, s, a);
    CountingPart(cfg, s);
    if a.Creator? {
      CounterLawOfInv(cfg, s);
      CreatorLastBatch(cfg, n, s);
    } else {
      CreatorUntouched(cfg, s, a);
      OthersLastBatch(cfg, n, s, Apply(cfg, s, a));
    }
  }

  /** A launch pays for the child it adds, and doubled reports only raise the ceiling. */
  lemma OthersLastBatch(cfg: Config, n: nat, s: State, s': State)
    requires LastBatch(cfg, n, s) && Total(Doubled, s.children) <= Total(Doubled, s'.children)
    requires || (s'.creator == s.creator && |s'.children| == |s.children|)
             || (s.creator.CWaiting? && s'.creator == CHead && |s'.children| == |s.children|)
             || (s.creator.CLaunch? && s.creator.left > 0 && s'.creator == CCount(s.creator.left)
                 && |s'.children| == |s.children| + 1)
    ensures LastBatch(cfg, n, s')
  {
  }

  lemma CreatorLastBatch(cfg: Config, n: nat, s: State)
    requires !s.flags.running && LastBatch(cfg, n, s) && CanCreate(s)
    requires s.creator.CRead? ==> cfg.limit - s.counter <= Ceiling(cfg, s)
    ensures LastBatch(cfg, n, CreatorStep(cfg, s))
  {
  }

  /** Only a launch, the start of the threads and the creator itself move the creator. */
  lemma CreatorUntouched(cfg: Config, s: State, a: Action)
    requires Enabled(cfg, s, a) && !a.Creator?
    ensures var s' := Apply(cfg, s, a);
      if a.Launch? then s.creator.CLaunch? && s.creator.left > 0 && s'.creator == CCount(s.creator.left)
                        && |s'.children| == |s.children| + 1
      else if a.StartThreads? then s.creator.CWaiting? && s'.creator == CHead && |s'.children| == |s.children|
      else s'.creator == s.creator && |s'.children| == |s.children|
  {
    if !a.Launch? && !a.StartThreads? {
      OthersKeep(cfg, TheCreator, s, a);
    }
  }

  lemma {:induction false} LastBatchRun(cfg: Config, n: nat, s: State, run: seq<Action>)
    requires Inv(cfg, s) && !s.flags.running && LastBatch(cfg, n, s) && Legal(cfg, s, run)
    ensures LastBatch(cfg, n, Exec(cfg, s, run)) && Inv(cfg, Exec(cfg, s, run))
    decreases |run|
  {
    hide Inv, LastBatch;
    if run == [] {
    } else {
      StepInv(cfg, s, run[0]);
      LastBatchStep(cfg, n, s, run[0]);
      StoppedStaysStopped(cfg, s, run[0]);
      LastBatchRun(cfg, n, Apply(cfg, s, run[0]), run[1..]);
    }
  }

  /** Once `running` is false, at most numProcesses further children are launched, plus one for every child that was
      reported twice: the rest of one batch. */
  lemma LaunchesAfterShutdown(cfg: Config, s: State, run: seq<Action>)
    requires Reachable(cfg, s) && !s.flags.running && Legal(cfg, s, run)
    ensures |Exec(cfg, s, run).children|
         <= |s.children| + Clamp(cfg.limit) + Total(Doubled, Exec(cfg, s, run).children)
  {
    ReachableInv(cfg, s);
    Capacity(cfg, s);
    LastBatchRun(cfg, |s.children|, s, run);
  }

  // ---------- every thread leaves its loop ----------

  predicate IsDone(s: State, actor: Actor) {
    match actor
    case TheCreator => s.creator.CDone?
    case TheCreationListener => s.creation.KDone?
    case TheTerminationListener => s.termination.TDone?
    case TheMonitor(t) => t < |s.threads| && s.threads[t].pc.MDone?
  }

  /** The termination listener may still lower counter_ once: it has passed its last test of `running`. */
  function MayCount(pc: TerminationPc): nat { if pc.TPollReceive? || pc.TGot? then 1 else 0 }

  function CreatorRank(cfg: Config, s: State): nat {
    var batch := 3 * Clamp(cfg.limit - s.counter + MayCount(s.termination));
    match s.creator
    case CDone => 0
    case CHead => 1
    case CRunning => 2
    case CPaused => 3
    case CLaunch(left) => 3 * left + 2
    case CCount(left) => 3 * Clamp(left - 1) + 4
    case CRegister(left) => 3 * left + 3
    case CRead => batch + 3
    case CGuard => batch + 4
    case CRespawn => batch + 5
    case CWaiting => 0
  }

  function CreationRank(pc: CreationPc): nat {
    match pc
    case KDone => 0
    case KHead => 1
    case KPollHead => 2
    case KSpawn(_) => 2
    case KRetest(_) => 3
    case KTest(_) => 4
    case KGot(_) => 5
    case KPollReceive => 6
    case KIdle => 0
  }

  const SPIN_TURNS: nat := SPIN_LIMIT_MS / NAP_MS

  function TerminationRank(pc: TerminationPc): nat {
    match pc
    case TDone => 0
    case THead => 1
    case TPollHead => 2
    case TMark(_) => 2
    case TRecheck(_, _) => 3
    case TSpin(_, _, polls) => 4 + Clamp(SPIN_TURNS - polls)
    case TClear(_, _) => 5 + SPIN_TURNS
    case TTest(_, _) => 6 + SPIN_TURNS
    case TLookup(_) => 7 + SPIN_TURNS
    case TGot(_) => 8 + SPIN_TURNS
    case TPollReceive => 9 + SPIN_TURNS
    case TIdle => 0
  }

  function MonitorRank(pc: MonitorPc): nat {
    match pc
    case MDone => 0
    case MStop => 1
    case MHead => 2
    case MReport(_) => 2
    case MStart => 3
    case MWait => 3
    case MProbe => 4
    case MPaused => 5
    case MFlag => 6
  }

  /** A bound on the steps the actor still takes; a thread yet to be spawned has all of its steps before it. */
  function Rank(cfg: Config, s: State, actor: Actor): nat {
    match actor
    case TheCreator => CreatorRank(cfg, s)
    case TheCreationListener => CreationRank(s.creation)
    case TheTerminationListener => TerminationRank(s.termination)
    case TheMonitor(t) => if t < |s.threads| then MonitorRank(s.threads[t].pc) else MonitorRank(MStart)
  }

  lemma RankZeroIsDone(cfg: Config, s: State, actor: Actor)
    requires Inv(cfg, s) && s.flags.started
    ensures Rank(cfg, s, actor) == 0 <==> IsDone(s, actor)
  {
    CountingPart(cfg, s);
  }

  function Own(a: Action, actor: Actor): nat { if ActsFor(a, actor) then 1 else 0 }

  lemma RankFalls(cfg: Config, s: State, a: Action, actor: Actor)
    requires Inv(cfg, s) && s.flags.started && !s.flags.running && Enabled(cfg, s, a)
    ensures Rank(cfg, Apply(cfg, s, a), actor) + Own(a, actor) <= Rank(cfg, s, actor)
  {
    hide Inv;
    CountingPart(cfg, s);
    match actor
    case TheCreator => CreatorRankFalls(cfg, s, a);
    case TheCreationListener => CreationRankFalls(cfg, s, a);
    case TheTerminationListener => TerminationRankFalls(cfg, s, a);
    case TheMonitor(t) => MonitorRankFalls(cfg, s, a, t);
  }

  lemma CreatorRankFalls(cfg: Config, s: State, a: Action)
    requires CreatorOk(cfg, s) && s.flags.started && !s.flags.running && Enabled(cfg, s, a)
    ensures CreatorRank(cfg, Apply(cfg, s, a)) + Own(a, TheCreator) <= CreatorRank(cfg, s)
  {
    assert !a.StartThreads?;
    if a.Creator? {
      CreatorStepRank(cfg, s);
    } else {
      CreatorUntouched(cfg, s, a);
      CounterFalls(cfg, s, a);
    }
  }

  lemma CreatorStepRank(cfg: Config, s: State)
    requires !s.flags.running && CanCreate(s) && s.flags.started && (s.creator.CCount? ==> s.creator.left > 0)
    ensures CreatorRank(cfg, CreatorStep(cfg, s)) + 1 <= CreatorRank(cfg, s)
  {
  }

  /** What others can still do to the size of a batch is already in MayCount. */
  lemma CounterFalls(cfg: Config, s: State, a: Action)
    requires Enabled(cfg, s, a) && !a.Creator? && !a.StartThreads? && !s.flags.running
    ensures var s' := Apply(cfg, s, a);
      s.counter - MayCount(s.termination) <= s'.counter - MayCount(s'.termination)
  {
    hide Payload, DecodePid, CanMonitor, FindUnreaped, Collectable, CreationMove, MonitorMove, CreatorMove, Misses;
    if a.Monitor? {
      MonitorCanStep(s, a.thread, a.alive);
    }
  }

  lemma CreationRankFalls(cfg: Config, s: State, a: Action)
    requires s.flags.started && !s.flags.running && Enabled(cfg, s, a)
    ensures CreationRank(Apply(cfg, s, a).creation) + Own(a, TheCreationListener) <= CreationRank(s.creation)
  {
    if a.CreationListener? {
      CreationStepRank(s, a.quit);
    } else {
      OthersKeep(cfg, TheCreationListener, s, a);
    }
  }

  lemma CreationStepRank(s: State, quit: bool)
    requires !s.flags.running && !s.creation.KIdle? && !s.creation.KDone?
    ensures CreationRank(CreationStep(s, quit).creation) + 1 <= CreationRank(s.creation)
  {
    hide DecodePid, Taken, Remaining;
  }

  lemma TerminationRankFalls(cfg: Config, s: State, a: Action)
    requires s.flags.started && !s.flags.running && Enabled(cfg, s, a)
    ensures TerminationRank(Apply(cfg, s, a).termination) + Own(a, TheTerminationListener)
         <= TerminationRank(s.termination)
  {
    if a.TerminationListener? {
      TerminationStepRank(s, a.quit);
    } else {
      OthersKeep(cfg, TheTerminationListener, s, a);
    }
  }

  lemma TerminationStepRank(s: State, quit: bool)
    requires !s.flags.running && CanListen(s, quit)
    ensures TerminationRank(TerminationStep(s, quit).termination) + 1 <= TerminationRank(s.termination)
  {
    hide DecodePid, Taken, Remaining;
  }

  lemma MonitorRankFalls(cfg: Config, s: State, a: Action, t: nat)
    requires s.flags.started && !s.flags.running && Enabled(cfg, s, a)
    ensures Rank(cfg, Apply(cfg, s, a), TheMonitor(t)) + Own(a, TheMonitor(t)) <= Rank(cfg, s, TheMonitor(t))
  {
    hide Payload, DecodePid, CanMonitor, FindUnreaped, Collectable, CreationMove, TerminationMove, CreatorMove, Misses,
      MonitorStep;
    if a.Monitor? {
      MonitorCanStep(s, a.thread, a.alive);
      MonitorStepRank(s, a.thread, a.alive, a.delivered, a.exitCode);
    }
  }

  lemma MonitorStepRank(s: State, t: nat, alive: bool, delivered: bool, exitCode: int)
    requires t < |s.threads| && s.threads[t].owner < |s.children| && !s.threads[t].pc.MDone? && !s.flags.running
    requires s.threads[t].pc.MReport? ==> s.threads[t].pc.child < |s.children|
    ensures exists pc ::
      MonitorStep(s, t, alive, delivered, exitCode).threads == s.threads[t := s.threads[t].(pc := pc)] &&
      MonitorRank(pc) + 1 <= MonitorRank(s.threads[t].pc)
  {
    hide Payload, FindUnreaped, Collectable;
  }

  function OwnSteps(run: seq<Action>, actor: Actor): nat {
    if run == [] then 0 else Own(run[0], actor) + OwnSteps(run[1..], actor)
  }

  lemma {:induction false} RankBoundsOwnSteps(cfg: Config, s: State, run: seq<Action>, actor: Actor)
    requires Inv(cfg, s) && s.flags.started && !s.flags.running && Legal(cfg, s, run)
    ensures OwnSteps(run, actor) + Rank(cfg, Exec(cfg, s, run), actor) <= Rank(cfg, s, actor)
    decreases |run|
  {
    hide Inv, Rank, ActsFor;
    if run == [] {
    } else {
      StepInv(cfg, s, run[0]);
      StoppedStaysStopped(cfg, s, run[0]);
      RankFalls(cfg, s, run[0], actor);
      RankBoundsOwnSteps(cfg, Apply(cfg, s, run[0]), run[1..], actor);
    }
  }

  /** After shutdown, however the run goes on, the creator, both listeners and every monitor thread take at most
      Rank further steps each; an actor that has taken them all has left its loop. */
  lemma EveryLoopEnds(cfg: Config, s: State, run: seq<Action>, actor: Actor)
    requires Reachable(cfg, s) && s.flags.started && !s.flags.running && Legal(cfg, s, run)
    ensures OwnSteps(run, actor) <= Rank(cfg, s, actor)
    ensures OwnSteps(run, actor) == Rank(cfg, s, actor) ==> IsDone(Exec(cfg, s, run), actor)
  {
    ReachableInv(cfg, s);
    RankBoundsOwnSteps(cfg, s, run, actor);
    RunInv(cfg, s, run);
    RunStaysStopped(cfg, s, run);
    RankZeroIsDone(cfg, Exec(cfg, s, run), actor);
  }

  /** A step the actor can take now: nothing in the protocol makes an unfinished thread wait for another. The one
      exception is the creator in front of fork, which needs a pid from the kernel. */
  function NextStep(s: State, actor: Actor): Action {
    match actor
    case TheCreator => Creator
    case TheCreationListener => CreationListener(false)
    case TheTerminationListener => TerminationListener(true)
    case TheMonitor(t) => Monitor(t, true, false, 0)
  }

  lemma NobodyIsStuck(cfg: Config, s: State, actor: Actor)
    requires Reachable(cfg, s) && s.flags.started && !IsDone(s, actor)
    requires actor.TheMonitor? ==> actor.thread < |s.threads|
    requires actor.TheCreator? && s.creator.CLaunch? ==> s.creator.left == 0
    ensures Enabled(cfg, s, NextStep(s, actor)) && ActsFor(NextStep(s, actor), actor)
  {
    ReachableInv(cfg, s);
    CountingPart(cfg, s);
    if actor.TheMonitor? {
      ThreadsAreEarned(cfg, s, actor.thread);
      if s.threads[actor.thread].pc.MReport? {
        OwedByOne(cfg, s, actor.thread);
      }
    }
  }

  // ---------- fair schedules ----------

  /** A schedule cut into rounds, in each of which the actor takes a step unless it has left its loop. */
  predicate FairFor(cfg: Config, s: State, rounds: seq<seq<Action>>, actor: Actor)
    decreases |rounds|
  {
    rounds == [] ||
    (Legal(cfg, s, rounds[0]) && (IsDone(s, actor) || OwnSteps(rounds[0], actor) > 0)
     && FairFor(cfg, Exec(cfg, s, rounds[0]), rounds[1..], actor))
  }

  function AfterRounds(cfg: Config, s: State, rounds: seq<seq<Action>>, actor: Actor): State
    requires FairFor(cfg, s, rounds, actor)
    decreases |rounds|
  {
    if rounds == [] then s else AfterRounds(cfg, Exec(cfg, s, rounds[0]), rounds[1..], actor)
  }

  lemma {:induction false} FairRoundsUseUpRank(cfg: Config, s: State, rounds: seq<seq<Action>>, actor: Actor)
    requires Inv(cfg, s) && s.flags.started && !s.flags.running && FairFor(cfg, s, rounds, actor)
    ensures var s' := AfterRounds(cfg, s, rounds, actor);
      Inv(cfg, s') && s'.flags.started && Rank(cfg, s', actor) <= Clamp(Rank(cfg, s, actor) - |rounds|)
    decreases |rounds|
  {
    hide Inv, Rank, IsDone, OwnSteps, Legal, Exec;
    if rounds == [] {
    } else {
      var next := Exec(cfg, s, rounds[0]);
      RunInv(cfg, s, rounds[0]);
      RunStaysStopped(cfg, s, rounds[0]);
      RankBoundsOwnSteps(cfg, s, rounds[0], actor);
      RankZeroIsDone(cfg, s, actor);
      FairRoundsUseUpRank(cfg, next, rounds[1..], actor);
    }
  }

  /** Under any fair schedule every thread leaves its loop after shutdown, within as many rounds as its rank. */
  lemma FairShutdown(cfg: Config, s: State, rounds: seq<seq<Action>>, actor: Actor)
    requires Reachable(cfg, s) && s.flags.started && !s.flags.running && FairFor(cfg, s, rounds, actor)
    requires |rounds| >= Rank(cfg, s, actor)
    ensures IsDone(AfterRounds(cfg, s, rounds, actor), actor)
  {
    ReachableInv(cfg, s);
    FairRoundsUseUpRank(cfg, s, rounds, actor);
    RankZeroIsDone(cfg, AfterRounds(cfg, s, rounds, actor), actor);
  }
}

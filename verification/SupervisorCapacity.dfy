/** Theorems about counter_ and the number of children, in every reachable state of every interleaving. */
module SupervisorCapacity {
  import opened Messages
  import opened TypedQueue
  import opened Supervisor
  import opened SupervisorInvariant

  ghost predicate Reachable(cfg: Config, s: State) {
    exists run :: Legal(cfg, Init(cfg), run) && Exec(cfg, Init(cfg), run) == s
  }

  lemma ReachableInv(cfg: Config, s: State)
    requires Reachable(cfg, s)
    ensures Inv(cfg, s)
  {
    var run :| Legal(cfg, Init(cfg), run) && Exec(cfg, Init(cfg), run) == s;
    InitInv(cfg);
    RunInv(cfg, Init(cfg), run);
  }

  /** Termination messages that are queued or in the listener's hands, not yet counted. */
  function Pending(s: State): nat {
    |Backlog(s.queue, TERMINATION_MSG)| + Held(s)
  }

  /** Every child is either unfinished or finished, and finished ones have reported 0, 1 or 2 times. */
  lemma {:induction false} ChildrenSplit(cfg: Config, children: seq<Child>)
    requires forall i :: 0 <= i < |children| ==> ChildOk(cfg, children[i])
    ensures |children| == Total(Unfinished, children) + Total(Reports, children)
                          + Total(Unreported, children) - Total(Doubled, children)
    ensures Total(Doubled, children) <= Total(LateKills, children)
  {
    if children == [] {
    } else {
      ChildrenSplit(cfg, children[..|children| - 1]);
      assert ChildOk(cfg, children[|children| - 1]);
    }
  }

  /** The exact law of counter_: with the launch that is still to be counted, it is the number of unfinished
      children, plus the finished ones nobody has reported, plus the reports not yet counted, less the children
      reported twice. */
  lemma CounterLaw(cfg: Config, s: State)
    requires Reachable(cfg, s)
    ensures s.counter + InFlight(s) == Total(Unfinished, s.children) + Total(Unreported, s.children) + Pending(s)
                                       - Total(Doubled, s.children)
    ensures Total(Doubled, s.children) <= Total(LateKills, s.children)
  {
    ReachableInv(cfg, s);
    CounterLawOfInv(cfg, s);
  }

  lemma CounterLawOfInv(cfg: Config, s: State)
    requires Inv(cfg, s)
    ensures s.counter + InFlight(s) == Total(Unfinished, s.children) + Total(Unreported, s.children) + Pending(s)
                                       - Total(Doubled, s.children)
    ensures Total(Doubled, s.children) <= Total(LateKills, s.children)
  {
    hide AnnouncedOk, CreationOk, RegistryOk, MarksOk, ThreadsOk, ReportersOk;
    Unpack(cfg, s);
    ChildrenSplit(cfg, s.children);
  }

  /** Launches the running batch still owes. */
  function Owed(s: State): nat {
    match s.creator
    case CLaunch(left) => left
    case CCount(left) => Clamp(left - 1)
    case CRegister(left) => left
    case _ => 0
  }

  /** Capacity: the children that have not finished, with those the batch will still launch, exceed numProcesses
      by at most the number of children that were reported twice. */
  lemma Capacity(cfg: Config, s: State)
    requires Reachable(cfg, s)
    ensures Total(Unfinished, s.children) + Owed(s) <= Clamp(cfg.limit) + Total(Doubled, s.children)
    ensures Total(Doubled, s.children) <= Total(LateKills, s.children)
  {
    ReachableInv(cfg, s);
    CounterLaw(cfg, s);
    CountingPart(cfg, s);
  }

  lemma CountingPart(cfg: Config, s: State)
    requires Inv(cfg, s)
    ensures CreatorOk(cfg, s) && s.log.consumed <= |s.log.sent|
  {
    Unpack(cfg, s);
  }

  /** Bounds of counter_, and the size of every batch although the counter is read twice: the guard's load and the
      subtraction's read. A value below the doubled reports shows only between a launch and its ++counter_. */
  lemma CounterBounds(cfg: Config, s: State)
    requires Reachable(cfg, s)
    ensures 0 <= s.counter + InFlight(s) + Total(Doubled, s.children) && s.counter <= Clamp(cfg.limit)
    ensures s.creator.CRead? ==> 1 <= cfg.limit - s.counter <= cfg.limit + Total(Doubled, s.children)
  {
    ReachableInv(cfg, s);
    CounterLaw(cfg, s);
    CountingPart(cfg, s);
  }

  /** A finished batch leaves counter_ at numProcesses less the messages counted since its second read. */
  lemma BatchRestoresCount(cfg: Config, s: State)
    requires Reachable(cfg, s)
    requires s.creator == CLaunch(0)
    ensures s.counter == Clamp(cfg.limit) - (s.log.consumed - s.log.base)
    ensures s.log.consumed >= s.log.base
  {
    ReachableInv(cfg, s);
    CountingPart(cfg, s);
  }

  lemma {:induction false} AliveSplit(children: seq<Child>)
    ensures Total(Alive, children) == Total(Unfinished, children) + Total(Departing, children)
  {
    if children == [] {
    } else {
      AliveSplit(children[..|children| - 1]);
    }
  }

  /** Quiescence: every finished child has been reported exactly once, nothing is pending and no launch is in
      flight. Then counter_ is the number of unfinished children, whatever happened before: the processes that are
      still there, less those that have only _exit left. */
  lemma QuiescentCounterIsAccurate(cfg: Config, s: State)
    requires Reachable(cfg, s)
    requires !s.creator.CCount? && Pending(s) == 0
    requires forall i :: 0 <= i < |s.children| && Weight(Unfinished, s.children[i]) == 0
               ==> Weight(Reports, s.children[i]) == 1
    ensures s.counter == Total(Unfinished, s.children)
    ensures s.counter == Total(Alive, s.children) - Total(Departing, s.children)
  {
    AliveSplit(s.children);
    CounterLaw(cfg, s);
    ReachableInv(cfg, s);
    ChildrenAreOk(cfg, s);
    TotalZero(Unreported, s.children);
    TotalZero(Doubled, s.children);
  }

  lemma ChildrenAreOk(cfg: Config, s: State)
    requires Inv(cfg, s)
    ensures forall i :: 0 <= i < |s.children| ==> ChildOk(cfg, s.children[i])
  {
    Unpack(cfg, s);
  }

  lemma {:induction false} WeightInTotal(tally: Tally, children: seq<Child>, i: nat)
    requires i < |children|
    ensures Weight(tally, children[i]) <= Total(tally, children)
  {
    if i == |children| - 1 {
    } else {
      WeightInTotal(tally, children[..|children| - 1], i);
    }
  }

  lemma {:induction false} TotalZero(tally: Tally, children: seq<Child>)
    requires forall i :: 0 <= i < |children| ==> Weight(tally, children[i]) == 0
    ensures Total(tally, children) == 0
  {
    if children == [] {
    } else {
      TotalZero(tally, children[..|children| - 1]);
    }
  }

  /** Two termination messages about one child: only if it was killed between its own send and _exit. Two parties
      can report a child, and then one message is its own and the other its reaper's. */
  lemma AtMostOneReport(cfg: Config, s: State, k: nat, l: nat)
    requires Reachable(cfg, s)
    requires k < l < |s.log.sent| && s.log.sent[k].from == s.log.sent[l].from
    ensures s.log.sent[k].from < |s.children| && s.children[s.log.sent[k].from].lateKill
    ensures s.log.sent[k].sender != s.log.sent[l].sender
  {
    ReachableInv(cfg, s);
    SentPart(cfg, s, k);
    SentPart(cfg, s, l);
    ChildrenAreOk(cfg, s);
    SentDistinct(cfg, s, k, l);
  }

  lemma SentPart(cfg: Config, s: State, k: nat)
    requires Inv(cfg, s) && k < |s.log.sent|
    ensures s.log.sent[k].from < |s.children| && Flagged(s.children[s.log.sent[k].from], s.log.sent[k].sender)
  {
    hide ChildrenOk, CreatorOk, TerminationOk, AnnouncedOk, CreationOk, RegistryOk, MarksOk, ThreadsOk, ReportersOk;
    Unpack(cfg, s);
  }

  lemma SentDistinct(cfg: Config, s: State, k: nat, l: nat)
    requires Inv(cfg, s) && k < l < |s.log.sent|
    ensures s.log.sent[k].from != s.log.sent[l].from || s.log.sent[k].sender != s.log.sent[l].sender
  {
    hide ChildrenOk, CreatorOk, TerminationOk, AnnouncedOk, CreationOk, RegistryOk, MarksOk, ThreadsOk, ReportersOk;
    Unpack(cfg, s);
  }

  // ---------- runs without late kills ----------

  /** A step that kills a child between its own termination message and _exit. */
  predicate IsLateKill(s: State, a: Action) {
    a.End? && a.child < |s.children| && s.children[a.child].life.Leaving? && Abnormal(Zombie(a.status))
  }

  /** How many steps of a run are late kills. */
  function CountLateKills(cfg: Config, s: State, run: seq<Action>): nat
    requires Legal(cfg, s, run)
    decreases |run|
  {
    if run == [] then 0
    else (if IsLateKill(s, run[0]) then 1 else 0) + CountLateKills(cfg, Apply(cfg, s, run[0]), run[1..])
  }

  /** What a step does to the children: nothing, one more, or one replaced. */
  datatype Change = Same | Grown(c: Child) | Replaced(i: nat, c: Child)

  function MonitorChange(s: State, t: nat, delivered: bool): Change
    requires t < |s.threads| && s.threads[t].owner < |s.children|
    requires s.threads[t].pc.MReport? ==> s.threads[t].pc.child < |s.children|
  {
    var h := s.threads[t].owner;
    match s.threads[t].pc
    case MStart => Replaced(h, s.children[h].(monitoring := true))
    case MStop => Replaced(h, s.children[h].(monitoring := false))
    case MWait =>
      var found := Collectable(s, t);
      if found.None? then Same
      else Replaced(found.value, s.children[found.value].(life := Reaped(s.children[found.value].life.status)))
    case MReport(i) => if delivered then Replaced(i, s.children[i].(reaperSent := true)) else Same
    case _ => Same
  }

  function ChangeOf(cfg: Config, s: State, a: Action): Change
    requires Enabled(cfg, s, a)
  {
    match a
    case Launch(pid) => Grown(NewChild(pid, cfg.system))
    case Announce(i, _, _) => Replaced(i, s.children[i].(life := Working))
    case Report(i, delivered, _, _) => Replaced(i, s.children[i].(life := Leaving, selfSent := delivered))
    case End(i, status) =>
      Replaced(i, s.children[i].(life := Zombie(status), lateKill := IsLateKill(s, a)))
    case WorkerReap(i) =>
      Replaced(i, s.children[i].(life := Reaped(s.children[i].life.status), worker := Reporting))
    case WorkerReport(i, delivered, _, _) =>
      Replaced(i, s.children[i].(worker := Gone, reaperSent := s.children[i].reaperSent || delivered))
    case TerminationListener(_) =>
      if s.termination.TClear? && s.termination.handler < |s.children|
      then Replaced(s.termination.handler, s.children[s.termination.handler].(monitoring := false)) else Same
    case Monitor(t, _, delivered, _) => MonitorChange(s, t, delivered)
    case _ => Same
  }

  function Changed(children: seq<Child>, change: Change): seq<Child> {
    match change
    case Same => children
    case Grown(c) => children + [c]
    case Replaced(i, c) => if i < |children| then children[i := c] else children
  }

  lemma ChangeIsRight(cfg: Config, s: State, a: Action)
    requires Enabled(cfg, s, a)
    ensures Apply(cfg, s, a).children == Changed(s.children, ChangeOf(cfg, s, a))
  {
    hide AnnounceStep, ReportStep, WorkerReportStep, CreatorStep, CreationStep, TerminationStep, MonitorStep,
      MonitorChange, DecodePid, Payload, FindUnreaped, CanMonitor, CanListen, CanLaunch;
    match a
    case Creator => CreatorKeeps(cfg, s);
    case Announce(i, delivered, duration) => AnnounceChange(s, i, delivered, duration);
    case Report(i, delivered, duration, exitCode) => ReportChange(s, i, delivered, duration, exitCode);
    case WorkerReport(i, delivered, duration, exitCode) => WorkerReportChange(s, i, delivered, duration, exitCode);
    case CreationListener(quit) => CreationKeeps(s, quit);
    case TerminationListener(quit) => TerminationChange(s, quit);
    case Monitor(t, alive, delivered, exitCode) =>
      MonitorCanStep(s, t, alive);
      MonitorChangeIsRight(s, t, alive, delivered, exitCode);
    case _ =>
  }

  lemma CreatorKeeps(cfg: Config, s: State)
    ensures CreatorStep(cfg, s).children == s.children
  {
    hide CreatorMove;
  }

  lemma CreationKeeps(s: State, quit: bool)
    ensures CreationStep(s, quit).children == s.children
  {
    hide CreationMove;
  }

  lemma AnnounceChange(s: State, i: nat, delivered: bool, duration: string)
    requires i < |s.children|
    ensures AnnounceStep(s, i, delivered, duration).children == s.children[i := s.children[i].(life := Working)]
  {
    hide Payload;
  }

  lemma ReportChange(s: State, i: nat, delivered: bool, duration: string, exitCode: int)
    requires i < |s.children|
    ensures ReportStep(s, i, delivered, duration, exitCode).children
         == s.children[i := s.children[i].(life := Leaving, selfSent := delivered)]
  {
    hide Payload;
  }

  lemma WorkerReportChange(s: State, i: nat, delivered: bool, duration: string, exitCode: int)
    requires i < |s.children|
    ensures WorkerReportStep(s, i, delivered, duration, exitCode).children
         == s.children[i := s.children[i].(worker := Gone, reaperSent := s.children[i].reaperSent || delivered)]
  {
    hide Payload;
  }

  lemma TerminationChange(s: State, quit: bool)
    ensures TerminationStep(s, quit).children ==
      if s.termination.TClear? && s.termination.handler < |s.children|
      then s.children[s.termination.handler := s.children[s.termination.handler].(monitoring := false)]
      else s.children
  {
    hide TerminationMove, DecodePid, Misses;
  }

  lemma MonitorChangeIsRight(s: State, t: nat, alive: bool, delivered: bool, exitCode: int)
    requires t < |s.threads| && s.threads[t].owner < |s.children|
    requires s.threads[t].pc.MReport? ==> s.threads[t].pc.child < |s.children|
    ensures MonitorStep(s, t, alive, delivered, exitCode).children
         == Changed(s.children, MonitorChange(s, t, delivered))
  {
    hide MonitorStep, MonitorChange, FindUnreaped, Collectable, Payload;
    if s.threads[t].pc.MWait? {
      CollectChange(s, t, alive, delivered, exitCode);
    } else if s.threads[t].pc.MReport? {
      MonitorReportChange(s, t, alive, delivered, exitCode);
    } else {
      MonitorFlagChange(s, t, alive, delivered, exitCode);
    }
  }

  lemma CollectChange(s: State, t: nat, alive: bool, delivered: bool, exitCode: int)
    requires t < |s.threads| && s.threads[t].owner < |s.children| && s.threads[t].pc.MWait?
    ensures MonitorStep(s, t, alive, delivered, exitCode).children
         == Changed(s.children, MonitorChange(s, t, delivered))
  {
    hide FindUnreaped, Collectable, MonitorMove, ReaperReport;
  }

  lemma MonitorReportChange(s: State, t: nat, alive: bool, delivered: bool, exitCode: int)
    requires t < |s.threads| && s.threads[t].owner < |s.children|
    requires s.threads[t].pc.MReport? && s.threads[t].pc.child < |s.children|
    ensures MonitorStep(s, t, alive, delivered, exitCode).children
         == Changed(s.children, MonitorChange(s, t, delivered))
  {
    hide FindUnreaped, Collectable, MonitorMove, Payload, ReapStep;
  }

  lemma MonitorFlagChange(s: State, t: nat, alive: bool, delivered: bool, exitCode: int)
    requires t < |s.threads| && s.threads[t].owner < |s.children|
    requires !s.threads[t].pc.MWait? && !s.threads[t].pc.MReport?
    ensures MonitorStep(s, t, alive, delivered, exitCode).children
         == Changed(s.children, MonitorChange(s, t, delivered))
  {
    hide FindUnreaped, Collectable, MonitorMove, ReaperReport, ReapStep;
  }

  lemma MonitorCanStep(s: State, t: nat, alive: bool)
    requires CanMonitor(s, t, alive)
    ensures t < |s.threads| && s.threads[t].owner < |s.children| && !s.threads[t].pc.MDone?
    ensures s.threads[t].pc.MReport? ==> s.threads[t].pc.child < |s.children|
  {
  }

  /** A replaced child keeps its pid, never takes back what it has reported, and never becomes unannounced. */
  predicate ChangeOk(s: State, a: Action, change: Change) {
    match change
    case Same => !IsLateKill(s, a)
    case Grown(c) => !IsLateKill(s, a) && !c.lateKill
    case Replaced(i, c) =>
      && i < |s.children|
      && c.pid == s.children[i].pid
      && (s.children[i].selfSent ==> c.selfSent) && (s.children[i].reaperSent ==> c.reaperSent)
      && (c.life.Starting? ==> s.children[i].life.Starting?)
      && c.lateKill == (s.children[i].lateKill || IsLateKill(s, a))
  }

  lemma ChangeIsOk(cfg: Config, s: State, a: Action)
    requires Inv(cfg, s) && Enabled(cfg, s, a)
    ensures ChangeOk(s, a, ChangeOf(cfg, s, a))
  {
    hide Inv;
    var change := ChangeOf(cfg, s, a);
    if change.Replaced? && change.i < |s.children| {
      ChildIsOk(cfg, s, change.i);
    }
  }

  lemma LateKillStep(cfg: Config, s: State, a: Action)
    requires Inv(cfg, s) && Enabled(cfg, s, a)
    ensures Total(LateKills, Apply(cfg, s, a).children)
         == Total(LateKills, s.children) + if IsLateKill(s, a) then 1 else 0
  {
    hide Inv, Apply, Enabled, ChangeOf;
    ChangeIsRight(cfg, s, a);
    ChangeIsOk(cfg, s, a);
    match ChangeOf(cfg, s, a)
    case Same =>
    case Grown(c) => TotalAppend(LateKills, s.children, c);
    case Replaced(i, c) =>
      TotalUpdate(LateKills, s.children, i, c);
      if IsLateKill(s, a) {
        LateKillOnce(cfg, s, a);
      }
  }

  lemma LateKillOnce(cfg: Config, s: State, a: Action)
    requires Inv(cfg, s) && Enabled(cfg, s, a) && IsLateKill(s, a)
    ensures ChangeOf(cfg, s, a).Replaced? && ChangeOf(cfg, s, a).i == a.child && !s.children[a.child].lateKill
  {
    hide Inv;
    ChildIsOk(cfg, s, a.child);
  }

  lemma {:induction false} LateKillsAreCounted(cfg: Config, s: State, run: seq<Action>)
    requires Inv(cfg, s) && Legal(cfg, s, run)
    ensures Total(LateKills, Exec(cfg, s, run).children)
         == Total(LateKills, s.children) + CountLateKills(cfg, s, run)
    decreases |run|
  {
    if run == [] {
    } else {
      LateKillStep(cfg, s, run[0]);
      StepInv(cfg, s, run[0]);
      LateKillsAreCounted(cfg, Apply(cfg, s, run[0]), run[1..]);
    }
  }

  /** Over any run the overshoot is at most the number of late kills in it; without one, the unfinished children
      never exceed numProcesses. */
  lemma CapacityOfRun(cfg: Config, run: seq<Action>)
    requires Legal(cfg, Init(cfg), run)
    ensures Total(Unfinished, Exec(cfg, Init(cfg), run).children)
         <= Clamp(cfg.limit) + CountLateKills(cfg, Init(cfg), run)
  {
    InitInv(cfg);
    LateKillsAreCounted(cfg, Init(cfg), run);
    assert Total(LateKills, Init(cfg).children) == 0;
    Capacity(cfg, Exec(cfg, Init(cfg), run));
  }
}

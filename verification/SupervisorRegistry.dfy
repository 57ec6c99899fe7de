/** Theorems about the registry and the monitor threads, reused pids included. Where one child's pid must not be
    another's, only that child is concerned. */
module SupervisorRegistry {
  import opened Messages
  import opened Registry
  import opened Supervisor
  import opened SupervisorInvariant
  import opened SupervisorCapacity
  import opened SupervisorFrames

  /** No other child, living or dead, has this child's pid. */
  ghost predicate OwnPid(children: seq<Child>, i: nat)
    requires i < |children|
  {
    forall j :: 0 <= j < |children| && j != i ==> children[j].pid != children[i].pid
  }

  // ---------- deceased processes ----------

  /** Pids reused or not: every deceased pid was named by a counted termination message, about a child with that
      pid which is finished. */
  lemma DeceasedWereReported(cfg: Config, s: State, pid: int)
    requires Reachable(cfg, s) && pid in s.deceased
    ensures exists k :: 0 <= k < s.log.consumed <= |s.log.sent| && s.log.sent[k].from < |s.children|
              && s.children[s.log.sent[k].from].pid == pid
              && Weight(Unfinished, s.children[s.log.sent[k].from]) == 0
  {
    ReachableInv(cfg, s);
    Unpack(cfg, s);
    var k := s.log.markedBy[pid];
    SentPart(cfg, s, k);
    assert ChildOk(cfg, s.children[s.log.sent[k].from]);
  }

  /** A child that is still working is not marked deceased, unless another child has had its pid. */
  lemma WorkingChildIsNotDeceased(cfg: Config, s: State, i: nat)
    requires Reachable(cfg, s) && i < |s.children| && OwnPid(s.children, i)
    requires Weight(Unfinished, s.children[i]) == 1
    ensures s.children[i].pid !in s.deceased
  {
    if s.children[i].pid in s.deceased {
      DeceasedWereReported(cfg, s, s.children[i].pid);
    }
  }

  // ---------- monitor threads ----------

  /** A monitor thread runs on a registered handler, for a creation message that was received, named that
      handler's pid, and was sent by a child which had left its starting phase. */
  lemma ThreadsAreEarned(cfg: Config, s: State, t: nat)
    requires Reachable(cfg, s) && t < |s.threads|
    ensures var thread := s.threads[t];
      && thread.owner < |s.children|
      && s.children[thread.owner].pid in s.handlers
      && s.handlers[s.children[thread.owner].pid] == thread.owner
      && thread.cause < s.log.heard <= |s.log.announced|
      && s.log.announced[thread.cause].from < |s.children|
      && s.children[s.log.announced[thread.cause].from].pid == s.children[thread.owner].pid
      && !s.children[s.log.announced[thread.cause].from].life.Starting?
  {
    ReachableInv(cfg, s);
    hide ChildrenOk, CreatorOk, SentOk, TerminationOk, RegistryOk, MarksOk, ReportersOk;
    Unpack(cfg, s);
    assert Caused(s.children, s.handlers, s.log.announced, s.threads[t].owner, s.threads[t].cause);
  }

  /** Although monitoring() is read long before the new thread sets it, a handler gets two monitor threads only if
      another child has had its child's pid: every thread has used up a creation message of its own. */
  lemma OneMonitorPerChild(cfg: Config, s: State, t: nat, u: nat)
    requires Reachable(cfg, s) && t < u < |s.threads|
    requires s.threads[t].owner < |s.children| ==> OwnPid(s.children, s.threads[t].owner)
    ensures s.threads[t].owner != s.threads[u].owner
    ensures s.threads[t].cause < |s.log.announced|
    ensures s.threads[t].owner == s.log.announced[s.threads[t].cause].from
  {
    ThreadsAreEarned(cfg, s, t);
    ThreadsAreEarned(cfg, s, u);
    ReachableInv(cfg, s);
    CausesDiffer(cfg, s, t, u);
  }

  lemma CausesDiffer(cfg: Config, s: State, t: nat, u: nat)
    requires Inv(cfg, s) && t < u < |s.threads|
    ensures s.threads[t].cause < |s.log.announced| && s.threads[u].cause < |s.log.announced|
    ensures s.log.announced[s.threads[t].cause].from != s.log.announced[s.threads[u].cause].from
  {
    hide ChildrenOk, CreatorOk, SentOk, TerminationOk, RegistryOk, MarksOk, ReportersOk;
    Unpack(cfg, s);
  }

  // ---------- registry against counter ----------

  /** Launched children whose handler is not in the registry yet. */
  function Unregistered(s: State): nat { if s.creator.CCount? || s.creator.CRegister? then 1 else 0 }

  /** 1 while the listener works on a message it has counted. */
  function Handling(s: State): nat { if HandlingPid(s.termination).Some? then 1 else 0 }

  /** The pids of the first n children. */
  function Pids(children: seq<Child>, n: nat): set<int>
    requires n <= |children|
  {
    if n == 0 then {} else Pids(children, n - 1) + {children[n - 1].pid}
  }

  /** How many of the first n children got the pid of an earlier one, so that the registry turned them down. */
  function Rejected(children: seq<Child>, n: nat): nat
    requires n <= |children|
  {
    if n == 0 then 0
    else Rejected(children, n - 1) + if children[n - 1].pid in Pids(children, n - 1) then 1 else 0
  }

  lemma {:induction false} PidsAndRejected(children: seq<Child>, n: nat)
    requires n <= |children|
    ensures |Pids(children, n)| + Rejected(children, n) == n
  {
    if n == 0 {
    } else {
      PidsAndRejected(children, n - 1);
      var earlier := Pids(children, n - 1);
      assert children[n - 1].pid in earlier ==> earlier + {children[n - 1].pid} == earlier;
    }
  }

  lemma {:induction false} PidsKept(before: seq<Child>, after: seq<Child>, n: nat)
    requires n <= |before| && Evolves(before, after)
    ensures Pids(after, n) == Pids(before, n) && Rejected(after, n) == Rejected(before, n)
  {
    if n == 0 {
    } else {
      PidsKept(before, after, n - 1);
    }
  }

  /** Counted messages either marked a new pid, missed, or are being handled. */
  predicate MarksAddUp(s: State) {
    s.log.consumed == |s.deceased| + s.log.misses + Handling(s)
  }

  /** The registry holds the pids of all launches that were offered to it. */
  ghost predicate HandlersAddUp(s: State) {
    Unregistered(s) <= |s.children| && s.handlers.Keys == Pids(s.children, |s.children| - Unregistered(s))
  }

  ghost predicate DriftInv(s: State) {
    MarksAddUp(s) && HandlersAddUp(s)
  }

  lemma {:induction false} DoubledGrows(before: seq<Child>, after: seq<Child>)
    requires Evolves(before, after)
    ensures Total(Doubled, before) <= Total(Doubled, after)
  {
    if |after| > |before| {
      DoubledGrows(before, after[..|after| - 1]);
    } else if before == [] {
    } else {
      DoubledGrows(before[..|before| - 1], after[..|after| - 1]);
    }
  }

  lemma StepEvolves(cfg: Config, s: State, a: Action)
    requires Inv(cfg, s) && Enabled(cfg, s, a)
    ensures Evolves(s.children, Apply(cfg, s, a).children)
    ensures Total(Doubled, s.children) <= Total(Doubled, Apply(cfg, s, a).children)
  {
    hide Inv, Apply, Enabled, ChangeOf;
    ChangeIsRight(cfg, s, a);
    ChangeIsOk(cfg, s, a);
    DoubledGrows(s.children, Apply(cfg, s, a).children);
  }

  lemma DriftInit(cfg: Config)
    ensures DriftInv(Init(cfg))
  {
  }

  /** Steps of everyone but the creator and the termination listener leave the books alone. */
  predicate SameBooks(s: State, s': State) {
    && s'.handlers == s.handlers && s'.deceased == s.deceased
    && |s'.children| == |s.children|
    && Unregistered(s') == Unregistered(s) && Handling(s') == Handling(s)
    && s'.log.consumed == s.log.consumed && s'.log.misses == s.log.misses
  }

  lemma DriftStep(cfg: Config, s: State, a: Action)
    requires Inv(cfg, s) && DriftInv(s) && Enabled(cfg, s, a)
    ensures DriftInv(Apply(cfg, s, a))
  {
    hide Inv, DriftInv, LaunchStep, CreatorStep, TerminationStep;
    if a.Launch? {
      LaunchDrift(cfg, s, a.pid);
    } else if a.Creator? {
      CreatorDrift(cfg, s);
    } else if a.TerminationListener? {
      TerminationDrift(cfg, s, a);
    } else {
      OthersDrift(cfg, s, a);
    }
  }

  lemma OthersDrift(cfg: Config, s: State, a: Action)
    requires Inv(cfg, s) && DriftInv(s) && Enabled(cfg, s, a)
    requires !a.Launch? && !a.Creator? && !a.TerminationListener?
    ensures DriftInv(Apply(cfg, s, a))
  {
    hide Inv, Apply, Enabled, Pids;
    StepEvolves(cfg, s, a);
    PidsKept(s.children, Apply(cfg, s, a).children, |s.children| - Unregistered(s));
    if a.StartThreads? {
      StartNeedsIdle(cfg, s, a);
    }
    OthersKeepBooks(cfg, s, a);
  }

  lemma StartNeedsIdle(cfg: Config, s: State, a: Action)
    requires Inv(cfg, s) && Enabled(cfg, s, a) && a.StartThreads?
    ensures s.termination.TIdle?
  {
    hide Inv;
    CountingPart(cfg, s);
  }

  lemma OthersKeepBooks(cfg: Config, s: State, a: Action)
    requires Enabled(cfg, s, a) && !a.Launch? && !a.Creator? && !a.TerminationListener?
    requires a.StartThreads? ==> s.termination.TIdle?
    ensures SameBooks(s, Apply(cfg, s, a))
  {
    if !a.StartThreads? {
      OthersKeep(cfg, TheCreator, s, a);
      OthersKeep(cfg, TheTerminationListener, s, a);
    }
  }

  lemma LaunchDrift(cfg: Config, s: State, pid: int)
    requires DriftInv(s) && CanLaunch(cfg, s, pid)
    ensures DriftInv(LaunchStep(cfg, s, pid))
  {
    hide FindUnreaped;
    assert Evolves(s.children, LaunchStep(cfg, s, pid).children);
    PidsKept(s.children, LaunchStep(cfg, s, pid).children, |s.children|);
  }

  lemma CreatorDrift(cfg: Config, s: State)
    requires Inv(cfg, s) && DriftInv(s) && CanCreate(s)
    ensures DriftInv(CreatorStep(cfg, s))
  {
    hide Inv, Pids;
    CountingPart(cfg, s);
    var s' := CreatorStep(cfg, s);
    if s.creator.CRegister? {
      var h := |s.children| - 1;
      assert s'.handlers.Keys == s.handlers.Keys + {s.children[h].pid};
      PidsStep(s.children, h + 1);
    } else {
      assert s'.handlers == s.handlers && Unregistered(s') == Unregistered(s);
    }
  }

  lemma PidsStep(children: seq<Child>, n: nat)
    requires 0 < n <= |children|
    ensures Pids(children, n) == Pids(children, n - 1) + {children[n - 1].pid}
  {
  }

  lemma HandlersPart(cfg: Config, s: State)
    requires Inv(cfg, s)
    ensures RegistryOk(s.children, s.handlers, s.deceased)
    ensures s.log.markedBy.Keys == s.deceased
  {
    Unpack(cfg, s);
  }

  lemma TerminationDrift(cfg: Config, s: State, a: Action)
    requires Inv(cfg, s) && DriftInv(s) && Enabled(cfg, s, a) && a.TerminationListener?
    ensures DriftInv(Apply(cfg, s, a))
  {
    hide Inv, TerminationStep, Pids, CanListen;
    StepEvolves(cfg, s, a);
    PidsKept(s.children, Apply(cfg, s, a).children, |s.children| - Unregistered(s));
    OthersKeep(cfg, TheCreator, s, a);
    if s.termination.TMark? {
      MarkDrift(cfg, s, a.quit);
    } else {
      MoveDrift(cfg, s, a.quit);
    }
  }

  lemma MoveDrift(cfg: Config, s: State, quit: bool)
    requires Inv(cfg, s) && DriftInv(s) && CanListen(s, quit) && !s.termination.TMark?
    requires HandlersAddUp(s.(children := TerminationStep(s, quit).children))
    ensures DriftInv(TerminationStep(s, quit))
  {
    hide Inv, Pids, TerminationStep;
    if s.termination.TGot? {
      TerminationCounted(cfg, s);
    }
    MoveBooks(s, quit);
  }

  /** Counting a message opens its handling; every other end of a handling that marks nothing is a miss. */
  lemma MoveBooks(s: State, quit: bool)
    requires !s.termination.TMark? && !s.termination.TDone? && !s.termination.TIdle?
    requires s.termination.TGot? ==> DecodePid(s.termination.letter.text).Some?
    ensures var s' := TerminationStep(s, quit);
      && s'.handlers == s.handlers && s'.deceased == s.deceased
      && |s'.children| == |s.children| && s'.creator == s.creator
      && s'.log.consumed - Handling(s') == s.log.consumed - Handling(s) + (s'.log.misses - s.log.misses)
      && s'.log.misses >= s.log.misses
  {
    hide DecodePid;
  }

  lemma MarkDrift(cfg: Config, s: State, quit: bool)
    requires Inv(cfg, s) && DriftInv(s) && s.termination.TMark?
    requires HandlersAddUp(s.(children := TerminationStep(s, quit).children))
    ensures DriftInv(TerminationStep(s, quit))
  {
    hide Inv, Pids, TerminationStep;
    PidMarked(cfg, s);
    MarkBooks(s, quit);
  }

  /** Marking closes the handling of a message, with one more deceased pid or with a miss. */
  lemma MarkBooks(s: State, quit: bool)
    requires s.termination.TMark? && s.termination.pid in s.handlers
    ensures var s' := TerminationStep(s, quit);
      && s'.handlers == s.handlers && s'.creator == s.creator && |s'.children| == |s.children|
      && s'.log.consumed == s.log.consumed && Handling(s') == 0
      && |s'.deceased| + s'.log.misses == |s.deceased| + s.log.misses + 1
  {
    hide DecodePid;
    assert s.termination.pid in s.deceased ==> s.deceased + {s.termination.pid} == s.deceased;
  }

  lemma {:induction false} RunDrift(cfg: Config, s: State, run: seq<Action>)
    requires Inv(cfg, s) && DriftInv(s) && Legal(cfg, s, run)
    ensures DriftInv(Exec(cfg, s, run))
    decreases |run|
  {
    hide Inv, DriftInv;
    if run == [] {
    } else {
      StepInv(cfg, s, run[0]);
      DriftStep(cfg, s, run[0]);
      RunDrift(cfg, Apply(cfg, s, run[0]), run[1..]);
    }
  }

  lemma ReachableDrift(cfg: Config, s: State)
    requires Reachable(cfg, s)
    ensures DriftInv(s)
  {
    var run :| Legal(cfg, Init(cfg), run) && Exec(cfg, Init(cfg), run) == s;
    InitInv(cfg);
    DriftInit(cfg);
    RunDrift(cfg, Init(cfg), run);
  }

  lemma MarksAreRegistered(s: State)
    requires RegistryOk(s.children, s.handlers, s.deceased)
    ensures s.deceased <= s.handlers.Keys
  {
  }

  /** The drift law, for fresh and reused pids alike. Active handlers, plus the registrations that were turned down,
      plus one launch counted but not yet offered to the registry, are counter_ plus the counted termination messages
      that have not marked a pid of their own: the one being handled and those that missed. */
  lemma DriftLaw(cfg: Config, s: State)
    requires Reachable(cfg, s)
    ensures Unregistered(s) <= |s.children|
    ensures |Active(s.handlers, s.deceased)| + Rejected(s.children, |s.children| - Unregistered(s))
              + (if s.creator.CRegister? then 1 else 0)
         == s.counter + Handling(s) + s.log.misses
    ensures s.counter <= |Active(s.handlers, s.deceased)| + 1 + Rejected(s.children, |s.children| - Unregistered(s))
  {
    hide Reachable, Inv, Pids, Rejected, Active, RegistryOk;
    ReachableInv(cfg, s);
    ReachableDrift(cfg, s);
    CountingPart(cfg, s);
    HandlersPart(cfg, s);
    MarksAreRegistered(s);
    ActiveSize(s.handlers, s.deceased);
    PidsAndRejected(s.children, |s.children| - Unregistered(s));
    assert |s.handlers| == |s.handlers.Keys|;
  }

  /** A registration is turned down exactly when an earlier child had its pid. */
  lemma {:induction false} RejectedExactly(children: seq<Child>, n: nat)
    requires n <= |children|
    ensures Rejected(children, n) == 0 <==> forall i, j :: 0 <= i < j < n ==> children[i].pid != children[j].pid
    ensures forall p :: p in Pids(children, n) <==> exists i :: 0 <= i < n && children[i].pid == p
  {
    if n == 0 {
    } else {
      RejectedExactly(children, n - 1);
    }
  }
}

/** The controller's threads as the program writes them: loops and field updates, with the other threads' steps let in
    between any two accesses to shared state. What is proved of each method includes that the state it leaves is
    reachable in the transition system, so every theorem about reachable states holds of this code. */
module Threads {
  import opened Common
  import opened Decimal
  import opened StringTools
  import opened Messages
  import opened TypedQueue
  import opened Registry
  import opened Supervisor
  import opened SupervisorInvariant
  import opened SupervisorCapacity
  import opened SupervisorFrames
  import opened SupervisorRegistry

  const RECEIVE_LIMIT_MS: nat := 5000

  // ---------- what a thread may rely on while others run ----------

  lemma OthersStep(cfg: Config, actor: Actor, s: State, a: Action) returns (next: State)
    requires Reachable(cfg, s) && Enabled(cfg, s, a) && !ActsFor(a, actor) && !a.StartThreads?
    ensures next == Apply(cfg, s, a) && Reachable(cfg, next)
    ensures Kept(actor, s, next) && Evolves(s.children, next.children)
  {
    hide Reachable, Enabled, Apply, Kept, Evolves, ActsFor;
    ReachableInv(cfg, s);
    OthersKeep(cfg, actor, s, a);
    StepEvolves(cfg, s, a);
    next := Step(cfg, s, a);
  }

  // ---------- batches ----------

  /** Registering pids in order for the children from `first` on. */
  function AddedAll(handlers: map<int, nat>, first: nat, pids: seq<int>): map<int, nat> {
    if pids == [] then handlers
    else Added(AddedAll(handlers, first, pids[..|pids| - 1]), pids[|pids| - 1], first + |pids| - 1)
  }

  /** From s to s', children with these pids were launched, counted and registered. */
  ghost predicate Batch(s: State, s': State, pids: seq<int>) {
    && s.creator.CLaunch? && s'.creator.CLaunch? && s'.creator.left + |pids| == s.creator.left
    && s'.flags.started == s.flags.started && s'.log.base == s.log.base
    && Evolves(s.children, s'.children)
    && |s'.children| == |s.children| + |pids|
    && (forall i :: 0 <= i < |pids| ==> s'.children[|s.children| + i].pid == pids[i])
    && s'.handlers == AddedAll(s.handlers, |s.children|, pids)
    && s'.counter + s'.log.consumed == s.counter + s.log.consumed + |pids|
  }

  /** The kernel cannot give this pid to a new child. */
  predicate Refused(cfg: Config, s: State, pid: int) {
    pid < cfg.minPid || pid > cfg.maxPid || FindUnreaped(s.children, pid).Some?
  }

  ghost predicate LaunchedOne(s: State, s': State, pid: int)
    requires s.creator.CLaunch?
  {
    && s'.creator == CCount(s.creator.left) && s.creator.left > 0
    && s'.flags.started == s.flags.started && s'.log.base == s.log.base && s'.handlers == s.handlers
    && Evolves(s.children, s'.children) && |s'.children| == |s.children| + 1
    && s'.children[|s.children|].pid == pid
    && s'.counter + s'.log.consumed == s.counter + s.log.consumed
  }

  ghost predicate CountedOne(s: State, s': State)
    requires s.creator.CCount?
  {
    && s'.creator == CRegister(Clamp(s.creator.left - 1))
    && s'.flags.started == s.flags.started && s'.log.base == s.log.base && s'.handlers == s.handlers
    && Evolves(s.children, s'.children) && |s'.children| == |s.children|
    && s'.counter + s'.log.consumed == s.counter + s.log.consumed + 1
  }

  ghost predicate RegisteredOne(s: State, s': State, pid: int)
    requires s.creator.CRegister?
  {
    && s'.creator == CLaunch(s.creator.left)
    && s'.flags.started == s.flags.started && s'.log.base == s.log.base
    && Evolves(s.children, s'.children) && |s'.children| == |s.children| > 0
    && s'.handlers == Added(s.handlers, pid, |s.children| - 1)
    && s'.counter + s'.log.consumed == s.counter + s.log.consumed
  }

  lemma LaunchEvolves(a: seq<Child>, b: seq<Child>, c: Child)
    requires Evolves(a, b)
    ensures Evolves(a, b + [c])
  {
  }

  lemma LaunchedIs(s: State, s': State, pid: int)
    requires s.creator.CLaunch? && LaunchedOne(s, s', pid)
    ensures s'.creator.CCount? && s'.creator.left > 0
  {
  }

  lemma CountedIs(s: State, s': State, s'': State, pid: int)
    requires s.creator.CLaunch? && LaunchedOne(s, s', pid)
    requires s'.creator.CCount? && CountedOne(s', s'')
    ensures s''.creator.CRegister? && s''.children != [] && s''.children[|s''.children| - 1].pid == pid
  {
  }

  lemma OneIsBatch(s: State, a: State, b: State, c: State, pid: int)
    requires s.creator.CLaunch? && LaunchedOne(s, a, pid)
    requires a.creator.CCount? && CountedOne(a, b)
    requires b.creator.CRegister? && RegisteredOne(b, c, pid)
    ensures Batch(s, c, [pid])
  {
    EvolvesTwice(s.children, a.children, b.children);
    EvolvesTwice(s.children, b.children, c.children);
    assert c.children[|s.children|].pid == pid;
    assert [pid][..0] == [];
    assert AddedAll(s.handlers, |s.children|, [pid]) == Added(s.handlers, pid, |s.children|);
  }

  lemma BatchGrows(s: State, s': State, s'': State, pids: seq<int>, pid: int)
    requires Batch(s, s', pids) && Batch(s', s'', [pid])
    ensures Batch(s, s'', pids + [pid])
  {
    EvolvesTwice(s.children, s'.children, s''.children);
    assert (pids + [pid])[..|pids|] == pids;
    assert [pid][..0] == [];
    assert AddedAll(s'.handlers, |s'.children|, [pid]) == Added(s'.handlers, pid, |s'.children|);
  }

  // ---------- the threads ----------

  class World {
    const cfg: Config
    /** The kernel's choice: the pid it offers for the n-th child. */
    const pidOf: nat -> int
    var flags: Flags
    var counter: int
    var children: seq<Child>
    var handlers: map<int, nat>
    var deceased: set<int>
    var queue: seq<Message<Letter>>
    var threads: seq<Thread>
    /** Where each of the three loops is, and the record of the run; kept to compare with the transition system. */
    var creator: CreatorPc
    var creation: CreationPc
    var termination: TerminationPc
    var log: History

    constructor (cfg: Config, pidOf: nat -> int)
      ensures this.cfg == cfg && this.pidOf == pidOf && Now() == Init(cfg) && Reachable(cfg, Now())
    {
      this.cfg, this.pidOf := cfg, pidOf;
      flags, counter, children, handlers, deceased := Flags(true, true, false, false), 0, [], map[], {};
      queue, threads := [], [];
      creator, creation, termination := CLaunch(Clamp(cfg.limit)), KIdle, TIdle;
      log := History([], 0, [], 0, 0, 0, map[]);
      new;
      InitReachable(cfg);
    }

    function Now(): State
      reads this
    {
      State(flags, counter, children, handlers, deceased, queue, creator, creation, termination, threads, log)
    }

    method Become(s: State)
      modifies this
      ensures Now() == s
    {
      flags, counter, children, handlers, deceased := s.flags, s.counter, s.children, s.handlers, s.deceased;
      queue, threads := s.queue, s.threads;
      creator, creation, termination, log := s.creator, s.creation, s.termination, s.log;
    }

    /** Any number of steps of everyone else. */
    method Others(actor: Actor)
      requires Reachable(cfg, Now())
      modifies this
      ensures Reachable(cfg, Now())
      ensures Kept(actor, old(Now()), Now()) && Evolves(old(children), children)
    {
      hide Reachable, Enabled, Apply, Kept, Evolves, ActsFor;
      ghost var start := Now();
      KeptNone(actor, start);
      var steps: int := *;
      for i := 0 to Clamp(steps)
        invariant Reachable(cfg, Now())
        invariant Kept(actor, start, Now()) && Evolves(start.children, children)
      {
        var a: Action := *;
        ghost var s := Now();
        if !ActsFor(a, actor) && !a.StartThreads? && Enabled(cfg, Now(), a) {
          ghost var next := OthersStep(cfg, actor, s, a);
          KeptTwice(actor, start, s, next);
          EvolvesTwice(start.children, s.children, next.children);
          Become(Apply(cfg, Now(), a));
        }
      }
    }

    /** fork, clone or spawn. False when the kernel offers no pid that is free, which ends the program. */
    method LaunchChild() returns (ok: bool, pid: int)
      requires Reachable(cfg, Now()) && creator.CLaunch? && creator.left > 0
      modifies this
      ensures Reachable(cfg, Now())
      ensures pid == pidOf(old(|children|))
      ensures if ok then LaunchedOne(old(Now()), Now(), pid) else Refused(cfg, Now(), pid)
    {
      hide Reachable, Evolves, FindUnreaped;
      Others(TheCreator);
      pid := pidOf(|children|);
      if pid < cfg.minPid || pid > cfg.maxPid || FindUnreaped(children, pid).Some? {
        return false, pid;
      }
      ghost var s := Now();
      children := children + [NewChild(pid, cfg.system)];
      creator := CCount(creator.left);
      s := Launched(cfg, s, pid);
      LaunchEvolves(old(children), s.children[..|s.children| - 1], children[|children| - 1]);
      ok := true;
    }

    /** ++counter_ */
    method CountChild()
      requires Reachable(cfg, Now()) && creator.CCount? && creator.left > 0
      modifies this
      ensures Reachable(cfg, Now()) && CountedOne(old(Now()), Now())
    {
      hide Reachable, Evolves;
      Others(TheCreator);
      ghost var s := Now();
      counter := counter + 1;
      creator := CRegister(Clamp(creator.left - 1));
      s := Created(cfg, s);
    }

    /** addMonitorProcess */
    method RegisterChild(pid: int)
      requires Reachable(cfg, Now()) && creator.CRegister?
      requires children != [] && children[|children| - 1].pid == pid
      modifies this
      ensures Reachable(cfg, Now()) && RegisteredOne(old(Now()), Now(), pid)
    {
      hide Reachable;
      Others(TheCreator);
      ghost var s := Now();
      if pid !in handlers {
        handlers := handlers[pid := |children| - 1];
      }
      creator := CLaunch(creator.left);
      s := Created(cfg, s);
    }

    method CreateHandler() returns (ok: bool, pid: int)
      requires Reachable(cfg, Now()) && creator.CLaunch? && creator.left > 0
      modifies this
      ensures Reachable(cfg, Now())
      ensures pid == pidOf(old(|children|))
      ensures if ok then Batch(old(Now()), Now(), [pid]) else Refused(cfg, Now(), pid)
    {
      hide Reachable, LaunchedOne, CountedOne, RegisteredOne, Batch;
      ok, pid := LaunchChild();
      if !ok {
        return;
      }
      ghost var s1 := Now();
      LaunchedIs(old(Now()), s1, pid);
      CountChild();
      ghost var s2 := Now();
      CountedIs(old(Now()), s1, s2, pid);
      RegisterChild(pid);
      OneIsBatch(old(Now()), s1, s2, Now(), pid);
    }

    /** createHandlers. Unless the kernel refused, exactly the asked number of children were launched, counted and
        registered in order, and counter_ is back at numProcesses less what was counted since the batch was sized. */
    method CreateHandlers(numHandlers: int) returns (ok: bool, pids: seq<int>)
      requires Reachable(cfg, Now()) && creator == CLaunch(Clamp(numHandlers))
      modifies this
      ensures Reachable(cfg, Now())
      ensures ok ==> AsOffered(children, pidOf, old(|children|))
      ensures !ok ==> |pids| < numHandlers && Refused(cfg, Now(), pidOf(old(|children|) + |pids|))
      ensures ok ==> |pids| == Clamp(numHandlers) && Batch(old(Now()), Now(), pids) && creator == CLaunch(0)
      ensures ok ==> counter == Clamp(cfg.limit) - (log.consumed - log.base)
    {
      hide Reachable, Batch, AsOffered;
      ok, pids := true, [];
      EmptyBatch(Now());
      NoPidsYet(children, pidOf);
      var i := 0;
      while i < numHandlers
        invariant 0 <= i <= Clamp(numHandlers) && |pids| == i
        invariant Reachable(cfg, Now()) && Batch(old(Now()), Now(), pids)
        invariant creator == CLaunch(Clamp(numHandlers) - i) && |children| == old(|children|) + i
        invariant AsOffered(children, pidOf, old(|children|))
      {
        ghost var s := Now();
        var pid: int;
        ok, pid := CreateHandler();
        if !ok {
          return;
        }
        BatchLeft(s, Now(), [pid]);
        BatchLaunched(s, Now(), [pid]);
        BatchGrows(old(Now()), s, Now(), pids, pid);
        PidsGrow(s, Now(), pidOf, old(|children|));
        pids := pids + [pid];
        i := i + 1;
      }
      BatchRestoresCount(cfg, Now());
    }

    /** The return from createHandlers: back to the loop, or to where the first batch was asked for. */
    method EndBatch()
      requires Reachable(cfg, Now()) && creator == CLaunch(0)
      modifies this
      ensures Reachable(cfg, Now()) && creator == (if flags.started then CHead else CWaiting)
      ensures flags.started == old(flags.started) && |children| == old(|children|)
      ensures forall first: nat :: AsOffered(old(children), pidOf, first) ==> AsOffered(children, pidOf, first)
      ensures counter + log.consumed == old(counter + log.consumed) && log.base == old(log.base)
    {
      hide Reachable;
      Others(TheCreator);
      ghost var s := Now();
      creator := if flags.started then CHead else CWaiting;
      s := Created(cfg, s);
    }

    /** running() as the creator reads it: at the top of its loop and again in the guard. */
    method CreatorSeesRunning() returns (on: bool)
      requires Reachable(cfg, Now()) && (creator.CHead? || creator.CRunning?)
      modifies this
      ensures Reachable(cfg, Now()) && flags.started == old(flags.started)
      ensures |children| == old(|children|)
      ensures on == flags.running && (on ==> old(flags.running))
      ensures creator ==
        if old(creator).CHead? then (if on then CPaused else CDone) else (if on then CRespawn else CHead)
    {
      hide Reachable, Evolves;
      Others(TheCreator);
      ghost var s := Now();
      on := flags.running;
      creator := if creator.CHead? then (if on then CPaused else CDone) else (if on then CRespawn else CHead);
      s := Created(cfg, s);
    }

    method CreatorSeesPaused() returns (on: bool)
      requires Reachable(cfg, Now()) && creator.CPaused?
      modifies this
      ensures Reachable(cfg, Now()) && flags.started == old(flags.started)
      ensures |children| == old(|children|)
      ensures on == flags.paused
      ensures creator == if on then CHead else CRunning
    {
      hide Reachable, Evolves;
      Others(TheCreator);
      ghost var s := Now();
      on := flags.paused;
      creator := if on then CHead else CRunning;
      s := Created(cfg, s);
    }

    method CreatorSeesRespawn() returns (on: bool)
      requires Reachable(cfg, Now()) && creator.CRespawn?
      modifies this
      ensures Reachable(cfg, Now()) && flags.started == old(flags.started)
      ensures |children| == old(|children|)
      ensures on == flags.respawn
      ensures creator == if on then CGuard else CHead
    {
      hide Reachable, Evolves;
      Others(TheCreator);
      ghost var s := Now();
      on := flags.respawn;
      creator := if on then CGuard else CHead;
      s := Created(cfg, s);
    }

    /** counter_.load() < numProcesses() */
    method CreatorSeesRoom() returns (room: bool)
      requires Reachable(cfg, Now()) && creator.CGuard?
      modifies this
      ensures Reachable(cfg, Now()) && flags.started == old(flags.started)
      ensures |children| == old(|children|)
      ensures room <==> counter < cfg.limit
      ensures creator == if room then CRead else CHead
    {
      hide Reachable, Evolves;
      Others(TheCreator);
      ghost var s := Now();
      room := counter < cfg.limit;
      creator := if room then CRead else CHead;
      s := Created(cfg, s);
    }

    /** numProcesses() - counter_, read a second time: still at least 1. */
    method CreatorSizesBatch() returns (numHandlers: int)
      requires Reachable(cfg, Now()) && creator.CRead?
      modifies this
      ensures Reachable(cfg, Now()) && flags.started == old(flags.started)
      ensures |children| == old(|children|)
      ensures creator == CLaunch(Clamp(numHandlers)) && 1 <= numHandlers == cfg.limit - counter
    {
      hide Reachable, Evolves;
      Others(TheCreator);
      ghost var s := Now();
      CounterBounds(cfg, s);
      numHandlers := cfg.limit - counter;
      creator, log := CLaunch(Clamp(numHandlers)), log.(base := log.consumed);
      s := Created(cfg, s);
    }

    /** restoreHandlerCount, watched for any number of turns of its loop. Called after shutdown, it ends in
        the first. */
    method RestoreHandlerCount(turns: nat) returns (ok: bool, launched: nat)
      requires Reachable(cfg, Now()) && creator.CHead? && flags.started
      modifies this
      ensures Reachable(cfg, Now())
      ensures ok ==> |children| == old(|children|) + launched
      ensures ok ==> creator.CHead? || (creator.CDone? && !flags.running)
      ensures turns > 0 && !old(flags.running) ==> ok && creator.CDone?
      ensures !ok ==> Refused(cfg, Now(), pidOf(old(|children|) + launched))
    {
      hide Reachable, Batch;
      ok, launched := true, 0;
      for turn := 0 to turns
        invariant ok && Reachable(cfg, Now()) && creator.CHead? && flags.started
        invariant |children| == old(|children|) + launched
        invariant turn == 0 ==> flags == old(flags)
        invariant !old(flags.running) ==> turn == 0
      {
        var running := CreatorSeesRunning();
        if !running {
          return;
        }
        var paused := CreatorSeesPaused();
        if !paused {
          var more;
          ok, more := RefillBatch();
          launched := launched + more;
          if !ok {
            return;
          }
        }
      }
    }

    /** The guard of line 42, each of its reads a step of its own, and the batch behind it. A turn that launches leaves
        counter_ at numProcesses less the messages counted since the batch was sized. */
    method RefillBatch() returns (ok: bool, launched: nat)
      requires Reachable(cfg, Now()) && creator.CRunning? && flags.started
      modifies this
      ensures Reachable(cfg, Now())
      ensures ok ==> creator.CHead? && flags.started && |children| == old(|children|) + launched
      ensures ok && launched == 0 ==> !flags.running || !flags.respawn || counter >= cfg.limit
      ensures ok && launched > 0 ==> counter == Clamp(cfg.limit) - (log.consumed - log.base)
      ensures !ok ==> Refused(cfg, Now(), pidOf(old(|children|) + launched))
    {
      hide Reachable, Batch, Evolves;
      ok, launched := true, 0;
      var running := CreatorSeesRunning();
      if !running { return; }
      var respawn := CreatorSeesRespawn();
      if !respawn { return; }
      var room := CreatorSeesRoom();
      if !room { return; }
      var numHandlers := CreatorSizesBatch();
      ghost var s := Now();
      var pids;
      ok, pids := CreateHandlers(numHandlers);
      launched := |pids|;
      if ok {
        BatchLaunched(s, Now(), pids);
        EndBatch();
      }
    }

    // ----- the termination listener -----

    /** findMonitor: a handler's index, which is one of the children made so far. */
    method FindTerminated(pid: int) returns (it: Option<nat>)
      requires Reachable(cfg, Now()) && termination == TLookup(pid) && pid != -1
      modifies this
      ensures Reachable(cfg, Now()) && SameMarks(old(Now()), Now(), if it.None? then 1 else 0)
      ensures it.None? ==> termination == THead && pid !in handlers
      ensures it.Some? ==> termination == TTest(pid, it.value) && Registered(Now(), pid, it.value)
    {
      hide Reachable, Evolves;
      Others(TheTerminationListener);
      ghost var s := Now();
      if pid in handlers {
        it := Some(handlers[pid]);
        RegisteredChild(cfg, s, pid);
        termination := TTest(pid, it.value);
      } else {
        it := None;
        termination, log := THead, log.(misses := log.misses + 1);
      }
      s := Listened(cfg, s, false);
    }

    /** monitoring() before the wait. */
    method TerminationSeesMonitoring(pid: int, h: nat) returns (on: bool)
      requires Reachable(cfg, Now()) && termination == TTest(pid, h) && Registered(Now(), pid, h)
      modifies this
      ensures Reachable(cfg, Now()) && SameMarks(old(Now()), Now(), 0) && Registered(Now(), pid, h)
      ensures on == children[h].monitoring
      ensures termination == if on then TClear(pid, h) else TRecheck(pid, h)
    {
      hide Reachable;
      Others(TheTerminationListener);
      ghost var s := Now();
      on := children[h].monitoring;
      termination := if on then TClear(pid, h) else TRecheck(pid, h);
      s := Listened(cfg, s, false);
    }

    /** monitoring() = false */
    method ClearMonitoring(pid: int, h: nat)
      requires Reachable(cfg, Now()) && termination == TClear(pid, h) && Registered(Now(), pid, h)
      modifies this
      ensures Reachable(cfg, Now()) && SameMarks(old(Now()), Now(), 0) && Registered(Now(), pid, h)
      ensures termination == TSpin(pid, h, 0) && !children[h].monitoring
    {
      hide Reachable;
      Others(TheTerminationListener);
      ghost var s := Now();
      children := children[h := children[h].(monitoring := false)];
      termination := TSpin(pid, h, 0);
      s := Listened(cfg, s, false);
    }

    /** One turn of the wait: read the flag, nap if it is set, give up if `late`. */
    method SpinOnce(pid: int, h: nat, polls: nat, late: bool) returns (on: bool)
      requires Reachable(cfg, Now()) && termination == TSpin(pid, h, polls) && Registered(Now(), pid, h)
      requires (polls + 1) * NAP_MS > SPIN_LIMIT_MS ==> late
      modifies this
      ensures Reachable(cfg, Now()) && SameMarks(old(Now()), Now(), 0) && Registered(Now(), pid, h)
      ensures on == children[h].monitoring
      ensures termination == if on && !late then TSpin(pid, h, polls + 1) else TRecheck(pid, h)
    {
      hide Reachable;
      Others(TheTerminationListener);
      ghost var s := Now();
      on := children[h].monitoring;
      termination := if on && !late then TSpin(pid, h, polls + 1) else TRecheck(pid, h);
      s := Listened(cfg, s, late);
    }

    /** The wait for the monitor thread: it ends when the flag is read clear, or once SPIN_LIMIT_MS have passed in naps
        of at least NAP_MS. */
    method WaitForMonitor(pid: int, h: nat, naps: nat -> nat) returns (stopped: bool, polls: nat)
      requires Reachable(cfg, Now()) && termination == TSpin(pid, h, 0) && Registered(Now(), pid, h)
      modifies this
      ensures Reachable(cfg, Now()) && SameMarks(old(Now()), Now(), 0) && Registered(Now(), pid, h)
      ensures termination == TRecheck(pid, h)
      ensures stopped == !children[h].monitoring
      ensures !stopped ==> Elapsed(naps, polls) > SPIN_LIMIT_MS
      ensures polls > 0 && forall k :: 0 <= k < polls ==> Elapsed(naps, k) <= SPIN_LIMIT_MS
    {
      hide Reachable, SameMarks, Elapsed;
      MarksKept(Now());
      NoNaps(naps);
      var elapsed: nat, waiting := 0, true;
      polls, stopped := 0, false;
      while waiting
        invariant Reachable(cfg, Now()) && SameMarks(old(Now()), Now(), 0) && Registered(Now(), pid, h)
        invariant termination == if waiting then TSpin(pid, h, polls) else TRecheck(pid, h)
        invariant elapsed == Elapsed(naps, polls) && polls * NAP_MS <= elapsed
        invariant forall k :: 0 <= k < polls ==> Elapsed(naps, k) <= SPIN_LIMIT_MS
        invariant waiting ==> elapsed <= SPIN_LIMIT_MS
        invariant !waiting ==> polls > 0 && stopped == !children[h].monitoring && (stopped || elapsed > SPIN_LIMIT_MS)
        decreases waiting, SPIN_LIMIT_MS - polls
      {
        ghost var s := Now();
        OneMoreNap(naps, polls);
        elapsed := elapsed + if naps(polls) < NAP_MS then NAP_MS else naps(polls);
        var on := SpinOnce(pid, h, polls, elapsed > SPIN_LIMIT_MS);
        MarksKeptTwice(old(Now()), s, Now(), 0);
        waiting, stopped := on && elapsed <= SPIN_LIMIT_MS, !on;
        polls := polls + 1;
      }
    }

    /** monitoring() after the wait; still set means an exception, and the pid stays unmarked. */
    method TerminationRechecks(pid: int, h: nat) returns (on: bool)
      requires Reachable(cfg, Now()) && termination == TRecheck(pid, h) && Registered(Now(), pid, h)
      modifies this
      ensures Reachable(cfg, Now()) && SameMarks(old(Now()), Now(), if on then 1 else 0) && Registered(Now(), pid, h)
      ensures on == children[h].monitoring
      ensures termination == if on then THead else TMark(pid)
    {
      hide Reachable;
      Others(TheTerminationListener);
      ghost var s := Now();
      on := children[h].monitoring;
      if on {
        termination, log := THead, log.(misses := log.misses + 1);
      } else {
        termination := TMark(pid);
      }
      s := Listened(cfg, s, false);
    }

    /** markProcessAsDeceased */
    method MarkDeceased(pid: int, h: nat)
      requires Reachable(cfg, Now()) && termination == TMark(pid) && Registered(Now(), pid, h)
      modifies this
      ensures Reachable(cfg, Now()) && termination == THead && Registered(Now(), pid, h)
      ensures deceased == old(deceased) + {pid}
      ensures log.misses == old(log.misses) + if pid in old(deceased) then 1 else 0
      ensures log.consumed == old(log.consumed)
    {
      hide Reachable;
      Others(TheTerminationListener);
      ghost var s := Now();
      var misses := if pid in deceased then log.misses + 1 else log.misses;
      deceased := deceased + {pid};
      termination, log := THead, log.(markedBy := log.markedBy[pid := Clamp(log.consumed - 1)], misses := misses);
      s := Listened(cfg, s, false);
    }

    /** Lines 26 to 63, for a pid registered to handler h: it is marked unless h's flag is set at the second test. Not
        `stopped`: the wait ran into its limit. */
    method TerminateRegistered(pid: int, h: nat, naps: nat -> nat) returns (marked: bool, polls: nat, stopped: bool)
      requires Reachable(cfg, Now()) && termination == TTest(pid, h) && Registered(Now(), pid, h)
      modifies this
      ensures Reachable(cfg, Now()) && termination == THead && Registered(Now(), pid, h)
      ensures deceased == if marked then old(deceased) + {pid} else old(deceased)
      ensures log.misses == old(log.misses) + if marked && pid !in old(deceased) then 0 else 1
      ensures log.consumed == old(log.consumed)
      ensures !marked ==> children[h].monitoring
      ensures !stopped ==> polls > 0 && Elapsed(naps, polls) > SPIN_LIMIT_MS
    {
      hide Reachable, Registered, Elapsed;
      ghost var s := Now();
      polls, stopped := 0, true;
      var on := TerminationSeesMonitoring(pid, h);
      if on {
        ClearMonitoring(pid, h);
        stopped, polls := WaitForMonitor(pid, h, naps);
      }
      on := TerminationRechecks(pid, h);
      marked := !on;
      if marked {
        MarkDeceased(pid, h);
      }
    }

    /** terminateMonitorThread. Either the pid joins the deceased ones, or no pid does and one more counted message has
        missed: for the pid -1, an unregistered one, or one whose handler's flag is still, or again, set at the end. */
    method TerminateMonitorThread(pid: int, naps: nat -> nat) returns (marked: bool)
      requires Reachable(cfg, Now()) && termination == TLookup(pid)
      modifies this
      ensures Reachable(cfg, Now()) && termination == THead
      ensures deceased == if marked then old(deceased) + {pid} else old(deceased)
      ensures log.misses == old(log.misses) + if marked && pid !in old(deceased) then 0 else 1
      ensures log.consumed == old(log.consumed)
      ensures marked ==> pid != -1 && pid in handlers
      ensures !marked ==> pid == -1 || pid !in handlers
                          || (handlers[pid] < |children| && children[handlers[pid]].monitoring)
    {
      hide Reachable;
      if pid == -1 {
        ghost var s := Now();
        termination, log := THead, log.(misses := log.misses + 1);
        s := Listened(cfg, s, false);
        return false;
      }
      var it := FindTerminated(pid);
      if it.None? {
        return false;
      }
      var polls, stopped;
      marked, polls, stopped := TerminateRegistered(pid, it.value, naps);
    }

    /** running() at the top of the loop, or at the top of receiveMessage's. */
    method TerminationSeesRunning() returns (on: bool)
      requires Reachable(cfg, Now()) && (termination.THead? || termination.TPollHead?)
      modifies this
      ensures Reachable(cfg, Now()) && on == flags.running && log.consumed == old(log.consumed)
      ensures on ==> old(flags.running)
      ensures termination ==
        if old(termination).THead? then (if on then TPollHead else TDone) else (if on then TPollReceive else THead)
    {
      hide Reachable, Evolves;
      Others(TheTerminationListener);
      ghost var s := Now();
      on := flags.running;
      termination :=
        if termination.THead? then (if on then TPollHead else TDone) else (if on then TPollReceive else THead);
      s := Listened(cfg, s, false);
    }

    /** msgrcv without waiting. `fault`: it fails for another reason than an empty queue. */
    method TryReceiveTermination(late: bool, fault: bool) returns (letter: Option<Letter>, failed: bool)
      requires Reachable(cfg, Now()) && termination.TPollReceive?
      modifies this
      ensures Reachable(cfg, Now()) && log.consumed == old(log.consumed)
      ensures letter.Some? ==> termination == TGot(letter.value) && !failed && !fault
      ensures letter.None? ==> termination == (if failed then THead else TPollHead) && failed == (fault || late)
      ensures letter.None? && !fault ==> Backlog(queue, TERMINATION_MSG) == []
    {
      hide Reachable, Evolves, Taken, Remaining, Backlog;
      Others(TheTerminationListener);
      ghost var s := Now();
      var bodies := Taken(queue, TERMINATION_MSG);
      BacklogOfReceive(queue, TERMINATION_MSG, CREATION_MSG);
      if !fault && bodies != [] {
        letter, failed := Some(bodies[0]), false;
        termination, queue := TGot(bodies[0]), Remaining(queue, TERMINATION_MSG);
        s := Listened(cfg, s, false);
      } else {
        letter, failed := None, fault || late;
        termination := if failed then THead else TPollHead;
        s := Listened(cfg, s, failed);
      }
    }

    /** receiveTerminationMessage: polls until a message comes, shutdown, an error or the timeout. The message is the
        oldest one sent that has not been counted; without one, a poll that worked has found none. */
    method ReceiveTermination(faults: nat -> bool, naps: nat -> nat) returns (letter: Option<Letter>, polls: nat)
      requires Reachable(cfg, Now()) && termination.TPollHead?
      modifies this
      ensures Reachable(cfg, Now()) && log.consumed == old(log.consumed)
      ensures termination == if letter.Some? then TGot(letter.value) else THead
      ensures letter.Some? ==> log.consumed < |log.sent| && letter.value == log.sent[log.consumed]
      ensures letter.None? && flags.running ==> polls > 0 && GivesUp(faults, naps, polls - 1)
      ensures letter.None? && flags.running && !faults(polls - 1) ==> Backlog(queue, TERMINATION_MSG) == []
      ensures forall k :: 0 <= k < polls - 1 ==> !GivesUp(faults, naps, k)
    {
      hide Reachable;
      var elapsed: nat := 0;
      polls := 0;
      while true
        invariant Reachable(cfg, Now()) && termination.TPollHead? && log.consumed == old(log.consumed)
        invariant elapsed == Elapsed(naps, polls)
        invariant forall k :: 0 <= k < polls ==> !GivesUp(faults, naps, k)
        decreases RECEIVE_LIMIT_MS + NAP_MS - elapsed
      {
        var on := TerminationSeesRunning();
        if !on {
          return None, polls;
        }
        var failed;
        letter, failed := TryReceiveTermination(elapsed > RECEIVE_LIMIT_MS, faults(polls));
        polls := polls + 1;
        if letter.Some? {
          HeldIsOldest(cfg, Now());
        }
        if letter.Some? || failed {
          return;
        }
        elapsed := elapsed + if naps(polls - 1) < NAP_MS then NAP_MS else naps(polls - 1);
      }
    }

    /** --counter_, before the pid is looked up; nothing else changes in this step. */
    method CountTermination(letter: Letter, pid: int)
      requires Reachable(cfg, Now()) && termination == TGot(letter) && DecodePid(letter.text) == Some(pid)
      modifies this
      ensures Reachable(cfg, Now()) && counter == old(counter) - 1
      ensures Now() == old(Now()).(counter := counter, termination := TLookup(pid),
                                   log := old(log).(consumed := old(log.consumed) + 1))
    {
      hide Reachable, DecodePid;
      ghost var s := Now();
      counter := counter - 1;
      termination, log := TLookup(pid), log.(consumed := log.consumed + 1);
      s := Listened(cfg, s, false);
    }

    /** A message with fewer than two tokens is dropped uncounted. */
    method DropTermination(letter: Letter)
      requires Reachable(cfg, Now()) && termination == TGot(letter) && DecodePid(letter.text).None?
      modifies this
      ensures Reachable(cfg, Now()) && termination.THead?
    {
      hide Reachable, DecodePid;
      ghost var s := Now();
      termination := THead;
      s := Listened(cfg, s, false);
    }

    /** MonitorProcessTermination, watched for any number of turns of its loop. Called after shutdown, it ends in
        the first. */
    method MonitorProcessTermination(turns: nat, faults: (nat, nat) -> bool, naps: (nat, nat) -> nat,
                                     waits: (nat, nat) -> nat)
      requires Reachable(cfg, Now()) && termination.THead?
      modifies this
      ensures Reachable(cfg, Now())
      ensures termination.THead? || (termination.TDone? && !flags.running)
      ensures turns > 0 && !old(flags.running) ==> termination.TDone?
    {
      hide Reachable;
      for turn := 0 to turns
        invariant Reachable(cfg, Now()) && termination.THead?
        invariant turn == 0 ==> flags == old(flags)
        invariant !old(flags.running) ==> turn == 0
      {
        var on := TerminationSeesRunning();
        if !on {
          return;
        }
        var n: nat := turn;
        var letter, polls := ReceiveTermination((k: nat) => faults(n, k), (k: nat) => naps(n, k));
        if letter.None? {
          continue;
        }
        var vec := SplitString(letter.value.text, ' ');
        if |vec| < 2 {
          DropTermination(letter.value);
          continue;
        }
        Others(TheTerminationListener);
        CountTermination(letter.value, StrToPid(vec[1]));
        var marked := TerminateMonitorThread(StrToPid(vec[1]), (k: nat) => waits(n, k));
      }
    }

    // ----- the creation listener -----

    method CreationSeesRunning() returns (on: bool)
      requires Reachable(cfg, Now()) && (creation.KHead? || creation.KPollHead?)
      modifies this
      ensures Reachable(cfg, Now()) && on == flags.running && log.heard == old(log.heard)
      ensures on ==> old(flags.running)
      ensures creation ==
        if old(creation).KHead? then (if on then KPollHead else KDone) else (if on then KPollReceive else KHead)
    {
      hide Reachable, Evolves;
      Others(TheCreationListener);
      ghost var s := Now();
      on := flags.running;
      creation := if creation.KHead? then (if on then KPollHead else KDone) else (if on then KPollReceive else KHead);
      s := Heard(cfg, s, false);
    }

    method TryReceiveCreation(late: bool, fault: bool) returns (letter: Option<Letter>, failed: bool)
      requires Reachable(cfg, Now()) && creation.KPollReceive?
      modifies this
      ensures Reachable(cfg, Now())
      ensures letter.Some? ==> creation == KGot(letter.value) && !failed && !fault && log.heard == old(log.heard) + 1
      ensures letter.None? ==> creation == (if failed then KHead else KPollHead) && failed == (fault || late)
      ensures letter.None? ==> log.heard == old(log.heard)
      ensures letter.None? && !fault ==> Backlog(queue, CREATION_MSG) == []
    {
      hide Reachable, Evolves, Taken, Remaining, Backlog;
      Others(TheCreationListener);
      ghost var s := Now();
      var bodies := Taken(queue, CREATION_MSG);
      BacklogOfReceive(queue, CREATION_MSG, TERMINATION_MSG);
      if !fault && bodies != [] {
        letter, failed := Some(bodies[0]), false;
        creation, queue := KGot(bodies[0]), Remaining(queue, CREATION_MSG);
        log := log.(heard := log.heard + 1);
        s := Heard(cfg, s, false);
      } else {
        letter, failed := None, fault || late;
        creation := if failed then KHead else KPollHead;
        s := Heard(cfg, s, failed);
      }
    }

    /** receiveCreationMessage: creation messages come in the order in which they were announced. */
    method ReceiveCreation(faults: nat -> bool, naps: nat -> nat) returns (letter: Option<Letter>, polls: nat)
      requires Reachable(cfg, Now()) && creation.KPollHead?
      modifies this
      ensures Reachable(cfg, Now())
      ensures creation == if letter.Some? then KGot(letter.value) else KHead
      ensures log.heard == old(log.heard) + if letter.Some? then 1 else 0
      ensures letter.Some? ==> log.heard <= |log.announced| && letter.value == log.announced[log.heard - 1]
      ensures letter.None? && flags.running ==> polls > 0 && GivesUp(faults, naps, polls - 1)
      ensures letter.None? && flags.running && !faults(polls - 1) ==> Backlog(queue, CREATION_MSG) == []
      ensures forall k :: 0 <= k < polls - 1 ==> !GivesUp(faults, naps, k)
    {
      hide Reachable;
      var elapsed: nat := 0;
      polls := 0;
      while true
        invariant Reachable(cfg, Now()) && creation.KPollHead? && log.heard == old(log.heard)
        invariant elapsed == Elapsed(naps, polls)
        invariant forall k :: 0 <= k < polls ==> !GivesUp(faults, naps, k)
        decreases RECEIVE_LIMIT_MS + NAP_MS - elapsed
      {
        var on := CreationSeesRunning();
        if !on {
          return None, polls;
        }
        var failed;
        letter, failed := TryReceiveCreation(elapsed > RECEIVE_LIMIT_MS, faults(polls));
        polls := polls + 1;
        if letter.Some? {
          HeardIsNext(cfg, Now());
        }
        if letter.Some? || failed {
          return;
        }
        elapsed := elapsed + if naps(polls - 1) < NAP_MS then NAP_MS else naps(polls - 1);
      }
    }

    /** strToPid and findMonitor. */
    method FindAnnounced(letter: Letter, pid: int) returns (it: Option<nat>)
      requires Reachable(cfg, Now()) && creation == KGot(letter) && DecodePid(letter.text) == Some(pid)
      modifies this
      ensures Reachable(cfg, Now()) && |threads| == old(|threads|)
      ensures it.None? ==> creation.KHead? && (pid == -1 || pid !in handlers)
      ensures it.Some? ==> creation == KTest(it.value) && it.value < |children|
      ensures it.Some? ==> pid != -1 && pid in handlers && handlers[pid] == it.value
    {
      hide Reachable, Evolves, DecodePid;
      Others(TheCreationListener);
      ghost var s := Now();
      if pid == -1 || pid !in handlers {
        it, creation := None, KHead;
      } else {
        it, creation := Some(handlers[pid]), KTest(handlers[pid]);
        RegisteredChild(cfg, s, pid);
      }
      s := Heard(cfg, s, false);
    }

    /** monitoring(), tested by createMonitorThread and once more by createMonitorProcessThread. */
    method CreationSeesMonitoring(pid: int, h: nat) returns (on: bool)
      requires Reachable(cfg, Now()) && (creation == KTest(h) || creation == KRetest(h)) && h < |children|
      requires pid in handlers && handlers[pid] == h
      modifies this
      ensures Reachable(cfg, Now()) && |threads| == old(|threads|) && h < |children|
      ensures on == children[h].monitoring
      ensures creation == if on then KHead else if old(creation).KTest? then KRetest(h) else KSpawn(h)
      ensures pid in handlers && handlers[pid] == h
    {
      hide Reachable;
      Others(TheCreationListener);
      ghost var s := Now();
      on := children[h].monitoring;
      creation := if on then KHead else if creation.KTest? then KRetest(h) else KSpawn(h);
      s := Heard(cfg, s, false);
    }

    /** createMonitorThread. One thread more, on the handler registered under this pid, unless there is no such handler
        or its flag is set when it is tested. */
    method CreateMonitorThread(letter: Letter, pid: int) returns (spawned: bool)
      requires Reachable(cfg, Now()) && creation == KGot(letter) && DecodePid(letter.text) == Some(pid)
      modifies this
      ensures Reachable(cfg, Now()) && creation.KHead?
      ensures |threads| == old(|threads|) + if spawned then 1 else 0
      ensures spawned ==> pid in handlers && threads[|threads| - 1].owner == handlers[pid]
      ensures spawned ==> threads[|threads| - 1].pc.MStart?
      ensures !spawned ==> pid == -1 || pid !in handlers
                           || (handlers[pid] < |children| && children[handlers[pid]].monitoring)
    {
      hide Reachable, DecodePid, Evolves;
      var it := FindAnnounced(letter, pid);
      if it.None? {
        return false;
      }
      var on := CreationSeesMonitoring(pid, it.value);
      if !on {
        on := CreationSeesMonitoring(pid, it.value);
      }
      if on {
        return false;
      }
      Others(TheCreationListener);
      ghost var s := Now();
      threads := threads + [Thread(it.value, Clamp(log.heard - 1), MStart)];
      creation := KHead;
      s := Heard(cfg, s, false);
      return true;
    }

    /** CreateMonitoringThreads, watched for any number of turns of its loop. Called after shutdown, it ends in
        the first. */
    method CreateMonitoringThreads(turns: nat, faults: (nat, nat) -> bool, naps: (nat, nat) -> nat)
      requires Reachable(cfg, Now()) && creation.KHead?
      modifies this
      ensures Reachable(cfg, Now())
      ensures creation.KHead? || (creation.KDone? && !flags.running)
      ensures turns > 0 && !old(flags.running) ==> creation.KDone?
    {
      hide Reachable;
      for turn := 0 to turns
        invariant Reachable(cfg, Now()) && creation.KHead?
        invariant turn == 0 ==> flags == old(flags)
        invariant !old(flags.running) ==> turn == 0
      {
        var on := CreationSeesRunning();
        if !on {
          return;
        }
        var n: nat := turn;
        var letter, polls := ReceiveCreation((k: nat) => faults(n, k), (k: nat) => naps(n, k));
        if letter.None? {
          continue;
        }
        var vec := SplitString(letter.value.text, ' ');
        if |vec| < 2 {
          ghost var s := Now();
          creation := KHead;
          s := Heard(cfg, s, false);
          continue;
        }
        var spawned := CreateMonitorThread(letter.value, StrToPid(vec[1]));
      }
    }

    // ----- a monitor thread -----

    method SetMonitorPc(t: nat, pc: MonitorPc)
      requires t < |threads|
      modifies this`threads
      ensures threads == old(threads)[t := old(threads)[t].(pc := pc)]
    {
      threads := threads[t := threads[t].(pc := pc)];
    }

    /** monitor_ = true on entry, false on exit. */
    method SetMonitoring(t: nat, on: bool)
      requires Reachable(cfg, Now()) && AtPc(Now(), t, if on then MStart else MStop)
      modifies this
      ensures Reachable(cfg, Now()) && AtPc(Now(), t, if on then MHead else MDone)
      ensures threads[t].owner == old(threads[t].owner) && children[threads[t].owner].monitoring == on
      ensures flags.running ==> old(flags.running)
    {
      hide Reachable, FindUnreaped;
      Others(TheMonitor(t));
      ghost var s := Now();
      var h := threads[t].owner;
      children := children[h := children[h].(monitoring := on)];
      SetMonitorPc(t, if on then MHead else MDone);
      s := Monitored(cfg, s, t, true, false, 0);
    }

    /** The loop condition, one read at a time: running(), then monitoring(). */
    method KeepsMonitoring(t: nat) returns (on: bool)
      requires Reachable(cfg, Now()) && AtPc(Now(), t, MHead)
      modifies this
      ensures Reachable(cfg, Now()) && AtPc(Now(), t, if on then MPaused else MStop)
      ensures on ==> old(flags.running) && children[threads[t].owner].monitoring
      ensures !on ==> !flags.running || !children[threads[t].owner].monitoring
    {
      hide Reachable, FindUnreaped;
      Others(TheMonitor(t));
      ghost var s := Now();
      on := flags.running;
      SetMonitorPc(t, if on then MFlag else MStop);
      s := Monitored(cfg, s, t, true, false, 0);
      if on {
        Others(TheMonitor(t));
        s := Now();
        on := children[threads[t].owner].monitoring;
        SetMonitorPc(t, if on then MPaused else MStop);
        s := Monitored(cfg, s, t, true, false, 0);
      }
    }

    method MonitorSeesPaused(t: nat) returns (on: bool)
      requires Reachable(cfg, Now()) && AtPc(Now(), t, MPaused)
      modifies this
      ensures Reachable(cfg, Now()) && AtPc(Now(), t, if on then MHead else MProbe)
      ensures on == flags.paused
    {
      hide Reachable, FindUnreaped;
      Others(TheMonitor(t));
      ghost var s := Now();
      on := flags.paused;
      SetMonitorPc(t, if on then MHead else MProbe);
      s := Monitored(cfg, s, t, true, false, 0);
    }

    /** isProcessRunning: kill(pid, 0) finds every child that nobody has waited for, and a stranger with its pid. */
    method IsProcessRunning(t: nat, stranger: bool) returns (alive: bool)
      requires Reachable(cfg, Now()) && AtPc(Now(), t, MProbe)
      modifies this
      ensures Reachable(cfg, Now()) && AtPc(Now(), t, if alive then MWait else MStop)
      ensures alive <==> stranger || Unwaited(children, children[threads[t].owner].pid)
    {
      hide Reachable, FindUnreaped;
      Others(TheMonitor(t));
      ghost var s := Now();
      var target := FindUnreaped(children, children[threads[t].owner].pid);
      alive := stranger || target.Some?;
      SetMonitorPc(t, if alive then MWait else MStop);
      s := Monitored(cfg, s, t, alive, false, 0);
    }

    /** waitpid(pid, WNOHANG): the child collected, if there is one, and its status; `goOn` when it is still running.
        Only a child that did not exit is left to report. */
    method WaitPid(t: nat) returns (found: Option<nat>, status: WaitStatus, goOn: bool)
      requires Reachable(cfg, Now()) && AtPc(Now(), t, MWait)
      modifies this
      ensures Reachable(cfg, Now()) && t < |threads| && threads[t].owner < |children|
      ensures found.None? ==> AtPc(Now(), t, if goOn then MHead else MStop)
      ensures found.None? ==> goOn == Unwaited(children, children[threads[t].owner].pid)
      ensures found.None? ==> forall i :: 0 <= i < |children| && children[i].life.Zombie? ==>
                                            children[i].pid != children[threads[t].owner].pid
      ensures found.Some? ==> found.value < |children| && children[found.value].life == Reaped(status)
                              && children[found.value].pid == children[threads[t].owner].pid
                              && !children[found.value].reaperSent && !goOn
      ensures found.Some? ==> AtPc(Now(), t, if status.Exited? then MStop else MReport(found.value))
    {
      hide Reachable, FindUnreaped;
      Others(TheMonitor(t));
      ghost var s := Now();
      found, status := FindUnreaped(children, children[threads[t].owner].pid), Neither;
      goOn := found.Some? && !children[found.value].life.Zombie?;
      if found.Some? && !goOn {
        ZombieIsUnreported(cfg, s, found.value);
        status := children[found.value].life.status;
        children := children[found.value := children[found.value].(life := Reaped(status))];
        SetMonitorPc(t, if DisplayProcessStatus(status) != STATUS_OK then MReport(found.value) else MStop);
      } else {
        if goOn {
          OnlyUnwaited(cfg, s, found.value);
        }
        found := None;
        SetMonitorPc(t, if goOn then MHead else MStop);
      }
      s := Monitored(cfg, s, t, true, false, 0);
    }

    /** msgsnd, and the record of it. */
    method Send(msgType: int, letter: Letter)
      modifies `queue, `log
      ensures queue == old(queue) + [Message(msgType, letter)]
      ensures log == if msgType == CREATION_MSG then old(log).(announced := old(log.announced) + [letter])
                     else old(log).(sent := old(log.sent) + [letter])
    {
      queue := queue + [Message(msgType, letter)];
      log := if msgType == CREATION_MSG then log.(announced := log.announced + [letter])
             else log.(sent := log.sent + [letter]);
    }

    /** sendTerminationMessage("", pid, status): the only word of a reaper about this child. */
    method ReportDeath(t: nat, i: nat, status: int, delivered: bool)
      requires Reachable(cfg, Now()) && AtPc(Now(), t, MReport(i)) && i < |children| && IsInt32(status)
      modifies this
      ensures Reachable(cfg, Now()) && AtPc(Now(), t, MStop) && i < |children|
      ensures delivered <==> Told(log.sent, i, ItsReaper)
      ensures delivered ==> Latest(Now(), TERMINATION_MSG, log.sent,
                                   Letter(i, ItsReaper, Payload(TerminationText(children[i].pid, "", status))))
    {
      hide Reachable, FindUnreaped, Payload, TerminationText;
      Others(TheMonitor(t));
      ReaperIsSilent(cfg, Now(), t);
      if delivered {
        QueueDeath(t, i, status);
      } else {
        ghost var s := Now();
        SetMonitorPc(t, MStop);
        s := Monitored(cfg, s, t, true, false, status);
      }
    }

    method QueueDeath(t: nat, i: nat, status: int)
      requires Reachable(cfg, Now()) && AtPc(Now(), t, MReport(i)) && i < |children| && IsInt32(status)
      modifies this
      ensures Reachable(cfg, Now()) && AtPc(Now(), t, MStop) && i < |children|
      ensures Latest(Now(), TERMINATION_MSG, log.sent,
                     Letter(i, ItsReaper, Payload(TerminationText(children[i].pid, "", status))))
    {
      hide Reachable, FindUnreaped, Payload, TerminationText;
      ghost var s := Now();
      var c := children[i];
      children := children[i := c.(reaperSent := true)];
      Send(TERMINATION_MSG, Letter(i, ItsReaper, Payload(TerminationText(c.pid, "", status))));
      SetMonitorPc(t, MStop);
      s := Monitored(cfg, s, t, true, true, status);
    }

    /** Lines 76 to 96: a child that did not exit normally is reported by the thread that reaped it, and only such a
        child is. */
    method Collect(t: nat, code: int, delivered: bool) returns (found: Option<nat>, status: WaitStatus, goOn: bool)
      requires Reachable(cfg, Now()) && AtPc(Now(), t, MWait) && IsInt32(code)
      modifies this
      ensures Reachable(cfg, Now()) && AtPc(Now(), t, if goOn then MHead else MStop)
      ensures found.None? ==> goOn == Unwaited(children, children[threads[t].owner].pid)
      ensures found.Some? ==> !goOn && (Told(log.sent, found.value, ItsReaper) <==> delivered && !status.Exited?)
    {
      hide Reachable, FindUnreaped;
      found, status, goOn := WaitPid(t);
      if found.Some? {
        if status.Exited? {
          NotTold(cfg, Now(), found.value, ItsReaper);
        } else {
          ReportDeath(t, found.value, code, delivered);
        }
      }
    }

    /** monitorProcessThread, watched for any number of turns of its loop. It ends with its handler's flag cleared;
        started after shutdown, it ends in the first turn. */
    method MonitorProcessThread(t: nat, turns: nat, strangers: nat -> bool, code: int, delivered: bool)
      returns (done: bool)
      requires Reachable(cfg, Now()) && AtPc(Now(), t, MStart) && IsInt32(code)
      modifies this
      ensures Reachable(cfg, Now())
      ensures turns > 0 && !old(flags.running) ==> done
      ensures if done then AtPc(Now(), t, MDone) && !children[threads[t].owner].monitoring else AtPc(Now(), t, MHead)
    {
      hide Reachable, FindUnreaped;
      SetMonitoring(t, true);
      var looping: bool, turn: nat := true, 0;
      while looping && turn < turns
        invariant Reachable(cfg, Now()) && AtPc(Now(), t, if looping then MHead else MStop)
        invariant !old(flags.running) ==> (turn == 0 && !flags.running) || !looping
      {
        turn := turn + 1;
        looping := KeepsMonitoring(t);
        if looping {
          var paused := MonitorSeesPaused(t);
          if paused {
            continue;
          }
          looping := IsProcessRunning(t, strangers(turn));
          if looping {
            var found, status;
            found, status, looping := Collect(t, code, delivered);
          }
        }
      }
      if looping {
        return false;
      }
      SetMonitoring(t, false);
      return true;
    }

    // ----- a child and the worker that spawned it -----

    /** Any number of steps of everything but child i's own code. */
    method OthersThanChild(i: nat)
      requires Reachable(cfg, Now()) && i < |children|
      modifies this
      ensures Reachable(cfg, Now()) && i < |children| && Carries(old(children[i]), children[i])
      ensures old(log.sent) <= log.sent
    {
      hide Reachable, Enabled, Apply, ChildActs;
      var steps: int := *;
      for step := 0 to Clamp(steps)
        invariant Reachable(cfg, Now()) && i < |children| && Carries(old(children[i]), children[i])
        invariant old(log.sent) <= log.sent
      {
        var a: Action := *;
        ghost var s := Now();
        if !ChildActs(a, i) && Enabled(cfg, Now(), a) {
          OthersCarry(cfg, s, i, a);
          LogsGrow(cfg, s, a);
          ghost var next := Step(cfg, s, a);
          Become(Apply(cfg, Now(), a));
        }
      }
    }

    /** preWork: the creation message. Not `alive`: the child was killed before it could try. */
    method PreWork(i: nat, duration: string, delivered: bool) returns (alive: bool)
      requires Reachable(cfg, Now()) && i < |children| && children[i].life.Starting?
      modifies this
      ensures Reachable(cfg, Now()) && i < |children| && children[i].pid == old(children[i].pid)
      ensures if alive then children[i].life.Working? else Over(children[i].life)
      ensures alive ==> (delivered <==> Told(log.announced, i, TheChild))
      ensures alive && delivered ==> Latest(Now(), CREATION_MSG, log.announced,
                                            Letter(i, TheChild, Payload(CreationText(children[i].pid, duration))))
    {
      hide Reachable, Payload, CreationText;
      OthersThanChild(i);
      alive := !Over(children[i].life);
      if alive {
        ghost var s := Now();
        NotAnnouncedYet(cfg, s, i);
        var c := children[i];
        children := children[i := c.(life := Working)];
        if delivered {
          Send(CREATION_MSG, Letter(i, TheChild, Payload(CreationText(c.pid, duration))));
          LastIsTold(log.announced);
        }
        s := Step(cfg, s, Announce(i, delivered, duration));
      }
    }

    /** The send in postWork, left out when the parent is gone; `delivered` when it would succeed. */
    method SendOwnTermination(i: nat, duration: string, exitCode: int, hasParent: bool, delivered: bool)
      returns (alive: bool)
      requires Reachable(cfg, Now()) && i < |children| && children[i].life.Working? && !cfg.system && IsInt32(exitCode)
      modifies this
      ensures Reachable(cfg, Now()) && i < |children|
      ensures if alive then children[i].life.Leaving? else Over(children[i].life)
      ensures alive && hasParent && delivered <==> children[i].selfSent
      ensures alive && hasParent && delivered <==> Told(log.sent, i, TheChild)
      ensures alive && hasParent && delivered ==> Latest(Now(), TERMINATION_MSG, log.sent,
                Letter(i, TheChild, Payload(TerminationText(children[i].pid, duration, exitCode))))
    {
      hide Reachable, Payload, TerminationText;
      WorkingHasNotSent(cfg, Now(), i);
      OthersThanChild(i);
      ghost var s := Now();
      NotTold(cfg, s, i, TheChild);
      alive := !Over(children[i].life);
      if alive {
        var c := children[i];
        var sent := hasParent && delivered;
        children := children[i := c.(life := Leaving, selfSent := sent)];
        if sent {
          Send(TERMINATION_MSG, Letter(i, TheChild, Payload(TerminationText(c.pid, duration, exitCode))));
          LastIsTold(log.sent);
        }
        s := Step(cfg, s, Report(i, sent, duration, exitCode));
      }
    }

    /** postWork: the send, then _exit with the low byte of the code. Before either the child can still be killed. */
    method PostWork(i: nat, duration: string, exitCode: int, hasParent: bool, delivered: bool)
      returns (sent: bool, killed: bool)
      requires Reachable(cfg, Now()) && i < |children| && children[i].life.Working? && !cfg.system && IsInt32(exitCode)
      modifies this
      ensures Reachable(cfg, Now()) && i < |children|
      ensures if killed then Over(children[i].life) else children[i].life == Zombie(Exited(exitCode % 256))
      ensures sent <==> Told(log.sent, i, TheChild)
      ensures sent ==> hasParent && delivered
      ensures !killed ==> (sent <==> hasParent && delivered)
    {
      hide Reachable;
      var alive := SendOwnTermination(i, duration, exitCode, hasParent, delivered);
      sent := alive && hasParent && delivered;
      if !alive {
        return sent, true;
      }
      ghost var letters := log.sent;
      OthersThanChild(i);
      StillTold(letters, log.sent, i, TheChild);
      ghost var s := Now();
      if !sent {
        NotTold(cfg, s, i, TheChild);
      }
      killed := Over(children[i].life);
      if !killed {
        var status := Exited(exitCode % 256);
        children := children[i := children[i].(life := Zombie(status), lateKill := false)];
        s := Step(cfg, s, End(i, status));
      }
    }

    /** The blocking waitpid of the spawning worker: what it returns once the child has ended, else it still waits. */
    method WorkerWait(i: nat) returns (exitCode: Option<int>, done: bool)
      requires Reachable(cfg, Now()) && i < |children| && children[i].worker.Waiting?
      modifies this
      ensures Reachable(cfg, Now()) && i < |children|
      ensures if done then children[i].worker.Reporting? && children[i].life.Reaped?
              else children[i].worker.Waiting? && !children[i].life.Zombie? && exitCode.None?
      ensures done && children[i].life.status.Exited? ==> exitCode == Some(children[i].life.status.code)
      ensures done && children[i].life.status.Signalled? ==> exitCode == Some(children[i].life.status.signal)
      ensures done && children[i].life.status.Neither? ==> exitCode.None?
    {
      hide Reachable;
      OthersThanChild(i);
      if !children[i].life.Zombie? {
        return None, false;
      }
      ghost var s := Now();
      var status := children[i].life.status;
      children := children[i := children[i].(life := Reaped(status), worker := Reporting)];
      s := Step(cfg, s, WorkerReap(i));
      exitCode := if status.Exited? then Some(status.code) else if status.Signalled? then Some(status.signal) else None;
      done := true;
    }

    /** SystemProcess::postWork, in the worker thread: the only word about this child. */
    method WorkerPostWork(i: nat, duration: string, exitCode: int, hasParent: bool, delivered: bool)
      requires Reachable(cfg, Now()) && i < |children| && children[i].worker.Reporting? && IsInt32(exitCode)
      modifies this
      ensures Reachable(cfg, Now()) && i < |children| && children[i].worker.Gone?
      ensures hasParent && delivered <==> Told(log.sent, i, ItsReaper)
      ensures hasParent && delivered ==> Latest(Now(), TERMINATION_MSG, log.sent,
                Letter(i, ItsReaper, Payload(TerminationText(children[i].pid, duration, exitCode))))
    {
      hide Reachable, Payload, TerminationText;
      OthersThanChild(i);
      ghost var s := Now();
      WorkerIsSilent(cfg, s, i);
      var c, sent := children[i], hasParent && delivered;
      if sent {
        children := children[i := c.(worker := Gone, reaperSent := true)];
        Send(TERMINATION_MSG, Letter(i, ItsReaper, Payload(TerminationText(c.pid, duration, exitCode))));
        LastIsTold(log.sent);
      } else {
        children := children[i := c.(worker := Gone)];
      }
      s := Step(cfg, s, WorkerReport(i, sent, duration, exitCode));
    }

    // ----- the console -----

    /** running() = false, the first thing stop, terminateAll, killAll and intAll do. */
    method StopRunning()
      requires Reachable(cfg, Now())
      modifies this
      ensures Reachable(cfg, Now())
      ensures Now() == old(Now()).(flags := Flags(false, old(flags.respawn), old(flags.paused), old(flags.started)))
    {
      hide Reachable;
      ghost var s := Now();
      flags := flags.(running := false);
      s := Step(cfg, s, Stop);
    }

    method SetRespawning(on: bool)
      requires Reachable(cfg, Now())
      modifies this
      ensures Reachable(cfg, Now())
      ensures Now() == old(Now()).(flags := Flags(old(flags.running), on, old(flags.paused), old(flags.started)))
    {
      hide Reachable;
      ghost var s := Now();
      flags := flags.(respawn := on);
      s := Step(cfg, s, SetRespawn(on));
    }

    /** pauseMonitoring and continueMonitoring. */
    method SetMonitoringPaused(on: bool)
      requires Reachable(cfg, Now())
      modifies this
      ensures Reachable(cfg, Now())
      ensures Now() == old(Now()).(flags := Flags(old(flags.running), old(flags.respawn), on, old(flags.started)))
    {
      hide Reachable;
      ghost var s := Now();
      flags := flags.(paused := on);
      s := Step(cfg, s, SetPaused(on));
    }

    // ----- start -----

    /** initializeController: the first batch, before any thread exists. Not `ok`: the kernel refused the child after
        those launched, which ends the program. */
    method InitializeController() returns (ok: bool, launched: nat)
      requires Now() == Init(cfg)
      modifies this
      ensures Reachable(cfg, Now())
      ensures ok ==> creator.CWaiting? && !flags.started && |children| == launched == Clamp(cfg.limit)
      ensures ok ==> AsOffered(children, pidOf, 0)
      ensures !ok ==> launched < cfg.limit && Refused(cfg, Now(), pidOf(launched))
    {
      hide Reachable, Batch, Refused, AsOffered;
      InitReachable(cfg);
      ghost var s := Now();
      var pids;
      ok, pids := CreateHandlers(cfg.limit);
      launched := |pids|;
      if ok {
        BatchLaunched(s, Now(), pids);
        EndBatch();
      }
    }

    /** startThreads */
    method StartThreads()
      requires Reachable(cfg, Now()) && creator.CWaiting? && !flags.started
      modifies this
      ensures Reachable(cfg, Now())
      ensures flags.started && creator.CHead? && creation.KHead? && termination.THead?
    {
      hide Reachable;
      ghost var s := Now();
      flags := flags.(started := true);
      creator, creation, termination := CHead, KHead, THead;
      s := Step(cfg, s, Action.StartThreads);
    }
  }

  // ---------- what has been said about a child ----------

  /** A message about child i from this sender is on record. */
  ghost predicate Told(letters: seq<Letter>, i: nat, sender: Sender) {
    exists k :: 0 <= k < |letters| && letters[k].from == i && letters[k].sender == sender
  }

  /** The letter is the last one queued, under this type, and the last one on its record. */
  predicate Latest(s: State, msgType: int, letters: seq<Letter>, letter: Letter) {
    && s.queue != [] && s.queue[|s.queue| - 1] == Message(msgType, letter)
    && letters != [] && letters[|letters| - 1] == letter
  }

  lemma LastIsTold(letters: seq<Letter>)
    requires letters != []
    ensures Told(letters, letters[|letters| - 1].from, letters[|letters| - 1].sender)
  {
  }

  lemma StillTold(before: seq<Letter>, after: seq<Letter>, i: nat, sender: Sender)
    requires before <= after
    ensures Told(before, i, sender) ==> Told(after, i, sender)
  {
    assert forall k :: 0 <= k < |before| ==> after[k] == before[k];
  }

  /** A child without the mark of a sender has no message from that sender. */
  lemma NotTold(cfg: Config, s: State, i: nat, sender: Sender)
    requires Reachable(cfg, s) && i < |s.children| && !Flagged(s.children[i], sender)
    ensures !Told(s.log.sent, i, sender)
  {
    ReachableInv(cfg, s);
    forall k | 0 <= k < |s.log.sent| ensures s.log.sent[k].from != i || s.log.sent[k].sender != sender {
      SentPart(cfg, s, k);
    }
  }

  lemma WorkingHasNotSent(cfg: Config, s: State, i: nat)
    requires Reachable(cfg, s) && i < |s.children| && s.children[i].life.Working?
    ensures !s.children[i].selfSent
  {
    ReachableInv(cfg, s);
    ChildIsOk(cfg, s, i);
  }

  lemma WorkerIsSilent(cfg: Config, s: State, i: nat)
    requires Reachable(cfg, s) && i < |s.children| && s.children[i].worker.Reporting?
    ensures !Told(s.log.sent, i, ItsReaper)
  {
    ReachableInv(cfg, s);
    ChildIsOk(cfg, s, i);
    NotTold(cfg, s, i, ItsReaper);
  }

  lemma ReaperIsSilent(cfg: Config, s: State, t: nat)
    requires Reachable(cfg, s) && t < |s.threads| && s.threads[t].pc.MReport?
    ensures !Told(s.log.sent, s.threads[t].pc.child, ItsReaper)
  {
    ReachableInv(cfg, s);
    OwedByOne(cfg, s, t);
    NotTold(cfg, s, s.threads[t].pc.child, ItsReaper);
  }

  lemma NotAnnouncedYet(cfg: Config, s: State, i: nat)
    requires Reachable(cfg, s) && i < |s.children| && s.children[i].life.Starting?
    ensures !Told(s.log.announced, i, TheChild)
  {
    ReachableInv(cfg, s);
    hide ChildrenOk, CreatorOk, SentOk, TerminationOk, CreationOk, RegistryOk, MarksOk, ThreadsOk, ReportersOk;
    Unpack(cfg, s);
  }

  lemma HeldIsOldest(cfg: Config, s: State)
    requires Reachable(cfg, s) && s.termination.TGot?
    ensures s.log.consumed < |s.log.sent| && s.termination.letter == s.log.sent[s.log.consumed]
  {
    ReachableInv(cfg, s);
    hide ChildrenOk, CreatorOk, SentOk, AnnouncedOk, CreationOk, RegistryOk, MarksOk, ThreadsOk, ReportersOk;
    Unpack(cfg, s);
  }

  lemma HeardIsNext(cfg: Config, s: State)
    requires Reachable(cfg, s) && s.creation.KGot?
    ensures 0 < s.log.heard <= |s.log.announced| && s.creation.letter == s.log.announced[s.log.heard - 1]
  {
    ReachableInv(cfg, s);
    hide ChildrenOk, CreatorOk, SentOk, TerminationOk, AnnouncedOk, RegistryOk, MarksOk, ThreadsOk, ReportersOk;
    Unpack(cfg, s);
  }

  /** Thread t runs on a child's handler and is at this point of monitorProcessThread. */
  predicate AtPc(s: State, t: nat, pc: MonitorPc) {
    t < |s.threads| && s.threads[t].pc == pc && s.threads[t].owner < |s.children|
  }

  lemma BatchLaunched(s: State, s': State, pids: seq<int>)
    requires Batch(s, s', pids)
    ensures |s'.children| == |s.children| + |pids| && s'.flags.started == s.flags.started
  {
  }

  /** From index `first` on, every child has the pid that the kernel offered for it. */
  ghost predicate AsOffered(children: seq<Child>, pidOf: nat -> int, first: nat) {
    forall i :: first <= i < |children| ==> children[i].pid == pidOf(i)
  }

  lemma NoPidsYet(children: seq<Child>, pidOf: nat -> int)
    ensures AsOffered(children, pidOf, |children|)
  {
  }

  lemma PidsGrow(s: State, s': State, pidOf: nat -> int, first: nat)
    requires Batch(s, s', [pidOf(|s.children|)]) && AsOffered(s.children, pidOf, first)
    ensures AsOffered(s'.children, pidOf, first)
  {
    assert s'.children[|s.children| + 0].pid == pidOf(|s.children|);
  }

  /** Some child with this pid has not been waited for. */
  predicate Unwaited(children: seq<Child>, pid: int) {
    exists i :: 0 <= i < |children| && children[i].pid == pid && !children[i].life.Reaped?
  }

  /** No two children that have not been waited for share a pid. */
  lemma OnlyUnwaited(cfg: Config, s: State, i: nat)
    requires Reachable(cfg, s) && i < |s.children| && !s.children[i].life.Reaped?
    ensures forall j :: 0 <= j < |s.children| && j != i && !s.children[j].life.Reaped? ==>
                          s.children[j].pid != s.children[i].pid
  {
    ReachableInv(cfg, s);
    hide CreatorOk, SentOk, TerminationOk, AnnouncedOk, CreationOk, RegistryOk, MarksOk, ThreadsOk, ReportersOk;
    Unpack(cfg, s);
  }

  lemma ZombieIsUnreported(cfg: Config, s: State, i: nat)
    requires Reachable(cfg, s) && i < |s.children| && s.children[i].life.Zombie?
    ensures !s.children[i].reaperSent
  {
    ReachableInv(cfg, s);
    ChildIsOk(cfg, s, i);
  }

  /** Time spent in the first k naps, each of at least NAP_MS. */
  function Elapsed(naps: nat -> nat, k: nat): nat {
    if k == 0 then 0 else Elapsed(naps, k - 1) + if naps(k - 1) < NAP_MS then NAP_MS else naps(k - 1)
  }

  lemma NoNaps(naps: nat -> nat)
    ensures Elapsed(naps, 0) == 0
  {
  }

  lemma OneMoreNap(naps: nat -> nat, k: nat)
    ensures Elapsed(naps, k + 1) == Elapsed(naps, k) + if naps(k) < NAP_MS then NAP_MS else naps(k)
  {
  }

  /** A poll without a message is the last one: msgrcv failed, or the time is up. */
  predicate GivesUp(faults: nat -> bool, naps: nat -> nat, k: nat) {
    faults(k) || Elapsed(naps, k) > RECEIVE_LIMIT_MS
  }

  /** Handler h is registered under this pid. */
  predicate Registered(s: State, pid: int, h: nat) {
    pid in s.handlers && s.handlers[pid] == h && h < |s.children|
  }

  /** The marks stay, and so many counted messages more have missed. */
  predicate SameMarks(s: State, s': State, missed: nat) {
    && s'.deceased == s.deceased && s'.log.markedBy == s.log.markedBy
    && s'.log.consumed == s.log.consumed && s'.log.misses == s.log.misses + missed
  }

  lemma MarksKept(s: State)
    ensures SameMarks(s, s, 0)
  {
  }

  lemma MarksKeptTwice(s: State, s': State, s'': State, missed: nat)
    requires SameMarks(s, s', 0) && SameMarks(s', s'', missed)
    ensures SameMarks(s, s'', missed)
  {
  }

  lemma RegisteredChild(cfg: Config, s: State, pid: int)
    requires Reachable(cfg, s) && pid in s.handlers
    ensures s.handlers[pid] < |s.children|
  {
    ReachableInv(cfg, s);
    HandlersPart(cfg, s);
  }

  lemma EmptyBatch(s: State)
    requires s.creator.CLaunch?
    ensures Batch(s, s, [])
  {
  }

  lemma BatchLeft(s: State, s': State, pids: seq<int>)
    requires Batch(s, s', pids)
    ensures s.creator.CLaunch? && s'.creator.CLaunch? && s'.creator.left + |pids| == s.creator.left
    ensures s'.flags.started == s.flags.started
  {
  }
}

/** Where the guarantees end: pieces of runs that can be strung together, and how far the number of children can
    overshoot. */
module SupervisorLimits {
  import opened Common
  import opened Decimal
  import opened Messages
  import opened TypedQueue
  import opened Registry
  import opened Supervisor
  import opened SupervisorInvariant
  import opened SupervisorCapacity
  import opened SupervisorFrames

  // ---------- pieces of runs ----------

  /** A listener that finds a message polls once and receives it. */
  lemma HearsFirst(cfg: Config, s: State) returns (next: State)
    requires Reachable(cfg, s) && s.flags.running && s.creation.KHead? && Taken(s.queue, CREATION_MSG) != []
    ensures Reachable(cfg, next)
    ensures next == s.(creation := KGot(Taken(s.queue, CREATION_MSG)[0]), queue := Remaining(s.queue, CREATION_MSG),
                       log := s.log.(heard := s.log.heard + 1))
  {
    hide Reachable, Taken, Remaining;
    next := Heard(cfg, s, false);
    next := Heard(cfg, next, false);
    next := Heard(cfg, next, false);
  }

  lemma CountsFirst(cfg: Config, s: State, pid: int) returns (next: State)
    requires Reachable(cfg, s) && s.flags.running && s.termination.THead? && Taken(s.queue, TERMINATION_MSG) != []
    requires DecodePid(Taken(s.queue, TERMINATION_MSG)[0].text) == Some(pid)
    ensures Reachable(cfg, next)
    ensures next == s.(termination := TLookup(pid), queue := Remaining(s.queue, TERMINATION_MSG),
                       counter := s.counter - 1, log := s.log.(consumed := s.log.consumed + 1))
  {
    hide Reachable, Taken, Remaining, DecodePid;
    next := Listened(cfg, s, false);
    next := Listened(cfg, next, false);
    next := Listened(cfg, next, false);
    next := Listened(cfg, next, false);
  }

  /** The listener marks a pid whose handler has no monitor thread running. */
  lemma MarksFound(cfg: Config, s: State, pid: int) returns (next: State)
    requires Reachable(cfg, s) && s.termination == TLookup(pid) && pid != -1
    requires pid in s.handlers && s.handlers[pid] < |s.children| && !s.children[s.handlers[pid]].monitoring
    ensures Reachable(cfg, next)
    ensures next == s.(termination := THead, deceased := Marked(s.handlers, s.deceased, pid), log := next.log)
  {
    hide Reachable, DecodePid;
    next := Listened(cfg, s, false);
    next := Listened(cfg, next, false);
    next := Listened(cfg, next, false);
    next := Listened(cfg, next, false);
  }

  /** Counting and marking: one pass of the termination listener over the first letter of the queue. */
  lemma HandlesFirst(cfg: Config, s: State, letter: Letter, rest: seq<Message<Letter>>, pid: int) returns (next: State)
    requires Reachable(cfg, s) && s.flags.running && s.termination.THead?
    requires s.queue == [Message(TERMINATION_MSG, letter)] + rest && DecodePid(letter.text) == Some(pid)
    requires pid > 0 && pid in s.handlers && s.handlers[pid] < |s.children| && !s.children[s.handlers[pid]].monitoring
    ensures Reachable(cfg, next)
    ensures next == s.(queue := rest, counter := s.counter - 1, deceased := Marked(s.handlers, s.deceased, pid),
                       log := next.log)
  {
    hide Reachable, DecodePid, Marked;
    HeadIsTaken(Message(TERMINATION_MSG, letter), rest);
    next := CountsFirst(cfg, s, pid);
    next := MarksFound(cfg, next, pid);
  }

  /** Child v announces itself, and the creation listener spawns a thread on the handler registered for its pid. */
  lemma Announces(cfg: Config, s: State, v: nat) returns (next: State)
    requires Reachable(cfg, s) && s.flags.running && s.creation.KHead? && s.queue == []
    requires v < |s.children| && s.children[v].life.Starting? && 0 < s.children[v].pid <= INT_MAX
    requires var pid := s.children[v].pid;
      pid in s.handlers && s.handlers[pid] < |s.children| && !s.children[s.handlers[pid]].monitoring
    ensures Reachable(cfg, next)
    ensures next == s.(children := s.children[v := s.children[v].(life := Working)], threads := next.threads,
                       log := next.log)
    ensures |next.threads| == |s.threads| + 1 && next.threads[..|s.threads|] == s.threads
    ensures var thread := next.threads[|s.threads|];
      thread.owner == s.handlers[s.children[v].pid] && thread.pc == MStart
  {
    hide Reachable, DecodePid, Payload, CreationText;
    var pid := s.children[v].pid;
    var letter := Letter(v, TheChild, Payload(CreationText(pid, "")));
    CreationRoundTrip(pid, "");
    next := Step(cfg, s, Announce(v, true, ""));
    assert next.queue == [Message(CREATION_MSG, letter)] + [];
    HeadIsTaken(Message(CREATION_MSG, letter), []);
    next := HearsFirst(cfg, next);
    next := Heard(cfg, next, false);
    next := Heard(cfg, next, false);
    next := Heard(cfg, next, false);
    next := Heard(cfg, next, false);
  }

  function Goodbye(v: nat, pid: int): Letter {
    Letter(v, TheChild, Payload(TerminationText(pid, "", 0)))
  }

  /** A working child tries its own termination message and then ends. */
  lemma Leaves(cfg: Config, s: State, v: nat, delivered: bool, status: WaitStatus) returns (next: State)
    requires Reachable(cfg, s) && v < |s.children| && s.children[v].life.Working? && !cfg.system
    ensures Reachable(cfg, next)
    ensures var c := s.children[v];
      next == s.(children := s.children[v := c.(life := Zombie(status), selfSent := delivered,
                                                lateKill := Abnormal(Zombie(status)))],
                 queue := if delivered then s.queue + [Message(TERMINATION_MSG, Goodbye(v, c.pid))] else s.queue,
                 log := next.log)
  {
    hide Reachable, Payload, TerminationText, Abnormal;
    next := Step(cfg, s, Report(v, delivered, "", 0));
    next := Step(cfg, next, End(v, status));
  }

  /** A new monitor thread finds its child dead and reaps it. */
  lemma Reaps(cfg: Config, s: State, t: nat, v: nat) returns (next: State)
    requires Reachable(cfg, s) && s.flags.running && !s.flags.paused
    requires t < |s.threads| && s.threads[t].owner == v && s.threads[t].pc == MStart
    requires v < |s.children| && s.children[v].life.Zombie?
    ensures Reachable(cfg, next)
    ensures var life := Reaped(s.children[v].life.status);
      next == s.(children := s.children[v := s.children[v].(life := life, monitoring := true)],
                 threads := s.threads[t := s.threads[t].(pc := if Abnormal(life) then MReport(v) else MStop)])
  {
    hide Reachable, FindUnreaped;
    next := Monitored(cfg, s, t, true, true, 9);
    next := Monitored(cfg, next, t, true, true, 9);
    next := Monitored(cfg, next, t, true, true, 9);
    next := Monitored(cfg, next, t, true, true, 9);
    next := Monitored(cfg, next, t, true, true, 9);
    OnlyUnreaped(cfg, next, v);
    next := Monitored(cfg, next, t, true, true, 9);
  }

  /** waitpid on the pid of a child that nobody has waited for finds that child. */
  lemma OnlyUnreaped(cfg: Config, s: State, v: nat)
    requires Reachable(cfg, s) && v < |s.children| && !s.children[v].life.Reaped?
    ensures FindUnreaped(s.children, s.children[v].pid) == Some(v)
    ensures forall i :: 0 <= i < |s.children| && i != v && s.children[i].pid == s.children[v].pid
              ==> s.children[i].life.Reaped?
  {
    ReachableInv(cfg, s);
    hide CreatorOk, SentOk, TerminationOk, AnnouncedOk, CreationOk, RegistryOk, MarksOk, ThreadsOk, ReportersOk;
    Unpack(cfg, s);
  }

  /** The thread clears its handler's flag and is gone. */
  lemma MonitorEnds(cfg: Config, s: State, t: nat) returns (next: State)
    requires Reachable(cfg, s) && t < |s.threads| && s.threads[t].pc == MStop && s.threads[t].owner < |s.children|
    ensures Reachable(cfg, next)
    ensures var v := s.threads[t].owner;
      next == s.(children := s.children[v := s.children[v].(monitoring := false)],
                 threads := s.threads[t := s.threads[t].(pc := MDone)])
  {
    hide Reachable, FindUnreaped;
    next := Monitored(cfg, s, t, true, true, 9);
  }

  /** The thread reports the death of the child it reaped. */
  lemma MonitorTells(cfg: Config, s: State, t: nat, v: nat) returns (next: State)
    requires Reachable(cfg, s) && t < |s.threads| && s.threads[t].pc == MReport(v)
    requires v < |s.children| && s.threads[t].owner < |s.children|
    ensures Reachable(cfg, next)
    ensures var letter := Letter(v, ItsReaper, Payload(TerminationText(s.children[v].pid, "", 9)));
      next == s.(children := s.children[v := s.children[v].(reaperSent := true)],
                 threads := s.threads[t := s.threads[t].(pc := MStop)],
                 queue := s.queue + [Message(TERMINATION_MSG, letter)], log := next.log)
  {
    hide Reachable, FindUnreaped, Payload, TerminationText;
    next := Monitored(cfg, s, t, true, true, 9);
  }

  /** The creator sees a free place and sizes a batch. */
  lemma SizesBatch(cfg: Config, s: State) returns (next: State)
    requires Reachable(cfg, s) && s.creator.CHead? && s.counter < cfg.limit
    requires s.flags.running && s.flags.respawn && !s.flags.paused
    ensures Reachable(cfg, next)
    ensures next == s.(creator := CLaunch(cfg.limit - s.counter), log := next.log)
  {
    hide Reachable;
    next := Created(cfg, s);
    next := Created(cfg, next);
    next := Created(cfg, next);
    next := Created(cfg, next);
    next := Created(cfg, next);
    next := Created(cfg, next);
  }

  /** One turn of createHandlers. */
  lemma LaunchesOne(cfg: Config, s: State, pid: int) returns (next: State)
    requires Reachable(cfg, s) && CanLaunch(cfg, s, pid)
    ensures Reachable(cfg, next)
    ensures next == s.(children := s.children + [NewChild(pid, cfg.system)], counter := s.counter + 1,
                       handlers := Added(s.handlers, pid, |s.children|), creator := CLaunch(s.creator.left - 1))
  {
    hide Reachable, FindUnreaped;
    next := Launched(cfg, s, pid);
    next := Created(cfg, next);
    next := Created(cfg, next);
  }

  lemma BatchEnds(cfg: Config, s: State) returns (next: State)
    requires Reachable(cfg, s) && s.creator == CLaunch(0) && s.flags.started
    ensures Reachable(cfg, next) && next == s.(creator := CHead)
  {
    hide Reachable;
    next := Created(cfg, s);
  }

  /** From the end of the first batch to three threads at the top of their loops. */
  lemma Starts(cfg: Config, s: State) returns (next: State)
    requires Reachable(cfg, s) && s.creator == CLaunch(0) && !s.flags.started
    ensures Reachable(cfg, next)
    ensures next == s.(flags := s.flags.(started := true), creator := CHead, creation := KHead, termination := THead)
  {
    hide Reachable;
    next := Created(cfg, s);
    next := Step(cfg, next, StartThreads);
  }

  // ---------- the first batch ----------

  /** n freshly launched children with the first n pids. */
  function Kids(cfg: Config, n: nat): (kids: seq<Child>)
    ensures |kids| == n
    ensures forall i :: 0 <= i < n ==> kids[i] == NewChild(cfg.minPid + i, cfg.system)
  {
    seq(n, i => NewChild(cfg.minPid + i, cfg.system))
  }

  function KidHandlers(cfg: Config, n: nat): (m: map<int, nat>)
    ensures forall p :: p in m <==> cfg.minPid <= p < cfg.minPid + n
    ensures forall p :: p in m ==> m[p] == p - cfg.minPid
  {
    if n == 0 then map[] else KidHandlers(cfg, n - 1)[cfg.minPid + n - 1 := n - 1]
  }

  /** The state of initializeController after k of its launches. */
  function Begun(cfg: Config, k: nat): State
    requires k <= Clamp(cfg.limit)
  {
    Init(cfg).(counter := k, children := Kids(cfg, k), handlers := KidHandlers(cfg, k),
               creator := CLaunch(Clamp(cfg.limit) - k))
  }

  lemma {:induction false} BegunReachable(cfg: Config, k: nat)
    requires k <= Clamp(cfg.limit) && k <= PidSpace(cfg)
    ensures Reachable(cfg, Begun(cfg, k))
  {
    hide Reachable;
    if k == 0 {
      assert Kids(cfg, 0) == [] && KidHandlers(cfg, 0) == map[];
      InitReachable(cfg);
    } else {
      BegunReachable(cfg, k - 1);
      var next := LaunchesOne(cfg, Begun(cfg, k - 1), cfg.minPid + k - 1);
      assert next.children == Kids(cfg, k);
    }
  }

  lemma {:induction false} TotalFull(tally: Tally, children: seq<Child>)
    requires forall i :: 0 <= i < |children| ==> Weight(tally, children[i]) == 1
    ensures Total(tally, children) == |children|
  {
    if children == [] {
    } else {
      TotalFull(tally, children[..|children| - 1]);
    }
  }

  /** All threads at the top of their loops and nothing queued. */
  predicate AtEase(s: State) {
    && s.flags == Flags(true, true, false, true) && s.queue == []
    && s.creator == CHead && s.creation == KHead && s.termination == THead
  }

  /** The first batch is complete and everything has started. */
  lemma House(cfg: Config) returns (s: State)
    requires 0 < cfg.limit <= PidSpace(cfg)
    ensures Reachable(cfg, s) && AtEase(s) && s.counter == cfg.limit && s.threads == [] && s.deceased == {}
    ensures s.children == Kids(cfg, cfg.limit) && s.handlers == KidHandlers(cfg, cfg.limit)
  {
    hide Reachable;
    BegunReachable(cfg, cfg.limit);
    s := Starts(cfg, Begun(cfg, cfg.limit));
  }

  // ---------- one child too many, again and again ----------

  /** No pid above `top` is in use, and the child with pid `top` is new and registered. */
  ghost predicate NewestIs(s: State, top: int, v: nat) {
    && v < |s.children| && s.children[v] == NewChild(top, false)
    && top in s.handlers && s.handlers[top] == v
    && (forall i :: 0 <= i < |s.children| ==> s.children[i].pid <= top)
    && (forall p :: p in s.handlers ==> p <= top)
  }

  /** k late kills have made room for k children too many. */
  ghost predicate Overfull(cfg: Config, s: State, k: nat, v: nat) {
    && Reachable(cfg, s) && AtEase(s) && s.counter == cfg.limit
    && NewestIs(s, cfg.minPid + cfg.limit - 1 + k, v)
    && Total(Unfinished, s.children) == cfg.limit + k && Total(LateKills, s.children) == k
  }

  lemma FullHouse(cfg: Config) returns (s: State)
    requires 0 < cfg.limit <= PidSpace(cfg) && !cfg.system
    ensures Overfull(cfg, s, 0, cfg.limit - 1) && s.children == Kids(cfg, cfg.limit) && s.threads == []
  {
    hide Reachable, Total;
    s := House(cfg);
    TotalFull(Unfinished, s.children);
    TotalZero(LateKills, s.children);
  }

  /** A child killed by a signal between its own termination message and _exit, once its reaper has reported it too. */
  function Doubly(pid: int): Child {
    Child(pid, Reaped(Signalled(9)), NoWorker, false, true, true, true)
  }

  function Obituary(v: nat, pid: int): Letter {
    Letter(v, ItsReaper, Payload(TerminationText(pid, "", 9)))
  }

  /** The same child while its monitor thread has not looked yet. */
  function Struck(pid: int): Child {
    Child(pid, Zombie(Signalled(9)), NoWorker, false, true, false, true)
  }

  lemma StruckLate(cfg: Config, s: State, v: nat) returns (next: State)
    requires Reachable(cfg, s) && AtEase(s) && !cfg.system
    requires v < |s.children| && s.children[v] == NewChild(s.children[v].pid, false)
    requires 0 < s.children[v].pid <= INT_MAX && s.children[v].pid in s.handlers && s.handlers[s.children[v].pid] == v
    ensures Reachable(cfg, next)
    ensures var pid := s.children[v].pid;
      next == s.(children := s.children[v := Struck(pid)], threads := next.threads, log := next.log,
                 queue := [Message(TERMINATION_MSG, Goodbye(v, pid))])
    ensures |next.threads| == |s.threads| + 1
    ensures next.threads[|s.threads|].owner == v && next.threads[|s.threads|].pc == MStart
  {
    hide Reachable, Goodbye;
    next := Announces(cfg, s, v);
    next := Leaves(cfg, next, v, true, Signalled(9));
    assert next.queue == [Message(TERMINATION_MSG, Goodbye(v, s.children[v].pid))];
    assert next.children == s.children[v := Struck(s.children[v].pid)];
  }

  lemma ReportedTwice(cfg: Config, s: State, v: nat) returns (next: State)
    requires Reachable(cfg, s) && AtEase(s) && !cfg.system
    requires v < |s.children| && s.children[v] == NewChild(s.children[v].pid, false)
    requires 0 < s.children[v].pid <= INT_MAX && s.children[v].pid in s.handlers && s.handlers[s.children[v].pid] == v
    ensures Reachable(cfg, next)
    ensures var pid := s.children[v].pid;
      next == s.(children := s.children[v := Doubly(pid)], threads := next.threads, log := next.log,
                 queue := [Message(TERMINATION_MSG, Goodbye(v, pid)), Message(TERMINATION_MSG, Obituary(v, pid))])
  {
    hide Reachable, Goodbye, Payload, TerminationText;
    var pid, t := s.children[v].pid, |s.threads|;
    next := StruckLate(cfg, s, v);
    next := Reaps(cfg, next, t, v);
    next := MonitorTells(cfg, next, t, v);
    next := MonitorEnds(cfg, next, t);
    assert next.children == s.children[v := Doubly(pid)];
  }

  lemma CountedTwice(cfg: Config, s: State, v: nat) returns (next: State)
    requires Reachable(cfg, s) && AtEase(s) && !cfg.system
    requires v < |s.children| && s.children[v] == NewChild(s.children[v].pid, false)
    requires 0 < s.children[v].pid <= INT_MAX && s.children[v].pid in s.handlers && s.handlers[s.children[v].pid] == v
    ensures Reachable(cfg, next)
    ensures next == s.(children := s.children[v := Doubly(s.children[v].pid)], counter := s.counter - 2,
                       threads := next.threads, deceased := next.deceased, log := next.log)
  {
    hide Reachable, Payload, TerminationText, DecodePid, Marked;
    var pid := s.children[v].pid;
    var first, second := Goodbye(v, pid), Obituary(v, pid);
    TerminationRoundTrip(pid, "", 0);
    TerminationRoundTrip(pid, "", 9);
    next := ReportedTwice(cfg, s, v);
    next := HandlesFirst(cfg, next, first, [Message(TERMINATION_MSG, second)], pid);
    next := HandlesFirst(cfg, next, second, [], pid);
  }

  /** The one death makes room for two. */
  lemma OneMore(cfg: Config, s: State, k: nat, v: nat) returns (next: State)
    requires Overfull(cfg, s, k, v) && 0 < cfg.limit && cfg.limit + k < PidSpace(cfg) && !cfg.system
    ensures Overfull(cfg, next, k + 1, |s.children|)
  {
    hide Reachable, Total;
    var pid := cfg.minPid + cfg.limit - 1 + k;
    OnlyUnreaped(cfg, s, v);
    next := CountedTwice(cfg, s, v);
    next := SizesBatch(cfg, next);
    next := LaunchesOne(cfg, next, pid + 1);
    next := LaunchesOne(cfg, next, pid);
    next := BatchEnds(cfg, next);
    var dead, newer, again := Doubly(pid), NewChild(pid + 1, false), NewChild(pid, false);
    assert next.children == s.children[v := dead] + [newer] + [again];
    OneMoreCounts(Unfinished, s.children, v, dead, newer, again);
    OneMoreCounts(LateKills, s.children, v, dead, newer, again);
  }

  lemma OneMoreCounts(tally: Tally, children: seq<Child>, v: nat, dead: Child, newer: Child, again: Child)
    requires v < |children|
    ensures Total(tally, children[v := dead] + [newer] + [again])
         == Total(tally, children) - Weight(tally, children[v]) + Weight(tally, dead) + Weight(tally, newer)
            + Weight(tally, again)
  {
    TotalUpdate(tally, children, v, dead);
    TotalAppend(tally, children[v := dead], newer);
    TotalAppend(tally, children[v := dead] + [newer], again);
  }

  lemma {:induction false} OverfullReachable(cfg: Config, k: nat) returns (s: State, v: nat)
    requires 0 < cfg.limit && cfg.limit + k <= PidSpace(cfg) && !cfg.system
    ensures Overfull(cfg, s, k, v)
  {
    hide Overfull;
    if k == 0 {
      s := FullHouse(cfg);
      v := cfg.limit - 1;
    } else {
      var before, w := OverfullReachable(cfg, k - 1);
      s := OneMore(cfg, before, k - 1, w);
      v := |before.children|;
    }
  }

  /** The bound of CapacityOfRun is attained: as long as there are pids, k late kills can lead to k children too
      many. */
  lemma OvershootIsTight(cfg: Config, k: nat) returns (run: seq<Action>)
    requires 0 < cfg.limit && cfg.limit + k <= PidSpace(cfg) && !cfg.system
    ensures Legal(cfg, Init(cfg), run) && CountLateKills(cfg, Init(cfg), run) == k
    ensures Total(Unfinished, Exec(cfg, Init(cfg), run).children) == cfg.limit + k
  {
    hide AtEase, NewestIs;
    var s, v := OverfullReachable(cfg, k);
    run :| Legal(cfg, Init(cfg), run) && Exec(cfg, Init(cfg), run) == s;
    InitInv(cfg);
    LateKillsAreCounted(cfg, Init(cfg), run);
  }

  // ---------- exactly which configurations keep the bound ----------

  /** In every run, the children that have not finished fit into numProcesses. */
  ghost predicate KeepsCapacity(cfg: Config) {
    forall s :: Reachable(cfg, s) ==> Total(Unfinished, s.children) <= Clamp(cfg.limit)
  }

  function UnreapedPids(children: seq<Child>): (pids: set<int>)
    ensures forall p :: p in pids ==> exists i :: 0 <= i < |children| && children[i].pid == p
                                                  && !children[i].life.Reaped?
  {
    if children == [] then {}
    else
      var rest, last := UnreapedPids(children[..|children| - 1]), children[|children| - 1];
      if last.life.Reaped? then rest else rest + {last.pid}
  }

  /** No two uncollected children share a pid, and the unfinished ones are uncollected. */
  lemma {:induction false} PidsCountUnreaped(children: seq<Child>)
    requires forall i, j :: 0 <= i < j < |children| && !children[i].life.Reaped? && !children[j].life.Reaped?
               ==> children[i].pid != children[j].pid
    ensures |UnreapedPids(children)| == |children| - Total(Collected, children)
    ensures Total(Unfinished, children) <= |children| - Total(Collected, children)
  {
    if children == [] {
    } else {
      var rest, last := children[..|children| - 1], children[|children| - 1];
      assert forall i :: 0 <= i < |rest| ==> rest[i] == children[i];
      PidsCountUnreaped(rest);
      assert !last.life.Reaped? ==> last.pid !in UnreapedPids(rest);
    }
  }

  lemma {:induction false} RangeSize(pids: set<int>, first: int, n: nat)
    requires forall p :: p in pids ==> first <= p < first + n
    ensures |pids| <= n
  {
    if n == 0 {
      if pids != {} {
        var p := SomeMember(pids);
        assert false;
      }
    } else {
      var last := first + n - 1;
      RangeSize(pids - {last}, first, n - 1);
      assert pids <= (pids - {last}) + {last};
    }
  }

  /** There are never more uncollected children than pids. */
  lemma PidsRunOut(cfg: Config, s: State)
    requires Inv(cfg, s)
    ensures |s.children| - Total(Collected, s.children) <= PidSpace(cfg)
    ensures Total(Unfinished, s.children) <= PidSpace(cfg)
  {
    hide Total;
    Unpack(cfg, s);
    PidsCountUnreaped(s.children);
    assert forall i :: 0 <= i < |s.children| ==> ChildOk(cfg, s.children[i]);
    RangeSize(UnreapedPids(s.children), cfg.minPid, PidSpace(cfg));
  }

  /** A system child never leaves between a send of its own and _exit, so it is reported once. */
  lemma SystemChildrenReportOnce(cfg: Config, s: State)
    requires Reachable(cfg, s) && cfg.system
    ensures Total(Doubled, s.children) == 0
  {
    ReachableInv(cfg, s);
    ChildrenAreOk(cfg, s);
    TotalZero(Doubled, s.children);
  }

  /** System processes always fit into numProcesses. Forked ones do in every run only if none may be started or
      there are no more pids than places: a kill between a child's own termination message and its _exit makes the
      monitor thread send a second one, and the next batch overshoots. */
  lemma CapacityHoldsExactly(cfg: Config)
    ensures KeepsCapacity(cfg) <==> cfg.system || cfg.limit <= 0 || cfg.limit >= PidSpace(cfg)
  {
    hide Reachable, Total;
    if !cfg.system && 0 < cfg.limit < PidSpace(cfg) {
      var s, v := OverfullReachable(cfg, 1);
      assert Reachable(cfg, s);
    } else {
      forall s | Reachable(cfg, s) ensures Total(Unfinished, s.children) <= Clamp(cfg.limit) {
        FitsCapacity(cfg, s);
      }
    }
  }

  lemma FitsCapacity(cfg: Config, s: State)
    requires Reachable(cfg, s)
    requires cfg.system || cfg.limit <= 0 || cfg.limit >= PidSpace(cfg)
    ensures Total(Unfinished, s.children) <= Clamp(cfg.limit)
  {
    if cfg.system {
      SystemChildrenReportOnce(cfg, s);
      Capacity(cfg, s);
    } else if cfg.limit <= 0 {
      ReachableInv(cfg, s);
      CountingPart(cfg, s);
      assert s.children == [];
    } else {
      ReachableInv(cfg, s);
      PidsRunOut(cfg, s);
    }
  }
}

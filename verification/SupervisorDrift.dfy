/** How far counter_ can run ahead of the registry's snapshot: exactly when it stays within one. */
module SupervisorDrift {
  import opened Common
  import opened Messages
  import opened TypedQueue
  import opened Registry
  import opened Supervisor
  import opened SupervisorInvariant
  import opened SupervisorCapacity
  import opened SupervisorRegistry
  import opened SupervisorLimits
  import opened SupervisorBoundaries

  /** counter_ is at most one more than the number of active handlers. */
  ghost predicate KeepsSnapshotClose(cfg: Config) {
    forall s :: Reachable(cfg, s) ==> s.counter <= |Active(s.handlers, s.deceased)| + 1
  }

  /** A new, registered child of a full house. */
  predicate MayGo(cfg: Config, s: State, v: nat) {
    && v < |s.children| && s.children[v] == NewChild(s.children[v].pid, cfg.system)
    && cfg.minPid <= s.children[v].pid <= cfg.maxPid
    && s.children[v].pid in s.handlers && s.handlers[s.children[v].pid] == v
  }

  /** The child ends normally and is collected, with its message in the queue. */
  lemma Goes(cfg: Config, s: State, v: nat) returns (next: State, letter: Letter)
    requires Reachable(cfg, s) && AtEase(s) && MayGo(cfg, s, v)
    ensures Reachable(cfg, next) && DecodePid(letter.text) == Some(s.children[v].pid)
    ensures |next.children| == |s.children|
    ensures next == s.(children := s.children[v := next.children[v]], threads := next.threads, log := next.log,
                       queue := [Message(TERMINATION_MSG, letter)])
    ensures next.children[v].pid == s.children[v].pid
    ensures next.children[v].life.Reaped? && !next.children[v].monitoring
  {
    hide Reachable, Payload, TerminationText, DecodePid;
    var pid := s.children[v].pid;
    TerminationRoundTrip(pid, "", 0);
    if cfg.system {
      letter := WorkersLetter(v, pid);
      next := WorkerDone(cfg, s, v, true);
    } else {
      letter := Goodbye(v, pid);
      next := Announces(cfg, s, v);
      next := Leaves(cfg, next, v, true, Exited(0));
      next := Reaps(cfg, next, |s.threads|, v);
      next := MonitorEnds(cfg, next, |s.threads|);
      assert next.children == s.children[v := next.children[v]];
    }
    assert next.queue == [Message(TERMINATION_MSG, letter)];
  }

  /** Its pid is marked and handed out again: counter_ is back, the snapshot is one short. */
  lemma IsReplaced(cfg: Config, s: State, v: nat) returns (next: State)
    requires Reachable(cfg, s) && AtEase(s) && MayGo(cfg, s, v) && s.counter == cfg.limit
    ensures Reachable(cfg, next)
    ensures next == s.(children := next.children, deceased := s.deceased + {s.children[v].pid},
                       threads := next.threads, log := next.log)
    ensures |next.children| == |s.children| + 1
    ensures forall i :: 0 <= i < |s.children| && i != v ==> next.children[i] == s.children[i]
  {
    hide Reachable, DecodePid;
    var pid := s.children[v].pid;
    var letter;
    OnlyUnreaped(cfg, s, v);
    next, letter := Goes(cfg, s, v);
    next := HandlesFirst(cfg, next, letter, [], pid);
    next := SizesBatch(cfg, next);
    next := LaunchesOne(cfg, next, pid);
    next := BatchEnds(cfg, next);
  }

  lemma {:induction false} KidHandlersCount(cfg: Config, n: nat)
    ensures |KidHandlers(cfg, n)| == n
  {
    if n == 0 {
    } else {
      KidHandlersCount(cfg, n - 1);
    }
  }

  /** Two replaced children leave the snapshot two behind. */
  lemma TwoBehind(cfg: Config) returns (s: State)
    requires 1 < cfg.limit <= PidSpace(cfg)
    ensures Reachable(cfg, s) && s.counter == cfg.limit && |Active(s.handlers, s.deceased)| == cfg.limit - 2
  {
    hide Reachable, Active;
    s := House(cfg);
    s := IsReplaced(cfg, s, 0);
    s := IsReplaced(cfg, s, 1);
    assert s.deceased == {cfg.minPid, cfg.minPid + 1};
    KidHandlersCount(cfg, cfg.limit);
    ActiveSize(s.handlers, s.deceased);
  }

  /** With fewer pids than places, one handler stands for all system children. */
  lemma AllHidden(cfg: Config) returns (s: State)
    requires GetsStarted(cfg) && cfg.system && PidSpace(cfg) < cfg.limit
    ensures Reachable(cfg, s) && s.counter == cfg.limit && |Active(s.handlers, s.deceased)| == 0
  {
    hide Reachable, DecodePid, Total;
    s := HusksLeave(cfg, true);
    s := HandlesFirst(cfg, s, WorkersLetter(0, cfg.minPid), [], cfg.minPid);
    s := SizesBatch(cfg, s);
    s := LaunchesOne(cfg, s, cfg.minPid);
    assert Active(s.handlers, s.deceased).Keys == {};
  }

  /** Before the start no pid can come back to forked children, so no registration is turned down. */
  lemma CloseBeforeStart(cfg: Config, s: State)
    requires Reachable(cfg, s) && !GetsStarted(cfg) && 0 < cfg.limit
    ensures s.counter <= |Active(s.handlers, s.deceased)| + 1
  {
    hide Reachable, Active, Rejected;
    ReachableNotYet(cfg, s);
    ReachableInv(cfg, s);
    DriftLaw(cfg, s);
    PidsDifferBeforeStart(cfg, s);
    RejectedExactly(s.children, |s.children| - Unregistered(s));
  }

  lemma PidsDifferBeforeStart(cfg: Config, s: State)
    requires Inv(cfg, s) && NotYet(cfg, s) && !s.flags.started && !GetsStarted(cfg) && 0 < cfg.limit
    ensures forall i, j :: 0 <= i < j < |s.children| ==> s.children[i].pid != s.children[j].pid
  {
    hide CreatorOk, SentOk, TerminationOk, AnnouncedOk, CreationOk, RegistryOk, MarksOk, ThreadsOk, ReportersOk;
    Unpack(cfg, s);
    assert forall i :: 0 <= i < |s.children| ==> ChildOk(cfg, s.children[i]);
  }

  /** counter_ stays within one of the snapshot, in every run, exactly for at most one place or without a start: two
      reused pids put it two ahead. */
  lemma SnapshotCloseExactly(cfg: Config)
    ensures KeepsSnapshotClose(cfg) <==> !GetsStarted(cfg) || cfg.limit <= 1
  {
    hide Reachable, Active;
    if GetsStarted(cfg) && cfg.limit > 1 {
      var s;
      if cfg.limit <= PidSpace(cfg) {
        s := TwoBehind(cfg);
      } else {
        s := AllHidden(cfg);
      }
      assert Reachable(cfg, s) && s.counter > |Active(s.handlers, s.deceased)| + 1;
    } else {
      forall s | Reachable(cfg, s) ensures s.counter <= |Active(s.handlers, s.deceased)| + 1 {
        if cfg.limit <= 1 {
          CounterBounds(cfg, s);
        } else {
          CloseBeforeStart(cfg, s);
        }
      }
    }
  }
}

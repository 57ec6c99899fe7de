/** src/processcontroller/ProcessRegistry.cpp: the handler map, the deceased set and the filtered snapshot.
    Handlers are opaque here; a pid is an int. */
module Registry {
  import opened Common

  /** emplace under the lock: an existing key wins and the offered handler is dropped. */
  function Added<H>(handlers: map<int, H>, pid: int, handler: H): map<int, H> {
    if pid in handlers then handlers else handlers[pid := handler]
  }

  /** A pid is marked only when it is registered. */
  function Marked<H>(handlers: map<int, H>, deceased: set<int>, pid: int): set<int> {
    if pid in handlers then deceased + {pid} else deceased
  }

  /** The snapshot: registered and not deceased. */
  function Active<H>(handlers: map<int, H>, deceased: set<int>): map<int, H> {
    handlers - deceased
  }

  lemma SetDifferenceSize(a: set<int>, b: set<int>)
    requires b <= a
    ensures |a - b| == |a| - |b|
  {
    assert a == (a - b) + b;
  }

  /** The snapshot is as large as the map less the deceased. */
  lemma ActiveSize<H>(handlers: map<int, H>, deceased: set<int>)
    requires deceased <= handlers.Keys
    ensures |Active(handlers, deceased)| == |handlers| - |deceased|
  {
    assert Active(handlers, deceased).Keys == handlers.Keys - deceased;
    SetDifferenceSize(handlers.Keys, deceased);
    assert |Active(handlers, deceased)| == |Active(handlers, deceased).Keys|;
    assert |handlers| == |handlers.Keys|;
  }

  /** Marking removes exactly that pid from the snapshot; adding a fresh pid inserts exactly that handler. */
  lemma SnapshotFollowsUpdates<H>(handlers: map<int, H>, deceased: set<int>, pid: int, handler: H)
    ensures Active(handlers, Marked(handlers, deceased, pid)) == Active(handlers, deceased) - {pid}
    ensures pid !in handlers && pid !in deceased ==>
      Active(Added(handlers, pid, handler), deceased) == Active(handlers, deceased)[pid := handler]
  {
    assert Active(handlers, Marked(handlers, deceased, pid)).Keys == (Active(handlers, deceased) - {pid}).Keys;
  }

  /** There is no way back: a deceased pid that is registered again, for a new child, stays out of the snapshot
      and keeps its old handler. */
  lemma ReusedPidStaysHidden<H>(handlers: map<int, H>, deceased: set<int>, pid: int, handler: H)
    requires pid in handlers
    ensures Added(handlers, pid, handler)[pid] == handlers[pid]
    ensures pid !in Active(Added(handlers, pid, handler), Marked(handlers, deceased, pid))
  {
  }

  lemma SomeMember<T>(s: set<T>) returns (x: T)
    requires s != {}
    ensures x in s
  {
    x :| x in s;
  }

  // ---------- histories ----------

  /** A handler offered for a pid, or a pid reported dead. */
  datatype Event<H> = Offer(pid: int, handler: H) | Death(pid: int)

  function HandlersAfter<H>(history: seq<Event<H>>): map<int, H> {
    if history == [] then map[] else
      var before, last := HandlersAfter(history[..|history| - 1]), history[|history| - 1];
      if last.Offer? then Added(before, last.pid, last.handler) else before
  }

  function DeceasedAfter<H>(history: seq<Event<H>>): set<int> {
    if history == [] then {} else
      var before, last := DeceasedAfter(history[..|history| - 1]), history[|history| - 1];
      if last.Death? then Marked(HandlersAfter(history[..|history| - 1]), before, last.pid) else before
  }

  /** Some handler was offered for this pid. */
  predicate Offered<H>(history: seq<Event<H>>, pid: int) {
    exists i :: 0 <= i < |history| && history[i].Offer? && history[i].pid == pid
  }

  /** Event i is the first offer for this pid. */
  predicate FirstOffer<H>(history: seq<Event<H>>, pid: int, i: nat) {
    i < |history| && history[i].Offer? && history[i].pid == pid && !Offered(history[..i], pid)
  }

  /** The pid was reported dead after it had been offered. */
  predicate ReportedDead<H>(history: seq<Event<H>>, pid: int) {
    exists j :: 0 <= j < |history| && history[j] == Death(pid) && Offered(history[..j], pid)
  }

  lemma OfferedSplit<H>(history: seq<Event<H>>, pid: int)
    requires history != []
    ensures var n := |history| - 1;
      Offered(history, pid) <==>
      Offered(history[..n], pid) || (history[n].Offer? && history[n].pid == pid)
  {
    var n := |history| - 1;
    assert forall i :: 0 <= i < n ==> history[i] == history[..n][i];
  }

  /** Whatever was offered and reported: a lookup finds the first handler ever offered for the pid, and deaths do not
      touch it. */
  lemma {:induction false} LookupFindsFirstOffer<H>(history: seq<Event<H>>, pid: int)
    ensures pid in HandlersAfter(history) <==> Offered(history, pid)
    ensures forall i: nat :: FirstOffer(history, pid, i) ==> HandlersAfter(history)[pid] == history[i].handler
  {
    if history == [] {
    } else {
      var n := |history| - 1;
      LookupFindsFirstOffer(history[..n], pid);
      OfferedSplit(history, pid);
      forall i: nat | FirstOffer(history, pid, i)
        ensures pid in HandlersAfter(history) && HandlersAfter(history)[pid] == history[i].handler
      {
        assert i < n ==> history[..n][..i] == history[..i] && FirstOffer(history[..n], pid, i);
      }
    }
  }

  /** A pid is deceased exactly when it was reported dead after an offer; so the snapshot shows those that were
      offered and not reported dead since. */
  lemma {:induction false} SnapshotShowsExactly<H>(history: seq<Event<H>>, pid: int)
    ensures pid in DeceasedAfter(history) <==> ReportedDead(history, pid)
    ensures pid in Active(HandlersAfter(history), DeceasedAfter(history)) <==>
            Offered(history, pid) && !ReportedDead(history, pid)
  {
    LookupFindsFirstOffer(history, pid);
    if history == [] {
    } else {
      var n := |history| - 1;
      var before := history[..n];
      SnapshotShowsExactly(before, pid);
      LookupFindsFirstOffer(before, pid);
      assert forall j :: 0 <= j < n ==> history[j] == before[j] && history[..j] == before[..j];
      assert ReportedDead(history, pid) <==>
        ReportedDead(before, pid) || (history[n] == Death(pid) && Offered(before, pid));
    }
  }

  // ---------- the class ----------

  class ProcessRegistry<H> {
    var handlers: map<int, H>
    var deceasedProcesses: set<int>
    /** What the registry has been told, in order. */
    ghost var history: seq<Event<H>>

    constructor ()
      ensures Valid() && history == []
    {
      handlers, deceasedProcesses, history := map[], {}, [];
    }

    ghost predicate Valid()
      reads this
    {
      handlers == HandlersAfter(history) && deceasedProcesses == DeceasedAfter(history)
    }

    /** handlers(): the loop that copies every handler whose pid is not deceased. The copy shows the pids that were
        offered and not reported dead since, each with its first handler. */
    method Handlers() returns (activeHandlers: map<int, H>)
      requires Valid()
      ensures forall pid :: pid in activeHandlers <==> Offered(history, pid) && !ReportedDead(history, pid)
      ensures forall pid, i: nat :: pid in activeHandlers && FirstOffer(history, pid, i) ==>
                activeHandlers[pid] == history[i].handler
    {
      activeHandlers := map[];
      var rest := handlers.Keys;
      assert Active(handlers, deceasedProcesses + rest) == map[];
      while rest != {}
        invariant rest <= handlers.Keys
        invariant activeHandlers == Active(handlers, deceasedProcesses + rest)
        decreases rest
      {
        ghost var member := SomeMember(rest);
        assert member in rest;
        var pid :| pid in rest;
        if pid !in deceasedProcesses {
          activeHandlers := activeHandlers[pid := handlers[pid]];
        }
        rest := rest - {pid};
      }
      assert deceasedProcesses + rest == deceasedProcesses;
      forall pid ensures pid in activeHandlers <==> Offered(history, pid) && !ReportedDead(history, pid) {
        SnapshotShowsExactly(history, pid);
      }
      forall pid, i: nat | pid in activeHandlers && FirstOffer(history, pid, i)
        ensures activeHandlers[pid] == history[i].handler
      {
        LookupFindsFirstOffer(history, pid);
      }
    }

    method AddMonitorProcess(pid: int, processMonitor: H) returns (inserted: bool)
      requires Valid()
      modifies this
      ensures Valid() && history == old(history) + [Offer(pid, processMonitor)]
      ensures inserted <==> !Offered(old(history), pid)
      ensures inserted <==> FirstOffer(history, pid, |old(history)|)
    {
      LookupFindsFirstOffer(history, pid);
      inserted := pid !in handlers;
      if inserted {
        handlers := handlers[pid := processMonitor];
      }
      history := history + [Offer(pid, processMonitor)];
      assert history[..|history| - 1] == old(history);
    }

    /** A lookup finds the first handler that was offered for the pid, whether it has been reported dead or not. */
    method FindMonitor(pid: int) returns (found: Option<H>)
      requires Valid()
      ensures found.Some? <==> Offered(history, pid)
      ensures forall i: nat :: found.Some? && FirstOffer(history, pid, i) ==> found.value == history[i].handler
    {
      LookupFindsFirstOffer(history, pid);
      if pid in handlers {
        return Some(handlers[pid]);
      }
      return None;
    }

    method MarkProcessAsDeceased(pid: int) returns (marked: bool)
      requires Valid()
      modifies this
      ensures Valid() && history == old(history) + [Death(pid)]
      ensures marked <==> Offered(old(history), pid)
      ensures marked <==> ReportedDead(history, pid)
    {
      LookupFindsFirstOffer(history, pid);
      marked := pid in handlers;
      if marked {
        deceasedProcesses := deceasedProcesses + {pid};
      }
      history := history + [Death(pid)];
      assert history[..|history| - 1] == old(history);
      SnapshotShowsExactly(history, pid);
    }
  }
}

/** The inductive invariant of the supervisor and its preservation by every step, hence over every interleaving. */
module SupervisorInvariant {
  import opened Common
  import opened Decimal
  import opened Messages
  import opened TypedQueue
  import opened Registry
  import opened Supervisor

  // ---------- counting children ----------

  datatype Tally = Unfinished | Reports | Unreported | Doubled | LateKills | Collected | Alive | Departing

  function Weight(tally: Tally, c: Child): nat {
    var reports := (if c.selfSent then 1 else 0) + (if c.reaperSent then 1 else 0);
    match tally
    case Unfinished => if c.life.Starting? || c.life.Working? then 1 else 0
    case Reports => reports
    case Unreported => if !c.life.Starting? && !c.life.Working? && reports == 0 then 1 else 0
    case Doubled => if reports == 2 then 1 else 0
    case LateKills => if c.lateKill then 1 else 0
    case Collected => if c.life.Reaped? then 1 else 0
    case Alive => if !Over(c.life) then 1 else 0
    case Departing => if c.life.Leaving? then 1 else 0
  }

  function Total(tally: Tally, children: seq<Child>): nat {
    if children == [] then 0
    else Total(tally, children[..|children| - 1]) + Weight(tally, children[|children| - 1])
  }

  lemma TotalAppend(tally: Tally, children: seq<Child>, c: Child)
    ensures Total(tally, children + [c]) == Total(tally, children) + Weight(tally, c)
  {
    assert (children + [c])[..|children|] == children;
  }

  lemma {:induction false} TotalUpdate(tally: Tally, children: seq<Child>, i: nat, c: Child)
    requires i < |children|
    ensures Total(tally, children[i := c]) == Total(tally, children) - Weight(tally, children[i]) + Weight(tally, c)
  {
    var last := |children| - 1;
    if i == last {
      assert children[i := c][..last] == children[..last];
    } else {
      TotalUpdate(tally, children[..last], i, c);
      assert children[i := c][..last] == children[..last][i := c];
    }
  }

  // ---------- the invariant ----------

  /** A child reports by itself only while leaving, through its reaper only once reaped; both only after a kill
      that hit it between its own send and _exit. */
  predicate ChildOk(cfg: Config, c: Child) {
    && cfg.minPid <= c.pid <= cfg.maxPid
    && (c.selfSent ==> !c.life.Starting? && !c.life.Working?)
    && (c.reaperSent ==> c.life.Reaped?)
    && (c.lateKill ==> Abnormal(c.life))
    && (if cfg.system then
          && !c.selfSent && !c.lateKill
          && !c.life.Starting? && !c.life.Leaving?
          && !c.worker.NoWorker?
          && (c.worker.Waiting? <==> !c.life.Reaped?)
          && (c.worker.Reporting? ==> !c.reaperSent)
        else
          && c.worker.NoWorker?
          && (c.reaperSent ==> Abnormal(c.life))
          && (c.selfSent && Abnormal(c.life) ==> c.lateKill))
  }

  ghost predicate ChildrenOk(cfg: Config, children: seq<Child>) {
    && (forall i :: 0 <= i < |children| ==> ChildOk(cfg, children[i]))
    && (forall i, j :: 0 <= i < j < |children| && !children[i].life.Reaped? && !children[j].life.Reaped?
          ==> children[i].pid != children[j].pid)
  }

  /** 1 between a launch and its ++counter_. */
  function InFlight(s: State): nat { if s.creator.CCount? then 1 else 0 }

  /** 1 while the termination listener holds a message it has not counted. */
  function Held(s: State): nat { if s.termination.TGot? then 1 else 0 }

  predicate InBatch(pc: CreatorPc) { pc.CLaunch? || pc.CCount? || pc.CRegister? }

  predicate CreatorOk(cfg: Config, s: State) {
    && s.counter == |s.children| - InFlight(s) - s.log.consumed
    && s.log.base <= s.log.consumed
    && (if InBatch(s.creator)
        then s.counter == Clamp(cfg.limit) - s.creator.left - (s.log.consumed - s.log.base)
        else s.counter <= Clamp(cfg.limit))
    && (s.creator.CCount? ==> s.creator.left > 0)
    && (s.creator.CCount? || s.creator.CRegister? ==> s.children != [])
    && (s.creator.CRead? ==> s.counter < cfg.limit)
    && (cfg.limit <= 0 ==> s.children == [] && (InBatch(s.creator) ==> s.creator.left == 0))
    && (!s.flags.started ==> (InBatch(s.creator) || s.creator.CWaiting?) && s.creation.KIdle? && s.termination.TIdle?)
    && (s.flags.started ==> !s.creator.CWaiting? && !s.creation.KIdle? && !s.termination.TIdle?)
  }

  ghost predicate FromChildren(children: seq<Child>, letters: seq<Letter>) {
    forall k :: 0 <= k < |letters| ==> letters[k].from < |children|
  }

  /** Read as a listener reads it, every text names the pid of the child it is about. */
  ghost predicate TextsOk(children: seq<Child>, letters: seq<Letter>)
    requires FromChildren(children, letters)
  {
    forall k {:trigger DecodePid(letters[k].text)} :: 0 <= k < |letters| ==>
      DecodePid(letters[k].text) == Some(children[letters[k].from].pid)
  }

  predicate Flagged(c: Child, sender: Sender) {
    if sender.TheChild? then c.selfSent else c.reaperSent
  }

  /** The log of termination messages: each names its child, none repeats, and the children's flags add up to it. */
  ghost predicate SentOk(children: seq<Child>, sent: seq<Letter>) {
    && |sent| == Total(Reports, children)
    && FromChildren(children, sent) && TextsOk(children, sent)
    && (forall k :: 0 <= k < |sent| ==> Flagged(children[sent[k].from], sent[k].sender))
    && (forall k, l :: 0 <= k < l < |sent| ==> sent[k].from != sent[l].from || sent[k].sender != sent[l].sender)
  }

  /** The pid the termination listener is working on after the decrement. */
  function HandlingPid(pc: TerminationPc): Option<int> {
    match pc
    case TLookup(pid) => Some(pid)
    case TTest(pid, _) => Some(pid)
    case TClear(pid, _) => Some(pid)
    case TSpin(pid, _, _) => Some(pid)
    case TRecheck(pid, _) => Some(pid)
    case TMark(pid) => Some(pid)
    case _ => None
  }

  /** The pid the listener has found in the registry. */
  function FoundPid(pc: TerminationPc): Option<int> {
    if pc.TLookup? then None else HandlingPid(pc)
  }

  /** The termination backlog is what was sent and not yet taken, in order; the listener holds the next message
      before it counts it, and works on the latest counted one afterwards. */
  ghost predicate TerminationOk(children: seq<Child>, handlers: map<int, nat>, sent: seq<Letter>, consumed: nat,
                                backlog: seq<Letter>, pc: TerminationPc) {
    && consumed + |backlog| <= |sent|
    && (if pc.TGot? then consumed < |sent| && pc.letter == sent[consumed] && backlog == sent[consumed + 1..]
        else backlog == sent[consumed..])
    && (HandlingPid(pc).Some? ==> 0 < consumed <= |sent| && sent[consumed - 1].from < |children|
                                  && children[sent[consumed - 1].from].pid == HandlingPid(pc).value)
    && (FoundPid(pc).Some? ==> FoundPid(pc).value in handlers)
  }

  /** The log of creation messages. */
  ghost predicate AnnouncedOk(system: bool, children: seq<Child>, announced: seq<Letter>) {
    && (system ==> announced == [])
    && FromChildren(children, announced) && TextsOk(children, announced)
    && (forall k :: 0 <= k < |announced| ==> !children[announced[k].from].life.Starting?)
    && (forall k, l :: 0 <= k < l < |announced| ==> announced[k].from != announced[l].from)
  }

  /** Handler h is registered, under the pid that creation message k names. */
  ghost predicate Caused(children: seq<Child>, handlers: map<int, nat>, announced: seq<Letter>, h: nat, k: int) {
    && h < |children| && 0 <= k < |announced| && announced[k].from < |children|
    && children[h].pid in handlers && handlers[children[h].pid] == h
    && children[announced[k].from].pid == children[h].pid
  }

  /** The handler the creation listener is testing. */
  function Testing(pc: CreationPc): Option<nat> {
    match pc
    case KTest(h) => Some(h)
    case KRetest(h) => Some(h)
    case KSpawn(h) => Some(h)
    case _ => None
  }

  ghost predicate CreationOk(children: seq<Child>, handlers: map<int, nat>, announced: seq<Letter>, heard: nat,
                             backlog: seq<Letter>, pc: CreationPc) {
    && heard <= |announced|
    && backlog == announced[heard..]
    && (pc.KGot? ==> 0 < heard && pc.letter == announced[heard - 1])
    && (Testing(pc).Some? ==> Caused(children, handlers, announced, Testing(pc).value, heard - 1))
  }

  ghost predicate RegistryOk(children: seq<Child>, handlers: map<int, nat>, deceased: set<int>) {
    && (forall p :: p in handlers ==> handlers[p] < |children| && children[handlers[p]].pid == p)
    && deceased <= handlers.Keys
  }

  /** Every deceased pid was named by a counted termination message. */
  ghost predicate MarksOk(children: seq<Child>, deceased: set<int>, markedBy: map<int, nat>,
                          sent: seq<Letter>, consumed: nat) {
    && markedBy.Keys == deceased
    && consumed <= |sent|
    && (forall p :: p in markedBy ==> markedBy[p] < consumed && sent[markedBy[p]].from < |children|
                                      && children[sent[markedBy[p]].from].pid == p)
  }

  /** Creation messages the listener has done with: the one in its hands is not used up. */
  function Used(heard: nat, pc: CreationPc): int {
    if pc.KGot? || Testing(pc).Some? then heard - 1 else heard
  }

  /** Every thread runs on a registered handler, for a creation message of its own. */
  ghost predicate ThreadsOk(children: seq<Child>, handlers: map<int, nat>, announced: seq<Letter>, used: int,
                            threads: seq<Thread>) {
    && (forall t :: 0 <= t < |threads| ==> threads[t].cause < used)
    && (forall t :: 0 <= t < |threads| ==> Caused(children, handlers, announced, threads[t].owner, threads[t].cause))
    && (forall t, u :: 0 <= t < u < |threads| ==> threads[t].cause != threads[u].cause)
  }

  predicate Owing(c: Child) {
    c.life.Reaped? && Abnormal(c.life) && !c.reaperSent && c.worker.NoWorker?
  }

  /** A thread about to report has reaped that child itself: nobody else reports it. */
  ghost predicate ReportersOk(children: seq<Child>, threads: seq<Thread>) {
    && (forall t :: 0 <= t < |threads| && threads[t].pc.MReport? ==>
          threads[t].pc.child < |children| && Owing(children[threads[t].pc.child]))
    && (forall t, u :: 0 <= t < u < |threads| && threads[t].pc.MReport? && threads[u].pc.MReport?
          ==> threads[t].pc.child != threads[u].pc.child)
  }

  datatype Part = Children | Counting | SentLog | Termination | AnnouncedLog | Creation | Handlers | Marks
                | MonitorThreads | Reporters

  ghost predicate Holds(part: Part, cfg: Config, s: State) {
    match part
    case Children => ChildrenOk(cfg, s.children)
    case Counting => CreatorOk(cfg, s)
    case SentLog => SentOk(s.children, s.log.sent)
    case Termination =>
      TerminationOk(s.children, s.handlers, s.log.sent, s.log.consumed,
                    Backlog(s.queue, TERMINATION_MSG), s.termination)
    case AnnouncedLog => AnnouncedOk(cfg.system, s.children, s.log.announced)
    case Creation =>
      CreationOk(s.children, s.handlers, s.log.announced, s.log.heard, Backlog(s.queue, CREATION_MSG), s.creation)
    case Handlers => RegistryOk(s.children, s.handlers, s.deceased)
    case Marks => MarksOk(s.children, s.deceased, s.log.markedBy, s.log.sent, s.log.consumed)
    case MonitorThreads =>
      ThreadsOk(s.children, s.handlers, s.log.announced, Used(s.log.heard, s.creation), s.threads)
    case Reporters => ReportersOk(s.children, s.threads)
  }

  ghost predicate Inv(cfg: Config, s: State) {
    forall part :: Holds(part, cfg, s)
  }

  lemma Unpack(cfg: Config, s: State)
    requires Inv(cfg, s)
    ensures ChildrenOk(cfg, s.children)
    ensures CreatorOk(cfg, s)
    ensures SentOk(s.children, s.log.sent)
    ensures TerminationOk(s.children, s.handlers, s.log.sent, s.log.consumed,
                          Backlog(s.queue, TERMINATION_MSG), s.termination)
    ensures AnnouncedOk(cfg.system, s.children, s.log.announced)
    ensures CreationOk(s.children, s.handlers, s.log.announced, s.log.heard, Backlog(s.queue, CREATION_MSG), s.creation)
    ensures RegistryOk(s.children, s.handlers, s.deceased)
    ensures MarksOk(s.children, s.deceased, s.log.markedBy, s.log.sent, s.log.consumed)
    ensures ThreadsOk(s.children, s.handlers, s.log.announced, Used(s.log.heard, s.creation), s.threads)
    ensures ReportersOk(s.children, s.threads)
  {
    hide ChildrenOk, CreatorOk, SentOk, TerminationOk, AnnouncedOk, CreationOk, RegistryOk, MarksOk, ThreadsOk,
      ReportersOk;
    assert forall part :: Holds(part, cfg, s);
    assert Holds(Children, cfg, s) && Holds(Counting, cfg, s) && Holds(SentLog, cfg, s) && Holds(Termination, cfg, s);
    assert Holds(AnnouncedLog, cfg, s) && Holds(Creation, cfg, s) && Holds(Handlers, cfg, s) && Holds(Marks, cfg, s);
    assert Holds(MonitorThreads, cfg, s) && Holds(Reporters, cfg, s);
  }

  // ---------- preservation ----------

  lemma InitInv(cfg: Config)
    ensures Inv(cfg, Init(cfg))
  {
  }

  /** What a change to the children may not undo. */
  ghost predicate Evolves(before: seq<Child>, after: seq<Child>) {
    && |before| <= |after|
    && (forall i :: 0 <= i < |before| ==> after[i].pid == before[i].pid)
    && (forall i :: 0 <= i < |before| ==> (before[i].selfSent ==> after[i].selfSent))
    && (forall i :: 0 <= i < |before| ==> (before[i].reaperSent ==> after[i].reaperSent))
    && (forall i :: 0 <= i < |before| ==> (after[i].life.Starting? ==> before[i].life.Starting?))
  }

  /** The logs, the registry and the threads only look at what Evolves protects. */
  lemma LogsFrame(cfg: Config, s: State, after: seq<Child>)
    requires Inv(cfg, s) && Evolves(s.children, after)
    ensures FromChildren(after, s.log.sent) && TextsOk(after, s.log.sent)
    ensures forall k :: 0 <= k < |s.log.sent| ==> Flagged(after[s.log.sent[k].from], s.log.sent[k].sender)
    ensures AnnouncedOk(cfg.system, after, s.log.announced)
    ensures RegistryOk(after, s.handlers, s.deceased)
    ensures MarksOk(after, s.deceased, s.log.markedBy, s.log.sent, s.log.consumed)
    ensures ThreadsOk(after, s.handlers, s.log.announced, Used(s.log.heard, s.creation), s.threads)
    ensures TerminationOk(after, s.handlers, s.log.sent, s.log.consumed,
                          Backlog(s.queue, TERMINATION_MSG), s.termination)
    ensures CreationOk(after, s.handlers, s.log.announced, s.log.heard, Backlog(s.queue, CREATION_MSG), s.creation)
  {
    Unpack(cfg, s);
  }

  lemma ChildrenGrow(cfg: Config, s: State, pid: int)
    requires Inv(cfg, s) && CanLaunch(cfg, s, pid)
    ensures ChildrenOk(cfg, s.children + [NewChild(pid, cfg.system)])
    ensures SentOk(s.children + [NewChild(pid, cfg.system)], s.log.sent)
    ensures ReportersOk(s.children + [NewChild(pid, cfg.system)], s.threads)
  {
    Unpack(cfg, s);
    var after := s.children + [NewChild(pid, cfg.system)];
    TotalAppend(Reports, s.children, NewChild(pid, cfg.system));
    assert FromChildren(after, s.log.sent) && TextsOk(after, s.log.sent) by {
      LogsFrame(cfg, s, after);
    }
  }

  lemma LaunchInv(cfg: Config, s: State, pid: int)
    requires Inv(cfg, s) && CanLaunch(cfg, s, pid)
    ensures Inv(cfg, LaunchStep(cfg, s, pid))
  {
    hide ChildrenOk, SentOk, TerminationOk, AnnouncedOk, CreationOk, RegistryOk, MarksOk, ThreadsOk, ReportersOk;
    Unpack(cfg, s);
    var c := NewChild(pid, cfg.system);
    LogsFrame(cfg, s, s.children + [c]);
    ChildrenGrow(cfg, s, pid);
  }

  lemma NothingToCount(cfg: Config, s: State)
    requires Inv(cfg, s)
    ensures s.log.consumed <= |s.log.sent|
    ensures s.children == [] ==> s.log.consumed == 0
    ensures CreatorOk(cfg, s)
  {
    Unpack(cfg, s);
    assert Total(Reports, []) == 0;
  }

  lemma CreatorInv(cfg: Config, s: State)
    requires Inv(cfg, s) && CanCreate(s)
    ensures Inv(cfg, CreatorStep(cfg, s))
  {
    hide Inv;
    if s.creator.CRegister? {
      RegisterInv(cfg, s);
    } else {
      NothingToCount(cfg, s);
      CreatorArithmetic(cfg, s);
      var s' := CreatorStep(cfg, s);
      CreatorMoved(cfg, s, s'.counter, s'.creator, s'.log.base);
      assert s' == s.(counter := s'.counter, creator := s'.creator, log := s.log.(base := s'.log.base));
    }
  }

  /** The counting argument: both reads of counter_ and each ++counter_ keep the bounds. */
  lemma CreatorArithmetic(cfg: Config, s: State)
    requires CreatorOk(cfg, s) && CanCreate(s) && !s.creator.CRegister?
    requires s.children == [] ==> s.log.consumed == 0
    ensures CreatorOk(cfg, CreatorStep(cfg, s))
  {
    if s.creator.CRead? {
      BatchStarts(cfg, s);
    } else if s.creator.CLaunch? || s.creator.CCount? {
      BatchGoesOn(cfg, s);
    }
  }

  lemma BatchStarts(cfg: Config, s: State)
    requires CreatorOk(cfg, s) && s.creator.CRead?
    requires s.children == [] ==> s.log.consumed == 0
    ensures CreatorOk(cfg, CreatorStep(cfg, s))
  {
  }

  lemma BatchGoesOn(cfg: Config, s: State)
    requires CreatorOk(cfg, s) && (s.creator.CCount? || (s.creator.CLaunch? && s.creator.left == 0))
    ensures CreatorOk(cfg, CreatorStep(cfg, s))
  {
  }

  lemma CreatorMoved(cfg: Config, s: State, counter: int, pc: CreatorPc, base: nat)
    requires Inv(cfg, s) && CreatorOk(cfg, s.(counter := counter, creator := pc, log := s.log.(base := base)))
    ensures Inv(cfg, s.(counter := counter, creator := pc, log := s.log.(base := base)))
  {
    hide ChildrenOk, SentOk, TerminationOk, AnnouncedOk, CreationOk, RegistryOk, MarksOk, ThreadsOk, ReportersOk;
    Unpack(cfg, s);
  }

  lemma RegisterInv(cfg: Config, s: State)
    requires Inv(cfg, s) && s.creator.CRegister?
    ensures Inv(cfg, CreatorStep(cfg, s))
  {
    hide ChildrenOk, SentOk, TerminationOk, AnnouncedOk, CreationOk, RegistryOk, MarksOk, ThreadsOk, ReportersOk;
    Unpack(cfg, s);
    var h := |s.children| - 1;
    HandlersFrame(cfg, s, Added(s.handlers, s.children[h].pid, h));
  }

  /** Registering only adds: nothing that was in the registry changes. */
  lemma HandlersFrame(cfg: Config, s: State, after: map<int, nat>)
    requires Inv(cfg, s)
    requires s.handlers.Keys <= after.Keys
    requires forall p :: p in s.handlers ==> after[p] == s.handlers[p]
    requires forall p :: p in after && p !in s.handlers ==> after[p] < |s.children| && s.children[after[p]].pid == p
    ensures RegistryOk(s.children, after, s.deceased)
    ensures ThreadsOk(s.children, after, s.log.announced, Used(s.log.heard, s.creation), s.threads)
    ensures TerminationOk(s.children, after, s.log.sent, s.log.consumed,
                          Backlog(s.queue, TERMINATION_MSG), s.termination)
    ensures CreationOk(s.children, after, s.log.announced, s.log.heard, Backlog(s.queue, CREATION_MSG), s.creation)
  {
    Unpack(cfg, s);
  }

  /** A change to one child that neither reports nor takes back. */
  predicate Quiet(cfg: Config, before: Child, after: Child) {
    && ChildOk(cfg, after)
    && after.pid == before.pid
    && after.selfSent == before.selfSent && after.reaperSent == before.reaperSent
    && (after.life.Starting? ==> before.life.Starting?)
    && (before.life.Reaped? ==> after.life == before.life && (before.worker.NoWorker? ==> after.worker.NoWorker?))
  }

  lemma QuietChildren(cfg: Config, s: State, i: nat, c: Child)
    requires Inv(cfg, s) && i < |s.children| && Quiet(cfg, s.children[i], c)
    ensures ChildrenOk(cfg, s.children[i := c])
    ensures SentOk(s.children[i := c], s.log.sent)
    ensures ReportersOk(s.children[i := c], s.threads)
  {
    Unpack(cfg, s);
    var after := s.children[i := c];
    TotalUpdate(Reports, s.children, i, c);
    assert FromChildren(after, s.log.sent) && TextsOk(after, s.log.sent) by {
      LogsFrame(cfg, s, after);
    }
  }

  lemma QuietInv(cfg: Config, s: State, i: nat, c: Child)
    requires Inv(cfg, s) && i < |s.children| && Quiet(cfg, s.children[i], c)
    ensures Inv(cfg, WithChild(s, i, c))
  {
    hide ChildrenOk, SentOk, TerminationOk, AnnouncedOk, CreationOk, RegistryOk, MarksOk, ThreadsOk, ReportersOk;
    Unpack(cfg, s);
    LogsFrame(cfg, s, s.children[i := c]);
    QuietChildren(cfg, s, i, c);
  }

  lemma AnnounceInv(cfg: Config, s: State, i: nat, delivered: bool, duration: string)
    requires Inv(cfg, s) && i < |s.children| && s.children[i].life.Starting?
    ensures Inv(cfg, AnnounceStep(s, i, delivered, duration))
  {
    Unpack(cfg, s);
    var c := s.children[i];
    var s' := WithChild(s, i, c.(life := Working));
    QuietInv(cfg, s, i, c.(life := Working));
    if delivered {
      CreationRoundTrip(c.pid, duration);
      var letter := Letter(i, TheChild, Payload(CreationText(c.pid, duration)));
      BacklogOfSend(s.queue, Message(CREATION_MSG, letter), CREATION_MSG);
      BacklogOfSend(s.queue, Message(CREATION_MSG, letter), TERMINATION_MSG);
      forall k | 0 <= k < |s.log.announced| ensures s.log.announced[k].from != i {
        assert !s.children[s.log.announced[k].from].life.Starting?;
      }
      CreationPosted(cfg, s', letter);
    }
  }

  lemma CreationPosted(cfg: Config, s: State, letter: Letter)
    requires Inv(cfg, s) && !cfg.system && letter.from < |s.children| && !s.children[letter.from].life.Starting?
    requires DecodePid(letter.text) == Some(s.children[letter.from].pid)
    requires forall k :: 0 <= k < |s.log.announced| ==> s.log.announced[k].from != letter.from
    requires Backlog(PostCreation(s, letter).queue, CREATION_MSG) == Backlog(s.queue, CREATION_MSG) + [letter]
    requires Backlog(PostCreation(s, letter).queue, TERMINATION_MSG) == Backlog(s.queue, TERMINATION_MSG)
    ensures Inv(cfg, PostCreation(s, letter))
  {
    hide ChildrenOk, SentOk, TerminationOk, RegistryOk, MarksOk, ReportersOk;
    Unpack(cfg, s);
    var after := s.log.announced + [letter];
    assert AnnouncedOk(cfg.system, s.children, after);
    assert after[s.log.heard..] == s.log.announced[s.log.heard..] + [letter];
    assert CreationOk(s.children, s.handlers, after, s.log.heard,
                      Backlog(s.queue, CREATION_MSG) + [letter], s.creation);
    assert ThreadsOk(s.children, s.handlers, after, Used(s.log.heard, s.creation), s.threads);
  }

  /** Child i becomes c, and the termination message that c newly claims is queued. */
  lemma TerminationPosted(cfg: Config, s: State, i: nat, c: Child, sender: Sender, duration: string, exitCode: int)
    requires Inv(cfg, s) && i < |s.children|
    requires ChildOk(cfg, c) && c.pid == s.children[i].pid && !c.life.Starting?
    requires s.children[i].life.Reaped? ==> c.life == s.children[i].life
    requires !Flagged(s.children[i], sender) && Flagged(c, sender)
    requires if sender.TheChild? then c.reaperSent == s.children[i].reaperSent
             else c.selfSent == s.children[i].selfSent
    requires forall t :: 0 <= t < |s.threads| && s.threads[t].pc.MReport? ==> s.threads[t].pc.child != i
    ensures Inv(cfg, PostTermination(WithChild(s, i, c),
                                     Letter(i, sender, Payload(TerminationText(c.pid, duration, exitCode)))))
  {
    hide Inv;
    hide DecodePid;
    var letter := Letter(i, sender, Payload(TerminationText(c.pid, duration, exitCode)));
    TerminationRoundTrip(c.pid, duration, exitCode);
    BacklogOfSend(s.queue, Message(TERMINATION_MSG, letter), CREATION_MSG);
    BacklogOfSend(s.queue, Message(TERMINATION_MSG, letter), TERMINATION_MSG);
    LetterPosted(cfg, s, i, c, letter);
  }

  lemma LetterPosted(cfg: Config, s: State, i: nat, c: Child, letter: Letter)
    requires Inv(cfg, s) && i < |s.children|
    requires ChildOk(cfg, c) && c.pid == s.children[i].pid && !c.life.Starting?
    requires s.children[i].life.Reaped? ==> c.life == s.children[i].life
    requires letter.from == i && DecodePid(letter.text) == Some(c.pid)
    requires !Flagged(s.children[i], letter.sender) && Flagged(c, letter.sender)
    requires if letter.sender.TheChild? then c.reaperSent == s.children[i].reaperSent
             else c.selfSent == s.children[i].selfSent
    requires forall t :: 0 <= t < |s.threads| && s.threads[t].pc.MReport? ==> s.threads[t].pc.child != i
    requires Backlog(PostTermination(s, letter).queue, TERMINATION_MSG) == Backlog(s.queue, TERMINATION_MSG) + [letter]
    requires Backlog(PostTermination(s, letter).queue, CREATION_MSG) == Backlog(s.queue, CREATION_MSG)
    ensures Inv(cfg, PostTermination(WithChild(s, i, c), letter))
  {
    hide ChildrenOk, SentOk, TerminationOk, AnnouncedOk, CreationOk, RegistryOk, MarksOk, ThreadsOk, ReportersOk;
    hide DecodePid;
    Unpack(cfg, s);
    LogsKept(cfg, s, i, c, letter);
    ReportedChildren(cfg, s, i, c);
    LogsExtended(cfg, s, i, c, letter);
  }

  lemma LogsKept(cfg: Config, s: State, i: nat, c: Child, letter: Letter)
    requires Inv(cfg, s) && i < |s.children| && c.pid == s.children[i].pid && !c.life.Starting?
    requires !Flagged(s.children[i], letter.sender) && Flagged(c, letter.sender)
    requires if letter.sender.TheChild? then c.reaperSent == s.children[i].reaperSent
             else c.selfSent == s.children[i].selfSent
    ensures Evolves(s.children, s.children[i := c])
    ensures AnnouncedOk(cfg.system, s.children[i := c], s.log.announced)
    ensures RegistryOk(s.children[i := c], s.handlers, s.deceased)
    ensures ThreadsOk(s.children[i := c], s.handlers, s.log.announced, Used(s.log.heard, s.creation), s.threads)
    ensures CreationOk(s.children[i := c], s.handlers, s.log.announced, s.log.heard,
                       Backlog(s.queue, CREATION_MSG), s.creation)
  {
    hide Inv;
    hide ChildrenOk, SentOk, TerminationOk, AnnouncedOk, CreationOk, RegistryOk, MarksOk, ThreadsOk, ReportersOk;
    LogsFrame(cfg, s, s.children[i := c]);
  }

  lemma LogsExtended(cfg: Config, s: State, i: nat, c: Child, letter: Letter)
    requires Inv(cfg, s) && i < |s.children| && c.pid == s.children[i].pid && !c.life.Starting?
    requires letter.from == i && DecodePid(letter.text) == Some(c.pid)
    requires !Flagged(s.children[i], letter.sender) && Flagged(c, letter.sender)
    requires if letter.sender.TheChild? then c.reaperSent == s.children[i].reaperSent
             else c.selfSent == s.children[i].selfSent
    ensures SentOk(s.children[i := c], s.log.sent + [letter])
    ensures TerminationOk(s.children[i := c], s.handlers, s.log.sent + [letter], s.log.consumed,
                          Backlog(s.queue, TERMINATION_MSG) + [letter], s.termination)
    ensures MarksOk(s.children[i := c], s.deceased, s.log.markedBy, s.log.sent + [letter], s.log.consumed)
  {
    hide ChildrenOk, SentOk, TerminationOk, AnnouncedOk, CreationOk, RegistryOk, MarksOk, ThreadsOk, ReportersOk;
    hide DecodePid, CreatorOk;
    Unpack(cfg, s);
    var after := s.children[i := c];
    LogsFrame(cfg, s, after);
    TotalUpdate(Reports, s.children, i, c);
    SentExtended(s.children, after, s.log.sent, letter);
    TerminationExtended(cfg, s, after, letter);
  }

  lemma ReportedChildren(cfg: Config, s: State, i: nat, c: Child)
    requires Inv(cfg, s) && i < |s.children|
    requires ChildOk(cfg, c) && c.pid == s.children[i].pid
    requires s.children[i].life.Reaped? ==> c.life == s.children[i].life
    requires forall t :: 0 <= t < |s.threads| && s.threads[t].pc.MReport? ==> s.threads[t].pc.child != i
    ensures ChildrenOk(cfg, s.children[i := c])
    ensures ReportersOk(s.children[i := c], s.threads)
    ensures Total(Reports, s.children[i := c])
         == Total(Reports, s.children) - Weight(Reports, s.children[i]) + Weight(Reports, c)
  {
    Unpack(cfg, s);
    TotalUpdate(Reports, s.children, i, c);
  }

  lemma SentExtended(before: seq<Child>, after: seq<Child>, sent: seq<Letter>, letter: Letter)
    requires SentOk(before, sent) && |before| == |after|
    requires letter.from < |after|
    requires DecodePid(letter.text) == Some(after[letter.from].pid)
    requires !Flagged(before[letter.from], letter.sender) && Flagged(after[letter.from], letter.sender)
    requires Total(Reports, after) == Total(Reports, before) + 1
    requires FromChildren(after, sent) && TextsOk(after, sent)
    requires forall k :: 0 <= k < |sent| ==> Flagged(after[sent[k].from], sent[k].sender)
    ensures SentOk(after, sent + [letter])
  {
    forall k | 0 <= k < |sent| ensures sent[k].from != letter.from || sent[k].sender != letter.sender {
      assert Flagged(before[sent[k].from], sent[k].sender);
    }
  }

  lemma TerminationExtended(cfg: Config, s: State, after: seq<Child>, letter: Letter)
    requires TerminationOk(after, s.handlers, s.log.sent, s.log.consumed,
                           Backlog(s.queue, TERMINATION_MSG), s.termination)
    requires MarksOk(after, s.deceased, s.log.markedBy, s.log.sent, s.log.consumed)
    ensures TerminationOk(after, s.handlers, s.log.sent + [letter], s.log.consumed,
                          Backlog(s.queue, TERMINATION_MSG) + [letter], s.termination)
    ensures MarksOk(after, s.deceased, s.log.markedBy, s.log.sent + [letter], s.log.consumed)
  {
    var sent' := s.log.sent + [letter];
    if s.termination.TGot? {
      assert sent'[s.log.consumed + 1..] == s.log.sent[s.log.consumed + 1..] + [letter];
    } else {
      assert sent'[s.log.consumed..] == s.log.sent[s.log.consumed..] + [letter];
    }
  }

  lemma ReportInv(cfg: Config, s: State, i: nat, delivered: bool, duration: string, exitCode: int)
    requires Inv(cfg, s) && CanReport(cfg.system, s, i) && IsInt32(exitCode)
    ensures Inv(cfg, ReportStep(s, i, delivered, duration, exitCode))
  {
    hide Inv;
    var c := s.children[i];
    ChildIsOk(cfg, s, i);
    if delivered {
      NotOwed(cfg, s, i);
      TerminationPosted(cfg, s, i, c.(life := Leaving, selfSent := true), TheChild, duration, exitCode);
    } else {
      QuietInv(cfg, s, i, c.(life := Leaving, selfSent := false));
    }
  }

  lemma EndInv(cfg: Config, s: State, i: nat, status: WaitStatus)
    requires Inv(cfg, s) && i < |s.children| && !Over(s.children[i].life)
    ensures Inv(cfg, EndStep(s, i, status))
  {
    hide Inv;
    var c := s.children[i];
    ChildIsOk(cfg, s, i);
    QuietInv(cfg, s, i, c.(life := Zombie(status), lateKill := c.life.Leaving? && Abnormal(Zombie(status))));
  }

  lemma WorkerReapInv(cfg: Config, s: State, i: nat)
    requires Inv(cfg, s) && i < |s.children| && s.children[i].life.Zombie? && s.children[i].worker.Waiting?
    ensures Inv(cfg, ReapStep(s, i, Reporting))
  {
    hide Inv;
    var c := s.children[i];
    assert ChildOk(cfg, c) by { ChildIsOk(cfg, s, i); }
    QuietInv(cfg, s, i, c.(life := Reaped(c.life.status), worker := Reporting));
  }

  lemma ChildIsOk(cfg: Config, s: State, i: nat)
    requires Inv(cfg, s) && i < |s.children|
    ensures ChildOk(cfg, s.children[i])
  {
    hide SentOk, TerminationOk, AnnouncedOk, CreationOk, RegistryOk, MarksOk, ThreadsOk, ReportersOk;
    Unpack(cfg, s);
  }

  lemma WorkerReportInv(cfg: Config, s: State, i: nat, delivered: bool, duration: string, exitCode: int)
    requires Inv(cfg, s) && i < |s.children| && s.children[i].worker.Reporting? && IsInt32(exitCode)
    ensures Inv(cfg, WorkerReportStep(s, i, delivered, duration, exitCode))
  {
    hide Inv;
    var c := s.children[i];
    ChildIsOk(cfg, s, i);
    if delivered {
      NotOwed(cfg, s, i);
      TerminationPosted(cfg, s, i, c.(reaperSent := true, worker := Gone), ItsReaper, duration, exitCode);
    } else {
      QuietInv(cfg, s, i, c.(worker := Gone));
    }
  }

  lemma NotOwed(cfg: Config, s: State, i: nat)
    requires Inv(cfg, s) && i < |s.children| && !Owing(s.children[i])
    ensures forall t :: 0 <= t < |s.threads| && s.threads[t].pc.MReport? ==> s.threads[t].pc.child != i
  {
    hide ChildrenOk, SentOk, TerminationOk, AnnouncedOk, CreationOk, RegistryOk, MarksOk, ThreadsOk;
    Unpack(cfg, s);
  }

  lemma CreationListenerInv(cfg: Config, s: State, quit: bool)
    requires Inv(cfg, s) && !s.creation.KIdle? && !s.creation.KDone?
    ensures Inv(cfg, CreationStep(s, quit))
  {
    hide Inv;
    if s.creation.KPollReceive? && !quit && Taken(s.queue, CREATION_MSG) != [] {
      CreationReceiveInv(cfg, s);
    } else if s.creation.KSpawn? {
      SpawnInv(cfg, s);
    } else if s.creation.KGot? {
      CreationGotInv(cfg, s, quit);
    } else {
      CreationMovedInv(cfg, s, CreationMove(s, quit));
    }
  }

  lemma CreationReceiveInv(cfg: Config, s: State)
    requires Inv(cfg, s) && s.creation.KPollReceive? && Taken(s.queue, CREATION_MSG) != []
    ensures Inv(cfg, CreationStep(s, false))
  {
    hide ChildrenOk, SentOk, TerminationOk, AnnouncedOk, CreationOk, RegistryOk, MarksOk, ThreadsOk, ReportersOk;
    Unpack(cfg, s);
    BacklogOfReceive(s.queue, CREATION_MSG, TERMINATION_MSG);
    CreationReceived(cfg, s, Taken(s.queue, CREATION_MSG)[0], Backlog(Remaining(s.queue, CREATION_MSG), CREATION_MSG));
  }

  lemma CreationReceived(cfg: Config, s: State, letter: Letter, rest: seq<Letter>)
    requires Inv(cfg, s) && s.creation.KPollReceive? && Backlog(s.queue, CREATION_MSG) == [letter] + rest
    ensures CreationOk(s.children, s.handlers, s.log.announced, s.log.heard + 1, rest, KGot(letter))
    ensures ThreadsOk(s.children, s.handlers, s.log.announced, Used(s.log.heard + 1, KGot(letter)), s.threads)
  {
    hide ChildrenOk, CreatorOk, SentOk, TerminationOk, AnnouncedOk, RegistryOk, MarksOk, ReportersOk, DecodePid;
    Unpack(cfg, s);
    assert rest == s.log.announced[s.log.heard..][1..];
  }

  /** Moving the creation listener: it may go on testing the handler it is testing, or start on the one the
      message in hand leads to. */
  lemma CreationMovedInv(cfg: Config, s: State, pc: CreationPc)
    requires Inv(cfg, s) && !pc.KGot? && (pc.KIdle? <==> s.creation.KIdle?)
    requires Testing(pc).None? || Testing(pc) == Testing(s.creation)
             || (s.creation.KGot? && s.log.heard > 0
                 && Caused(s.children, s.handlers, s.log.announced, Testing(pc).value, s.log.heard - 1))
    ensures Inv(cfg, s.(creation := pc))
  {
    hide ChildrenOk, SentOk, TerminationOk, AnnouncedOk, CreationOk, RegistryOk, MarksOk, ThreadsOk, ReportersOk;
    Unpack(cfg, s);
    CreationMoved(cfg, s, pc);
  }

  lemma CreationMoved(cfg: Config, s: State, pc: CreationPc)
    requires Inv(cfg, s) && !pc.KGot?
    requires Testing(pc).None? || Testing(pc) == Testing(s.creation)
             || (s.creation.KGot? && s.log.heard > 0
                 && Caused(s.children, s.handlers, s.log.announced, Testing(pc).value, s.log.heard - 1))
    ensures CreationOk(s.children, s.handlers, s.log.announced, s.log.heard, Backlog(s.queue, CREATION_MSG), pc)
    ensures ThreadsOk(s.children, s.handlers, s.log.announced, Used(s.log.heard, pc), s.threads)
  {
    hide ChildrenOk, CreatorOk, SentOk, TerminationOk, AnnouncedOk, RegistryOk, MarksOk, ReportersOk, DecodePid;
    Unpack(cfg, s);
  }

  /** The pid read from the text is a registered handler's, and the message in hand is the reason to test it. */
  lemma CreationGotInv(cfg: Config, s: State, quit: bool)
    requires Inv(cfg, s) && s.creation.KGot?
    ensures Inv(cfg, CreationStep(s, quit))
  {
    hide ChildrenOk, CreatorOk, SentOk, TerminationOk, MarksOk, ReportersOk, ThreadsOk, DecodePid;
    Unpack(cfg, s);
    assert DecodePid(s.log.announced[s.log.heard - 1].text).Some?;
    CreationMovedInv(cfg, s, CreationMove(s, quit));
  }

  lemma SpawnInv(cfg: Config, s: State)
    requires Inv(cfg, s) && s.creation.KSpawn?
    ensures Inv(cfg, CreationStep(s, false)) && CreationStep(s, true) == CreationStep(s, false)
  {
    hide ChildrenOk, SentOk, TerminationOk, AnnouncedOk, CreationOk, RegistryOk, MarksOk, ThreadsOk, ReportersOk;
    Unpack(cfg, s);
    ThreadSpawned(cfg, s);
  }

  lemma ThreadSpawned(cfg: Config, s: State)
    requires Inv(cfg, s) && s.creation.KSpawn?
    ensures s.log.heard > 0
    ensures var threads := s.threads + [Thread(s.creation.handler, s.log.heard - 1, MStart)];
      && ThreadsOk(s.children, s.handlers, s.log.announced, s.log.heard, threads)
      && ReportersOk(s.children, threads)
    ensures CreationOk(s.children, s.handlers, s.log.announced, s.log.heard, Backlog(s.queue, CREATION_MSG), KHead)
  {
    hide ChildrenOk, CreatorOk, SentOk, TerminationOk, AnnouncedOk, RegistryOk, MarksOk, DecodePid;
    Unpack(cfg, s);
  }

  lemma TerminationListenerInv(cfg: Config, s: State, quit: bool)
    requires Inv(cfg, s) && CanListen(s, quit)
    ensures Inv(cfg, TerminationStep(s, quit))
  {
    hide Inv;
    if s.termination.TPollReceive? && !quit && Taken(s.queue, TERMINATION_MSG) != [] {
      TerminationReceiveInv(cfg, s);
    } else if s.termination.TGot? {
      CountInv(cfg, s);
    } else if s.termination.TClear? {
      ClearInv(cfg, s);
    } else if s.termination.TMark? {
      MarkInv(cfg, s);
    } else {
      var missed := if Misses(s, quit) then 1 else 0;
      TerminationMovedInv(cfg, s, TerminationMove(s, quit), s.log.misses + missed);
    }
  }

  lemma TerminationReceiveInv(cfg: Config, s: State)
    requires Inv(cfg, s) && s.termination.TPollReceive? && Taken(s.queue, TERMINATION_MSG) != []
    ensures Inv(cfg, TerminationStep(s, false))
  {
    hide ChildrenOk, SentOk, TerminationOk, AnnouncedOk, CreationOk, RegistryOk, MarksOk, ThreadsOk, ReportersOk;
    Unpack(cfg, s);
    BacklogOfReceive(s.queue, TERMINATION_MSG, CREATION_MSG);
    TerminationReceived(cfg, s, Taken(s.queue, TERMINATION_MSG)[0],
                        Backlog(Remaining(s.queue, TERMINATION_MSG), TERMINATION_MSG));
  }

  lemma TerminationReceived(cfg: Config, s: State, letter: Letter, rest: seq<Letter>)
    requires Inv(cfg, s) && s.termination.TPollReceive? && Backlog(s.queue, TERMINATION_MSG) == [letter] + rest
    ensures TerminationOk(s.children, s.handlers, s.log.sent, s.log.consumed, rest, TGot(letter))
  {
    hide ChildrenOk, CreatorOk, SentOk, AnnouncedOk, CreationOk, RegistryOk, MarksOk, ThreadsOk, ReportersOk, DecodePid;
    Unpack(cfg, s);
    assert rest == s.log.sent[s.log.consumed..][1..];
  }

  /** Moving the termination listener on the same pid, or back to its loop. */
  lemma TerminationMovedInv(cfg: Config, s: State, pc: TerminationPc, misses: nat)
    requires Inv(cfg, s) && !s.termination.TGot? && !pc.TGot? && (pc.TIdle? <==> s.termination.TIdle?)
    requires HandlingPid(pc).None? || HandlingPid(pc) == HandlingPid(s.termination)
    requires FoundPid(pc).Some? ==> FoundPid(s.termination).Some? || FoundPid(pc).value in s.handlers
    ensures Inv(cfg, s.(termination := pc, log := s.log.(misses := misses)))
  {
    hide ChildrenOk, SentOk, TerminationOk, AnnouncedOk, CreationOk, RegistryOk, MarksOk, ThreadsOk, ReportersOk;
    Unpack(cfg, s);
    TerminationMoved(cfg, s, pc);
  }

  lemma TerminationMoved(cfg: Config, s: State, pc: TerminationPc)
    requires Inv(cfg, s) && !s.termination.TGot? && !pc.TGot?
    requires HandlingPid(pc).None? || HandlingPid(pc) == HandlingPid(s.termination)
    requires FoundPid(pc).Some? ==> FoundPid(s.termination).Some? || FoundPid(pc).value in s.handlers
    ensures TerminationOk(s.children, s.handlers, s.log.sent, s.log.consumed, Backlog(s.queue, TERMINATION_MSG), pc)
  {
    hide ChildrenOk, CreatorOk, SentOk, AnnouncedOk, CreationOk, RegistryOk, MarksOk, ThreadsOk, ReportersOk;
    Unpack(cfg, s);
  }

  lemma CountInv(cfg: Config, s: State)
    requires Inv(cfg, s) && s.termination.TGot?
    ensures Inv(cfg, TerminationStep(s, false)) && TerminationStep(s, true) == TerminationStep(s, false)
  {
    hide ChildrenOk, SentOk, TerminationOk, AnnouncedOk, CreationOk, RegistryOk, MarksOk, ThreadsOk, ReportersOk;
    hide DecodePid;
    Unpack(cfg, s);
    TerminationCounted(cfg, s);
  }

  /** The message in hand decodes, so it is always counted, and to the pid of its child. */
  lemma TerminationCounted(cfg: Config, s: State)
    requires Inv(cfg, s) && s.termination.TGot?
    ensures var pid := DecodePid(s.termination.letter.text);
      && pid.Some?
      && TerminationOk(s.children, s.handlers, s.log.sent, s.log.consumed + 1, Backlog(s.queue, TERMINATION_MSG),
                       TLookup(pid.value))
    ensures MarksOk(s.children, s.deceased, s.log.markedBy, s.log.sent, s.log.consumed + 1)
  {
    hide ChildrenOk, CreatorOk, AnnouncedOk, CreationOk, RegistryOk, ThreadsOk, ReportersOk, DecodePid;
    Unpack(cfg, s);
    assert DecodePid(s.log.sent[s.log.consumed].text).Some?;
  }

  lemma ClearInv(cfg: Config, s: State)
    requires Inv(cfg, s) && s.termination.TClear?
    ensures Inv(cfg, TerminationStep(s, false)) && TerminationStep(s, true) == TerminationStep(s, false)
  {
    hide Inv;
    var h := s.termination.handler;
    TerminationMovedInv(cfg, s, TSpin(s.termination.pid, h, 0), s.log.misses);
    if h < |s.children| {
      FlagInv(cfg, s.(termination := TSpin(s.termination.pid, h, 0)), h, false);
    }
  }

  lemma FlagInv(cfg: Config, s: State, h: nat, monitoring: bool)
    requires Inv(cfg, s) && h < |s.children|
    ensures Inv(cfg, WithChild(s, h, s.children[h].(monitoring := monitoring)))
  {
    hide Inv;
    ChildIsOk(cfg, s, h);
    QuietInv(cfg, s, h, s.children[h].(monitoring := monitoring));
  }

  lemma MarkInv(cfg: Config, s: State)
    requires Inv(cfg, s) && s.termination.TMark?
    ensures Inv(cfg, TerminationStep(s, false)) && TerminationStep(s, true) == TerminationStep(s, false)
  {
    hide ChildrenOk, SentOk, TerminationOk, AnnouncedOk, CreationOk, RegistryOk, MarksOk, ThreadsOk, ReportersOk;
    Unpack(cfg, s);
    TerminationMoved(cfg, s, THead);
    PidMarked(cfg, s);
  }

  lemma PidMarked(cfg: Config, s: State)
    requires Inv(cfg, s) && s.termination.TMark?
    ensures var pid := s.termination.pid;
      && pid in s.handlers && s.log.consumed > 0
      && RegistryOk(s.children, s.handlers, Marked(s.handlers, s.deceased, pid))
      && MarksOk(s.children, Marked(s.handlers, s.deceased, pid), s.log.markedBy[pid := s.log.consumed - 1],
                 s.log.sent, s.log.consumed)
  {
    hide ChildrenOk, CreatorOk, SentOk, AnnouncedOk, CreationOk, ThreadsOk, ReportersOk, DecodePid;
    Unpack(cfg, s);
  }

  /** Moving a monitor thread to a point where it owes no report. */
  lemma WithPcInv(cfg: Config, s: State, t: nat, pc: MonitorPc)
    requires Inv(cfg, s) && t < |s.threads| && !pc.MReport?
    ensures Inv(cfg, WithPc(s, t, pc))
  {
    Unpack(cfg, s);
    var after := s.threads[t := s.threads[t].(pc := pc)];
    assert ThreadsOk(s.children, s.handlers, s.log.announced, Used(s.log.heard, s.creation), after);
    assert ReportersOk(s.children, after);
  }

  lemma ReapInv(cfg: Config, s: State, t: nat, i: nat)
    requires Inv(cfg, s) && t < |s.threads| && s.threads[t].pc.MWait?
    requires i < |s.children| && s.children[i].life.Zombie? && s.children[i].worker.NoWorker?
    ensures Inv(cfg, WithPc(ReapStep(s, i, NoWorker), t, if Abnormal(s.children[i].life) then MReport(i) else MStop))
  {
    hide Inv;
    ChildIsOk(cfg, s, i);
    NotOwed(cfg, s, i);
    var c := s.children[i].(life := Reaped(s.children[i].life.status));
    QuietInv(cfg, s, i, c);
    if Abnormal(s.children[i].life) {
      OweInv(cfg, ReapStep(s, i, NoWorker), t, i);
    } else {
      WithPcInv(cfg, ReapStep(s, i, NoWorker), t, MStop);
    }
  }

  lemma OweInv(cfg: Config, s: State, t: nat, i: nat)
    requires Inv(cfg, s) && t < |s.threads| && i < |s.children| && Owing(s.children[i])
    requires forall u :: 0 <= u < |s.threads| && s.threads[u].pc.MReport? ==> s.threads[u].pc.child != i
    ensures Inv(cfg, WithPc(s, t, MReport(i)))
  {
    hide ChildrenOk, SentOk, TerminationOk, AnnouncedOk, CreationOk, RegistryOk, MarksOk;
    Unpack(cfg, s);
  }

  lemma MonitorReportInv(cfg: Config, s: State, t: nat, exitCode: int)
    requires Inv(cfg, s) && t < |s.threads| && s.threads[t].pc.MReport? && s.threads[t].pc.child < |s.children|
    requires IsInt32(exitCode)
    ensures Inv(cfg, WithPc(ReaperReport(s, s.threads[t].pc.child, NoWorker, "", exitCode), t, MStop))
  {
    hide Inv;
    var i := s.threads[t].pc.child;
    WithPcInv(cfg, s, t, MStop);
    var s1 := WithPc(s, t, MStop);
    OwedByOne(cfg, s, t);
    ChildIsOk(cfg, s, i);
    TerminationPosted(cfg, s1, i, s.children[i].(reaperSent := true), ItsReaper, "", exitCode);
  }

  lemma OwedByOne(cfg: Config, s: State, t: nat)
    requires Inv(cfg, s) && t < |s.threads| && s.threads[t].pc.MReport?
    ensures s.threads[t].pc.child < |s.children| && Owing(s.children[s.threads[t].pc.child])
    ensures var threads := WithPc(s, t, MStop).threads;
      forall u :: 0 <= u < |threads| && threads[u].pc.MReport? ==> threads[u].pc.child != s.threads[t].pc.child
  {
    hide ChildrenOk, SentOk, TerminationOk, AnnouncedOk, CreationOk, RegistryOk, MarksOk, ThreadsOk;
    Unpack(cfg, s);
  }

  /** System children announce nothing, so they have no monitor threads. */
  lemma NoWorkerOnMonitored(cfg: Config, s: State, t: nat, i: nat)
    requires Inv(cfg, s) && t < |s.threads| && i < |s.children|
    ensures s.children[i].worker.NoWorker?
  {
    hide CreatorOk, SentOk, TerminationOk, CreationOk, RegistryOk, MarksOk, ReportersOk, DecodePid;
    Unpack(cfg, s);
    assert Caused(s.children, s.handlers, s.log.announced, s.threads[t].owner, s.threads[t].cause);
    assert ChildOk(cfg, s.children[i]);
  }

  lemma MonitorInv(cfg: Config, s: State, t: nat, alive: bool, delivered: bool, exitCode: int)
    requires Inv(cfg, s) && CanMonitor(s, t, alive) && IsInt32(exitCode)
    ensures Inv(cfg, MonitorStep(s, t, alive, delivered, exitCode))
  {
    hide Inv;
    var pc := s.threads[t].pc;
    if pc.MStart? || pc.MStop? {
      MonitorFlagInv(cfg, s, t, pc.MStart?, MonitorMove(s, t, alive));
    } else if pc.MWait? {
      MonitorWaitInv(cfg, s, t, alive);
    } else if pc.MReport? && delivered {
      NoWorkerOnMonitored(cfg, s, t, pc.child);
      MonitorReportInv(cfg, s, t, exitCode);
    } else {
      WithPcInv(cfg, s, t, MonitorMove(s, t, alive));
    }
  }

  lemma MonitorFlagInv(cfg: Config, s: State, t: nat, flag: bool, pc: MonitorPc)
    requires Inv(cfg, s) && t < |s.threads| && s.threads[t].owner < |s.children| && !pc.MReport?
    ensures var h := s.threads[t].owner;
      Inv(cfg, WithPc(WithChild(s, h, s.children[h].(monitoring := flag)), t, pc))
  {
    hide Inv;
    var h := s.threads[t].owner;
    FlagInv(cfg, s, h, flag);
    WithPcInv(cfg, WithChild(s, h, s.children[h].(monitoring := flag)), t, pc);
  }

  lemma MonitorWaitInv(cfg: Config, s: State, t: nat, alive: bool)
    requires Inv(cfg, s) && t < |s.threads| && s.threads[t].owner < |s.children| && s.threads[t].pc.MWait?
    ensures forall delivered, exitCode :: Inv(cfg, MonitorStep(s, t, alive, delivered, exitCode))
  {
    hide Inv;
    var found := Collectable(s, t);
    if found.Some? {
      NoWorkerOnMonitored(cfg, s, t, found.value);
      ReapInv(cfg, s, t, found.value);
    } else {
      WithPcInv(cfg, s, t, MonitorMove(s, t, alive));
    }
  }

  /** Every step keeps the invariant. */
  lemma StepInv(cfg: Config, s: State, a: Action)
    requires Inv(cfg, s) && Enabled(cfg, s, a)
    ensures Inv(cfg, Apply(cfg, s, a))
  {
    hide Inv;
    match a
    case StartThreads => StartInv(cfg, s);
    case Launch(pid) => LaunchInv(cfg, s, pid);
    case Creator => CreatorInv(cfg, s);
    case Announce(i, delivered, duration) => AnnounceInv(cfg, s, i, delivered, duration);
    case Report(i, delivered, duration, exitCode) => ReportInv(cfg, s, i, delivered, duration, exitCode);
    case End(i, status) => EndInv(cfg, s, i, status);
    case WorkerReap(i) => WorkerReapInv(cfg, s, i);
    case WorkerReport(i, delivered, duration, exitCode) => WorkerReportInv(cfg, s, i, delivered, duration, exitCode);
    case CreationListener(quit) => CreationListenerInv(cfg, s, quit);
    case TerminationListener(quit) => TerminationListenerInv(cfg, s, quit);
    case Monitor(t, alive, delivered, exitCode) => MonitorInv(cfg, s, t, alive, delivered, exitCode);
    case Stop => SwitchInv(cfg, s, s.flags.(running := false));
    case SetRespawn(on) => SwitchInv(cfg, s, s.flags.(respawn := on));
    case SetPaused(on) => SwitchInv(cfg, s, s.flags.(paused := on));
  }

  lemma SwitchInv(cfg: Config, s: State, flags: Flags)
    requires Inv(cfg, s)
    requires flags.started == s.flags.started
    ensures Inv(cfg, s.(flags := flags))
  {
    hide ChildrenOk, SentOk, TerminationOk, AnnouncedOk, CreationOk, RegistryOk, MarksOk, ThreadsOk, ReportersOk;
    Unpack(cfg, s);
  }

  lemma StartInv(cfg: Config, s: State)
    requires Inv(cfg, s) && s.creator.CWaiting? && !s.flags.started
    ensures Inv(cfg, StartStep(s))
  {
    hide ChildrenOk, SentOk, AnnouncedOk, RegistryOk, MarksOk, ReportersOk;
    Unpack(cfg, s);
  }

  /** Every legal run from a state with the invariant ends in one. */
  lemma {:induction false} RunInv(cfg: Config, s: State, run: seq<Action>)
    requires Inv(cfg, s) && Legal(cfg, s, run)
    ensures Inv(cfg, Exec(cfg, s, run))
    decreases |run|
  {
    hide Inv;
    if run == [] {
    } else {
      StepInv(cfg, s, run[0]);
      RunInv(cfg, Apply(cfg, s, run[0]), run[1..]);
    }
  }
}

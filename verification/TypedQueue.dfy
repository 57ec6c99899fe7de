/** A System V message queue: msgsnd appends, msgrcv with a positive type takes the first message of that
    type (POSIX.1-2017, System Interfaces, section 2.7). The body type is left open. */
module TypedQueue {

  datatype Message<T> = Message(msgType: int, body: T)

  /** The bodies of one type, oldest first. */
  function Backlog<T>(queue: seq<Message<T>>, msgType: int): seq<T> {
    if queue == [] then [] else
      Backlog(queue[..|queue| - 1], msgType) +
      if queue[|queue| - 1].msgType == msgType then [queue[|queue| - 1].body] else []
  }

  /** Index of the oldest message of a type, or |queue|. */
  function FirstOfType<T>(queue: seq<Message<T>>, msgType: int): (k: nat)
    ensures k <= |queue|
    ensures forall i :: 0 <= i < k ==> queue[i].msgType != msgType
    ensures k < |queue| ==> queue[k].msgType == msgType
  {
    if queue == [] || queue[0].msgType == msgType then 0 else 1 + FirstOfType(queue[1..], msgType)
  }

  function Without<T>(queue: seq<Message<T>>, k: nat): seq<Message<T>>
    requires k < |queue|
  {
    queue[..k] + queue[k + 1..]
  }

  lemma BacklogOfSend<T>(queue: seq<Message<T>>, m: Message<T>, msgType: int)
    ensures Backlog(queue + [m], msgType)
         == if m.msgType == msgType then Backlog(queue, msgType) + [m.body] else Backlog(queue, msgType)
  {
    assert (queue + [m])[..|queue|] == queue;
  }

  lemma {:induction false} BacklogOfConcat<T>(a: seq<Message<T>>, b: seq<Message<T>>, msgType: int)
    ensures Backlog(a + b, msgType) == Backlog(a, msgType) + Backlog(b, msgType)
  {
    if b == [] {
      assert a + b == a;
    } else {
      var b' := b[..|b| - 1];
      BacklogOfConcat(a, b', msgType);
      assert (a + b)[..|a + b| - 1] == a + b';
    }
  }

  lemma {:induction false} BacklogOfOthers<T>(queue: seq<Message<T>>, msgType: int)
    requires forall i :: 0 <= i < |queue| ==> queue[i].msgType != msgType
    ensures Backlog(queue, msgType) == []
  {
    if queue == [] {
    } else {
      BacklogOfOthers(queue[..|queue| - 1], msgType);
    }
  }

  /** What a receive of one type hands out: the oldest body, or nothing. */
  function Taken<T>(queue: seq<Message<T>>, msgType: int): (bodies: seq<T>)
    ensures |bodies| <= 1
  {
    var k := FirstOfType(queue, msgType);
    if k < |queue| then [queue[k].body] else []
  }

  /** What a receive of one type leaves behind. */
  function Remaining<T>(queue: seq<Message<T>>, msgType: int): seq<Message<T>> {
    var k := FirstOfType(queue, msgType);
    if k < |queue| then Without(queue, k) else queue
  }

  lemma HeadIsTaken<T>(m: Message<T>, rest: seq<Message<T>>)
    ensures Taken([m] + rest, m.msgType) == [m.body] && Remaining([m] + rest, m.msgType) == rest
  {
    assert FirstOfType([m] + rest, m.msgType) == 0;
  }

  /** Receiving takes the oldest body of the type off that type's backlog and leaves every other backlog alone;
      it finds nothing only when there is nothing. */
  lemma BacklogOfReceive<T>(queue: seq<Message<T>>, msgType: int, other: int)
    ensures Backlog(queue, msgType) == Taken(queue, msgType) + Backlog(Remaining(queue, msgType), msgType)
    ensures other != msgType ==> Backlog(Remaining(queue, msgType), other) == Backlog(queue, other)
    ensures Taken(queue, msgType) == [] <==> Backlog(queue, msgType) == []
  {
    var k := FirstOfType(queue, msgType);
    if k == |queue| {
      BacklogOfOthers(queue, msgType);
    } else {
      BacklogAround(queue, k, other);
      BacklogAround(queue, k, msgType);
      BacklogOfOthers(queue[..k], msgType);
    }
  }

  lemma BacklogAround<T>(queue: seq<Message<T>>, k: nat, msgType: int)
    requires k < |queue|
    ensures Backlog(queue, msgType) == Backlog(queue[..k], msgType)
         + (if queue[k].msgType == msgType then [queue[k].body] else []) + Backlog(queue[k + 1..], msgType)
    ensures Backlog(Without(queue, k), msgType) == Backlog(queue[..k], msgType) + Backlog(queue[k + 1..], msgType)
  {
    BacklogOfSend(queue[..k], queue[k], msgType);
    BacklogOfConcat(queue[..k] + [queue[k]], queue[k + 1..], msgType);
    assert queue == queue[..k] + [queue[k]] + queue[k + 1..];
    BacklogOfConcat(queue[..k], queue[k + 1..], msgType);
  }

  // ---------- whole histories ----------

  datatype Event<T> = Sent(m: Message<T>) | Received(msgType: int)

  /** The queue after a history; a receive on an empty backlog changes nothing. */
  function After<T>(history: seq<Event<T>>): seq<Message<T>> {
    if history == [] then [] else
      var queue := After(history[..|history| - 1]);
      match history[|history| - 1]
      case Sent(m) => queue + [m]
      case Received(t) => Remaining(queue, t)
  }

  /** Bodies of a type put into the queue, in sending order. */
  function SentBodies<T>(history: seq<Event<T>>, msgType: int): seq<T> {
    if history == [] then [] else
      var e := history[|history| - 1];
      SentBodies(history[..|history| - 1], msgType) +
      if e.Sent? && e.m.msgType == msgType then [e.m.body] else []
  }

  /** Bodies handed to receivers of a type, in receiving order. */
  function ReceivedBodies<T>(history: seq<Event<T>>, msgType: int): seq<T> {
    if history == [] then [] else
      var before := history[..|history| - 1];
      ReceivedBodies(before, msgType) +
      if history[|history| - 1] == Received(msgType) then Taken(After(before), msgType) else []
  }

  /** Per-type FIFO and conservation, over every interleaving of senders and receivers. */
  lemma {:induction false} TypedFifo<T>(history: seq<Event<T>>, msgType: int)
    ensures SentBodies(history, msgType)
         == ReceivedBodies(history, msgType) + Backlog(After(history), msgType)
  {
    if history == [] {
    } else {
      var before := history[..|history| - 1];
      TypedFifo(before, msgType);
      match history[|history| - 1]
      case Sent(m) => BacklogOfSend(After(before), m, msgType);
      case Received(t) => BacklogOfReceive(After(before), t, msgType);
    }
  }
}

/** src/concurrency/messenger.cpp: the retry loops around the kernel queue. */
module Messenger {
  import opened Messages
  import opened TypedQueue

  type TextMessage = Message<string>

  /** How the kernel answers one msgsnd. */
  datatype Answer = Accepted | Full | Broken

  /** One turn of the send loop: the running flag read at its head, the answer, and whether time is up. */
  datatype Attempt = Attempt(running: bool, answer: Answer, late: bool)

  datatype SendOutcome = Delivered | FailedToSend | TimedOut

  /** What a send loop meeting these turns comes to; the turns end when the flag is read false. */
  function SendVerdict(attempts: seq<Attempt>): SendOutcome {
    if attempts == [] || !attempts[0].running then TimedOut
    else match attempts[0].answer
      case Accepted => Delivered
      case Broken => FailedToSend
      case Full => if attempts[0].late then TimedOut else SendVerdict(attempts[1..])
  }

  /** One turn of the receive loop: the flag, the messages other processes queued meanwhile, a msgrcv failure
      other than ENOMSG, and whether time is up. */
  datatype Poll = Poll(running: bool, arrivals: seq<TextMessage>, fault: bool, late: bool)

  function Arrived(polls: seq<Poll>): seq<TextMessage> {
    if polls == [] then [] else Arrived(polls[..|polls| - 1]) + polls[|polls| - 1].arrivals
  }

  /** Turn k is accepted and every turn before it was a retry. */
  predicate DeliveredAt(attempts: seq<Attempt>, k: nat) {
    && k < |attempts| && attempts[k].running && attempts[k].answer == Accepted
    && forall i :: 0 <= i < k ==> attempts[i] == Attempt(true, Full, false)
  }

  lemma DeliveredLater(attempts: seq<Attempt>, k: nat)
    requires 0 < k < |attempts|
    ensures DeliveredAt(attempts, k) <==> attempts[0] == Attempt(true, Full, false) && DeliveredAt(attempts[1..], k - 1)
  {
    assert forall i :: 1 <= i < k ==> attempts[i] == attempts[1..][i - 1];
    assert forall i :: 0 <= i < k - 1 ==> attempts[1..][i] == attempts[i + 1];
  }

  /** A send is delivered exactly when some turn is accepted after retries only. */
  lemma {:induction false} DeliveredExactlyWhen(attempts: seq<Attempt>)
    ensures SendVerdict(attempts) == Delivered <==> exists k: nat :: DeliveredAt(attempts, k)
  {
    if attempts == [] {
    } else {
      DeliveredExactlyWhen(attempts[1..]);
      forall k: nat | k < |attempts| - 1
        ensures DeliveredAt(attempts, k + 1) <==>
                attempts[0] == Attempt(true, Full, false) && DeliveredAt(attempts[1..], k)
      {
        DeliveredLater(attempts, k + 1);
      }
      assert forall k: nat :: DeliveredAt(attempts, k) && k != 0 ==> DeliveredAt(attempts[1..], k - 1);
      assert DeliveredAt(attempts, 0) <==> attempts[0].running && attempts[0].answer == Accepted;
    }
  }

  /** One msgrcv: every backlog is what it handed out of that type and what it left; the text handed out was queued. */
  lemma ReceiveKeepsBooks(queue: seq<TextMessage>, msgType: int)
    ensures forall t ::
      Backlog(queue, t) == (if t == msgType then Taken(queue, msgType) else []) + Backlog(Remaining(queue, msgType), t)
    ensures Taken(queue, msgType) == [] ==> Remaining(queue, msgType) == queue && Backlog(queue, msgType) == []
    ensures Taken(queue, msgType) != [] ==> exists m :: m in queue && m.body == Taken(queue, msgType)[0]
  {
    forall t
      ensures Backlog(queue, t) == (if t == msgType then Taken(queue, msgType) else [])
                                   + Backlog(Remaining(queue, msgType), t)
    {
      BacklogOfReceive(queue, msgType, t);
    }
    BacklogOfReceive(queue, msgType, msgType);
    if Taken(queue, msgType) != [] {
      assert queue[FirstOfType(queue, msgType)] in queue;
    }
  }

  /** Turn k meets an error other than a full queue, and every turn before it was a retry. */
  predicate BrokenAt(attempts: seq<Attempt>, k: nat) {
    && k < |attempts| && attempts[k].running && attempts[k].answer == Broken
    && forall i :: 0 <= i < k ==> attempts[i] == Attempt(true, Full, false)
  }

  lemma BrokenLater(attempts: seq<Attempt>, k: nat)
    requires 0 < k < |attempts|
    ensures BrokenAt(attempts, k) <==> attempts[0] == Attempt(true, Full, false) && BrokenAt(attempts[1..], k - 1)
  {
    assert forall i :: 1 <= i < k ==> attempts[i] == attempts[1..][i - 1];
    assert forall i :: 0 <= i < k - 1 ==> attempts[1..][i] == attempts[i + 1];
  }

  /** A send fails exactly when an error ends a series of retries; every other undelivered send has timed out, or was
      stopped by the running flag. */
  lemma {:induction false} FailedExactlyWhen(attempts: seq<Attempt>)
    ensures SendVerdict(attempts) == FailedToSend <==> exists k: nat :: BrokenAt(attempts, k)
  {
    if attempts == [] {
    } else {
      FailedExactlyWhen(attempts[1..]);
      forall k: nat | k < |attempts| - 1
        ensures BrokenAt(attempts, k + 1) <==>
                attempts[0] == Attempt(true, Full, false) && BrokenAt(attempts[1..], k)
      {
        BrokenLater(attempts, k + 1);
      }
      assert forall k: nat :: BrokenAt(attempts, k) && k != 0 ==> BrokenAt(attempts[1..], k - 1);
      assert BrokenAt(attempts, 0) <==> attempts[0].running && attempts[0].answer == Broken;
    }
  }

  class MessageQueue {
    var messages: seq<TextMessage>

    constructor ()
      ensures messages == []
    {
      messages := [];
    }

    /** sendMessage: at most one copy is queued, and only when the outcome says so. */
    method SendMessage(text: string, msgType: int, attempts: seq<Attempt>) returns (outcome: SendOutcome)
      modifies this
      ensures outcome == SendVerdict(attempts)
      ensures messages == old(messages) +
                (if outcome == Delivered then [Message(msgType, Payload(text))] else [])
    {
      var i := 0;
      while i < |attempts| && attempts[i].running
        invariant 0 <= i <= |attempts|
        invariant SendVerdict(attempts) == SendVerdict(attempts[i..])
        invariant messages == old(messages)
      {
        if attempts[i].answer == Accepted {
          messages := messages + [Message(msgType, Payload(text))];
          return Delivered;
        }
        if attempts[i].answer == Broken {
          return FailedToSend;
        }
        if attempts[i].late {
          break;
        }
        i := i + 1;
      }
      return TimedOut;
    }

    /** receiveMessage behind receiveProcessMessage, which turns a failure into an empty string. `used` turns
        were taken; `taken` tells whether a message left the queue. A message of the type that is there is received
        in the first turn that gets to look; without one the loop goes on until it is told otherwise. */
    method ReceiveMessage(msgType: int, polls: seq<Poll>) returns (text: string, taken: bool, used: nat)
      modifies this
      ensures used <= |polls| && (taken ==> used > 0)
      ensures forall i :: 0 <= i < used ==> polls[i].running
      ensures forall i :: 0 <= i < used - 1 ==> !polls[i].fault && !polls[i].late
      ensures taken ==> !polls[used - 1].fault
      ensures taken && used > 1 ==> Backlog(old(messages) + Arrived(polls[..used - 1]), msgType) == []
      ensures !taken && used > 0 && !polls[used - 1].fault ==> Backlog(messages, msgType) == []
      ensures !taken ==> used == |polls| || !polls[used].running
                         || (used > 0 && (polls[used - 1].fault || polls[used - 1].late))
      ensures !taken ==> text == "" && messages == old(messages) + Arrived(polls[..used])
      ensures forall t :: Backlog(old(messages) + Arrived(polls[..used]), t)
                       == (if taken && t == msgType then [text] else []) + Backlog(messages, t)
      ensures (forall m :: m in old(messages) + Arrived(polls[..used]) ==> m.body != "") ==> (taken <==> text != "")
      ensures (forall m :: m in old(messages) + Arrived(polls[..used]) ==> Encoded(m.body)) ==> (taken <==> text != "")
    {
      hide Backlog, Taken, Remaining, Encoded;
      text, taken, used := "", false, 0;
      while used < |polls| && polls[used].running
        invariant used <= |polls| && text == "" && !taken
        invariant messages == old(messages) + Arrived(polls[..used])
        invariant forall i :: 0 <= i < used ==> polls[i].running && !polls[i].fault && !polls[i].late
        invariant used > 0 ==> Backlog(messages, msgType) == []
      {
        var poll := polls[used];
        assert polls[..used + 1][..used] == polls[..used];
        messages := messages + poll.arrivals;
        used := used + 1;
        if poll.fault {
          return;
        }
        assert messages == old(messages) + Arrived(polls[..used]);
        var bodies := Taken(messages, msgType);
        ReceiveKeepsBooks(messages, msgType);
        if bodies != [] {
          text, taken := bodies[0], true;
          assert bodies == [text];
          if Encoded(text) {
            EncodedIsNotEmpty(text);
          }
          messages := Remaining(messages, msgType);
          return;
        }
        if poll.late {
          return;
        }
      }
    }
  }
}

/** The bounded event queues in front of the batcher, and the producers that would rather lose events than wait. */
module MessageQueues {
  import opened Options

  datatype MessageType = LogMessage | DelayMessage | RequestMessage | LoadedMessage | GeoUpdateMessage

  datatype Message = Message(kind: MessageType, data: int)

  datatype Class = StateClass | PriorityClass | BulkClass

  const QUEUE_SIZE: nat := 256
  const EVICT_ATTEMPTS: nat := 4

  function ClassOf(message: Message): Class {
    match message.kind
    case LoadedMessage => StateClass
    case GeoUpdateMessage => StateClass
    case LogMessage => BulkClass
    case RequestMessage => BulkClass
    case _ => PriorityClass
  }

  /** A message that has left a queue: into a batch, or evicted by a producer. */
  datatype Left = Left(message: Message, batched: bool)

  /** A queue with its history: everything that entered it, and everything that left it, in order. */
  datatype Queue = Queue(buffer: seq<Message>, closed: bool, entered: seq<Message>, left: seq<Left>) {
    function Send(message: Message): Queue {
      this.(buffer := buffer + [message], entered := entered + [message])
    }

    function Remove(batched: bool): Queue
      requires buffer != []
    {
      this.(buffer := buffer[1..], left := left + [Left(buffer[0], batched)])
    }
  }

  function Preloaded(messages: seq<Message>): Queue {
    Queue(messages, true, messages, [])
  }

  function AllLeft(left: seq<Left>): seq<Message> {
    if left == [] then [] else AllLeft(left[..|left| - 1]) + [left[|left| - 1].message]
  }

  /** The messages of a queue that went into batches, in the order in which they left it. */
  function Batched(left: seq<Left>): seq<Message> {
    if left == [] then []
    else
      var last := left[|left| - 1];
      Batched(left[..|left| - 1]) + if last.batched then [last.message] else []
  }

  /** First in, first out: what entered is what left followed by what is still there. */
  predicate Fifo(q: Queue) {
    q.entered == AllLeft(q.left) + q.buffer
  }

  lemma SendKeepsFifo(q: Queue, message: Message)
    requires Fifo(q)
    ensures Fifo(q.Send(message)) && Batched(q.Send(message).left) == Batched(q.left)
  {
    assert q.entered + [message] == AllLeft(q.left) + (q.buffer + [message]);
  }

  lemma RemoveKeepsFifo(q: Queue, batched: bool)
    requires Fifo(q) && q.buffer != []
    ensures Fifo(q.Remove(batched))
    ensures Batched(q.Remove(batched).left) == Batched(q.left) + if batched then [q.buffer[0]] else []
  {
    var t := q.Remove(batched);
    assert t.left[..|t.left| - 1] == q.left;
    assert AllLeft(t.left) + t.buffer == AllLeft(q.left) + ([q.buffer[0]] + q.buffer[1..]);
  }

  // ---- Other parties between the operations of one producer

  /** Another producer sends or evicts, or the batcher takes. */
  datatype Passing = Put(message: Message) | Evict | Take

  function Pass(q: Queue, passing: Passing): Queue {
    match passing
    case Put(message) => if |q.buffer| < QUEUE_SIZE then q.Send(message) else q
    case Evict => Evicted(q)
    case Take => if q.buffer == [] then q else q.Remove(true)
  }

  function PassAll(q: Queue, passings: seq<Passing>): Queue {
    if passings == [] then q else Pass(PassAll(q, passings[..|passings| - 1]), passings[|passings| - 1])
  }

  function Evicted(q: Queue): Queue {
    if q.buffer == [] then q else q.Remove(false)
  }

  function Between(pauses: seq<seq<Passing>>, i: nat): seq<Passing> {
    if i < |pauses| then pauses[i] else []
  }

  /** The queue that attempt `k` of a producer meets when it sends, if no earlier attempt has found room. */
  function AtSend(q: Queue, pauses: seq<seq<Passing>>, k: nat): Queue {
    if k == 0 then PassAll(q, Between(pauses, 0))
    else PassAll(Evicted(PassAll(AtSend(q, pauses, k - 1), Between(pauses, 2 * k - 1))), Between(pauses, 2 * k))
  }

  predicate Room(q: Queue) {
    |q.buffer| < QUEUE_SIZE
  }

  /** Attempt `k` finds room, if it is made at all. */
  predicate Finds(q: Queue, pauses: seq<seq<Passing>>, k: nat) {
    Room(AtSend(q, pauses, k))
  }

  /** What the channel is after `k` attempts that found no room. */
  function AfterAttempts(q: Queue, pauses: seq<seq<Passing>>, k: nat): Queue {
    if k == 0 then q else Evicted(PassAll(AtSend(q, pauses, k - 1), Between(pauses, 2 * k - 1)))
  }

  lemma AtSendNext(q: Queue, pauses: seq<seq<Passing>>, k: nat)
    ensures AtSend(q, pauses, k) == PassAll(AfterAttempts(q, pauses, k), Between(pauses, 2 * k))
    ensures AfterAttempts(q, pauses, k + 1) == Evicted(PassAll(AtSend(q, pauses, k), Between(pauses, 2 * k + 1)))
  {
    hide PassAll, Evicted, Between;
  }

  predicate Sound(q: Queue) {
    Fifo(q) && |q.buffer| <= QUEUE_SIZE
  }

  lemma EvictKeepsSound(q: Queue)
    requires Sound(q)
    ensures Sound(Evicted(q)) && Batched(Evicted(q).left) == Batched(q.left)
  {
    if q.buffer != [] {
      RemoveKeepsFifo(q, false);
    }
  }

  lemma {:induction false} PassAllKeepsSound(q: Queue, passings: seq<Passing>)
    requires Sound(q)
    ensures Sound(PassAll(q, passings))
  {
    if passings != [] {
      var before, passing := PassAll(q, passings[..|passings| - 1]), passings[|passings| - 1];
      PassAllKeepsSound(q, passings[..|passings| - 1]);
      match passing
      case Put(message) => SendKeepsFifo(before, message);
      case Evict => EvictKeepsSound(before);
      case Take =>
        if before.buffer != [] {
          RemoveKeepsFifo(before, true);
        }
    }
  }

  /**
   What becomes of a message that would rather evict than wait: it is kept exactly when one of the four attempts finds
   room, by the first that does.
   */
  ghost predicate Latest(q: Queue, pauses: seq<seq<Passing>>, message: Message, kept: Option<nat>, after: Queue) {
    && (kept.Some? <==> exists k: nat :: k < EVICT_ATTEMPTS && Finds(q, pauses, k))
    && (kept.Some? ==>
          && kept.value < EVICT_ATTEMPTS && Finds(q, pauses, kept.value)
          && after == AtSend(q, pauses, kept.value).Send(message)
          && forall k: nat | k < kept.value :: !Finds(q, pauses, k))
    && (kept.None? ==> after == AfterAttempts(q, pauses, EVICT_ATTEMPTS))
  }

  /** With nobody in between the message is always kept, if need be in place of the oldest. */
  lemma NewestWins(q: Queue, pauses: seq<seq<Passing>>, message: Message, kept: Option<nat>, after: Queue)
    requires Sound(q) && Latest(q, pauses, message, kept, after)
    requires forall i: nat :: Between(pauses, i) == []
    ensures kept.Some? && after == (if Room(q) then q else q.Remove(false)).Send(message)
  {
    assert Between(pauses, 0) == Between(pauses, 1) == Between(pauses, 2) == [];
    assert AtSend(q, pauses, 0) == q && AtSend(q, pauses, 1) == Evicted(q);
    assert Finds(q, pauses, 0) <==> Room(q);
    assert !Room(q) ==> Finds(q, pauses, 1);
    assert kept.value == if Room(q) then 0 else 1;
  }

  /** Whoever comes in between, a message that is kept is the newest in its queue. */
  lemma KeptIsNewest(q: Queue, pauses: seq<seq<Passing>>, message: Message, kept: Option<nat>, after: Queue)
    requires Latest(q, pauses, message, kept, after)
    ensures kept.Some? ==> after.buffer != [] && after.buffer[|after.buffer| - 1] == message
  {
  }

  /** A queue shared by producers and a consumer. */
  class Channel {
    var queue: Queue

    constructor ()
      ensures queue == Queue([], false, [], [])
    {
      queue := Queue([], false, [], []);
    }

    ghost predicate Valid()
      reads this
    {
      Sound(queue)
    }

    /** A send that does not wait. */
    method TrySend(message: Message) returns (sent: bool)
      requires Valid()
      modifies this
      ensures Valid() && sent == Room(old(queue))
      ensures queue == if sent then old(queue).Send(message) else old(queue)
    {
      sent := |queue.buffer| < QUEUE_SIZE;
      if sent {
        SendKeepsFifo(queue, message);
        queue := queue.Send(message);
      }
    }

    method TryEvict()
      requires Valid()
      modifies this
      ensures Valid() && queue == Evicted(old(queue))
    {
      EvictKeepsSound(queue);
      if queue.buffer != [] {
        queue := queue.Remove(false);
      }
    }

    /** The other producers and the batcher use the channel. */
    method Interfere(passings: seq<Passing>)
      requires Valid()
      modifies this
      ensures Valid() && queue == PassAll(old(queue), passings)
    {
      PassAllKeepsSound(queue, passings);
      queue := PassAll(queue, passings);
    }

    /** State events are never evicted: a full queue keeps what it has and refuses the newcomer. */
    method EnqueueState(message: Message) returns (ghost kept: bool)
      requires Valid()
      modifies this
      ensures Valid() && (kept <==> Room(old(queue)))
      ensures queue == if kept then old(queue).Send(message) else old(queue)
    {
      var sent := TrySend(message);
      kept := sent;
    }

    /**
     The newest event wins: a full queue gives up its oldest. `pauses` tells what the other producers and the batcher
     do before each operation on the channel.
     */
    method EnqueueLatest(message: Message, pauses: seq<seq<Passing>>) returns (ghost kept: Option<nat>)
      requires Valid()
      modifies this
      ensures Valid() && Latest(old(queue), pauses, message, kept, queue)
    {
      ghost var start := queue;
      hide Sound, PassAll, Evicted, AtSend, AfterAttempts, Room;
      AfterNone(start, pauses);
      var attempt: nat := 0;
      while attempt < EVICT_ATTEMPTS
        invariant Valid() && attempt <= EVICT_ATTEMPTS
        invariant queue == AfterAttempts(start, pauses, attempt)
        invariant forall k: nat | k < attempt :: !Finds(start, pauses, k)
      {
        AtSendNext(start, pauses, attempt);
        Interfere(if 2 * attempt < |pauses| then pauses[2 * attempt] else []);
        var sent := TrySend(message);
        if sent {
          assert Finds(start, pauses, attempt);
          return Some(attempt);
        }
        Interfere(if 2 * attempt + 1 < |pauses| then pauses[2 * attempt + 1] else []);
        TryEvict();
        attempt := attempt + 1;
      }
      return None;
    }
  }

  lemma AfterNone(q: Queue, pauses: seq<seq<Passing>>)
    ensures AfterAttempts(q, pauses, 0) == q
  {
  }

  /** Dispatch by class: the queue of the message's class gets it, the others are left alone. */
  method SendMessage(state: Channel, priority: Channel, bulk: Channel, message: Message, pauses: seq<seq<Passing>>)
      returns (ghost kept: bool)
    requires state != priority && state != bulk && priority != bulk
    requires state.Valid() && priority.Valid() && bulk.Valid()
    modifies state, priority, bulk
    ensures state.Valid() && priority.Valid() && bulk.Valid()
    ensures message.kind in {LogMessage, RequestMessage} ==>
              && state.queue == old(state.queue) && priority.queue == old(priority.queue)
              && (kept <==> exists k: nat :: k < EVICT_ATTEMPTS && Finds(old(bulk.queue), pauses, k))
              && (kept ==> bulk.queue.buffer != [] && bulk.queue.buffer[|bulk.queue.buffer| - 1] == message)
    ensures message.kind in {LoadedMessage, GeoUpdateMessage} ==>
              && priority.queue == old(priority.queue) && bulk.queue == old(bulk.queue)
              && (kept <==> Room(old(state.queue)))
              && state.queue == if kept then old(state.queue).Send(message) else old(state.queue)
    ensures message.kind == DelayMessage ==>
              && state.queue == old(state.queue) && bulk.queue == old(bulk.queue)
              && (kept <==> exists k: nat :: k < EVICT_ATTEMPTS && Finds(old(priority.queue), pauses, k))
              && (kept ==> priority.queue.buffer != [] && priority.queue.buffer[|priority.queue.buffer| - 1] == message)
  {
    ghost var attempt;
    match ClassOf(message) {
      case StateClass => kept := state.EnqueueState(message);
      case BulkClass =>
        attempt := bulk.EnqueueLatest(message, pauses);
        KeptIsNewest(old(bulk.queue), pauses, message, attempt, bulk.queue);
        kept := attempt.Some?;
      case PriorityClass =>
        attempt := priority.EnqueueLatest(message, pauses);
        KeptIsNewest(old(priority.queue), pauses, message, attempt, priority.queue);
        kept := attempt.Some?;
    }
  }
}

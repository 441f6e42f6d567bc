/** The event batcher: a three-class scheduler with priority, a bounded burst, and flushing by size and by timer. */
module MessageBatcher {
  import opened MessageQueues

  const BATCH_SIZE: nat := 32
  const PRIORITY_BURST: nat := 8

  // ---- The schedule that preloaded queues are meant to get

  /** Eight priority messages and one bulk message in turn while both last, then the rest. */
  function Alternate(priority: seq<Message>, bulk: seq<Message>): seq<Message> {
    if bulk == [] then priority
    else if |priority| <= PRIORITY_BURST then priority + bulk
    else priority[..PRIORITY_BURST] + [bulk[0]] + Alternate(priority[PRIORITY_BURST..], bulk[1..])
  }

  function Schedule(state: seq<Message>, priority: seq<Message>, bulk: seq<Message>): seq<Message> {
    state + Alternate(priority, bulk)
  }

  /** The same schedule message by message, from the middle of a burst. */
  function Rest(priority: seq<Message>, bulk: seq<Message>, burst: nat): seq<Message>
    decreases |priority| + |bulk|
  {
    if bulk == [] then priority
    else if burst >= PRIORITY_BURST || priority == [] then [bulk[0]] + Rest(priority, bulk[1..], 0)
    else [priority[0]] + Rest(priority[1..], bulk, burst + 1)
  }

  lemma {:induction false} RestOfBulk(bulk: seq<Message>, burst: nat)
    ensures Rest([], bulk, burst) == bulk
  {
    if bulk != [] {
      RestOfBulk(bulk[1..], 0);
    }
  }

  lemma RestWithoutBulk(priority: seq<Message>, burst: nat)
    ensures Rest(priority, [], burst) == priority
  {
  }

  /** A burst that the priority messages cannot fill. */
  lemma {:induction false} RestShort(priority: seq<Message>, bulk: seq<Message>, burst: nat)
    requires bulk != [] && burst + |priority| <= PRIORITY_BURST
    ensures Rest(priority, bulk, burst) == priority + bulk
  {
    if priority == [] {
      RestOfBulk(bulk, burst);
      assert priority + bulk == bulk;
    } else {
      RestShort(priority[1..], bulk, burst + 1);
      assert [priority[0]] + (priority[1..] + bulk) == priority + bulk;
    }
  }

  /** A full burst, and the bulk message that it lets through. */
  lemma {:induction false} RestFull(first: seq<Message>, priority: seq<Message>, bulk: seq<Message>, burst: nat)
    requires bulk != [] && burst + |first| == PRIORITY_BURST
    ensures Rest(first + priority, bulk, burst) == first + [bulk[0]] + Rest(priority, bulk[1..], 0)
    decreases |first|
  {
    if first == [] {
      assert first + priority == priority;
      assert first + [bulk[0]] == [bulk[0]];
    } else {
      RestFull(first[1..], priority, bulk, burst + 1);
      assert (first + priority)[1..] == first[1..] + priority;
      assert [first[0]] + (first[1..] + [bulk[0]] + Rest(priority, bulk[1..], 0))
          == first + [bulk[0]] + Rest(priority, bulk[1..], 0);
    }
  }

  lemma {:induction false} RestIsAlternate(priority: seq<Message>, bulk: seq<Message>)
    ensures Rest(priority, bulk, 0) == Alternate(priority, bulk)
    decreases |bulk|
  {
    if bulk != [] {
      if |priority| <= PRIORITY_BURST {
        RestShort(priority, bulk, 0);
      } else {
        var first, more := priority[..PRIORITY_BURST], priority[PRIORITY_BURST..];
        RestFull(first, more, bulk, 0);
        assert first + more == priority;
        RestIsAlternate(more, bulk[1..]);
      }
    }
  }

  // ---- What the batcher has done so far

  /** One entry per message taken, and a mark whenever the environment leaves the bulk queue empty. */
  datatype Entry = Took(source: Class, message: Message, bulkWaiting: bool) | BulkEmpty

  function Output(log: seq<Entry>): seq<Message> {
    if log == [] then []
    else
      var last := log[|log| - 1];
      Output(log[..|log| - 1]) + if last.Took? then [last.message] else []
  }

  function OutputOf(log: seq<Entry>, source: Class): seq<Message> {
    if log == [] then []
    else
      var last := log[|log| - 1];
      OutputOf(log[..|log| - 1], source) + if last.Took? && last.source == source then [last.message] else []
  }

  /** A moment at which a bulk message was waiting and was not taken. */
  predicate Passed(entry: Entry) {
    entry.Took? && entry.bulkWaiting && entry.source != BulkClass
  }

  /** Priority messages taken since a bulk message has last been taken or has begun to wait. */
  function Overtaking(log: seq<Entry>): nat {
    if log == [] || !Passed(log[|log| - 1]) then 0
    else Overtaking(log[..|log| - 1]) + if log[|log| - 1].source == PriorityClass then 1 else 0
  }

  function CountPriority(log: seq<Entry>): nat {
    if log == [] then 0
    else
      var last := log[|log| - 1];
      CountPriority(log[..|log| - 1]) + if last.Took? && last.source == PriorityClass then 1 else 0
  }

  lemma {:induction false} WindowOvertakes(log: seq<Entry>, i: nat)
    requires i <= |log| && forall k | i <= k < |log| :: Passed(log[k])
    ensures CountPriority(log[i..]) <= Overtaking(log)
    decreases |log|
  {
    if i < |log| {
      var before := log[..|log| - 1];
      WindowOvertakes(before, i);
      assert log[i..][..|log| - i - 1] == before[i..];
    }
  }

  function Flatten(batches: seq<seq<Message>>): seq<Message> {
    if batches == [] then [] else Flatten(batches[..|batches| - 1]) + batches[|batches| - 1]
  }

  lemma FlattenNext(batches: seq<seq<Message>>, batch: seq<Message>)
    ensures Flatten(batches + [batch]) == Flatten(batches) + batch
  {
    assert (batches + [batch])[..|batches|] == batches;
  }

  lemma LogNext(log: seq<Entry>, entry: Entry)
    ensures var longer := log + [entry];
            && Output(longer) == Output(log) + (if entry.Took? then [entry.message] else [])
            && (forall source :: OutputOf(longer, source) ==
                  OutputOf(log, source) + if entry.Took? && entry.source == source then [entry.message] else [])
            && Overtaking(longer) ==
                 (if !Passed(entry) then 0 else Overtaking(log) + if entry.source == PriorityClass then 1 else 0)
  {
    assert (log + [entry])[..|log|] == log;
  }

  // ---- Where batches end

  /**
   What decides about the batches: a message joins, or the blocking select of turn `turn` looks at its cases. It finds
   some queue ready or none, and the timer of a pending batch fired or not; `deadline` tells whether it picks the timer.
   */
  datatype Mark = Joined(message: Message) | Selected(turn: nat, deadline: bool, fired: bool, ready: bool)

  datatype Parts = Parts(sent: seq<seq<Message>>, pending: seq<Message>)

  /** The timer is the case that a select takes: it is picked, or nothing else is ready. */
  predicate TakesTimer(mark: Mark) {
    mark.Selected? && mark.fired && (mark.deadline || !mark.ready)
  }

  /** The batches that follow: one ends when it has 32 messages, or when a select takes the timer. */
  function Cut(journal: seq<Mark>): Parts {
    if journal == [] then Parts([], [])
    else CutBy(Cut(journal[..|journal| - 1]), journal[|journal| - 1])
  }

  function CutBy(parts: Parts, mark: Mark): Parts {
    match mark
    case Joined(message) =>
      var grown := parts.pending + [message];
      if |grown| >= BATCH_SIZE then Parts(parts.sent + [grown], []) else Parts(parts.sent, grown)
    case Selected(_, _, _, _) =>
      if TakesTimer(mark) then Closed(parts) else parts
  }

  /** What is pending goes out as it is. */
  function Closed(parts: Parts): Parts {
    if parts.pending == [] then parts else Parts(parts.sent + [parts.pending], [])
  }

  lemma CutNext(journal: seq<Mark>, mark: Mark)
    ensures Cut(journal + [mark]) == CutBy(Cut(journal), mark)
  {
    assert (journal + [mark])[..|journal|] == journal;
  }

  /**
   A batch goes out exactly when its last message makes it full, or when a select takes the timer: because it picks it,
   or because no queue has anything to say. Then it goes out whole, before anything more is taken.
   */
  lemma BatchEndsExactly(journal: seq<Mark>, mark: Mark)
    ensures var before, after := Cut(journal), Cut(journal + [mark]);
            && (after.sent != before.sent <==>
                  if mark.Joined? then |before.pending| + 1 >= BATCH_SIZE
                  else mark.fired && (mark.deadline || !mark.ready) && before.pending != [])
            && var grown := if mark.Joined? then before.pending + [mark.message] else before.pending;
               if after.sent != before.sent then after == Parts(before.sent + [grown], []) else after.pending == grown
  {
    CutNext(journal, mark);
    hide Cut;
  }

  /** What the selects say of the timer is so: it is armed for a pending batch only, and fires when it fires. */
  ghost predicate Truthful(journal: seq<Mark>, pick: nat -> Case, fires: nat -> bool) {
    forall k | 0 <= k < |journal| && journal[k].Selected? ::
      && (journal[k].fired <==> Cut(journal[..k]).pending != [] && fires(journal[k].turn))
      && (journal[k].deadline <==> pick(journal[k].turn).Deadline?)
  }

  lemma TruthfulNext(journal: seq<Mark>, mark: Mark, pick: nat -> Case, fires: nat -> bool)
    requires Truthful(journal, pick, fires)
    requires mark.Selected? ==>
               && (mark.fired <==> Cut(journal).pending != [] && fires(mark.turn))
               && (mark.deadline <==> pick(mark.turn).Deadline?)
    ensures Truthful(journal + [mark], pick, fires)
  {
    hide Cut;
    var longer := journal + [mark];
    forall k | 0 <= k < |longer| && longer[k].Selected?
      ensures longer[k].fired <==> Cut(longer[..k]).pending != [] && fires(longer[k].turn)
      ensures longer[k].deadline <==> pick(longer[k].turn).Deadline?
    {
      if k < |journal| {
        assert longer[..k] == journal[..k] && journal[k] == longer[k];
      } else {
        assert longer[..k] == journal;
      }
    }
  }

  // ---- The environment

  datatype Queues = Queues(state: Queue, priority: Queue, bulk: Queue) {
    function Get(source: Class): Queue {
      match source
      case StateClass => state
      case PriorityClass => priority
      case BulkClass => bulk
    }

    function Set(source: Class, queue: Queue): Queues {
      match source
      case StateClass => this.(state := queue)
      case PriorityClass => this.(priority := queue)
      case BulkClass => this.(bulk := queue)
    }

    function Buffered(): nat {
      |state.buffer| + |priority.buffer| + |bulk.buffer|
    }
  }

  /** What producers do to a queue between two actions of the batcher. */
  datatype Arrival = Send(source: Class, message: Message) | Evict(source: Class) | Close(source: Class)

  function Arrive(queues: Queues, arrival: Arrival): Queues {
    var queue := queues.Get(arrival.source);
    match arrival
    case Send(source, message) => if queue.closed then queues else queues.Set(source, queue.Send(message))
    case Evict(source) => if queue.buffer == [] then queues else queues.Set(source, queue.Remove(false))
    case Close(source) => queues.Set(source, queue.(closed := true))
  }

  function ArriveAll(queues: Queues, arrivals: seq<Arrival>): Queues {
    if arrivals == [] then queues else Arrive(ArriveAll(queues, arrivals[..|arrivals| - 1]), arrivals[|arrivals| - 1])
  }

  function CloseAll(queues: Queues): Queues {
    Queues(queues.state.(closed := true), queues.priority.(closed := true), queues.bulk.(closed := true))
  }

  predicate AllFifo(queues: Queues) {
    Fifo(queues.state) && Fifo(queues.priority) && Fifo(queues.bulk)
  }

  /** Producers keep a queue in order and never touch what has been batched; a closed queue can only shrink. */
  predicate Produced(before: Queue, after: Queue) {
    && Fifo(after)
    && Batched(after.left) == Batched(before.left)
    && (before.closed ==> after.closed && |after.buffer| <= |before.buffer|)
  }

  predicate Environment(before: Queues, after: Queues) {
    Produced(before.state, after.state) && Produced(before.priority, after.priority)
        && Produced(before.bulk, after.bulk)
  }

  lemma ArriveIsEnvironment(queues: Queues, arrival: Arrival)
    requires AllFifo(queues)
    ensures Environment(queues, Arrive(queues, arrival))
  {
    hide Batched, Fifo;
    var queue := queues.Get(arrival.source);
    if arrival.Send? {
      SendKeepsFifo(queue, arrival.message);
    } else if arrival.Evict? && queue.buffer != [] {
      RemoveKeepsFifo(queue, false);
    } else {
      CloseKeepsFifo(queue);
    }
  }

  lemma CloseKeepsFifo(queue: Queue)
    requires Fifo(queue)
    ensures Fifo(queue.(closed := true))
  {
  }

  lemma {:induction false} ArriveAllIsEnvironment(queues: Queues, arrivals: seq<Arrival>)
    requires AllFifo(queues)
    ensures Environment(queues, ArriveAll(queues, arrivals))
  {
    hide Arrive;
    if arrivals != [] {
      ArriveAllIsEnvironment(queues, arrivals[..|arrivals| - 1]);
      ArriveIsEnvironment(ArriveAll(queues, arrivals[..|arrivals| - 1]), arrivals[|arrivals| - 1]);
    }
  }

  // ---- The batcher's own account of its work

  /** Batches hold all that was taken, in order; each has 1 to 32 messages, and the timer runs for a pending one. */
  ghost predicate BatchesOk(sent: seq<seq<Message>>, batch: seq<Message>, armed: bool, log: seq<Entry>) {
    && Flatten(sent) + batch == Output(log)
    && (forall i | 0 <= i < |sent| :: 1 <= |sent[i]| <= BATCH_SIZE)
    && |batch| < BATCH_SIZE
    && (armed <==> batch != [])
  }

  /** What has been batched from each source is what left its queue for a batch, in the queue's order. */
  ghost predicate Conserved(queues: Queues, log: seq<Entry>) {
    AllFifo(queues) && forall source :: Batched(queues.Get(source).left) == OutputOf(log, source)
  }

  /** At no moment had more than a burst of priority messages overtaken a waiting bulk message. */
  ghost predicate Bounded(log: seq<Entry>) {
    forall j | 0 <= j <= |log| :: Overtaking(log[..j]) <= PRIORITY_BURST
  }

  lemma BoundedNext(log: seq<Entry>, entry: Entry)
    requires Bounded(log) && Overtaking(log + [entry]) <= PRIORITY_BURST
    ensures Bounded(log + [entry])
  {
    hide Overtaking;
    var longer := log + [entry];
    forall j | 0 <= j <= |longer| ensures Overtaking(longer[..j]) <= PRIORITY_BURST {
      if j <= |log| {
        assert longer[..j] == log[..j];
      } else {
        assert longer[..j] == longer;
      }
    }
  }

  lemma BoundedNow(log: seq<Entry>)
    requires Bounded(log)
    ensures Overtaking(log) <= PRIORITY_BURST
  {
    assert log[..|log|] == log;
  }

  /** Bounded overtaking, in terms of what was taken: eight priority messages at most between two chances of bulk. */
  lemma BoundedWindows(log: seq<Entry>, i: nat, j: nat)
    requires Bounded(log) && i <= j <= |log|
    requires forall k | i <= k < j :: Passed(log[k])
    ensures CountPriority(log[i..j]) <= PRIORITY_BURST
  {
    WindowOvertakes(log[..j], i);
    assert log[..j][i..] == log[i..j];
  }

  /** A queue that is drained without evictions has been batched completely. */
  lemma {:induction false} NothingLost(left: seq<Left>)
    requires forall k | 0 <= k < |left| :: left[k].batched
    ensures Batched(left) == AllLeft(left)
  {
    if left != [] {
      NothingLost(left[..|left| - 1]);
    }
  }

  /** While bulk messages can still come, at most a burst of priority messages overtakes a waiting one. */
  ghost predicate Fair(bulk: Queue, bulkOpen: bool, burst: nat, log: seq<Entry>) {
    && (bulkOpen ==> burst <= PRIORITY_BURST && Overtaking(log) <= burst)
    && Bounded(log)
    && (log != [] && Passed(log[|log| - 1]) ==> bulk.buffer != [])
  }

  /** With preloaded queues, what is still to come is fixed. */
  ghost predicate Planned(queues: Queues, burst: nat, log: seq<Entry>, plan: seq<Message>) {
    && queues.state.closed && queues.priority.closed && queues.bulk.closed
    && plan == Output(log) + (queues.state.buffer + Rest(queues.priority.buffer, queues.bulk.buffer, burst))
  }

  lemma CloseAllIsEnvironment(queues: Queues)
    requires AllFifo(queues)
    ensures Environment(queues, CloseAll(queues))
  {
    CloseKeepsFifo(queues.state);
    CloseKeepsFifo(queues.priority);
    CloseKeepsFifo(queues.bulk);
  }

  lemma TakeConserves(queues: Queues, log: seq<Entry>, source: Class)
    requires Conserved(queues, log) && queues.Get(source).buffer != []
    ensures var queue := queues.Get(source);
            Conserved(queues.Set(source, queue.Remove(true)),
                      log + [Took(source, queue.buffer[0], queues.bulk.buffer != [])])
  {
    hide Fifo, Batched, OutputOf, Output, Overtaking;
    var queue := queues.Get(source);
    RemoveKeepsFifo(queue, true);
    LogNext(log, Took(source, queue.buffer[0], queues.bulk.buffer != []));
  }

  lemma TakeStaysFair(queues: Queues, bulkOpen: bool, burst: nat, log: seq<Entry>, source: Class)
    requires Fair(queues.bulk, bulkOpen, burst, log) && queues.Get(source).buffer != []
    requires queues.bulk.buffer != [] ==> bulkOpen
    requires source == PriorityClass && bulkOpen ==> burst < PRIORITY_BURST
    ensures var queue := queues.Get(source);
            Fair(queues.Set(source, queue.Remove(true)).bulk, bulkOpen, Batcher.BurstAfter(source, burst),
                 log + [Took(source, queue.buffer[0], queues.bulk.buffer != [])])
  {
    hide Fifo, Batched, OutputOf, Output, Overtaking, Bounded;
    var entry := Took(source, queues.Get(source).buffer[0], queues.bulk.buffer != []);
    LogNext(log, entry);
    BoundedNow(log);
    BoundedNext(log, entry);
  }

  lemma WaitStaysFair(before: Queue, after: Queue, bulkOpen: bool, burst: nat, log: seq<Entry>)
    requires Fair(before, bulkOpen, burst, log)
    ensures Fair(after, bulkOpen, burst, if after.buffer == [] then log + [BulkEmpty] else log)
  {
    hide Overtaking, Bounded;
    LogNext(log, BulkEmpty);
    BoundedNext(log, BulkEmpty);
  }

  lemma TakeStaysPlanned(queues: Queues, burst: nat, log: seq<Entry>, plan: seq<Message>, source: Class)
    requires Planned(queues, burst, log, plan) && queues.Get(source).buffer != []
    requires source != StateClass ==> queues.state.buffer == []
    requires source == PriorityClass && queues.bulk.buffer != [] ==> burst < PRIORITY_BURST
    requires source == BulkClass ==> burst >= PRIORITY_BURST || queues.priority.buffer == []
    ensures var queue := queues.Get(source);
            Planned(queues.Set(source, queue.Remove(true)), Batcher.BurstAfter(source, burst),
                    log + [Took(source, queue.buffer[0], queues.bulk.buffer != [])], plan)
  {
    hide Output, OutputOf, Overtaking;
    var queue := queues.Get(source);
    LogNext(log, Took(source, queue.buffer[0], queues.bulk.buffer != []));
    var after := queues.Set(source, queue.Remove(true));
    var rest := Rest(after.priority.buffer, after.bulk.buffer, Batcher.BurstAfter(source, burst));
    assert queue.buffer == [queue.buffer[0]] + queue.buffer[1..];
    if source == StateClass {
      assert queue.buffer + rest == [queue.buffer[0]] + (after.state.buffer + rest);
    } else {
      assert Rest(queues.priority.buffer, queues.bulk.buffer, burst) == [queue.buffer[0]] + rest;
    }
  }

  class Batcher {
    var queues: Queues
    var script: seq<seq<Arrival>>
    const pick: nat -> Case
    const fires: nat -> bool
    var turn: nat

    var stateOpen: bool
    var priorityOpen: bool
    var bulkOpen: bool
    var batch: seq<Message>
    var armed: bool
    var sent: seq<seq<Message>>
    var burst: nat
    ghost var log: seq<Entry>
    ghost var journal: seq<Mark>
    ghost var plan: seq<Message>
    ghost var preloaded: bool

    predicate IsOpen(source: Class)
      reads this`stateOpen, this`priorityOpen, this`bulkOpen
    {
      match source
      case StateClass => stateOpen
      case PriorityClass => priorityOpen
      case BulkClass => bulkOpen
    }

    /** A queue is given up only once it is closed and drained. */
    ghost predicate NilsOk()
      reads this`queues, this`stateOpen, this`priorityOpen, this`bulkOpen
    {
      && (stateOpen || (queues.state.closed && queues.state.buffer == []))
      && (priorityOpen || (queues.priority.closed && queues.priority.buffer == []))
      && (bulkOpen || (queues.bulk.closed && queues.bulk.buffer == []))
    }

    /** Everything but the batches is in order. */
    ghost predicate QueuesOk()
      reads this`queues, this`script, this`log, this`burst, this`plan, this`preloaded,
            this`stateOpen, this`priorityOpen, this`bulkOpen
    {
      && Conserved(queues, log)
      && NilsOk()
      && Fair(queues.bulk, bulkOpen, burst, log)
      && (preloaded ==> script == [] && Planned(queues, burst, log, plan))
    }

    ghost predicate Valid()
      reads this
    {
      BatchesOk(sent, batch, armed, log) && QueuesOk()
    }

    /** The batches are cut exactly where the journal says, and the journal tells the truth. */
    ghost predicate Marked()
      reads this`journal, this`sent, this`batch
    {
      Cut(journal) == Parts(sent, batch) && Truthful(journal, pick, fires)
    }

    /** A queue that is still listened to has something to say. */
    ghost predicate AnyReady()
      reads this`queues, this`stateOpen, this`priorityOpen, this`bulkOpen
    {
      exists source :: IsOpen(source) && (queues.Get(source).buffer != [] || queues.Get(source).closed)
    }

    function OpenCount(): nat
      reads this`stateOpen, this`priorityOpen, this`bulkOpen
    {
      (if stateOpen then 1 else 0) + (if priorityOpen then 1 else 0) + (if bulkOpen then 1 else 0)
    }

    /** `script` lists what arrives before each select; when it is used up, all queues are closed. */
    constructor (queues: Queues, script: seq<seq<Arrival>>, pick: nat -> Case, fires: nat -> bool)
      requires AllFifo(queues) && queues.state.left == queues.priority.left == queues.bulk.left == []
      ensures Valid() && this.queues == queues && this.script == script && log == [] && sent == []
      ensures preloaded <==> script == [] && queues.state.closed && queues.priority.closed && queues.bulk.closed
      ensures preloaded ==> plan == Schedule(queues.state.buffer, queues.priority.buffer, queues.bulk.buffer)
      ensures stateOpen && priorityOpen && bulkOpen && Marked() && journal == []
    {
      this.queues, this.script, this.pick, this.fires, turn := queues, script, pick, fires, 0;
      stateOpen, priorityOpen, bulkOpen := true, true, true;
      batch, armed, sent, burst, log, journal := [], false, [], 0, [], [];
      preloaded := script == [] && queues.state.closed && queues.priority.closed && queues.bulk.closed;
      plan := Schedule(queues.state.buffer, queues.priority.buffer, queues.bulk.buffer);
      RestIsAlternate(queues.priority.buffer, queues.bulk.buffer);
    }

    method Flush()
      requires BatchesOk(sent, batch, armed, log)
      modifies this`batch, this`armed, this`sent
      ensures BatchesOk(sent, batch, armed, log)
      ensures batch == [] && !armed && Flatten(sent) == Output(log)
      ensures sent == if old(batch) == [] then old(sent) else old(sent) + [old(batch)]
    {
      if batch == [] {
        return;
      }
      armed := false;
      FlattenNext(sent, batch);
      sent, batch := sent + [batch], [];
    }

    /** Something happens that the batches depend on, and they are about to follow it. */
    ghost method Note(mark: Mark)
      requires Marked() && (armed <==> batch != []) && (mark.Selected? ==> Seen(mark))
      modifies this`journal
      ensures journal == old(journal) + [mark]
      ensures Cut(journal) == CutBy(Parts(sent, batch), mark) && Truthful(journal, pick, fires)
    {
      hide Cut, Truthful;
      CutNext(journal, mark);
      TruthfulNext(journal, mark, pick, fires);
      journal := journal + [mark];
    }

    /** The message has just been logged; it joins the batch, which goes out when it is full. */
    method AppendMessage(message: Message)
      requires |batch| < BATCH_SIZE && (armed <==> batch != [])
      requires forall i | 0 <= i < |sent| :: 1 <= |sent[i]| <= BATCH_SIZE
      requires Flatten(sent) + batch + [message] == Output(log) && Marked()
      modifies this`batch, this`armed, this`sent, this`journal
      ensures BatchesOk(sent, batch, armed, log)
      ensures Marked() && journal == old(journal) + [Joined(message)]
    {
      hide Output, Cut, Truthful, Flatten;
      Note(Joined(message));
      if batch == [] {
        armed := true;
      }
      assert Flatten(sent) + (batch + [message]) == Flatten(sent) + batch + [message];
      batch := batch + [message];
      if |batch| >= BATCH_SIZE {
        armed := false;
        FlattenNext(sent, batch);
        sent, batch := sent + [batch], [];
      }
    }

    /** The producers' turn before a select. */
    method Await()
      requires Valid()
      modifies this`queues, this`script, this`log, this`turn
      ensures Valid()
      ensures old(script) != [] ==> script == old(script)[1..]
      ensures old(script) == [] ==>
                && script == [] && queues == CloseAll(old(queues))
                && (preloaded ==> queues == old(queues))
      ensures Output(log) == Output(old(log))
    {
      hide ArriveAll, Batched, OutputOf, Output, Rest, Fifo, Bounded, Fair, Flatten;
      ghost var bulk := queues.bulk;
      if script != [] {
        ArriveAllIsEnvironment(queues, script[0]);
        queues := ArriveAll(queues, script[0]);
        script := script[1..];
      } else {
        CloseAllIsEnvironment(queues);
        queues := CloseAll(queues);
      }
      turn := turn + 1;
      WaitStaysFair(bulk, queues.bulk, bulkOpen, burst, log);
      if queues.bulk.buffer == [] {
        LogNext(log, BulkEmpty);
        log := log + [BulkEmpty];
      }
    }

    /** The burst counter after a message from `source`. */
    static function BurstAfter(source: Class, burst: nat): nat {
      match source
      case StateClass => burst
      case PriorityClass => burst + 1
      case BulkClass => 0
    }

    /** The batcher may take from `source` now: the burst allows it, and preloaded queues are in turn. */
    ghost predicate InTurn(source: Class)
      reads this`queues, this`bulkOpen, this`burst, this`preloaded
    {
      && (source == PriorityClass && bulkOpen ==> burst < PRIORITY_BURST)
      && (preloaded && source != StateClass ==> queues.state.buffer == [])
      && (preloaded && source == BulkClass ==> burst >= PRIORITY_BURST || queues.priority.buffer == [])
    }

    /** Receives the oldest message of a queue. */
    method Dequeue(source: Class) returns (message: Message)
      requires QueuesOk() && queues.Get(source).buffer != [] && InTurn(source)
      modifies this`queues, this`burst, this`log
      ensures QueuesOk() && burst == BurstAfter(source, old(burst))
      ensures message == old(queues).Get(source).buffer[0] && Output(log) == Output(old(log)) + [message]
      ensures queues == old(queues).Set(source, old(queues).Get(source).Remove(true))
      ensures log == old(log) + [Took(source, message, old(queues).bulk.buffer != [])]
    {
      hide Conserved, Fair, Planned, Output, OutputOf, Overtaking, Batched, Fifo;
      var queue := queues.Get(source);
      message := queue.buffer[0];
      ghost var entry := Took(source, message, queues.bulk.buffer != []);
      TakeConserves(queues, log, source);
      TakeStaysFair(queues, bulkOpen, burst, log, source);
      if preloaded {
        TakeStaysPlanned(queues, burst, log, plan, source);
      }
      LogNext(log, entry);
      log := log + [entry];
      queues := queues.Set(source, queue.Remove(true));
      burst := BurstAfter(source, burst);
    }

    /** Receives the oldest message of a queue and appends it to the batch. */
    method Take(source: Class)
      requires Valid() && Marked() && queues.Get(source).buffer != [] && InTurn(source)
      modifies this`queues, this`batch, this`armed, this`sent, this`burst, this`log, this`journal
      ensures Valid() && burst == BurstAfter(source, old(burst))
      ensures Marked() && journal == old(journal) + [Joined(old(queues).Get(source).buffer[0])]
      ensures queues == old(queues).Set(source, old(queues).Get(source).Remove(true))
      ensures log == old(log) + [Took(source, old(queues).Get(source).buffer[0], old(queues).bulk.buffer != [])]
    {
      hide Marked, QueuesOk, InTurn, Output, Flatten, BurstAfter;
      var message := Dequeue(source);
      AppendMessage(message);
    }

    method GiveUp(source: Class)
      requires Valid() && IsOpen(source) && queues.Get(source).closed && queues.Get(source).buffer == []
      modifies this`stateOpen, this`priorityOpen, this`bulkOpen, this`burst
      ensures Valid() && !IsOpen(source) && OpenCount() == old(OpenCount()) - 1
      ensures forall other :: other != source ==> IsOpen(other) == old(IsOpen(other))
      ensures burst == if source == BulkClass then 0 else old(burst)
    {
      hide Output, OutputOf, Overtaking, Batched, Fifo, Flatten, Rest, Bounded;
      RestWithoutBulk(queues.priority.buffer, burst);
      RestWithoutBulk(queues.priority.buffer, 0);
      match source {
        case StateClass => stateOpen := false;
        case PriorityClass => priorityOpen := false;
        case BulkClass =>
          bulkOpen, burst := false, 0;
      }
    }

    /** Work that is left: it shrinks with every select that does something. */
    ghost predicate Closer(script0: seq<seq<Arrival>>, buffered0: nat, open0: nat, armed0: bool)
      reads this
    {
      || |script| < |script0|
      || (script == script0 == []
           && queues.Buffered() <= buffered0
           && OpenCount() <= open0
           && (queues.Buffered() < buffered0 || OpenCount() < open0 || (armed0 && !armed)))
    }

    /** A case that was ready has used up some of what is left. */
    ghost predicate Nearer(buffered0: nat, open0: nat, armed0: bool)
      reads this`queues, this`armed, this`stateOpen, this`priorityOpen, this`bulkOpen
    {
      && queues.Buffered() <= buffered0 && OpenCount() <= open0
      && (queues.Buffered() < buffered0 || OpenCount() < open0 || (armed0 && !armed))
    }

    /** One case of a select: takes a message or gives a drained queue up, if the queue is ready. */
    method TrySource(source: Class) returns (ready: bool)
      requires Valid() && Marked() && InTurn(source)
      modifies this`queues, this`log, this`batch, this`armed, this`sent, this`burst,
               this`stateOpen, this`priorityOpen, this`bulkOpen, this`journal
      ensures Valid() && Marked() && old(journal) <= journal
      ensures !ready ==> journal == old(journal)
      ensures ready == old(IsOpen(source) && (queues.Get(source).buffer != [] || queues.Get(source).closed))
      ensures ready ==>
                && queues.Buffered() <= old(queues.Buffered()) && OpenCount() <= old(OpenCount())
                && (queues.Buffered() < old(queues.Buffered()) || OpenCount() < old(OpenCount()))
      ensures !ready ==> Same(old(queues), old(log), old(batch), old(armed), old(sent), old(burst),
                           old(stateOpen), old(priorityOpen), old(bulkOpen))
    {
      hide Cut, Truthful, Output, OutputOf, Overtaking, Batched, Fifo, Flatten, Rest, Bounded;
      ready := false;
      if IsOpen(source) {
        if queues.Get(source).buffer != [] {
          Take(source);
          ready := true;
        } else if queues.Get(source).closed {
          GiveUp(source);
          ready := true;
        }
      }
    }

    ghost predicate Same(queues: Queues, log: seq<Entry>, batch: seq<Message>, armed: bool, sent: seq<seq<Message>>,
                         burst: nat, stateOpen: bool, priorityOpen: bool, bulkOpen: bool)
      reads this
    {
      && this.queues == queues && this.log == log && this.batch == batch && this.armed == armed && this.sent == sent
      && this.burst == burst && this.stateOpen == stateOpen && this.priorityOpen == priorityOpen
          && this.bulkOpen == bulkOpen
    }

    /** A select on one queue with a default. */
    method Poll(source: Class) returns (ready: bool)
      requires Valid() && Marked() && InTurn(source)
      modifies this`queues, this`script, this`log, this`turn, this`batch, this`armed, this`sent, this`burst,
               this`stateOpen, this`priorityOpen, this`bulkOpen, this`journal
      ensures Valid() && Marked() && old(journal) <= journal
      ensures ready ==> Closer(old(script), old(queues.Buffered()), old(OpenCount()), old(armed))
      ensures !ready ==> Waited(old(script), old(queues), old(armed), old(burst),
                             old(stateOpen), old(priorityOpen), old(bulkOpen))
      ensures !ready ==> !IsOpen(source) || (queues.Get(source).buffer == [] && !queues.Get(source).closed)
    {
      hide Marked, Cut, Truthful, Output, OutputOf, Overtaking, Batched, Fifo, Flatten, Rest, Bounded;
      Await();
      ready := TrySource(source);
    }

    /** Only the producers have had their turn. */
    ghost predicate Waited(script0: seq<seq<Arrival>>, queues0: Queues, armed: bool, burst: nat,
                           stateOpen: bool, priorityOpen: bool, bulkOpen: bool)
      reads this
    {
      && this.armed == armed && this.burst == burst
      && this.stateOpen == stateOpen && this.priorityOpen == priorityOpen && this.bulkOpen == bulkOpen
      && (preloaded ==> queues == queues0)
      && (if script0 == [] then script == [] && queues == CloseAll(queues0) else |script| < |script0|)
    }

    /** The timer's case: it is ready when the timer is armed and has fired, and then the pending batch goes out. */
    method TryDeadline(ghost mark: Mark) returns (ready: bool)
      requires Valid() && Marked() && Seen(mark) && (armed && fires(turn) ==> TakesTimer(mark))
      modifies this`batch, this`armed, this`sent, this`journal
      ensures Valid() && Marked() && ready == (old(armed) && fires(turn))
      ensures ready ==> !armed && sent == old(sent) + [old(batch)] && journal == old(journal) + [mark]
      ensures !ready ==> batch == old(batch) && armed == old(armed) && sent == old(sent) && journal == old(journal)
    {
      hide Output, OutputOf, Flatten, Conserved, Fair, Planned, Cut, Truthful;
      ready := armed && fires(turn);
      if ready {
        Note(mark);
        Flush();
      }
    }

    /** The mark is what a select sees now of the timer and of its own pick. */
    ghost predicate Seen(mark: Mark)
      reads this
    {
      mark.Selected? && mark.turn == turn && (mark.fired <==> armed && fires(turn))
          && (mark.deadline <==> pick(turn).Deadline?)
    }

    /** One case of the blocking select. */
    method TryCase(choice: Case, ghost mark: Mark) returns (ready: bool)
      requires Valid() && Marked() && InTurn(PriorityClass)
      requires preloaded ==> queues.state.buffer == [] && queues.priority.buffer == []
      requires choice.Deadline? ==> Seen(mark) && (armed && fires(turn) ==> TakesTimer(mark))
      modifies this`queues, this`log, this`batch, this`armed, this`sent, this`burst,
               this`stateOpen, this`priorityOpen, this`bulkOpen, this`journal
      ensures Valid() && Marked() && old(journal) <= journal
      ensures ready ==> Nearer(old(queues.Buffered()), old(OpenCount()), old(armed))
      ensures !ready ==> Same(old(queues), old(log), old(batch), old(armed), old(sent), old(burst),
                           old(stateOpen), old(priorityOpen), old(bulkOpen)) && journal == old(journal)
      ensures choice.Receive? ==>
                ready == old(IsOpen(choice.source)
                             && (queues.Get(choice.source).buffer != [] || queues.Get(choice.source).closed))
      ensures choice.Deadline? ==> ready == (old(armed) && fires(turn)) && (ready ==> journal == old(journal) + [mark])
    {
      hide Output, OutputOf, Overtaking, Batched, Fifo, Flatten, Rest, Conserved, Fair, Planned, BatchesOk, Cut,
          Truthful;
      match choice
      case Receive(source) => ready := TrySource(source);
      case Deadline => ready := TryDeadline(mark);
    }

    /** Some queue that is ready, if any is; none is only while one is still open to producers. */
    method TryQueues(ghost mark: Mark) returns (ready: bool)
      requires Valid() && Marked() && OpenCount() > 0 && InTurn(PriorityClass)
      requires preloaded ==> queues.state.buffer == [] && queues.priority.buffer == []
      modifies this`queues, this`log, this`batch, this`armed, this`sent, this`burst,
               this`stateOpen, this`priorityOpen, this`bulkOpen, this`journal
      ensures Valid() && Marked() && old(journal) <= journal && ready == old(AnyReady())
      ensures ready ==> Nearer(old(queues.Buffered()), old(OpenCount()), old(armed))
      ensures !ready ==> Same(old(queues), old(log), old(batch), old(armed), old(sent), old(burst),
                           old(stateOpen), old(priorityOpen), old(bulkOpen)) && journal == old(journal)
      ensures old(queues) == CloseAll(old(queues)) ==> ready
    {
      hide Marked, Output, OutputOf, Overtaking, Batched, Fifo, Flatten, Rest, Conserved, Fair, Planned, BatchesOk,
        NilsOk, Cut, Truthful;
      ready := TryCase(Receive(StateClass), mark);
      if !ready {
        ready := TryCase(Receive(PriorityClass), mark);
      }
      if !ready {
        ready := TryCase(Receive(BulkClass), mark);
      }
    }

    /** The case that is picked, or else some queue that is ready. */
    method TryChoice(choice: Case, ghost mark: Mark) returns (ready: bool)
      requires Valid() && Marked() && OpenCount() > 0 && InTurn(PriorityClass)
      requires preloaded ==> queues.state.buffer == [] && queues.priority.buffer == []
      requires choice.Deadline? ==> Seen(mark) && (armed && fires(turn) ==> TakesTimer(mark))
      modifies this`queues, this`log, this`batch, this`armed, this`sent, this`burst,
               this`stateOpen, this`priorityOpen, this`bulkOpen, this`journal
      ensures Valid() && Marked() && old(journal) <= journal
      ensures ready <==> old(AnyReady() || (choice.Deadline? && armed && fires(turn)))
      ensures ready && old(choice.Deadline? && armed && fires(turn)) ==> journal == old(journal) + [mark]
      ensures ready ==> Nearer(old(queues.Buffered()), old(OpenCount()), old(armed))
      ensures !ready ==> Same(old(queues), old(log), old(batch), old(armed), old(sent), old(burst),
                           old(stateOpen), old(priorityOpen), old(bulkOpen)) && journal == old(journal)
      ensures old(queues) == CloseAll(old(queues)) ==> ready
    {
      hide Marked, Nearer, OpenCount, InTurn, Output, OutputOf, Overtaking, Batched, Fifo, Flatten, Rest, Conserved,
        Fair, Planned, BatchesOk, NilsOk, Cut, Truthful;
      ready := TryCase(choice, mark);
      if !ready {
        ready := TryQueues(mark);
      }
    }

    /** Some case that is ready, and `choice` if that is; the select is marked before whatever it takes. */
    method TryAll(choice: Case) returns (ready: bool)
      requires Valid() && Marked() && OpenCount() > 0 && InTurn(PriorityClass) && choice == pick(turn)
      requires preloaded ==> queues.state.buffer == [] && queues.priority.buffer == []
      modifies this`queues, this`log, this`batch, this`armed, this`sent, this`burst,
               this`stateOpen, this`priorityOpen, this`bulkOpen, this`journal
      ensures Valid() && Marked()
      ensures old(journal) + [old(Selected(turn, choice.Deadline?, armed && fires(turn), AnyReady()))] <= journal
      ensures ready <==> old(AnyReady() || (armed && fires(turn)))
      ensures ready ==> Nearer(old(queues.Buffered()), old(OpenCount()), old(armed))
      ensures !ready ==> Same(old(queues), old(log), old(batch), old(armed), old(sent), old(burst),
                           old(stateOpen), old(priorityOpen), old(bulkOpen))
      ensures old(queues) == CloseAll(old(queues)) ==> ready
    {
      hide Marked, OpenCount, AnyReady, InTurn, IsOpen, Output, OutputOf, Overtaking, Batched, Fifo, Flatten, Rest,
        Conserved, Fair, Planned, BatchesOk, NilsOk, Cut, Truthful;
      ghost var mark := Selected(turn, choice.Deadline?, armed && fires(turn), AnyReady());
      MarkUnlessTaken(mark);
      ready := TryChoice(choice, mark);
      if !ready {
        ready := TryCase(Deadline, mark);
      }
    }

    /** A select that does not take the timer leaves the batches as they are. */
    ghost method MarkUnlessTaken(mark: Mark)
      requires Valid() && Marked() && Seen(mark)
      modifies this`journal
      ensures Valid() && Marked() && journal == if TakesTimer(mark) then old(journal) else old(journal) + [mark]
    {
      hide Output, OutputOf, Overtaking, Batched, Fifo, Flatten, Rest, Conserved, Fair, Planned, Cut, Truthful;
      if !TakesTimer(mark) {
        Note(mark);
      }
    }

    /** The blocking select on all queues and the timer: any case that is ready may be the one it picks. */
    method Select()
      requires Valid() && Marked() && OpenCount() > 0 && InTurn(PriorityClass)
      requires preloaded ==> queues.state.buffer == [] && queues.priority.buffer == []
      modifies this`queues, this`script, this`log, this`turn, this`batch, this`armed, this`sent, this`burst,
               this`stateOpen, this`priorityOpen, this`bulkOpen, this`journal
      ensures Valid() && Marked() && old(journal) <= journal
      ensures Closer(old(script), old(queues.Buffered()), old(OpenCount()), old(armed))
    {
      hide Marked, Output, OutputOf, Overtaking, Batched, Fifo, Flatten, Rest, Conserved, Fair, Planned, BatchesOk,
          Cut, Truthful;
      while true
        invariant Valid() && Marked() && old(journal) <= journal && OpenCount() > 0 && InTurn(PriorityClass)
        invariant preloaded ==> queues.state.buffer == [] && queues.priority.buffer == []
        invariant |script| < |old(script)| ||
                  (script == old(script) && queues == old(queues) && OpenCount() == old(OpenCount())
                   && armed == old(armed))
        decreases |script|
      {
        Await();
        var ready := TryAll(pick(turn));
        if ready {
          return;
        }
      }
    }

    /** An idle bulk queue overtakes nothing, so the burst starts over. */
    method ResetBurst()
      requires Valid() && queues.bulk.buffer == [] && (bulkOpen ==> !queues.bulk.closed)
      modifies this`burst
      ensures Valid() && burst == 0
    {
      hide Output, OutputOf, Batched, Fifo, Flatten, Conserved, BatchesOk, Bounded;
      RestWithoutBulk(queues.priority.buffer, burst);
      RestWithoutBulk(queues.priority.buffer, 0);
      burst := 0;
    }

    /** One round of the loop: state first, then a bulk message that is due, then priority, then whatever is ready. */
    method Iterate()
      requires Valid() && Marked() && OpenCount() > 0
      modifies this`queues, this`script, this`log, this`turn, this`batch, this`armed, this`sent, this`burst,
               this`stateOpen, this`priorityOpen, this`bulkOpen, this`journal
      ensures Valid() && Marked() && old(journal) <= journal
      ensures Closer(old(script), old(queues.Buffered()), old(OpenCount()), old(armed))
    {
      hide Marked, Cut, Truthful, Output, OutputOf, Overtaking, Batched, Fifo, Flatten, Rest, Conserved, Fair,
          BatchesOk;
      var ready := Poll(StateClass);
      if ready {
        return;
      }
      if burst >= PRIORITY_BURST && bulkOpen {
        ready := Poll(BulkClass);
        if ready {
          return;
        }
        ResetBurst();
      }
      ready := Poll(PriorityClass);
      if ready {
        return;
      }
      Select();
    }

    /**
     The batcher's loop. Whatever arrives, whichever ready case each select picks and whenever the timer fires, it
     ends with every queue drained and everything sent: per source in queue order, in batches of 1 to 32, and with at
     most eight priority messages ahead of a waiting bulk message. Preloaded queues come out in the intended schedule.
     A batch ends when it is full, when a select takes the fired timer, which it does at the latest when nothing else is
     ready, or at the end, and nowhere else.
     */
    method RunMessageBatcher()
      requires Valid() && Marked() && stateOpen && priorityOpen && bulkOpen
      modifies this
      ensures Parts(sent, []) == Closed(Cut(journal)) && Truthful(journal, pick, fires) && old(journal) <= journal
      ensures Valid() && batch == [] && !armed && Flatten(sent) == Output(log)
      ensures forall i | 0 <= i < |sent| :: 1 <= |sent[i]| <= BATCH_SIZE
      ensures forall source :: OutputOf(log, source) == Batched(queues.Get(source).left)
      ensures forall i, j | 0 <= i <= j <= |log| && (forall k | i <= k < j :: Passed(log[k])) ::
                CountPriority(log[i..j]) <= PRIORITY_BURST
      ensures forall source :: queues.Get(source).closed && queues.Get(source).buffer == []
      ensures preloaded == old(preloaded) && plan == old(plan)
      ensures forall source :: (forall k | 0 <= k < |queues.Get(source).left| :: queues.Get(source).left[k].batched) ==>
                OutputOf(log, source) == queues.Get(source).entered
      ensures preloaded ==> Flatten(sent) == plan
    {
      hide Cut, Truthful, Output, OutputOf, Overtaking, Batched, Fifo, Flatten, Conserved, Fair, BatchesOk;
      while stateOpen || priorityOpen || bulkOpen
        invariant Valid() && Marked() && preloaded == old(preloaded) && plan == old(plan) && old(journal) <= journal
        decreases |script|, queues.Buffered(), OpenCount(), if armed then 1 else 0
      {
        Iterate();
      }
      ghost var rest := Rest([], [], burst);
      Flush();
      assert Output(log) + ([] + rest) == Output(log);
      Summary();
      forall source | forall k | 0 <= k < |queues.Get(source).left| :: queues.Get(source).left[k].batched
        ensures OutputOf(log, source) == queues.Get(source).entered
      {
        DrainedIsBatched(source);
      }
    }

    /** A drained queue from which nothing was evicted has been batched completely. */
    lemma DrainedIsBatched(source: Class)
      requires Valid() && queues.Get(source).buffer == []
      requires forall k | 0 <= k < |queues.Get(source).left| :: queues.Get(source).left[k].batched
      ensures OutputOf(log, source) == queues.Get(source).entered
    {
      var queue := queues.Get(source);
      NothingLost(queue.left);
      assert queue.entered == AllLeft(queue.left) + [];
    }

    lemma Summary()
      requires Valid()
      ensures forall i | 0 <= i < |sent| :: 1 <= |sent[i]| <= BATCH_SIZE
      ensures forall source :: OutputOf(log, source) == Batched(queues.Get(source).left)
      ensures forall i, j | 0 <= i <= j <= |log| && (forall k | i <= k < j :: Passed(log[k])) ::
                CountPriority(log[i..j]) <= PRIORITY_BURST
    {
      hide Output, OutputOf, CountPriority, Bounded;
      forall i, j | 0 <= i <= j <= |log| && (forall k | i <= k < j :: Passed(log[k]))
        ensures CountPriority(log[i..j]) <= PRIORITY_BURST
      {
        BoundedWindows(log, i, j);
      }
    }
  }

  /** Preloaded, closed queues come out in the schedule, whichever cases are picked and whenever the timer fires. */
  method BatchPreloaded(state: seq<Message>, priority: seq<Message>, bulk: seq<Message>, pick: nat -> Case,
                        fires: nat -> bool)
      returns (batches: seq<seq<Message>>)
    ensures Flatten(batches) == Schedule(state, priority, bulk)
    ensures forall i | 0 <= i < |batches| :: 1 <= |batches[i]| <= BATCH_SIZE
  {
    var queues := Queues(Preloaded(state), Preloaded(priority), Preloaded(bulk));
    PreloadedIsFifo(state);
    PreloadedIsFifo(priority);
    PreloadedIsFifo(bulk);
    var batcher := new Batcher(queues, [], pick, fires);
    batcher.RunMessageBatcher();
    batches := batcher.sent;
  }

  lemma PreloadedIsFifo(messages: seq<Message>)
    ensures Fifo(Preloaded(messages))
  {
    assert [] + messages == messages;
  }

  /** A case of the blocking select. */
  datatype Case = Receive(source: Class) | Deadline
}

/** Delivery from the callers of `send_message` in the host to the Go core, end to end. */
module Delivery {
  import opened Options
  import opened Frames
  import Io = FrameIo
  import opened SendQueue
  import opened MessageSender
  import CoreLink
  import CoreReader
  import Sequences

  /**
   What the senders do in one turn of the writer: before its receive, between the receive and the subtraction, and
   during and after the write; and whether they have all gone.
   */
  datatype Turn = Turn(before: seq<Event>, between: seq<Event>, during: seq<Event>, hungUp: bool)

  predicate TurnOk(turn: Turn) {
    SendersOnly(turn.before) && SendersOnly(turn.between) && SendersOnly(turn.during)
  }

  /** The writer thread alone receives, subtracts and drops the receiver. */
  predicate SendersOnly(events: seq<Event>) {
    forall k | 0 <= k < |events| :: events[k].Call? || events[k].SenderAction?
  }

  lemma {:induction false} SendersLeaveWriter(s: State, events: seq<Event>)
    requires SendersOnly(events)
    ensures var t := Run(s, events); t.taken == s.taken && t.connected == s.connected && t.received == s.received
  {
    if events != [] {
      SendersLeaveWriter(s, events[..|events| - 1]);
    }
  }

  /** The messages of the calls that have been told `Queued`, in the order in which they were queued. */
  ghost function Accepted(s: State): seq<Message>
    requires Order(s)
  {
    Messages(s, s.accepted)
  }

  /** The wire carries all received messages, or it is cut off inside the last of them. */
  ghost predicate Carries(wire: Bytes, received: seq<Message>) {
    || wire == EncodeAll(received)
    || (received != [] && EncodeAll(received[..|received| - 1]) <= wire < EncodeAll(received))
  }

  lemma WrittenNext(before: Bytes, received: seq<Message>, data: Message, sent: nat)
    requires before == EncodeAll(received) && sent <= |Encode(data)|
    ensures Carries(before + Encode(data)[..sent], received + [data])
    ensures sent == |Encode(data)| <==> before + Encode(data)[..sent] == EncodeAll(received + [data])
  {
    hide EncodeAll, Encode;
    EncodeAllAppend(received, data);
    assert (received + [data])[..|received|] == received;
    assert Encode(data)[..|Encode(data)|] == Encode(data);
  }

  lemma CarriedIsPrefix(s: State, wire: Bytes)
    requires Order(s) && Carries(wire, s.received)
    ensures wire <= EncodeAll(Accepted(s))
  {
    hide EncodeAll, Messages;
    EncodeAllConcat(s.received, s.channel);
  }

  /** The parts of the queue that only the writer changes. */
  ghost predicate Drained(s: State, received: seq<Message>, taken: Option<Message>) {
    Ledger(s) && Order(s) && s.taken == taken && s.received == received
  }

  /** The senders run; nothing that only the writer changes is touched. */
  method LetSendersRun(queue: MessageQueue, others: seq<Event>, ghost received: seq<Message>,
                       ghost taken: Option<Message>)
    requires SendersOnly(others) && Drained(queue.Value(), received, taken)
    modifies queue
    ensures Drained(queue.Value(), received, taken) && queue.connected == old(queue.connected)
    ensures queue.Value() == Run(old(queue.Value()), others)
  {
    hide Ledger, Order;
    ghost var s := queue.Value();
    queue.Interfere(others);
    RunKeeps(s, others);
    SendersLeaveWriter(s, others);
  }

  /** The queue after the receive of a turn, and after the subtraction that follows it if there was a message. */
  function TakenIn(s: State, turn: Turn): State {
    var t := Run(s, turn.before);
    if t.channel == [] then t else Next(Run(Next(t, Event.Receive), turn.between), Event.Subtract)
  }

  /** A turn finds a message. */
  predicate Finds(s: State, turn: Turn) {
    Run(s, turn.before).channel != []
  }

  function AfterTurn(s: State, turn: Turn): State {
    if Finds(s, turn) then Run(TakenIn(s, turn), turn.during) else TakenIn(s, turn)
  }

  /** The message of a turn that finds one. */
  function Found(s: State, turn: Turn): Message
    requires Finds(s, turn)
  {
    Run(s, turn.before).channel[0]
  }

  /** The queue after all turns, if every write goes through: nothing here depends on the sink. */
  function Worked(s: State, schedule: seq<Turn>): State
    decreases |schedule|
  {
    if schedule == [] then s
    else if !Finds(s, schedule[0]) && schedule[0].hungUp then AfterTurn(s, schedule[0])
    else Worked(AfterTurn(s, schedule[0]), schedule[1..])
  }

  lemma TurnReceives(s: State, turn: Turn)
    requires TurnOk(turn) && Drained(s, s.received, None) && s.connected
    ensures var t := AfterTurn(s, turn);
            && Drained(t, t.received, None) && t.connected
            && t.received == if Finds(s, turn) then s.received + [Found(s, turn)] else s.received
  {
    hide Ledger, Order;
    var t := Run(s, turn.before);
    RunKeeps(s, turn.before);
    SendersLeaveWriter(s, turn.before);
    if t.channel != [] {
      var u := Next(t, Event.Receive);
      NextKeepsLedger(t, Event.Receive);
      NextKeepsOrder(t, Event.Receive);
      RunKeeps(u, turn.between);
      SendersLeaveWriter(u, turn.between);
      NextKeepsLedger(Run(u, turn.between), Event.Subtract);
      NextKeepsOrder(Run(u, turn.between), Event.Subtract);
      RunKeeps(TakenIn(s, turn), turn.during);
      SendersLeaveWriter(TakenIn(s, turn), turn.during);
    }
  }

  lemma WorkedStep(s: State, schedule: seq<Turn>)
    requires schedule != []
    ensures var t := AfterTurn(s, schedule[0]);
            Worked(s, schedule) == if Finds(s, schedule[0]) || !schedule[0].hungUp then Worked(t, schedule[1..]) else t
  {
    hide AfterTurn, Finds;
  }

  lemma {:induction false} WorkedReceives(s: State, schedule: seq<Turn>)
    requires forall turn | turn in schedule :: TurnOk(turn)
    requires Drained(s, s.received, None) && s.connected
    ensures s.received <= Worked(s, schedule).received
    decreases |schedule|
  {
    if schedule != [] {
      var t, rest := AfterTurn(s, schedule[0]), schedule[1..];
      assert TurnOk(schedule[0]);
      TurnReceives(s, schedule[0]);
      WorkedStep(s, schedule);
      hide *;
      if Finds(s, schedule[0]) || !schedule[0].hungUp {
        WorkedReceives(t, rest);
        Sequences.PrefixOn(s.received, t.received, Worked(t, rest).received);
      }
    }
  }

  /** The sink takes the frames of all these messages, one after the other, and the connection has not stopped then. */
  predicate Serves(script: seq<Io.WriteStep>, messages: seq<Message>, zeroMeansFull: bool)
    decreases |messages|
  {
    if messages == [] then script != [] && !script[0].Stop?
    else
      && Io.FrameFits(script, messages[0], zeroMeansFull)
      && Serves(Io.AfterFrame(script, messages[0], zeroMeansFull), messages[1..], zeroMeansFull)
  }

  lemma ServingRuns(script: seq<Io.WriteStep>, messages: seq<Message>, zeroMeansFull: bool)
    requires Serves(script, messages, zeroMeansFull)
    ensures script != [] && !script[0].Stop?
  {
  }

  lemma ServesNext(script: seq<Io.WriteStep>, messages: seq<Message>, k: nat, zeroMeansFull: bool)
    requires k < |messages|
    ensures Serves(script, messages[k..], zeroMeansFull) ==>
              && Io.FrameFits(script, messages[k], zeroMeansFull)
              && Serves(Io.AfterFrame(script, messages[k], zeroMeansFull), messages[k + 1..], zeroMeansFull)
  {
    assert messages[k..][1..] == messages[k + 1..];
    hide Io.FrameFits, Io.AfterFrame;
  }

  /**
   One turn of the writer's loop: one message leaves the channel if there is one, with the senders at work before the
   receive and again before its bytes leave the counter.
   */
  method TakeNext(queue: MessageQueue, turn: Turn, ghost received: seq<Message>) returns (data: Option<Message>)
    requires TurnOk(turn) && Drained(queue.Value(), received, None) && queue.connected
    modifies queue
    ensures Drained(queue.Value(), if data.Some? then received + [data.value] else received, None) && queue.connected
    ensures queue.Value() == TakenIn(old(queue.Value()), turn) && (data.Some? <==> Finds(old(queue.Value()), turn))
    ensures data.Some? ==> data.value == Found(old(queue.Value()), turn)
  {
    hide Ledger, Order;
    LetSendersRun(queue, turn.before, received, None);
    ghost var t := queue.Value();
    data := queue.Receive();
    NextKeepsLedger(t, Event.Receive);
    NextKeepsOrder(t, Event.Receive);
    if data.Some? {
      LetSendersRun(queue, turn.between, received + [data.value], data);
      ghost var u := queue.Value();
      queue.Subtract(data.value);
      NextKeepsLedger(u, Event.Subtract);
      NextKeepsOrder(u, Event.Subtract);
    }
  }

  /**
   One turn with its write: the message it finds goes to the wire whole exactly if the sink takes its frame; otherwise
   the loop is left with the report of what the sink did.
   */
  method WriteTurn(queue: MessageQueue, sink: Io.ByteSink, turn: Turn) returns (goOn: bool, error: Option<Io.Error>)
    requires TurnOk(turn) && Drained(queue.Value(), queue.received, None) && queue.connected
    requires sink.wire == EncodeAll(queue.received)
    modifies queue, sink
    ensures Drained(queue.Value(), queue.received, None) && queue.connected && Carries(sink.wire, queue.received)
    ensures queue.Value() == AfterTurn(old(queue.Value()), turn)
    ensures !Finds(old(queue.Value()), turn) ==>
              goOn == !turn.hungUp && error == None && sink.script == old(sink.script) && sink.wire == old(sink.wire)
    ensures Finds(old(queue.Value()), turn) ==>
              var data := Found(old(queue.Value()), turn);
              var end := Io.EndOf(old(sink.script), sink.zeroMeansFull);
              && (goOn <==> Io.FrameFits(old(sink.script), data, sink.zeroMeansFull))
              && (goOn <==> sink.wire == EncodeAll(queue.received))
              && (goOn ==> sink.script == Io.AfterFrame(old(sink.script), data, sink.zeroMeansFull))
              && error == if goOn || end == Io.ConnectionStopped then None else Some(end)
  {
    hide Encode, Ledger, Order, Io.EndOf, Io.Flow, Io.FrameFits, Io.AfterFrame, Run;
    error := None;
    ghost var before := queue.received;
    TurnReceives(queue.Value(), turn);
    var data := TakeNext(queue, turn, queue.received);
    if data.None? {
      return !turn.hungUp, None;
    }
    ghost var wire := sink.wire;
    var result, sent := Io.WriteFrame(sink, data.value);
    WrittenNext(wire, before, data.value, sent);
    // The senders go on during the write, which touches nothing of theirs, and after it.
    LetSendersRun(queue, turn.during, queue.received, None);
    goOn := result.Written?;
    if result.NotWritten? && result.error != Io.ConnectionStopped {
      error := Some(result.error);
    }
  }

  /** The loop of the writer thread. */
  method WriteTurns(queue: MessageQueue, sink: Io.ByteSink, schedule: seq<Turn>) returns (error: Option<Io.Error>)
    requires Drained(queue.Value(), [], None) && queue.connected && sink.wire == []
    requires forall i | 0 <= i < |schedule| :: TurnOk(schedule[i])
    modifies queue, sink
    ensures Drained(queue.Value(), queue.received, None) && queue.connected && Carries(sink.wire, queue.received)
    ensures var end := Io.EndOf(old(sink.script), sink.zeroMeansFull);
            error == if sink.wire == EncodeAll(queue.received) || end == Io.ConnectionStopped then None else Some(end)
    ensures var all := Worked(old(queue.Value()), schedule).received;
            && queue.received <= all
            && (queue.received < all ==> !sink.IsRunning() || sink.wire != EncodeAll(queue.received))
    ensures Serves(old(sink.script), Worked(old(queue.Value()), schedule).received, sink.zeroMeansFull) ==>
              queue.Value() == Worked(old(queue.Value()), schedule) && sink.wire == EncodeAll(queue.received)
  {
    hide Encode, Ledger, Order, Io.EndOf, Io.Flow, Io.FrameFits, Io.AfterFrame, AfterTurn, Finds, Found, Run, Serves;
    error := None;
    ghost var z, all := sink.zeroMeansFull, Worked(queue.Value(), schedule);
    ghost var serves, end := Serves(sink.script, all.received, z), Io.EndOf(sink.script, z);
    var rest := schedule;
    WorkedReceives(queue.Value(), rest);
    assert all.received[0..] == all.received;
    while sink.IsRunning() && rest != []
      invariant Drained(queue.Value(), queue.received, None) && queue.connected
      invariant sink.wire == EncodeAll(queue.received)
      invariant forall i | 0 <= i < |rest| :: TurnOk(rest[i])
      invariant error == None && Worked(queue.Value(), rest) == all && queue.received <= all.received
      invariant Io.EndOf(sink.script, z) == end
      invariant serves ==> Serves(sink.script, all.received[|queue.received|..], z)
      decreases |rest|
    {
      ghost var here, script := queue.Value(), sink.script;
      TurnReceives(here, rest[0]);
      if Finds(here, rest[0]) || !rest[0].hungUp {
        WorkedReceives(AfterTurn(here, rest[0]), rest[1..]);
      }
      var goOn;
      goOn, error := WriteTurn(queue, sink, rest[0]);
      if Finds(here, rest[0]) {
        ServesNext(script, all.received, |here.received|, z);
        assert all.received[|here.received|] == Found(here, rest[0]);
      }
      if !goOn {
        return;
      }
      if Finds(here, rest[0]) {
        Io.AfterFrameEnds(script, Found(here, rest[0]), z);
      }
      rest := rest[1..];
    }
    if serves && !sink.IsRunning() {
      ServingRuns(sink.script, all.received[|queue.received|..], z);
    }
  }

  /**
   The writer thread of a connection, among any senders at any moment and over any sequence of partial writes, stalls
   and interruptions, stopped at any point. The wire carries the accepted messages in order, cut off at most once, and
   a cut is reported as what the sink did. Unless the sink ends it, every turn that finds a message puts it on the wire.
   */
  method WriterThread(queue: MessageQueue, sink: Io.ByteSink, schedule: seq<Turn>, late: seq<Event>)
      returns (error: Option<Io.Error>)
    requires Drained(queue.Value(), [], None) && queue.connected && sink.wire == []
    requires SendersOnly(late) && forall i | 0 <= i < |schedule| :: TurnOk(schedule[i])
    modifies queue, sink
    ensures queue.Valid() && Carries(sink.wire, queue.received) && !queue.connected
    ensures sink.wire <= EncodeAll(Accepted(queue.Value()))
    ensures var end := Io.EndOf(old(sink.script), sink.zeroMeansFull);
            error == if sink.wire == EncodeAll(queue.received) || end == Io.ConnectionStopped then None else Some(end)
    ensures var all := Worked(old(queue.Value()), schedule).received;
            && queue.received <= all
            && (queue.received < all ==> !sink.IsRunning() || sink.wire != EncodeAll(queue.received))
    ensures var worked := Worked(old(queue.Value()), schedule);
            Serves(old(sink.script), worked.received, sink.zeroMeansFull) ==>
              && queue.Value() == Run(Next(worked, Event.DropReceiver), late)
              && sink.wire == EncodeAll(worked.received) && error == None
  {
    hide Encode, Ledger, Order, Io.EndOf, Worked, Serves, Run;
    error := WriteTurns(queue, sink, schedule);
    ghost var last := queue.Value();
    queue.DropReceiver();
    NextKeepsLedger(last, Event.DropReceiver);
    NextKeepsOrder(last, Event.DropReceiver);
    LetSendersRun(queue, late, queue.received, None);
    CarriedIsPrefix(queue.Value(), sink.wire);
  }

  /**
   End to end: the Go core handles a prefix of the messages whose senders were told that they are queued, in queue
   order and unaltered, whatever the senders, the writer's stops and stalls, and the chunking of the stream.
   */
  method Deliver(queue: MessageQueue, sink: Io.ByteSink, schedule: seq<Turn>, late: seq<Event>, source: Io.ByteSource)
      returns (handled: seq<Message>)
    requires Drained(queue.Value(), [], None) && queue.connected && sink.wire == []
    requires SendersOnly(late) && forall i | 0 <= i < |schedule| :: TurnOk(schedule[i])
    modifies queue, sink, source
    ensures queue.Valid()
    ensures Io.StreamOf(old(source.script)) <= sink.wire ==> handled <= Accepted(queue.Value())
    ensures Io.StreamOf(old(source.script)) == sink.wire ==> handled == Completed(sink.wire, queue.received)
  {
    hide Parse, EncodeAll, Encode, Ledger, Order, Io.StreamOf;
    var error := WriterThread(queue, sink, schedule, late);
    ghost var stream := Io.StreamOf(source.script);
    handled := CoreReader.Serve(source);
    if stream <= sink.wire {
      CutReadsPrefix(stream, Accepted(queue.Value()));
    }
    CarriedReads(sink.wire, queue.received);
  }

  /**
   The other direction, end to end: the host delivers exactly the messages of the sends that went through, in their
   order and unaltered, and at most the one message more whose frame was being written when the connection was given up.
   */
  method DeliverBack(link: CoreLink.Link, messages: seq<Bytes>, source: Io.ByteSource, polls: nat)
      returns (sendings: seq<CoreLink.Sending>, delivered: seq<Message>)
    requires link.Valid() && link.conn != null && link.frames == []
    modifies link, link.conn, source
    ensures |sendings| == |messages|
    ensures forall i | 0 <= i < |messages| :: sendings[i].Added? ==> |messages[i]| <= MAX_FRAME_SIZE
    ensures var stream := Io.StreamOf(old(source.script)); var through := CoreLink.Through(messages, sendings);
            var wire := old(link.conn).wire;
            && (stream <= wire && link.conn != null ==> delivered <= through)
            && (stream <= wire ==> |delivered| <= |through| + 1 && (delivered <= through || through <= delivered))
            && (stream == wire && Io.Weight(old(source.script)) < polls ==>
                  && through <= delivered && (link.conn != null ==> delivered == through))
  {
    hide Parse, EncodeAll, Encode, Io.StreamOf, Io.Weight;
    ghost var wire := link.conn;
    sendings := link.SendAll(messages);
    ghost var stream := Io.StreamOf(source.script);
    var stopped;
    delivered, stopped := Io.ReadLoop(source, polls);
    if stream <= wire.wire {
      var more := wire.wire[|stream|..];
      assert wire.wire == stream + more;
      Io.ParseMonotone(stream, more);
    }
  }

  /** The messages whose frames are complete on the wire. */
  ghost function Completed(wire: Bytes, received: seq<Message>): seq<Message> {
    if wire == EncodeAll(received) || received == [] then received else received[..|received| - 1]
  }

  lemma CarriedReads(wire: Bytes, received: seq<Message>)
    requires Carries(wire, received)
    ensures Parse(wire).frames == Completed(wire, received)
  {
    hide Parse, EncodeAll, Encode;
    if wire == EncodeAll(received) {
      ParseUnique(received, []);
      assert EncodeAll(received) + [] == EncodeAll(received);
    } else {
      var done, last := received[..|received| - 1], received[|received| - 1];
      var cut := wire[|EncodeAll(done)|..];
      EncodeAllAppend(done, last);
      EncodeAllOne(last);
      assert done + [last] == received;
      assert wire == EncodeAll(done) + cut;
      CutReadsPrefix(cut, [last]);
      ParseSound(cut);
      assert |EncodeAll(Parse(cut).frames)| <= |cut| < |EncodeAll([last])|;
      assert Parse(cut).frames <= [last] && Parse(cut).frames != [last];
      assert Parse(cut).frames == [];
      ParseEncodeAll(done, cut);
      assert done + [] == done;
    }
  }
}

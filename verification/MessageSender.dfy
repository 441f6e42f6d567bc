/** The queue as an object that its callers update in place, and the retry loop of one caller among others. */
module MessageSender {
  import opened Options
  import opened Frames
  import opened SendQueue

  /** What happens elsewhere before the next operation of a call, and what the call then finds. */
  datatype Pause = Pause(others: seq<Event>, running: bool, late: bool)

  const LAST_PAUSE := Pause([], false, false)

  predicate Elsewhere(schedule: seq<Pause>, i: nat) {
    forall k | 0 <= k < |schedule| :: Others(schedule[k].others, i)
  }

  predicate IsRest(rest: seq<Pause>, schedule: seq<Pause>) {
    |rest| <= |schedule| && rest == schedule[|schedule| - |rest|..]
  }

  lemma RestOn(rest: seq<Pause>, schedule: seq<Pause>)
    requires IsRest(rest, schedule)
    ensures rest != [] ==> IsRest(rest[1..], schedule) && rest[0] in schedule
    ensures rest == [] ==> IsRest([], schedule)
  {
    if rest != [] {
      assert rest[0] == schedule[|schedule| - |rest|];
    }
  }

  lemma RestOfRest(rest: seq<Pause>, before: seq<Pause>, schedule: seq<Pause>)
    requires IsRest(rest, before) && IsRest(before, schedule)
    ensures IsRest(rest, schedule)
  {
  }

  lemma RestFirst(schedule: seq<Pause>)
    ensures IsRest(schedule, schedule)
  {
  }

  /** A receiver that is gone stays gone. */
  lemma {:induction false} GoneForGood(s: State, events: seq<Event>)
    requires !s.connected
    ensures !Run(s, events).connected
  {
    if events != [] {
      GoneForGood(s, events[..|events| - 1]);
    }
  }

  datatype Outcome = Queued | Error(error: SendError)

  lemma Did(start: State, events: seq<Event>, event: Event) returns (longer: seq<Event>)
    ensures longer == events + [event] && Run(start, longer) == Next(Run(start, events), event)
  {
    longer := events + [event];
    RunExtend(start, events, event);
  }

  lemma Joined(start: State, data: Message)
    ensures Run(start, [Call(data)]) == start.(senders := start.senders + [Sender(data, Reserving)])
  {
    RunExtend(start, [], Call(data));
    assert [] + [Call(data)] == [Call(data)];
  }

  lemma SentIsAccepted(s: State, i: nat)
    requires Order(s) && i < |s.senders|
    ensures s.senders[i].pc.Sent? <==> i in s.accepted
  {
  }

  class MessageQueue {
    var pendingBytes: nat
    var channel: seq<Message>
    var connected: bool
    var taken: Option<Message>
    var senders: seq<Sender>
    var accepted: seq<nat>
    var received: seq<Message>

    ghost function Value(): State
      reads this
    {
      State(pendingBytes, channel, connected, taken, senders, accepted, received)
    }

    ghost predicate Valid()
      reads this
    {
      Ledger(Value()) && Order(Value())
    }

    constructor ()
      ensures Value() == Empty() && Valid()
    {
      pendingBytes, channel, connected, taken, senders, accepted, received := 0, [], true, None, [], [], [];
      new;
      assert Value() == Run(Empty(), []);
      QueueHolds([]);
    }

    method TryReserve(i: nat) returns (reserved: bool)
      requires i < |senders| && senders[i].pc == Reserving
      modifies this
      ensures Value() == Next(old(Value()), SenderAction(i, true, false))
      ensures i < |senders| && senders[i] == old(senders[i]).(pc := if reserved then Sending else Checking)
      ensures reserved <==> Reserved(old(pendingBytes), |old(senders)[i].data|).Some?
      ensures connected == old(connected) && channel == old(channel)
    {
      var next := Reserved(pendingBytes, |senders[i].data|);
      reserved := next.Some?;
      if reserved {
        pendingBytes := next.value;
      }
      senders := senders[i := senders[i].(pc := if reserved then Sending else Checking)];
    }

    method TrySend(i: nat) returns (gone: bool, full: bool)
      requires i < |senders| && senders[i].pc == Sending
      modifies this
      ensures Value() == Next(old(Value()), SenderAction(i, true, false))
      ensures i < |senders|
      ensures senders[i] ==
          old(senders[i]).(pc := if gone then Releasing(true) else if full then Releasing(false) else Sent)
      ensures gone == !old(connected) && full == (|old(channel)| >= MAX_PENDING_MESSAGES) && connected == old(connected)
    {
      gone, full := !connected, |channel| >= MAX_PENDING_MESSAGES;
      if !gone && !full {
        channel, accepted := channel + [senders[i].data], accepted + [i];
      }
      senders := senders[i := senders[i].(pc := if gone then Releasing(true) else if full then Releasing(false)
                                          else Sent)];
    }

    method Release(i: nat)
      requires i < |senders| && senders[i].pc.Releasing?
      modifies this
      ensures Value() == Next(old(Value()), SenderAction(i, true, false))
      ensures i < |senders|
      ensures senders[i] == old(senders[i]).(pc := if old(senders[i].pc.gone) then Rejected(Disconnected) else Checking)
      ensures connected == old(connected)
    {
      pendingBytes := Subtracted(pendingBytes, |senders[i].data|);
      senders := senders[i := senders[i].(pc := if senders[i].pc.gone then Rejected(Disconnected) else Checking)];
    }

    method Decide(i: nat, running: bool, late: bool) returns (error: Option<SendError>)
      requires i < |senders| && senders[i].pc == Checking
      modifies this
      ensures Value() == Next(old(Value()), SenderAction(i, running, late))
      ensures i < |senders|
          && senders[i] == old(senders[i]).(pc := if error.Some? then Rejected(error.value) else Reserving)
      ensures error == if !running then Some(ServerStopped) else if late then Some(QueueFull) else None
    {
      error := if !running then Some(ServerStopped) else if late then Some(QueueFull) else None;
      senders := senders[i := senders[i].(pc := if error.Some? then Rejected(error.value) else Reserving)];
    }

    method Interfere(events: seq<Event>)
      modifies this
      ensures Value() == Run(old(Value()), events)
    {
      var s := Run(State(pendingBytes, channel, connected, taken, senders, accepted, received), events);
      pendingBytes, channel, connected, taken := s.pendingBytes, s.channel, s.connected, s.taken;
      senders, accepted, received := s.senders, s.accepted, s.received;
    }

    /** The other threads run before the next operation of call `i`. */
    method Pass(i: nat, schedule: seq<Pause>, ghost start: State, ghost events: seq<Event>)
        returns (rest: seq<Pause>, ghost longer: seq<Event>)
      requires i < |senders| && Elsewhere(schedule, i) && Value() == Run(start, events)
      modifies this
      ensures Value() == Run(start, longer) && Elsewhere(rest, i)
      ensures i < |senders| && senders[i] == old(senders[i])
      ensures rest == if schedule == [] then [] else schedule[1..]
      ensures schedule == [] ==> Value() == old(Value())
      ensures !old(connected) ==> !connected
    {
      rest, longer := [], events;
      if schedule != [] {
        if !connected {
          GoneForGood(Value(), schedule[0].others);
        }
        OthersLeave(Value(), schedule[0].others, i);
        RunConcat(start, events, schedule[0].others);
        Interfere(schedule[0].others);
        rest, longer := schedule[1..], events + schedule[0].others;
      }
    }

    /** The writer's receive; the message stays on the ledger until it is subtracted. */
    method Receive() returns (data: Option<Message>)
      requires taken.None? && connected
      modifies this
      ensures Value() == Next(old(Value()), Event.Receive)
      ensures data == if old(channel) == [] then None else Some(old(channel)[0])
    {
      data := None;
      if channel != [] {
        data := Some(channel[0]);
        taken, received, channel := data, received + [channel[0]], channel[1..];
      }
    }

    method Subtract(data: Message)
      requires taken == Some(data)
      modifies this
      ensures Value() == Next(old(Value()), Event.Subtract)
    {
      taken, pendingBytes := None, Subtracted(pendingBytes, |data|);
    }

    /** The writer thread has ended, and the receiver with it. */
    method DropReceiver()
      requires taken.None?
      modifies this
      ensures Value() == Next(old(Value()), Event.DropReceiver) && !connected
    {
      connected := false;
    }

    /** One attempt of call `i`: it reserves, sends, and releases what it could not send. */
    method Attempt(i: nat, schedule: seq<Pause>, ghost start: State, ghost events: seq<Event>)
        returns (sent: bool, gone: bool, rest: seq<Pause>, ghost longer: seq<Event>)
      requires i < |senders| && senders[i].pc == Reserving
      requires Elsewhere(schedule, i) && Value() == Run(start, events)
      modifies this
      ensures Value() == Run(start, longer) && Elsewhere(rest, i) && |rest| <= |schedule|
      ensures !(sent && gone) && i < |senders| && IsRest(rest, schedule) && (gone ==> !connected)
      ensures schedule == [] ==>
                (sent <==>
                   && old(connected) && |old(channel)| < MAX_PENDING_MESSAGES
                   && Reserved(old(pendingBytes), |old(senders)[i].data|).Some?)
      ensures senders[i] ==
          old(senders[i]).(pc := if sent then Sent else if gone then Rejected(Disconnected) else Checking)
    {
      hide Run, Next, IsRest, Reserved;
      RestFirst(schedule);
      RestOn(schedule, schedule);
      rest, longer := Pass(i, schedule, start, events);
      var reserved := TryReserve(i);
      longer := Did(start, longer, SenderAction(i, true, false));
      if !reserved {
        return false, false, rest, longer;
      }
      RestOn(rest, schedule);
      rest, longer := Pass(i, rest, start, longer);
      var full;
      gone, full := TrySend(i);
      longer := Did(start, longer, SenderAction(i, true, false));
      sent := !gone && !full;
      if !sent {
        RestOn(rest, schedule);
        rest, longer := Pass(i, rest, start, longer);
        Release(i);
        longer := Did(start, longer, SenderAction(i, true, false));
      }
    }

    /**
     One call among any others. It answers `Queued` exactly when its message is on the queue, and every error
     leaves the queue as the others made it; the calls and the writer around it may do anything in between. It gives up
     only for a reason: the receiver is gone, the server has stopped (as it has once `left` is used up), or it is late.
     */
    method EnqueueMessage(data: Message, schedule: seq<Pause>)
        returns (outcome: Outcome, ghost events: seq<Event>, ghost left: seq<Pause>)
      requires Valid() && Elsewhere(schedule, |senders|)
      modifies this
      ensures Valid() && Value() == Run(old(Value()), events)
      ensures var i := |old(senders)|;
              && i < |senders|
              && senders[i] == Sender(data, if outcome.Queued? then Sent else Rejected(outcome.error))
              && (outcome.Queued? <==> i in accepted)
      ensures outcome == Error(Disconnected) ==> !connected
      ensures outcome == Error(QueueFull) ==> exists pause :: pause in schedule && pause.running && pause.late
      ensures outcome == Error(ServerStopped) ==> left == [] || exists pause :: pause in schedule && !pause.running
      ensures schedule == [] ==>
                (outcome.Queued? <==>
                   && old(connected) && |old(channel)| < MAX_PENDING_MESSAGES
                   && Reserved(old(pendingBytes), |data|).Some?)
    {
      hide Run, Next, Ledger, Order, IsRest, Reserved;
      var i := |senders|;
      ghost var start := Value();
      Joined(start, data);
      senders := senders + [Sender(data, Reserving)];
      events := [Call(data)];
      var rest := schedule;
      left := rest;
      RestFirst(schedule);
      while true
        invariant Value() == Run(start, events) && Elsewhere(rest, i)
        invariant i < |senders| && senders[i] == Sender(data, Reserving) && IsRest(rest, schedule)
        invariant schedule == [] ==>
                    connected == old(connected) && channel == old(channel) && pendingBytes == old(pendingBytes)
        decreases |rest|
      {
        var sent, gone;
        ghost var before := rest;
        sent, gone, rest, events := Attempt(i, rest, start, events);
        RestOfRest(rest, before, schedule);
        if sent {
          outcome := Queued;
          break;
        } else if gone {
          outcome := Error(Disconnected);
          break;
        }
        var last := if rest == [] then LAST_PAUSE else rest[0];
        RestOn(rest, schedule);
        left := rest;
        rest, events := Pass(i, rest, start, events);
        var error := Decide(i, last.running, last.late);
        events := Did(start, events, SenderAction(i, last.running, last.late));
        if error.Some? {
          outcome := Error(error.value);
          break;
        }
      }
      RunKeeps(start, events);
      SentIsAccepted(Value(), i);
    }
  }
}

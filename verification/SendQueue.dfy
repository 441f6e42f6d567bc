/**
 The byte-budgeted queue between the callers of `send_message` and the writer thread: any number of senders and one
 writer, each advancing one atomic operation at a time.
 */
module SendQueue {
  import opened Options
  import opened Frames
  import Sequences

  const MAX_PENDING_MESSAGES: nat := 256
  const MAX_PENDING_BYTES: nat := 16 * 1024 * 1024
  const USIZE_LIMIT: nat := 0x1_0000_0000_0000_0000

  datatype SendError = Disconnected | ServerStopped | QueueFull

  /** Where a call of `enqueue_message` stands; bytes are reserved from `Sending` to the end of `Releasing`. */
  datatype SenderPc = Reserving | Sending | Releasing(gone: bool) | Checking | Sent | Rejected(error: SendError)

  datatype Sender = Sender(data: Message, pc: SenderPc)

  /**
   `taken` is the message the writer has received but not yet subtracted; `accepted` and `received` record the calls
   that queued their message and the messages the writer took, in order.
   */
  datatype State = State(
    pendingBytes: nat,
    channel: seq<Message>,
    connected: bool,
    taken: Option<Message>,
    senders: seq<Sender>,
    accepted: seq<nat>,
    received: seq<Message>)

  datatype Event =
    | Call(data: Message)
    | SenderAction(i: nat, running: bool, late: bool)
    | Receive
    | Subtract
    | DropReceiver

  function Empty(): State {
    State(0, [], true, None, [], [], [])
  }

  // ---- The atomic operations

  /** The update function of `try_reserve`: the next value of the counter, unless the budget refuses. */
  function Reserved(pending: nat, len: nat): Option<nat> {
    var next := pending + len;
    if next >= USIZE_LIMIT then None
    else if pending == 0 || next <= MAX_PENDING_BYTES then Some(next) else None
  }

  function Move(s: State, i: nat, pc: SenderPc): State
    requires i < |s.senders|
  {
    s.(senders := s.senders[i := s.senders[i].(pc := pc)])
  }

  /** The wrapping subtraction of `fetch_sub`. */
  function Subtracted(pending: nat, len: nat): nat {
    if len <= pending then pending - len else (pending + USIZE_LIMIT - len % USIZE_LIMIT) % USIZE_LIMIT
  }

  function SenderNext(s: State, i: nat, running: bool, late: bool): State
    requires i < |s.senders|
  {
    var sender := s.senders[i];
    match sender.pc
    case Reserving =>
      var next := Reserved(s.pendingBytes, |sender.data|);
      if next.Some? then Move(s, i, Sending).(pendingBytes := next.value) else Move(s, i, Checking)
    case Sending =>
      if !s.connected then Move(s, i, Releasing(true))
      else if |s.channel| >= MAX_PENDING_MESSAGES then Move(s, i, Releasing(false))
      else Move(s, i, Sent).(channel := s.channel + [sender.data], accepted := s.accepted + [i])
    case Releasing(gone) =>
      Move(s, i, if gone then Rejected(Disconnected) else Checking)
        .(pendingBytes := Subtracted(s.pendingBytes, |sender.data|))
    case Checking =>
      Move(s, i, if !running then Rejected(ServerStopped) else if late then Rejected(QueueFull) else Reserving)
    case Sent => s
    case Rejected(_) => s
  }

  function Next(s: State, event: Event): State {
    match event
    case Call(data) => s.(senders := s.senders + [Sender(data, Reserving)])
    case SenderAction(i, running, late) => if i < |s.senders| then SenderNext(s, i, running, late) else s
    case Receive =>
      if s.connected && s.taken.None? && s.channel != []
      then s.(taken := Some(s.channel[0]), channel := s.channel[1..], received := s.received + [s.channel[0]])
      else s
    case Subtract =>
      if s.taken.Some? then s.(taken := None, pendingBytes := Subtracted(s.pendingBytes, |s.taken.value|)) else s
    case DropReceiver => if s.taken.None? then s.(connected := false) else s
  }

  function Run(s: State, events: seq<Event>): State {
    if events == [] then s else Next(Run(s, events[..|events| - 1]), events[|events| - 1])
  }

  // ---- The byte ledger

  function Bytes(ms: seq<Message>): nat {
    if ms == [] then 0 else |ms[0]| + Bytes(ms[1..])
  }

  function NonEmpty(ms: seq<Message>): nat {
    if ms == [] then 0 else (if |ms[0]| == 0 then 0 else 1) + NonEmpty(ms[1..])
  }

  lemma {:induction false} LoadConcat(ms: seq<Message>, ns: seq<Message>)
    ensures Bytes(ms + ns) == Bytes(ms) + Bytes(ns)
    ensures NonEmpty(ms + ns) == NonEmpty(ms) + NonEmpty(ns)
  {
    if ms == [] {
      assert ms + ns == ns;
    } else {
      LoadConcat(ms[1..], ns);
      assert (ms + ns)[1..] == ms[1..] + ns;
    }
  }

  lemma {:induction false} LoadAt(ms: seq<Message>, i: nat, m: Message)
    requires i < |ms|
    ensures Bytes(ms[i := m]) + |ms[i]| == Bytes(ms) + |m|
    ensures NonEmpty(ms[i := m]) + NonEmpty([ms[i]]) == NonEmpty(ms) + NonEmpty([m])
  {
    if i > 0 {
      LoadAt(ms[1..], i - 1, m);
      assert ms[i := m][1..] == ms[1..][i - 1 := m];
    } else {
      assert ms[i := m][1..] == ms[1..];
    }
  }

  /** No bytes means only empty messages; a single non-empty message is at most a frame. */
  lemma {:induction false} LoadBound(ms: seq<Message>)
    ensures Bytes(ms) == 0 <==> NonEmpty(ms) == 0
    ensures NonEmpty(ms) <= 1 ==> Bytes(ms) <= MAX_FRAME_SIZE
  {
    if ms != [] {
      LoadBound(ms[1..]);
    }
  }

  predicate Holds(sender: Sender) {
    sender.pc.Sending? || sender.pc.Releasing?
  }

  /** Per sender, the message it has reserved for, or an empty one. */
  function Held(senders: seq<Sender>): (ms: seq<Message>)
    ensures |ms| == |senders|
    ensures forall i | 0 <= i < |ms| :: ms[i] == if Holds(senders[i]) then senders[i].data else []
  {
    if senders == [] then []
    else
      var last := senders[|senders| - 1];
      Held(senders[..|senders| - 1]) + [if Holds(last) then last.data else []]
  }

  function Taken(s: State): seq<Message> {
    if s.taken.Some? then [s.taken.value] else []
  }

  /** Everything the counter should account for: reserved but not sent, queued, and taken but not yet subtracted. */
  function Outstanding(s: State): seq<Message> {
    Held(s.senders) + (s.channel + Taken(s))
  }

  lemma OutstandingLoad(s: State)
    ensures Bytes(Outstanding(s)) == Bytes(Held(s.senders)) + Bytes(s.channel) + Bytes(Taken(s))
    ensures NonEmpty(Outstanding(s)) == NonEmpty(Held(s.senders)) + NonEmpty(s.channel) + NonEmpty(Taken(s))
  {
    LoadConcat(Held(s.senders), s.channel + Taken(s));
    LoadConcat(s.channel, Taken(s));
  }

  ghost predicate Ledger(s: State) {
    && s.pendingBytes == Bytes(Outstanding(s))
    && (s.pendingBytes > MAX_PENDING_BYTES ==> NonEmpty(Outstanding(s)) == 1)
    && |s.channel| <= MAX_PENDING_MESSAGES
  }

  function Messages(s: State, ids: seq<nat>): (ms: seq<Message>)
    requires forall k | 0 <= k < |ids| :: ids[k] < |s.senders|
    ensures |ms| == |ids|
    ensures forall k | 0 <= k < |ids| :: ms[k] == s.senders[ids[k]].data
  {
    if ids == [] then [] else Messages(s, ids[..|ids| - 1]) + [s.senders[ids[|ids| - 1]].data]
  }

  /** The queue holds exactly the accepted calls' messages, each once and in the order of acceptance. */
  ghost predicate Order(s: State) {
    && (forall k | 0 <= k < |s.accepted| :: s.accepted[k] < |s.senders|)
    && (forall i | 0 <= i < |s.senders| :: s.senders[i].pc == Sent <==> i in s.accepted)
    && (forall j, k | 0 <= j < k < |s.accepted| :: s.accepted[j] != s.accepted[k])
    && Messages(s, s.accepted) == s.received + s.channel
    && (s.taken.Some? ==> s.received != [] && s.received[|s.received| - 1] == s.taken.value)
  }

  function HeldOne(sender: Sender): Message {
    if Holds(sender) then sender.data else []
  }

  /** One sender's change of step changes the load by its own reservation. */
  lemma HeldMove(senders: seq<Sender>, i: nat, sender: Sender)
    requires i < |senders|
    ensures var after := senders[i := sender];
            && Bytes(Held(after)) + |HeldOne(senders[i])| == Bytes(Held(senders)) + |HeldOne(sender)|
            && NonEmpty(Held(after)) + NonEmpty([HeldOne(senders[i])]) ==
                NonEmpty(Held(senders)) + NonEmpty([HeldOne(sender)])
  {
    assert Held(senders[i := sender]) == Held(senders)[i := HeldOne(sender)];
    LoadAt(Held(senders), i, HeldOne(sender));
  }

  /** Whether a message counts as non-empty. */
  lemma NonEmptyOne(m: Message)
    ensures NonEmpty([m]) == (if m == [] then 0 else 1) && Bytes([m]) == |m|
  {
    assert [m][1..] == [];
  }

  /** The load after an action of sender `i`, from the parts of the state that it may change. */
  lemma LoadAfter(s: State, t: State, i: nat)
    requires i < |s.senders| && |t.senders| == |s.senders| && t.senders == s.senders[i := t.senders[i]]
    requires t.taken == s.taken
    ensures Bytes(Outstanding(t)) + |HeldOne(s.senders[i])| + Bytes(s.channel) ==
            Bytes(Outstanding(s)) + |HeldOne(t.senders[i])| + Bytes(t.channel)
    ensures NonEmpty(Outstanding(t)) + NonEmpty([HeldOne(s.senders[i])]) + NonEmpty(s.channel) ==
            NonEmpty(Outstanding(s)) + NonEmpty([HeldOne(t.senders[i])]) + NonEmpty(t.channel)
  {
    OutstandingLoad(s);
    OutstandingLoad(t);
    HeldMove(s.senders, i, t.senders[i]);
    hide *;
    assert Taken(t) == Taken(s) by {
      TakenFrom(s, t);
    }
  }

  lemma TakenFrom(s: State, t: State)
    requires t.taken == s.taken
    ensures Taken(t) == Taken(s)
  {
  }

  /** Queueing moves the reserved bytes into the channel; a refusal leaves them reserved. */
  lemma SendingKeepsLedger(s: State, i: nat, running: bool, late: bool)
    requires Ledger(s) && i < |s.senders| && s.senders[i].pc.Sending?
    ensures Ledger(SenderNext(s, i, running, late))
  {
    hide Bytes, NonEmpty, Held, Outstanding, Taken;
    var t := SenderNext(s, i, running, late);
    var data: Message := s.senders[i].data;
    LoadAfter(s, t, i);
    NonEmptyOne(data);
    NonEmptyOne([]);
    if t.channel != s.channel {
      LoadConcat(s.channel, [data]);
    }
  }

  lemma SenderKeepsLedger(s: State, i: nat, running: bool, late: bool)
    requires Ledger(s) && i < |s.senders|
    ensures Ledger(SenderNext(s, i, running, late))
  {
    hide Bytes, NonEmpty, Held, Outstanding, Taken;
    if s.senders[i].pc.Sending? {
      SendingKeepsLedger(s, i, running, late);
    } else {
      var t := SenderNext(s, i, running, late);
      LoadAfter(s, t, i);
      NonEmptyOne(s.senders[i].data);
      NonEmptyOne([]);
      LoadBound(Outstanding(s));
      LoadBound(Outstanding(t));
    }
  }

  lemma NextKeepsLedger(s: State, event: Event)
    requires Ledger(s)
    ensures Ledger(Next(s, event))
  {
    hide Bytes, NonEmpty, Held, Subtracted;
    match event
    case SenderAction(i, running, late) =>
      if i < |s.senders| {
        SenderKeepsLedger(s, i, running, late);
      }
    case Call(data) => CallKeepsLedger(s, data);
    case Receive => ReceiveKeepsLedger(s);
    case Subtract => SubtractKeepsLedger(s);
    case DropReceiver =>
  }

  lemma CallKeepsLedger(s: State, data: Message)
    requires Ledger(s)
    ensures Ledger(Next(s, Call(data)))
  {
    hide Bytes, NonEmpty;
    var t := Next(s, Call(data));
    OutstandingLoad(s);
    OutstandingLoad(t);
    assert Held(t.senders) == Held(s.senders) + [[]];
    LoadConcat(Held(s.senders), [[]]);
    NonEmptyOne([]);
  }

  lemma ReceiveKeepsLedger(s: State)
    requires Ledger(s)
    ensures Ledger(Next(s, Receive))
  {
    OutstandingLoad(s);
    OutstandingLoad(Next(s, Receive));
  }

  lemma SubtractKeepsLedger(s: State)
    requires Ledger(s)
    ensures Ledger(Next(s, Subtract))
  {
    hide Held;
    OutstandingLoad(s);
    OutstandingLoad(Next(s, Subtract));
    LoadBound(Outstanding(Next(s, Subtract)));
  }

  lemma MessagesKept(s: State, t: State, ids: seq<nat>)
    requires |s.senders| <= |t.senders| && forall k | 0 <= k < |ids| :: ids[k] < |s.senders|
    requires forall i | 0 <= i < |s.senders| :: t.senders[i].data == s.senders[i].data
    ensures Messages(t, ids) == Messages(s, ids)
  {
  }

  lemma SenderKeepsOrder(s: State, i: nat, running: bool, late: bool)
    requires Order(s) && i < |s.senders|
    ensures Order(SenderNext(s, i, running, late))
  {
    hide Messages, Reserved, Subtracted;
    var t := SenderNext(s, i, running, late);
    assert t.senders == s.senders[i := t.senders[i]] && t.senders[i].data == s.senders[i].data;
    MessagesKept(s, t, s.accepted);
    if s.senders[i].pc.Sending? && t.senders[i].pc.Sent? {
      AcceptKeepsOrder(s, t, i);
    } else {
      assert t.accepted == s.accepted && t.channel == s.channel && t.received == s.received;
    }
  }

  lemma AcceptKeepsOrder(s: State, t: State, i: nat)
    requires Order(s) && i < |s.senders| && s.senders[i].pc.Sending?
    requires t == Move(s, i, Sent).(channel := s.channel + [s.senders[i].data], accepted := s.accepted + [i])
    requires Messages(t, s.accepted) == Messages(s, s.accepted)
    ensures Order(t)
  {
    hide Messages;
    MessagesAppend(t, s.accepted, i);
    assert s.received + t.channel == (s.received + s.channel) + [s.senders[i].data];
    assert i !in s.accepted;
    forall k | 0 <= k < |t.senders| ensures t.senders[k].pc == Sent <==> k in t.accepted {
      assert k != i ==> t.senders[k] == s.senders[k];
    }
    assert forall k | 0 <= k < |s.accepted| :: s.accepted[k] in s.accepted;
  }

  lemma MessagesAppend(s: State, ids: seq<nat>, i: nat)
    requires i < |s.senders| && forall k | 0 <= k < |ids| :: ids[k] < |s.senders|
    ensures Messages(s, ids + [i]) == Messages(s, ids) + [s.senders[i].data]
  {
    assert (ids + [i])[..|ids|] == ids;
  }

  lemma NextKeepsOrder(s: State, event: Event)
    requires Order(s)
    ensures Order(Next(s, event))
  {
    hide Messages;
    var t := Next(s, event);
    match event
    case Call(data) => MessagesKept(s, t, s.accepted);
    case SenderAction(i, running, late) =>
      if i < |s.senders| {
        SenderKeepsOrder(s, i, running, late);
      }
    case _ =>
      assert t.received + t.channel == s.received + s.channel;
      MessagesKept(s, t, s.accepted);
  }

  lemma {:induction false} QueueHolds(events: seq<Event>)
    ensures Ledger(Run(Empty(), events)) && Order(Run(Empty(), events))
  {
    if events != [] {
      QueueHolds(events[..|events| - 1]);
      NextKeepsLedger(Run(Empty(), events[..|events| - 1]), events[|events| - 1]);
      NextKeepsOrder(Run(Empty(), events[..|events| - 1]), events[|events| - 1]);
    }
  }

  /** The counter is exact at every moment of every run, and no subtraction wraps around. */
  lemma LedgerBalances(events: seq<Event>)
    ensures var s := Run(Empty(), events);
            && s.pendingBytes == Bytes(Outstanding(s))
            && (s.taken.Some? ==> |s.taken.value| <= s.pendingBytes)
            && (forall i | 0 <= i < |s.senders| && s.senders[i].pc.Releasing? :: |s.senders[i].data| <= s.pendingBytes)
  {
    QueueHolds(events);
    var s := Run(Empty(), events);
    OutstandingLoad(s);
    forall i | 0 <= i < |s.senders| && s.senders[i].pc.Releasing? ensures |s.senders[i].data| <= s.pendingBytes {
      LoadAt(Held(s.senders), i, []);
    }
  }

  /** The counter never exceeds one frame, and past the budget a single message is responsible for all of it. */
  lemma PendingIsBounded(events: seq<Event>)
    ensures var s := Run(Empty(), events);
            && s.pendingBytes <= MAX_FRAME_SIZE
            && (s.pendingBytes > MAX_PENDING_BYTES ==> NonEmpty(Outstanding(s)) == 1)
            && |s.channel| <= MAX_PENDING_MESSAGES
  {
    QueueHolds(events);
    LoadBound(Outstanding(Run(Empty(), events)));
  }

  /**
   The budget refuses a reservation exactly if something is pending and the sum would exceed it: an empty counter takes
   a message of any size. What the budget accepts is reserved.
   */
  lemma RefusedExactly(events: seq<Event>, i: nat, running: bool, late: bool)
    requires var s := Run(Empty(), events); i < |s.senders| && s.senders[i].pc.Reserving?
    ensures var s, t := Run(Empty(), events), Next(Run(Empty(), events), SenderAction(i, running, late));
            var len := |s.senders[i].data|;
            && t.senders[i].pc ==
                (if s.pendingBytes != 0 && s.pendingBytes + len > MAX_PENDING_BYTES then Checking else Sending)
            && t.pendingBytes == s.pendingBytes + (if t.senders[i].pc.Sending? then len else 0)
  {
    PendingIsBounded(events);
  }

  /** A reserved message is queued exactly if the receiver is there and the channel has room. */
  lemma QueuedExactly(events: seq<Event>, i: nat, running: bool, late: bool)
    requires var s := Run(Empty(), events); i < |s.senders| && s.senders[i].pc.Sending?
    ensures var s, t := Run(Empty(), events), Next(Run(Empty(), events), SenderAction(i, running, late));
            && (t.senders[i].pc.Sent? <==> s.connected && |s.channel| < MAX_PENDING_MESSAGES)
            && t.channel == s.channel + (if t.senders[i].pc.Sent? then [s.senders[i].data] else [])
            && (t.senders[i].pc == Releasing(true) <==> !s.connected)
  {
    QueueHolds(events);
  }

  /** A call that reports an error has queued nothing and holds nothing; one that succeeds is queued exactly once. */
  lemma ErrorsLeaveNothing(events: seq<Event>, i: nat)
    requires i < |Run(Empty(), events).senders|
    ensures var s := Run(Empty(), events);
            && (s.senders[i].pc.Rejected? ==> i !in s.accepted && Held(s.senders)[i] == [])
            && (s.senders[i].pc.Sent? ==> multiset(s.accepted)[i] == 1 && Held(s.senders)[i] == [])
  {
    QueueHolds(events);
    var s := Run(Empty(), events);
    OnceInDistinct(s.accepted, i);
  }

  lemma {:induction false} OnceInDistinct(ids: seq<nat>, id: nat)
    requires forall j, k | 0 <= j < k < |ids| :: ids[j] != ids[k]
    ensures multiset(ids)[id] == if id in ids then 1 else 0
  {
    if ids != [] {
      OnceInDistinct(ids[1..], id);
      assert ids == [ids[0]] + ids[1..];
    }
  }

  /** An empty budget does not mean an empty queue: zero-length messages weigh nothing. */
  lemma ZeroPendingMayBeQueued() returns (events: seq<Event>)
    ensures var s := Run(Empty(), events); s.pendingBytes == 0 && s.channel != []
  {
    events := [Call([]), SenderAction(0, true, false), SenderAction(0, true, false)];
    assert events[..2] == [Call([]), SenderAction(0, true, false)];
    assert events[..2][..1] == [Call([])] && events[..2][..1][..0] == [];
    assert Run(Empty(), events[..2][..1]).senders == [Sender([], Reserving)];
  }

  lemma {:induction false} RunConcat(s: State, before: seq<Event>, after: seq<Event>)
    ensures Run(s, before + after) == Run(Run(s, before), after)
  {
    if after == [] {
      assert before + after == before;
    } else {
      hide Next;
      RunConcat(s, before, after[..|after| - 1]);
      Sequences.ConcatUnsnoc(before, after);
    }
  }

  lemma RunExtend(s: State, events: seq<Event>, event: Event)
    ensures Run(s, events + [event]) == Next(Run(s, events), event)
  {
    assert (events + [event])[..|events|] == events;
  }

  lemma {:induction false} RunKeeps(s: State, events: seq<Event>)
    requires Ledger(s) && Order(s)
    ensures Ledger(Run(s, events)) && Order(Run(s, events))
  {
    if events != [] {
      RunKeeps(s, events[..|events| - 1]);
      NextKeepsLedger(Run(s, events[..|events| - 1]), events[|events| - 1]);
      NextKeepsOrder(Run(s, events[..|events| - 1]), events[|events| - 1]);
    }
  }

  /** Events of other threads: none of them acts for call `i`. */
  predicate Others(events: seq<Event>, i: nat) {
    forall k | 0 <= k < |events| :: events[k].SenderAction? ==> events[k].i != i
  }

  lemma {:induction false} OthersLeave(s: State, events: seq<Event>, i: nat)
    requires i < |s.senders| && Others(events, i)
    ensures i < |Run(s, events).senders| && Run(s, events).senders[i] == s.senders[i]
  {
    if events != [] {
      OthersLeave(s, events[..|events| - 1], i);
    }
  }
}

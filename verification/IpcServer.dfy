/**
 The lifecycle of the host's IPC server: callers that stop and restart it under the lifecycle lock, and the server
 threads they spawn, all sharing a running flag and the sender of the current connection.
 */
module IpcServer {
  import opened Options
  import opened Frames
  import Sequences

  /** What a server thread hands to its event sink. */
  datatype Emitted = Ready | Connected | Data(payload: Bytes) | Disconnected | Error

  /** `RUNNING` and `STATE`; the sender is named by the thread that published it. */
  datatype Shared = Shared(
    running: bool,
    stateLock: Option<nat>,
    sender: Option<nat>,
    handle: Option<nat>,
    /** A stop has cleared the sender and no restart has raised the flag since. */
    cleared: bool)

  /** The caller inside the lifecycle lock; a restart is a stop with more to do. */
  datatype Caller =
    | Idle
    | LowerFlag(restart: bool)
    | ClearState(restart: bool)
    | Join(restart: bool, handle: Option<nat>)
    | CleanSocket | RaiseFlag | Spawn
    | StoreHandle(thread: nat)

  datatype Pc =
    | Setup | AddReady | LoopHead | Accept | AcceptFailed
    | LockState | CheckActive | StoreSender | AddConnected
    | ReadHead | ReadPoll | ReadFailed | ClearSender | JoinWriter | BeforeDisconnected | AddDisconnected
    | FinishFlag | FinishState | Dead

  datatype Thread = Thread(pc: Pc, events: seq<Emitted>)

  datatype State = State(shared: Shared, caller: Caller, threads: seq<Thread>)

  /** What the environment answers: success with the sink listening or gone, nothing yet, or a failure. */
  datatype Answer =
    | Done(taken: bool) | Nothing | Rejected(reported: bool) | Failure(taken: bool) | Frame(payload: Bytes, taken: bool)

  datatype Event = CallStop | CallRestart | CallerAction(ok: bool) | ThreadAction(thread: nat, answer: Answer)

  function Init(): State {
    State(Shared(false, None, None, None, true), Idle, [])
  }

  predicate Live(s: State, g: nat) {
    g < |s.threads| && s.threads[g].pc != Dead
  }

  // ---- `stop_server_thread` and `restart_server`

  function CallerNext(s: State, ok: bool): State {
    var m := s.shared;
    match s.caller
    case Idle => s
    case LowerFlag(restart) => s.(shared := m.(running := false), caller := ClearState(restart))
    case ClearState(restart) =>
      if m.stateLock.Some? then s
      else s.(shared := m.(sender := None, handle := None, cleared := true), caller := Join(restart, m.handle))
    case Join(restart, handle) =>
      if handle.Some? && Live(s, handle.value) then s else s.(caller := if restart then CleanSocket else Idle)
    case CleanSocket => s.(caller := if ok then RaiseFlag else Idle)
    case RaiseFlag => s.(shared := m.(running := true, cleared := false), caller := Spawn)
    case Spawn =>
      if ok then s.(threads := s.threads + [Thread(Setup, [])], caller := StoreHandle(|s.threads|))
      else s.(shared := m.(running := false), caller := Idle)
    case StoreHandle(g) =>
      if m.stateLock.Some? then s else s.(shared := m.(handle := Some(g)), caller := Idle)
  }

  // ---- `io_loop`

  datatype Advanced = Advanced(shared: Shared, thread: Thread)

  function Emit(t: Thread, event: Emitted, taken: bool, pc: Pc): Thread {
    Thread(pc, if taken then t.events + [event] else t.events)
  }

  function ThreadNext(m: Shared, g: nat, t: Thread, answer: Answer): Advanced {
    match t.pc
    case Setup =>
      (match answer
       case Done(_) => Advanced(m, t.(pc := AddReady))
       case Failure(taken) => Advanced(m, Emit(t, Error, taken, FinishFlag))
       case _ => Advanced(m, t))
    case AddReady =>
      if answer.Done? then Advanced(m, Emit(t, Ready, answer.taken, if answer.taken then LoopHead else FinishFlag))
      else Advanced(m, t)
    case LoopHead => Advanced(m, t.(pc := if m.running then Accept else FinishFlag))
    case Accept =>
      (match answer
       case Nothing => Advanced(m, t.(pc := LoopHead))
       case Rejected(reported) => Advanced(m, Emit(t, Error, reported, LoopHead))
       case Failure(_) => Advanced(m, t.(pc := AcceptFailed))
       case Done(_) => Advanced(m, t.(pc := LockState))
       case Frame(_, _) => Advanced(m, t))
    case AcceptFailed => Advanced(m, Emit(t, Error, m.running && answer.Done? && answer.taken, FinishFlag))
    case LockState =>
      if m.stateLock.None? then Advanced(m.(stateLock := Some(g)), t.(pc := CheckActive)) else Advanced(m, t)
    case CheckActive =>
      if m.running then Advanced(m, t.(pc := StoreSender)) else Advanced(m.(stateLock := None), t.(pc := FinishFlag))
    case StoreSender => Advanced(m.(sender := Some(g), stateLock := None), t.(pc := AddConnected))
    case AddConnected =>
      if answer.Done? then Advanced(m, Emit(t, Connected, answer.taken, if answer.taken then ReadHead else FinishFlag))
      else Advanced(m, t)
    case ReadHead => Advanced(m, t.(pc := if m.running && answer.Done? then ReadPoll else ClearSender))
    case ReadPoll =>
      (match answer
       case Frame(payload, taken) => Advanced(m, Emit(t, Data(payload), taken, if taken then ReadHead else ClearSender))
       case Nothing => Advanced(m, t.(pc := ReadHead))
       case Failure(_) => Advanced(m, t.(pc := ReadFailed))
       case Rejected(_) => Advanced(m, t.(pc := ClearSender))
       case Done(_) => Advanced(m, t))
    case ReadFailed => Advanced(m, Emit(t, Error, m.running && answer.Done? && answer.taken, ClearSender))
    case ClearSender =>
      if m.stateLock.None? then Advanced(m.(sender := None), t.(pc := JoinWriter)) else Advanced(m, t)
    case JoinWriter =>
      (match answer
       case Done(_) => Advanced(m, t.(pc := BeforeDisconnected))
       case Failure(taken) => Advanced(m, Emit(t, Error, taken, BeforeDisconnected))
       case _ => Advanced(m, t))
    case BeforeDisconnected => Advanced(m, t.(pc := if m.running then AddDisconnected else LoopHead))
    case AddDisconnected =>
      if answer.Done?
          then Advanced(m, Emit(t, Disconnected, answer.taken, if answer.taken then LoopHead else FinishFlag))
      else Advanced(m, t)
    case FinishFlag => Advanced(m.(running := false), t.(pc := FinishState))
    case FinishState => if m.stateLock.None? then Advanced(m.(sender := None), t.(pc := Dead)) else Advanced(m, t)
    case Dead => Advanced(m, t)
  }

  function Next(s: State, event: Event): State {
    match event
    case CallStop => if s.caller.Idle? then s.(caller := LowerFlag(false)) else s
    case CallRestart => if s.caller.Idle? then s.(caller := LowerFlag(true)) else s
    case CallerAction(ok) => CallerNext(s, ok)
    case ThreadAction(g, answer) =>
      if g < |s.threads| then
        var after := ThreadNext(s.shared, g, s.threads[g], answer);
        s.(shared := after.shared, threads := s.threads[g := after.thread])
      else s
  }

  function Run(s: State, schedule: seq<Event>): State {
    if schedule == [] then s else Next(Run(s, schedule[..|schedule| - 1]), schedule[|schedule| - 1])
  }

  // ---- Isolation of generations

  /** The thread that a live server must be, going by what the lifecycle lock's owner is doing. */
  predicate Expected(s: State, g: nat) {
    && g == |s.threads| - 1
    && match s.caller
       case Idle => s.shared.handle == Some(g)
       case LowerFlag(_) => s.shared.handle == Some(g)
       case ClearState(_) => s.shared.handle == Some(g)
       case Join(_, handle) => handle == Some(g)
       case StoreHandle(h) => h == g
       case _ => false
  }

  predicate Published(pc: Pc) {
    || pc.AddConnected? || pc.ReadHead? || pc.ReadPoll? || pc.ReadFailed? || pc.ClearSender?
    || pc.FinishFlag? || pc.FinishState?
  }

  /** Between CONNECTED, or just before it, and the end of the connection. */
  predicate InConnection(pc: Pc) {
    pc.AddConnected? || pc.ReadHead? || pc.ReadPoll? || pc.ReadFailed? || pc.ClearSender?
  }

  ghost predicate Isolated(s: State) {
    && (forall g | 0 <= g < |s.threads| :: s.threads[g].pc != Dead ==> Expected(s, g))
    && (forall g | 0 <= g < |s.threads| ::
          HoldsLock(s.threads[g]) <==> s.shared.stateLock == Some(g))
    && (s.shared.stateLock.Some? ==> s.shared.stateLock.value < |s.threads|)
    && (s.shared.sender.Some? ==> s.shared.sender.value < |s.threads| && Published(s.threads[s.shared.sender.value].pc))
    && (s.shared.cleared ==>
          && !s.shared.running && s.shared.sender.None?
          && forall g | 0 <= g < |s.threads| :: s.threads[g].pc != StoreSender)
    && (forall g | 0 <= g < |s.threads| ::
          InConnection(s.threads[g].pc) ==> s.shared.sender == Some(g) || s.shared.cleared)
    && (s.caller.Spawn? ==> s.shared.running)
    && (s.caller.RaiseFlag? || s.caller.CleanSocket? || s.caller.Join? ==> s.shared.cleared)
    && (s.caller.ClearState? ==> !s.shared.running)
  }

  lemma CallerKeepsIsolated(s: State, ok: bool)
    requires Isolated(s)
    ensures Isolated(CallerNext(s, ok))
  {
  }

  predicate HoldsLock(t: Thread) {
    t.pc.CheckActive? || t.pc.StoreSender?
  }

  /** What one action of thread `g` may do to the shared state. */
  predicate Stays(m: Shared, g: nat, t: Thread, after: Advanced) {
    var n := after.shared;
    && n.handle == m.handle && n.cleared == m.cleared && (n.running ==> m.running)
    && (HoldsLock(after.thread) <==> n.stateLock == Some(g))
    && (n.stateLock != Some(g) && m.stateLock != Some(g) ==> n.stateLock == m.stateLock)
    && (m.stateLock == Some(g) ==> n.stateLock in {None, Some(g)})
    && (n.stateLock == Some(g) ==> m.stateLock in {None, Some(g)})
    && n.sender in {m.sender, None, Some(g)}
    && (n.sender == Some(g) ==> Published(after.thread.pc))
    && (t.pc == Dead ==> after == Advanced(m, t))
    && (!m.running && after.thread.pc.StoreSender? ==> t.pc.StoreSender?)
    && (n.sender != m.sender && n.sender.Some? ==> t.pc.StoreSender?)
  }

  /** A thread in a connection has published its sender, or whoever took it away since has left it so. */
  predicate KeepsSender(m: Shared, g: nat, t: Thread, after: Advanced) {
    InConnection(after.thread.pc) ==>
      after.shared.sender == Some(g) || (after.shared.sender == m.sender && InConnection(t.pc))
  }

  lemma ThreadKeepsSender(m: Shared, g: nat, t: Thread, answer: Answer)
    ensures KeepsSender(m, g, t, ThreadNext(m, g, t, answer))
  {
  }

  lemma ThreadStays(m: Shared, g: nat, t: Thread, answer: Answer)
    requires HoldsLock(t) <==> m.stateLock == Some(g)
    requires m.sender == Some(g) ==> Published(t.pc)
    ensures Stays(m, g, t, ThreadNext(m, g, t, answer))
  {
  }

  lemma ThreadKeepsIsolated(s: State, g: nat, answer: Answer)
    requires Isolated(s) && g < |s.threads|
    ensures Isolated(Next(s, ThreadAction(g, answer)))
  {
    hide ThreadNext, Published;
    ThreadStays(s.shared, g, s.threads[g], answer);
    ThreadKeepsSender(s.shared, g, s.threads[g], answer);
    var t := Next(s, ThreadAction(g, answer));
    assert forall k | 0 <= k < |s.threads| && k != g :: t.threads[k] == s.threads[k];
    assert s.threads[g].pc != Dead ==> Expected(s, g);
  }

  lemma NextKeepsIsolated(s: State, event: Event)
    requires Isolated(s)
    ensures Isolated(Next(s, event))
  {
    match event
    case CallerAction(ok) => CallerKeepsIsolated(s, ok);
    case ThreadAction(g, answer) =>
      if g < |s.threads| {
        ThreadKeepsIsolated(s, g, answer);
      }
    case _ =>
  }

  lemma {:induction false} IsolatedHolds(schedule: seq<Event>)
    ensures Isolated(Run(Init(), schedule))
  {
    if schedule != [] {
      IsolatedHolds(schedule[..|schedule| - 1]);
      NextKeepsIsolated(Run(Init(), schedule[..|schedule| - 1]), schedule[|schedule| - 1]);
    }
  }

  /** A thread that is still at work, on its way out or not, has no successor, and a published sender is its own. */
  lemma NoThreadOutlivesItsTurn(schedule: seq<Event>, g: nat)
    requires Live(Run(Init(), schedule), g)
    ensures var s := Run(Init(), schedule);
            && g == |s.threads| - 1
            && (forall k | 0 <= k < |s.threads| && k != g :: s.threads[k].pc == Dead)
            && (s.shared.sender.Some? ==> s.shared.sender == Some(g))
            && !s.caller.RaiseFlag? && !s.caller.Spawn?
  {
    IsolatedHolds(schedule);
    var s := Run(Init(), schedule);
    assert forall k | 0 <= k < |s.threads| :: s.threads[k].pc != Dead ==> Expected(s, k);
  }

  /** While a connection is open its sender can be used, from before CONNECTED on, unless a stop has taken it away. */
  lemma OpenConnectionHasSender(schedule: seq<Event>, g: nat)
    requires var s := Run(Init(), schedule); g < |s.threads| && InConnection(s.threads[g].pc)
    ensures var s := Run(Init(), schedule); s.shared.sender == Some(g) || (s.shared.cleared && s.shared.sender.None?)
  {
    IsolatedHolds(schedule);
  }

  lemma {:induction false} RunConcat(s: State, before: seq<Event>, after: seq<Event>)
    ensures Run(s, before + after) == Run(Run(s, before), after)
  {
    if after == [] {
      assert before + after == before;
    } else {
      hide Next;
      RunConcat(s, before, after[..|after| - 1]);
      assert (before + after)[..|before + after| - 1] == before + after[..|after| - 1];
    }
  }

  lemma RunExtend(s: State, before: seq<Event>, event: Event)
    ensures Run(s, before + [event]) == Next(Run(s, before), event)
  {
    assert (before + [event])[..|before|] == before;
  }

  /** The event by which a restart raises the flag. */
  predicate Raises(s: State, event: Event) {
    event.CallerAction? && s.caller.RaiseFlag?
  }

  /**
   Once a stop has cleared the sender, it stays empty, and the flag down, until a caller raises the flag again,
   however far a connection had got with publishing its sender.
   */
  lemma {:induction false} ClearedUntilRestart(schedule: seq<Event>, later: seq<Event>)
    requires Run(Init(), schedule).shared.cleared
    requires forall i | 0 <= i < |later| :: !Raises(Run(Init(), schedule + later[..i]), later[i])
    ensures var t := Run(Init(), schedule + later); t.shared.cleared && t.shared.sender.None? && !t.shared.running
    decreases |later|
  {
    hide Next, Run;
    ClearedMeansEmpty(schedule + later);
    if later == [] {
      assert schedule + later == schedule;
    } else {
      var before, event := later[..|later| - 1], later[|later| - 1];
      forall i | 0 <= i < |before| ensures !Raises(Run(Init(), schedule + before[..i]), before[i]) {
        assert before[i] == later[i] && before[..i] == later[..i];
      }
      ClearedUntilRestart(schedule, before);
      assert !Raises(Run(Init(), schedule + later[..|before|]), event);
      RunExtend(Init(), schedule + before, event);
      assert schedule + before + [event] == schedule + later;
      ClearedStays(Run(Init(), schedule + before), event);
    }
  }

  lemma ClearedMeansEmpty(schedule: seq<Event>)
    ensures var s := Run(Init(), schedule); s.shared.cleared ==> s.shared.sender.None? && !s.shared.running
  {
    IsolatedHolds(schedule);
  }

  lemma ClearedStays(s: State, event: Event)
    requires s.shared.cleared && !Raises(s, event)
    ensures Next(s, event).shared.cleared
  {
  }

  /** How far a server thread is from its end once the flag is down. */
  function Rank(pc: Pc): nat {
    match pc
    case Setup => 15 case AddReady => 14 case Accept => 13 case LockState => 12 case CheckActive => 11
    case StoreSender => 10 case AddConnected => 9 case ReadPoll => 9 case ReadHead => 8 case ReadFailed => 8
    case ClearSender => 7 case JoinWriter => 6 case BeforeDisconnected => 5 case AddDisconnected => 4
    case LoopHead => 3 case AcceptFailed => 3 case FinishFlag => 2 case FinishState => 1 case Dead => 0
  }

  lemma ThreadRanks(m: Shared, g: nat, t: Thread, answer: Answer)
    requires !m.running
    ensures var after := ThreadNext(m, g, t, answer); after == Advanced(m, t) || Rank(after.thread.pc) < Rank(t.pc)
  {
  }

  lemma ThreadCanMove(m: Shared, g: nat, t: Thread)
    requires !m.running && t.pc != Dead && (m.stateLock == None || HoldsLock(t))
    ensures var open := if t.pc.ReadPoll? then Answer.Nothing else Done(true);
            ThreadNext(m, g, t, open).thread != t
  {
  }

  /** A join always comes back: with the flag down, every action takes the thread nearer its end; one is always open. */
  lemma JoinReturns(schedule: seq<Event>, g: nat, answer: Answer)
    requires var s := Run(Init(), schedule); s.caller.Join? && Live(s, g)
    ensures var s := Run(Init(), schedule);
            var t := Next(s, ThreadAction(g, answer));
            && t.caller == s.caller
            && (t == s || Rank(t.threads[g].pc) < Rank(s.threads[g].pc))
            && exists a :: Next(s, ThreadAction(g, a)) != s
  {
    IsolatedHolds(schedule);
    hide Run, ThreadNext, Rank;
    var s := Run(Init(), schedule);
    var m, thread := s.shared, s.threads[g];
    ThreadRanks(m, g, thread, answer);
    assert s.threads[g := thread] == s.threads;
    if m.stateLock.Some? {
      assert s.threads[m.stateLock.value].pc != Dead && Expected(s, m.stateLock.value);
    }
    assert Expected(s, g);
    ThreadCanMove(m, g, thread);
    var open := if thread.pc.ReadPoll? then Answer.Nothing else Done(true);
    assert Next(s, ThreadAction(g, open)).threads[g] != thread;
  }

  // ---- The event grammar of one server thread

  datatype Phase = Fresh | Failed | Outside | Inside | Broken

  function Following(phase: Phase, event: Emitted): Phase {
    match phase
    case Fresh => if event.Error? then Failed else if event.Ready? then Outside else Broken
    case Failed => Broken
    case Outside => if event.Error? then Outside else if event.Connected? then Inside else Broken
    case Inside => if event.Error? || event.Data? then Inside else if event.Disconnected? then Outside else Broken
    case Broken => Broken
  }

  /** Reads a thread's events: a lone error, or a ready followed by connected brackets with all data inside them. */
  function Scan(events: seq<Emitted>): Phase {
    if events == [] then Fresh else Following(Scan(events[..|events| - 1]), events[|events| - 1])
  }

  lemma ScanNext(events: seq<Emitted>, event: Emitted)
    ensures Scan(events + [event]) == Following(Scan(events), event)
  {
    assert (events + [event])[..|events|] == events;
  }

  predicate PhaseOk(m: Shared, t: Thread) {
    var phase := Scan(t.events);
    match t.pc
    case Setup => phase.Fresh?
    case AddReady => phase.Fresh?
    case LoopHead => phase.Outside? || (phase.Inside? && !m.running)
    case Accept => phase.Outside?
    case AcceptFailed => phase.Outside?
    case LockState => phase.Outside?
    case CheckActive => phase.Outside?
    case StoreSender => phase.Outside?
    case AddConnected => phase.Outside?
    case FinishFlag => !phase.Broken?
    case FinishState => !phase.Broken?
    case Dead => !phase.Broken?
    case _ => phase.Inside?
  }

  lemma ThreadKeepsPhase(m: Shared, g: nat, t: Thread, answer: Answer)
    requires PhaseOk(m, t)
    ensures var after := ThreadNext(m, g, t, answer); PhaseOk(after.shared, after.thread)
    ensures ThreadNext(m, g, t, answer).shared.running ==> m.running
  {
    hide Scan;
    ScanNext(t.events, Error);
    ScanNext(t.events, Ready);
    ScanNext(t.events, Connected);
    ScanNext(t.events, Disconnected);
    if answer.Frame? {
      ScanNext(t.events, Data(answer.payload));
    }
  }

  lemma {:induction false} PhasesHold(schedule: seq<Event>, g: nat)
    requires g < |Run(Init(), schedule).threads|
    ensures var s := Run(Init(), schedule); PhaseOk(s.shared, s.threads[g])
  {
    if schedule != [] {
      var before, event := schedule[..|schedule| - 1], schedule[|schedule| - 1];
      var s := Run(Init(), before);
      IsolatedHolds(before);
      if g < |s.threads| {
        PhasesHold(before, g);
        assert s.threads[g].pc != Dead ==> Expected(s, g);
        if event.ThreadAction? && event.thread < |s.threads| {
          PhasesHold(before, event.thread);
          ThreadKeepsPhase(s.shared, event.thread, s.threads[event.thread], event.answer);
        }
      }
    }
  }

  /** `events[j]` is inside a bracket that `events[open]` begins and nothing between them ends. */
  predicate InBracket(events: seq<Emitted>, open: nat, j: nat) {
    && open < j <= |events| && events[open].Connected?
    && forall k | open < k < j :: events[k].Data? || events[k].Error?
  }

  lemma {:induction false} ScanPrefix(events: seq<Emitted>, n: nat)
    requires n <= |events| && !Scan(events).Broken?
    ensures !Scan(events[..n]).Broken?
    ensures Scan(events[..n]).Failed? ==> n == |events|
    decreases |events|
  {
    if n < |events| {
      ScanPrefix(events[..|events| - 1], n);
      assert events[..|events| - 1][..n] == events[..n];
    } else {
      assert events[..n] == events;
    }
  }

  /** What the phases mean for the start of the events. */
  lemma {:induction false} ScanStarts(events: seq<Emitted>)
    ensures Scan(events).Fresh? ==> events == []
    ensures Scan(events).Failed? ==> events == [Error]
    ensures Scan(events).Outside? || Scan(events).Inside? ==> events != [] && events[0].Ready?
  {
    if events != [] {
      ScanStarts(events[..|events| - 1]);
    }
  }

  lemma {:induction false} ReadyOnce(events: seq<Emitted>, k: nat)
    requires !Scan(events).Broken? && 0 < k < |events|
    ensures !events[k].Ready?
  {
    ScanPrefix(events, k + 1);
    assert events[..k + 1][..k] == events[..k];
    ScanStarts(events[..k]);
  }

  /** What the inside phase means: where the open bracket began. */
  lemma {:induction false} ScanOpens(events: seq<Emitted>) returns (open: nat)
    requires Scan(events).Inside?
    ensures InBracket(events, open, |events|)
  {
    var before, event := events[..|events| - 1], events[|events| - 1];
    if Scan(before).Outside? {
      open := |before|;
    } else {
      open := ScanOpens(before);
      assert forall k | open < k < |before| :: before[k] == events[k];
    }
  }

  /** In any run, a server thread emits nothing, or a single setup error, or a ready before everything else. */
  lemma SetupErrorOrReadyFirst(schedule: seq<Event>, g: nat)
    requires g < |Run(Init(), schedule).threads|
    ensures var events := Run(Init(), schedule).threads[g].events;
            || events == [] || events == [Error]
            || (events[0].Ready? && forall k | 0 < k < |events| :: !events[k].Ready?)
  {
    PhasesHold(schedule, g);
    var events := Run(Init(), schedule).threads[g].events;
    ScanStarts(events);
    forall k | 0 < k < |events| ensures !events[k].Ready? {
      ReadyOnce(events, k);
    }
  }

  lemma DataIsConnectedFrom(events: seq<Emitted>, i: nat) returns (open: nat)
    requires !Scan(events).Broken? && i < |events| && (events[i].Data? || events[i].Disconnected?)
    ensures InBracket(events, open, i)
  {
    ScanPrefix(events, i + 1);
    assert events[..i + 1][..i] == events[..i];
    open := ScanOpens(events[..i]);
    assert forall k | 0 <= k < i :: events[..i][k] == events[k];
  }

  /** In any run, all data of a server thread lies inside a connected bracket that is still open. */
  lemma DataIsConnected(schedule: seq<Event>, g: nat, i: nat) returns (open: nat)
    requires var s := Run(Init(), schedule); g < |s.threads| && i < |s.threads[g].events|
    requires var event := Run(Init(), schedule).threads[g].events[i]; event.Data? || event.Disconnected?
    ensures InBracket(Run(Init(), schedule).threads[g].events, open, i)
  {
    PhasesHold(schedule, g);
    open := DataIsConnectedFrom(Run(Init(), schedule).threads[g].events, i);
  }

  lemma ConnectedFromOutside(events: seq<Emitted>, k: nat)
    requires !Scan(events).Broken? && k < |events| && events[k].Connected?
    ensures Scan(events[..k]).Outside?
  {
    ScanPrefix(events, k + 1);
    assert events[..k + 1][..k] == events[..k];
  }

  lemma {:induction false} ClosedBetween(events: seq<Emitted>, j: nat, k: nat) returns (closed: nat)
    requires j < k <= |events| && events[j].Connected? && !Scan(events).Broken?
    requires Scan(events[..k]).Outside?
    ensures j < closed < k && events[closed].Disconnected?
    decreases k
  {
    ScanPrefix(events, k);
    assert events[..k][..k - 1] == events[..k - 1];
    if events[k - 1].Disconnected? {
      closed := k - 1;
    } else {
      assert events[k - 1] != Connected && k - 1 != j;
      closed := ClosedBetween(events, j, k - 1);
    }
  }

  /** In any run, two connections of one server thread have a disconnect between them: only the last may stay open. */
  lemma ConnectionsAreBracketed(schedule: seq<Event>, g: nat, j: nat, k: nat) returns (closed: nat)
    requires var s := Run(Init(), schedule);
             && g < |s.threads| && j < k < |s.threads[g].events|
             && s.threads[g].events[j].Connected? && s.threads[g].events[k].Connected?
    ensures j < closed < k && Run(Init(), schedule).threads[g].events[closed].Disconnected?
  {
    PhasesHold(schedule, g);
    var events := Run(Init(), schedule).threads[g].events;
    ConnectedFromOutside(events, k);
    closed := ClosedBetween(events, j, k);
  }

  // ---- What the events carry

  function Payloads(events: seq<Emitted>): seq<Bytes> {
    if events == [] then []
    else
      var last := events[|events| - 1];
      Payloads(events[..|events| - 1]) + if last.Data? then [last.payload] else []
  }

  /** The frames that the reader of thread `g` has handed over, by where the thread stood, and that its sink took. */
  function HandedOver(schedule: seq<Event>, g: nat): seq<Bytes> {
    if schedule == [] then []
    else
      var before, event := schedule[..|schedule| - 1], schedule[|schedule| - 1];
      var s := Run(Init(), before);
      HandedOver(before, g)
        + if event.ThreadAction? && event.thread == g < |s.threads| && s.threads[g].pc.ReadPoll?
             && event.answer.Frame? && event.answer.taken
          then [event.answer.payload] else []
  }

  lemma PayloadsNext(events: seq<Emitted>, event: Emitted)
    ensures Payloads(events + [event]) == Payloads(events) + if event.Data? then [event.payload] else []
  {
    assert (events + [event])[..|events|] == events;
  }

  lemma ThreadAdds(m: Shared, g: nat, t: Thread, answer: Answer)
    ensures Payloads(ThreadNext(m, g, t, answer).thread.events) ==
              Payloads(t.events)
              + if t.pc.ReadPoll? && answer.Frame? && answer.taken then [answer.payload] else []
  {
    hide Payloads;
    PayloadsNext(t.events, Error);
    PayloadsNext(t.events, Ready);
    PayloadsNext(t.events, Connected);
    PayloadsNext(t.events, Disconnected);
    if answer.Frame? {
      PayloadsNext(t.events, Data(answer.payload));
    }
  }

  /** The data events of every thread carry exactly the frames read and taken, unaltered, each once and in order. */
  lemma {:induction false} DataIsWhatWasRead(schedule: seq<Event>, g: nat)
    ensures var s := Run(Init(), schedule);
            HandedOver(schedule, g) == if g < |s.threads| then Payloads(s.threads[g].events) else []
  {
    if schedule != [] {
      var before, event := schedule[..|schedule| - 1], schedule[|schedule| - 1];
      var s := Run(Init(), before);
      DataIsWhatWasRead(before, g);
      hide ThreadNext;
      if event.ThreadAction? && event.thread == g < |s.threads| {
        ThreadAdds(s.shared, g, s.threads[g], event.answer);
      }
    }
  }

  /**
   What the app is shown at each place: READY, CONNECTED and DISCONNECTED, the frames that are read, and the errors: of
   the setup, of a connection that cannot be served, of a failed accept or read while active, and of the writer.
   */
  function Shows(running: bool, pc: Pc, answer: Answer): seq<Emitted> {
    match (pc, answer)
    case (Setup, Failure(true)) => [Error]
    case (AddReady, Done(true)) => [Ready]
    case (Accept, Rejected(true)) => [Error]
    case (AcceptFailed, Done(true)) => if running then [Error] else []
    case (AddConnected, Done(true)) => [Connected]
    case (ReadPoll, Frame(payload, true)) => [Data(payload)]
    case (ReadFailed, Done(true)) => if running then [Error] else []
    case (JoinWriter, Failure(true)) => [Error]
    case (AddDisconnected, Done(true)) => [Disconnected]
    case _ => []
  }

  /** All that thread `g` has shown, by where it stood and what it met there. */
  function Shown(schedule: seq<Event>, g: nat): seq<Emitted> {
    if schedule == [] then []
    else
      var before, event := schedule[..|schedule| - 1], schedule[|schedule| - 1];
      var s := Run(Init(), before);
      Shown(before, g)
        + if event.ThreadAction? && event.thread == g < |s.threads|
          then Shows(s.shared.running, s.threads[g].pc, event.answer) else []
  }

  lemma ThreadShows(m: Shared, g: nat, t: Thread, answer: Answer)
    ensures ThreadNext(m, g, t, answer).thread.events == t.events + Shows(m.running, t.pc, answer)
  {
  }

  lemma NextShows(s: State, event: Event, g: nat)
    ensures g < |s.threads| ==>
              && g < |Next(s, event).threads|
              && Next(s, event).threads[g].events ==
                   s.threads[g].events
                   + (if event.ThreadAction? && event.thread == g
                      then Shows(s.shared.running, s.threads[g].pc, event.answer) else [])
    ensures |s.threads| <= g < |Next(s, event).threads| ==> Next(s, event).threads[g].events == []
  {
    hide ThreadNext, Shows;
    if event.ThreadAction? && event.thread < |s.threads| {
      ThreadShows(s.shared, event.thread, s.threads[event.thread], event.answer);
    }
  }

  /** The app is shown exactly what happened, each thing once and in order. */
  lemma {:induction false} EventsAreWhatHappened(schedule: seq<Event>, g: nat)
    ensures var s := Run(Init(), schedule);
            Shown(schedule, g) == if g < |s.threads| then s.threads[g].events else []
  {
    if schedule != [] {
      var before, event := schedule[..|schedule| - 1], schedule[|schedule| - 1];
      var s := Run(Init(), before);
      EventsAreWhatHappened(before, g);
      NextShows(s, event, g);
      hide Next, Shows;
    }
  }

  // ---- A server that nothing hinders serves

  function Datas(frames: seq<Bytes>): seq<Emitted> {
    if frames == [] then [] else Datas(frames[..|frames| - 1]) + [Data(frames[|frames| - 1])]
  }

  /** What an app sees of connections that bring these frames. */
  function Brackets(connections: seq<seq<Bytes>>): seq<Emitted> {
    if connections == [] then []
    else
      var last := connections[|connections| - 1];
      Brackets(connections[..|connections| - 1]) + ([Connected] + Datas(last) + [Disconnected])
  }

  function WithThread(s: State, g: nat, pc: Pc, events: seq<Emitted>): State
    requires g < |s.threads|
  {
    s.(threads := s.threads[g := Thread(pc, events)])
  }

  /** One more action of thread `g`. */
  lemma Acts(s: State, schedule: seq<Event>, g: nat, answer: Answer) returns (longer: seq<Event>)
    requires g < |Run(s, schedule).threads|
    ensures longer == schedule + [ThreadAction(g, answer)]
    ensures var t := Run(s, schedule);
            var after := ThreadNext(t.shared, g, t.threads[g], answer);
            Run(s, longer) == t.(shared := after.shared, threads := t.threads[g := after.thread])
  {
    longer := schedule + [ThreadAction(g, answer)];
    RunExtend(s, schedule, ThreadAction(g, answer));
  }

  lemma {:induction false} ReadsFrames(s: State, g: nat, frames: seq<Bytes>) returns (schedule: seq<Event>)
    requires g < |s.threads| && s.threads[g].pc.ReadHead? && s.shared.running
    ensures Run(s, schedule) == WithThread(s, g, ReadHead, s.threads[g].events + Datas(frames))
  {
    schedule := [];
    if frames == [] {
      assert s.threads[g].events + [] == s.threads[g].events;
      assert s.threads[g := s.threads[g]] == s.threads;
    } else {
      hide Run;
      schedule := ReadsFrames(s, g, frames[..|frames| - 1]);
      var last := frames[|frames| - 1];
      schedule := Acts(s, schedule, g, Done(true));
      schedule := Acts(s, schedule, g, Frame(last, true));
      assert s.threads[g].events + Datas(frames) == s.threads[g].events + Datas(frames[..|frames| - 1]) + [Data(last)];
    }
  }

  /** From its loop, with the flag up and the state lock free, a thread can serve one connection and come back. */
  lemma ServesOne(s: State, g: nat, frames: seq<Bytes>) returns (schedule: seq<Event>)
    requires g < |s.threads| && s.threads[g].pc.LoopHead? && s.shared.running && s.shared.stateLock.None?
    ensures Run(s, schedule) ==
              WithThread(s, g, LoopHead, s.threads[g].events + ([Connected] + Datas(frames) + [Disconnected]))
                .(shared := s.shared.(sender := None))
  {
    hide Run, Datas;
    schedule := Connects(s, g);
    var open := Run(s, schedule);
    var more := ReadsFrames(open, g, frames);
    RunConcat(s, schedule, more);
    schedule := schedule + more;
    more := Disconnects(Run(s, schedule), g);
    RunConcat(s, schedule, more);
    schedule := schedule + more;
    Regroup(s.threads[g].events, Datas(frames));
  }

  lemma Regroup(events: seq<Emitted>, data: seq<Emitted>)
    ensures events + [Connected] + data + [Disconnected] == events + ([Connected] + data + [Disconnected])
  {
  }

  lemma Disconnects(s: State, g: nat) returns (schedule: seq<Event>)
    requires g < |s.threads| && s.threads[g].pc.ReadHead? && s.shared.running && s.shared.stateLock.None?
    ensures Run(s, schedule) ==
              WithThread(s, g, LoopHead, s.threads[g].events + [Disconnected]).(shared := s.shared.(sender := None))
  {
    schedule := [];
    schedule := Acts(s, schedule, g, Nothing);
    schedule := Acts(s, schedule, g, Nothing);
    hide Run;
    schedule := Acts(s, schedule, g, Done(true));
    schedule := Acts(s, schedule, g, Nothing);
    schedule := Acts(s, schedule, g, Done(true));
  }

  lemma Connects(s: State, g: nat) returns (schedule: seq<Event>)
    requires g < |s.threads| && s.threads[g].pc.LoopHead? && s.shared.running && s.shared.stateLock.None?
    ensures Run(s, schedule) ==
              WithThread(s, g, ReadHead, s.threads[g].events + [Connected]).(shared := s.shared.(sender := Some(g)))
  {
    schedule := [];
    schedule := Acts(s, schedule, g, Nothing);
    schedule := Acts(s, schedule, g, Done(true));
    hide Run;
    schedule := Acts(s, schedule, g, Nothing);
    schedule := Acts(s, schedule, g, Nothing);
    schedule := Acts(s, schedule, g, Nothing);
    schedule := Acts(s, schedule, g, Done(true));
  }

  lemma {:induction false} ServesAll(s: State, g: nat, connections: seq<seq<Bytes>>) returns (schedule: seq<Event>)
    requires g < |s.threads| && s.threads[g].pc.LoopHead? && s.shared.running && s.shared.stateLock.None?
    requires s.shared.sender.None?
    ensures Run(s, schedule) == WithThread(s, g, LoopHead, s.threads[g].events + Brackets(connections))
  {
    var events: seq<Emitted> := s.threads[g].events;
    if connections == [] {
      schedule := [];
      assert events + [] == events && s.threads[g := s.threads[g]] == s.threads;
    } else {
      hide Run, Datas;
      var before, last := connections[..|connections| - 1], connections[|connections| - 1];
      schedule := ServesAll(s, g, before);
      var more := ServesOne(Run(s, schedule), g, last);
      RunConcat(s, schedule, more);
      schedule := schedule + more;
      var bracket := [Connected] + Datas(last) + [Disconnected];
      assert Brackets(connections) == Brackets(before) + bracket;
      Sequences.Assoc(events, Brackets(before), bracket);
      hide Brackets;
    }
  }

  /** The caller's next action. */
  lemma Calls(schedule: seq<Event>, event: Event) returns (longer: seq<Event>)
    ensures longer == schedule + [event] && Run(Init(), longer) == Next(Run(Init(), schedule), event)
  {
    longer := schedule + [event];
    RunExtend(Init(), schedule, event);
  }

  /** A restart with nobody in the way. */
  lemma Restarts() returns (schedule: seq<Event>)
    ensures Run(Init(), schedule) ==
        State(Shared(true, None, None, Some(0), false), Idle, [Thread(LoopHead, [Emitted.Ready])])
  {
    schedule := Calls([], CallRestart);
    schedule := Calls(schedule, CallerAction(true));
    hide Run;
    schedule := Calls(schedule, CallerAction(true));
    schedule := Calls(schedule, CallerAction(true));
    assert Run(Init(), schedule) == State(Shared(false, None, None, None, true), CleanSocket, []);
    schedule := Calls(schedule, CallerAction(true));
    schedule := Calls(schedule, CallerAction(true));
    schedule := Calls(schedule, CallerAction(true));
    schedule := Calls(schedule, CallerAction(true));
    assert Run(Init(), schedule) == State(Shared(true, None, None, Some(0), false), Idle, [Thread(Setup, [])]);
    schedule := Acts(Init(), schedule, 0, Done(true));
    schedule := Acts(Init(), schedule, 0, Done(true));
    assert [] + [Emitted.Ready] == [Emitted.Ready];
  }

  /**
   A restarted server that nothing fails can show the app any connections with any frames: READY, then for each
   connection CONNECTED, its data and DISCONNECTED; and then it is ready for the next.
   */
  lemma CanServe(connections: seq<seq<Bytes>>) returns (schedule: seq<Event>)
    ensures Run(Init(), schedule) ==
              State(Shared(true, None, None, Some(0), false), Idle,
                    [Thread(LoopHead, [Emitted.Ready] + Brackets(connections))])
  {
    schedule := Restarts();
    var s := Run(Init(), schedule);
    var more := ServesAll(s, 0, connections);
    RunConcat(Init(), schedule, more);
    schedule := schedule + more;
    hide Run, Brackets;
  }
}

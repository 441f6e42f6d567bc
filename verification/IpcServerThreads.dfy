/**
 The IPC server in the form the source has: static fields that the callers and the server thread update statement by
 statement, while the others run in between. Each call is shown to be part of a run of the small-step system.
 */
module IpcServerThreads {
  import opened Options
  import opened IpcServer
  import Frames
  import Io = FrameIo
  import Sequences

  /** What the others do before the next statement, and what the environment answers that statement. */
  datatype Pause = Pause(others: seq<Event>, answer: Answer, ok: bool)

  datatype Actor = Caller | ServerThread(g: nat)

  predicate ActsAs(event: Event, actor: Actor) {
    match actor
    case Caller => event.CallStop? || event.CallRestart? || event.CallerAction?
    case ServerThread(g) => event.ThreadAction? && event.thread == g
  }

  predicate Elsewhere(schedule: seq<Pause>, actor: Actor) {
    forall i, k | 0 <= i < |schedule| && 0 <= k < |schedule[i].others| :: !ActsAs(schedule[i].others[k], actor)
  }

  predicate OwnKept(s: State, t: State, actor: Actor) {
    match actor
    case Caller => t.caller == s.caller
    case ServerThread(g) => g < |s.threads| ==> g < |t.threads| && t.threads[g] == s.threads[g]
  }

  lemma OthersKeepOwn(s: State, event: Event, actor: Actor)
    requires !ActsAs(event, actor)
    ensures OwnKept(s, Next(s, event), actor)
  {
    hide ThreadNext;
  }

  lemma OwnKeptOn(s: State, t: State, u: State, actor: Actor)
    requires OwnKept(s, t, actor) && OwnKept(t, u, actor)
    ensures OwnKept(s, u, actor)
  {
  }

  lemma {:induction false} OthersRun(s: State, others: seq<Event>, actor: Actor)
    requires forall k | 0 <= k < |others| :: !ActsAs(others[k], actor)
    ensures OwnKept(s, Run(s, others), actor)
  {
    if others != [] {
      hide Next, OwnKept;
      var before, event := others[..|others| - 1], others[|others| - 1];
      OthersRun(s, before, actor);
      OthersKeepOwn(Run(s, before), event, actor);
      OwnKeptOn(s, Run(s, before), Run(s, others), actor);
    }
  }

  /** The answers a server thread can act upon. */
  predicate Answers(pc: Pc, answer: Answer) {
    match pc
    case Setup => answer.Done? || answer.Failure?
    case Accept => !answer.Frame?
    case ReadPoll => !answer.Done?
    case JoinWriter => answer.Done? || answer.Failure?
    case _ => answer.Done?
  }

  /** A reset or a broken pipe, which the error's code tells, is expected at the end of a connection. */
  predicate IsExpectedDisconnect(error: Io.Error, reset: bool) {
    match error
    case UnexpectedEof => true
    case Broken(_) => reset
    case _ => false
  }

  function Joined(parts: seq<seq<Frames.Bytes>>): seq<Frames.Bytes> {
    if parts == [] then [] else Joined(parts[..|parts| - 1]) + parts[|parts| - 1]
  }

  /** What connection `k` brings; there is none left once the scripts are used up. */
  function StreamAt(scripts: seq<seq<Io.ReadStep>>, k: nat): Frames.Bytes {
    Io.StreamOf(if k < |scripts| then scripts[k] else [])
  }

  /** Per connection, the data shown to the app are the first frames of its stream. */
  ghost predicate FromStreams(parts: seq<seq<Frames.Bytes>>, scripts: seq<seq<Io.ReadStep>>) {
    forall k | 0 <= k < |parts| :: Begins(parts[k], StreamAt(scripts, k))
  }

  /** These are the first frames of the stream. */
  predicate Begins(frames: seq<Frames.Bytes>, stream: Frames.Bytes) {
    frames <= Frames.Parse(stream).frames
  }

  lemma NoPartsYet(scripts: seq<seq<Io.ReadStep>>)
    ensures Joined([]) == [] && FromStreams([], scripts)
  {
  }

  lemma OnePartMore(parts: seq<seq<Frames.Bytes>>, part: seq<Frames.Bytes>, scripts: seq<seq<Io.ReadStep>>)
    requires FromStreams(parts, scripts) && Begins(part, StreamAt(scripts, |parts|))
    ensures FromStreams(parts + [part], scripts)
  {
    hide StreamAt, Begins;
    var longer := parts + [part];
    forall k | 0 <= k < |longer| ensures Begins(longer[k], StreamAt(scripts, k)) {
      if k < |parts| {
        assert longer[k] == parts[k];
      } else {
        assert longer[k] == part;
      }
    }
  }

  lemma JoinedNext(parts: seq<seq<Frames.Bytes>>, part: seq<Frames.Bytes>)
    ensures Joined(parts + [part]) == Joined(parts) + part
  {
    assert (parts + [part])[..|parts|] == parts;
  }

  /** The events without which the thread ends, and where it stands afterwards. */
  predicate Adds(pc: Pc, event: Emitted, next: Pc) {
    || (pc.AddReady? && event == IpcServer.Ready && next == LoopHead)
    || (pc.AddConnected? && event == Connected && next == ReadHead)
    || (pc.AddDisconnected? && event == Disconnected && next == LoopHead)
  }

  class Server {
    var running: bool
    var stateLock: Option<nat>
    var sender: Option<nat>
    var handle: Option<nat>
    /** Only a record: a stop has cleared the sender and no restart has raised the flag since. */
    var cleared: bool
    /** The caller inside the lifecycle lock and the server threads; their entries record how far they have come. */
    var caller: IpcServer.Caller
    var threads: seq<Thread>
    var schedule: seq<Pause>
    /** Everything that has happened so far. */
    ghost var trace: seq<Event>

    ghost function Fields(): Shared
      reads this
    {
      Shared(running, stateLock, sender, handle, cleared)
    }

    ghost function Value(): State
      reads this
    {
      State(Fields(), caller, threads)
    }

    ghost predicate Valid()
      reads this
    {
      Value() == Run(Init(), trace)
    }

    /** The actor is about to go on, and what runs in between is the work of others. */
    ghost predicate Ready(actor: Actor)
      reads this
    {
      Valid() && Elsewhere(schedule, actor)
    }

    predicate At(g: nat, pc: Pc)
      reads this
    {
      g < |threads| && threads[g].pc == pc
    }

    /** The data that thread `g` has shown to the app. */
    ghost function DataOf(g: nat): seq<Frames.Bytes>
      reads this`threads
    {
      if g < |threads| then Payloads(threads[g].events) else []
    }

    constructor (schedule: seq<Pause>)
      ensures Valid() && Value() == Init() && trace == [] && this.schedule == schedule
    {
      running, stateLock, sender, handle, cleared := false, None, None, None, true;
      caller, threads := Idle, [];
      this.schedule, trace := schedule, [];
    }

    /** The others change the fields as their actions do. */
    method Interfere(others: seq<Event>)
      modifies this`running, this`stateLock, this`sender, this`handle, this`cleared, this`caller, this`threads
      ensures Value() == Run(old(Value()), others)
    {
      hide Run;
      var s := Run(State(Shared(running, stateLock, sender, handle, cleared), caller, threads), others);
      running, stateLock, sender, handle := s.shared.running, s.shared.stateLock, s.shared.sender, s.shared.handle;
      cleared, caller, threads := s.shared.cleared, s.caller, s.threads;
    }

    /** The others run, and the environment answers; `alive` is false once nothing more will happen elsewhere. */
    method Yield(actor: Actor) returns (answer: Answer, ok: bool, alive: bool)
      requires Ready(actor)
      modifies this
      ensures Ready(actor) && old(trace) <= trace && OwnKept(old(Value()), Value(), actor)
      ensures alive ==> |schedule| < |old(schedule)|
      ensures !alive ==> schedule == []
    {
      answer, ok, alive := Nothing, false, schedule != [];
      OwnKeptNow(Value(), actor);
      if alive {
        var pause := schedule[0];
        assert Elsewhere(schedule[1..], actor) && forall k | 0 <= k < |pause.others| :: !ActsAs(pause.others[k], actor);
        ghost var start := Value();
        hide *;
        OthersRun(start, pause.others, actor);
        RunConcat(Init(), trace, pause.others);
        answer, ok, schedule := pause.answer, pause.ok, schedule[1..];
        Interfere(pause.others);
        trace := trace + pause.others;
        assert Value() == Run(start, pause.others) && Elsewhere(schedule, actor);
      }
    }

    /** Others run until the environment answers what server thread `g` waits for. */
    method Await(g: nat) returns (answer: Answer, alive: bool)
      requires Ready(ServerThread(g)) && g < |threads|
      modifies this
      ensures Ready(ServerThread(g)) && old(trace) <= trace && g < |threads| && threads[g] == old(threads[g])
      ensures |schedule| <= |old(schedule)|
      ensures alive ==> Answers(threads[g].pc, answer) && |schedule| < |old(schedule)|
    {
      hide Run, Elsewhere;
      var ok;
      answer, ok, alive := Yield(ServerThread(g));
      while alive && !Answers(threads[g].pc, answer)
        invariant Ready(ServerThread(g)) && old(trace) <= trace && g < |threads| && threads[g] == old(threads[g])
        invariant |schedule| <= |old(schedule)| && (alive ==> |schedule| < |old(schedule)|)
        decreases |schedule| + if alive then 1 else 0
      {
        answer, ok, alive := Yield(ServerThread(g));
      }
    }

    /** Others run until the state lock is free, or until nothing more happens elsewhere. */
    method AwaitState(actor: Actor) returns (free: bool)
      requires Ready(actor)
      modifies this
      ensures Ready(actor) && old(trace) <= trace && OwnKept(old(Value()), Value(), actor)
      ensures free <==> stateLock.None?
      ensures |schedule| <= |old(schedule)|
    {
      hide Run, Elsewhere, OwnKept;
      ghost var start := Value();
      var answer, ok, alive := Yield(actor);
      while alive && stateLock.Some?
        invariant Ready(actor) && old(trace) <= trace && OwnKept(start, Value(), actor)
        invariant |schedule| <= |old(schedule)|
        decreases |schedule| + if alive then 1 else 0
      {
        ghost var here := Value();
        answer, ok, alive := Yield(actor);
        OwnKeptOn(start, here, Value(), actor);
      }
      free := stateLock.None?;
    }

    /** The statement that has just been executed was the next action of thread `g`; `was` are the fields before it. */
    method Mark(g: nat, thread: Thread, ghost answer: Answer, ghost was: Shared)
      requires g < |threads| && State(was, caller, threads) == Run(Init(), trace)
      requires ThreadNext(was, g, threads[g], answer) == Advanced(Fields(), thread)
      modifies this`threads, this`trace
      ensures Valid() && threads == old(threads)[g := thread] && trace == old(trace) + [ThreadAction(g, answer)]
      ensures DataOf(g) == old(DataOf(g))
                           + if old(threads[g]).pc.ReadPoll? && answer.Frame? && answer.taken
                             then [answer.payload] else []
    {
      RunConcat(Init(), trace, [ThreadAction(g, answer)]);
      OneEvent(Run(Init(), trace), ThreadAction(g, answer));
      ThreadAdds(was, g, threads[g], answer);
      threads := threads[g := thread];
      trace := trace + [ThreadAction(g, answer)];
    }

    method MarkCaller(next: IpcServer.Caller, ghost ok: bool, ghost was: State)
      requires was == Run(Init(), trace)
      requires CallerNext(was, ok) == State(Fields(), next, threads)
      modifies this`caller, this`trace
      ensures Valid() && caller == next && trace == old(trace) + [CallerAction(ok)]
    {
      RunConcat(Init(), trace, [CallerAction(ok)]);
      OneEvent(Run(Init(), trace), CallerAction(ok));
      caller := next;
      trace := trace + [CallerAction(ok)];
    }

    // ---- The callers

    /** `stop_server_thread`: returns once the thread has been joined, if it ever ends. */
    method StopServerThread(restart: bool) returns (joined: bool)
      requires Ready(Caller) && caller == LowerFlag(restart)
      modifies this
      ensures Ready(Caller) && old(trace) <= trace
      ensures joined ==> caller == if restart then CleanSocket else Idle
    {
      var _, _, _ := Yield(Caller);
      ghost var was := Value();
      running := false;
      MarkCaller(ClearState(restart), true, was);
      var old_handle;
      joined, old_handle := TakeHandle(restart);
      if joined {
        joined := JoinThread(restart, old_handle);
      }
    }

    /** Under the state lock the sender is cleared and the handle taken. */
    method TakeHandle(restart: bool) returns (locked: bool, taken: Option<nat>)
      requires Ready(Caller) && caller == ClearState(restart)
      modifies this
      ensures Ready(Caller) && old(trace) <= trace
      ensures locked ==> caller == Join(restart, taken) && sender.None? && handle.None?
    {
      locked := AwaitState(Caller);
      taken := handle;
      if locked {
        ghost var was := Value();
        sender, handle, cleared := None, None, true;
        MarkCaller(Join(restart, taken), true, was);
      }
    }

    method JoinThread(restart: bool, taken: Option<nat>) returns (joined: bool)
      requires Ready(Caller) && caller == Join(restart, taken)
      modifies this
      ensures Ready(Caller) && old(trace) <= trace
      ensures joined ==> caller == if restart then CleanSocket else Idle
    {
      joined := AwaitEnd(taken);
      if joined {
        ghost var was := Value();
        MarkCaller(if restart then CleanSocket else Idle, true, was);
      }
    }

    method AwaitEnd(taken: Option<nat>) returns (ended: bool)
      requires Ready(Caller)
      modifies this
      ensures Ready(Caller) && old(trace) <= trace && caller == old(caller)
      ensures ended <==> !(taken.Some? && taken.value < |threads| && threads[taken.value].pc != Dead)
    {
      hide Run, Elsewhere;
      var answer, ok, alive := Yield(Caller);
      while alive && taken.Some? && taken.value < |threads| && threads[taken.value].pc != Dead
        invariant Ready(Caller) && old(trace) <= trace && caller == old(caller)
        decreases |schedule| + if alive then 1 else 0
      {
        answer, ok, alive := Yield(Caller);
      }
      ended := !(taken.Some? && taken.value < |threads| && threads[taken.value].pc != Dead);
    }

    /** `stop_server`, once it has the lifecycle lock. */
    method StopServer() returns (done: bool)
      requires Ready(Caller) && caller.Idle?
      modifies this
      ensures Ready(Caller) && old(trace) <= trace
      ensures done ==> caller.Idle?
    {
      RunConcat(Init(), trace, [CallStop]);
      OneEvent(Run(Init(), trace), CallStop);
      caller, trace := LowerFlag(false), trace + [CallStop];
      done := StopServerThread(false);
    }

    /** `restart_server`, once it has the lifecycle lock: `Some(g)` names the thread that it has started. */
    method RestartServer() returns (done: bool, started: Option<nat>)
      requires Ready(Caller) && caller.Idle?
      modifies this
      ensures Ready(Caller) && old(trace) <= trace
      ensures done ==> caller.Idle?
      ensures done && started.Some? ==> handle == started
    {
      started := None;
      RunConcat(Init(), trace, [CallRestart]);
      OneEvent(Run(Init(), trace), CallRestart);
      caller, trace := LowerFlag(true), trace + [CallRestart];
      done := StopServerThread(true);
      if !done {
        return;
      }
      var clean := CleanupSocket();
      if !clean {
        return;
      }
      started := SpawnThread();
      if started.Some? {
        done := StoreThread(started.value);
      }
    }

    method CleanupSocket() returns (clean: bool)
      requires Ready(Caller) && caller.CleanSocket?
      modifies this
      ensures Ready(Caller) && old(trace) <= trace && caller == if clean then RaiseFlag else Idle
    {
      var _, ok, _ := Yield(Caller);
      clean := ok;
      MarkCaller(if clean then RaiseFlag else Idle, clean, Value());
    }

    /** The flag is raised before the thread is spawned, and lowered again if that fails. */
    method SpawnThread() returns (started: Option<nat>)
      requires Ready(Caller) && caller.RaiseFlag?
      modifies this
      ensures Ready(Caller) && old(trace) <= trace
      ensures caller == match started case None => Idle case Some(g) => IpcServer.StoreHandle(g)
    {
      var _, _, _ := Yield(Caller);
      ghost var was := Value();
      running, cleared := true, false;
      MarkCaller(Spawn, true, was);
      var _, ok, _ := Yield(Caller);
      was := Value();
      if !ok {
        running := false;
        MarkCaller(Idle, false, was);
        return None;
      }
      started := Some(|threads|);
      threads := threads + [Thread(Setup, [])];
      MarkCaller(IpcServer.StoreHandle(started.value), true, was);
    }

    method StoreThread(g: nat) returns (stored: bool)
      requires Ready(Caller) && caller == IpcServer.StoreHandle(g)
      modifies this
      ensures Ready(Caller) && old(trace) <= trace
      ensures stored ==> caller.Idle? && handle == Some(g)
    {
      stored := AwaitState(Caller);
      if stored {
        ghost var was := Value();
        handle := Some(g);
        MarkCaller(Idle, true, was);
      }
    }

    // ---- `io_loop`

    /** The name, the listener and its permissions: any failure is reported, and the thread ends without READY. */
    method SetUp(g: nat) returns (alive: bool, listening: bool)
      requires Ready(ServerThread(g)) && At(g, Setup)
      modifies this
      ensures Ready(ServerThread(g)) && old(trace) <= trace && |schedule| <= |old(schedule)|
      ensures DataOf(g) == old(DataOf(g))
      ensures alive ==> At(g, if listening then AddReady else FinishFlag)
    {
      var answer;
      answer, alive := Await(g);
      listening := answer.Done?;
      if alive {
        ghost var was := Fields();
        var next := if listening then threads[g].(pc := AddReady)
            else Emit(threads[g], Error, answer.taken, FinishFlag);
        Mark(g, next, answer, was);
      }
    }

    /** `sink.add` of an event that the thread cannot go on without. */
    method Add(g: nat, event: Emitted, next: Pc) returns (alive: bool, taken: bool)
      requires Ready(ServerThread(g)) && g < |threads| && Adds(threads[g].pc, event, next)
      modifies this
      ensures Ready(ServerThread(g)) && old(trace) <= trace && |schedule| <= |old(schedule)|
      ensures DataOf(g) == old(DataOf(g))
      ensures alive ==> At(g, if taken then next else FinishFlag) && |schedule| < |old(schedule)|
      ensures alive ==> threads[g].events == old(threads[g]).events + if taken then [event] else []
    {
      var answer;
      answer, alive := Await(g);
      taken := alive && answer.taken;
      if alive {
        ghost var was := Fields();
        Mark(g, Emit(threads[g], event, taken, if taken then next else FinishFlag), answer, was);
      }
    }

    /** `while server_active()` around the accept. */
    method CheckActive(g: nat) returns (active: bool)
      requires Ready(ServerThread(g)) && At(g, LoopHead)
      modifies this
      ensures Ready(ServerThread(g)) && old(trace) <= trace && |schedule| <= |old(schedule)|
      ensures DataOf(g) == old(DataOf(g))
      ensures At(g, if active then Accept else FinishFlag)
    {
      var _, _, _ := Yield(ServerThread(g));
      active := running;
      Mark(g, threads[g].(pc := if active then Accept else FinishFlag), Nothing, Fields());
    }

    /** One accept: a connection, another round of the loop, or a failure that ends the thread. */
    method AcceptOne(g: nat) returns (alive: bool, accepted: bool, failed: bool)
      requires Ready(ServerThread(g)) && At(g, Accept)
      modifies this
      ensures Ready(ServerThread(g)) && old(trace) <= trace && |schedule| <= |old(schedule)|
      ensures DataOf(g) == old(DataOf(g))
      ensures alive ==> |schedule| < |old(schedule)| && !(accepted && failed)
      ensures alive ==> At(g, if accepted then LockState else if failed then FinishFlag else LoopHead)
    {
      var answer;
      answer, alive := Await(g);
      accepted, failed := answer.Done?, answer.Failure?;
      if !alive {
        return;
      }
      ghost var was := Fields();
      var next :=
        if answer.Rejected? then Emit(threads[g], Error, answer.reported, LoopHead)
        else threads[g].(pc := if accepted then LockState else if failed then AcceptFailed else LoopHead);
      Mark(g, next, answer, was);
      if failed {
        ReportWhileActive(g, FinishFlag);
      }
    }

    /** An error is reported only while the server is active. */
    method ReportWhileActive(g: nat, next: Pc)
      requires Ready(ServerThread(g))
      requires (At(g, AcceptFailed) && next == FinishFlag) || (At(g, ReadFailed) && next == IpcServer.Pc.ClearSender)
      modifies this
      ensures Ready(ServerThread(g)) && old(trace) <= trace && |schedule| <= |old(schedule)| && At(g, next)
      ensures DataOf(g) == old(DataOf(g))
    {
      var answer, _, _ := Yield(ServerThread(g));
      var reported := running && answer.Done? && answer.taken;
      Mark(g, Emit(threads[g], Error, reported, next), answer, Fields());
    }

    /** Under the state lock the sender of the connection is published, unless the server has been stopped. */
    method PublishSender(g: nat) returns (alive: bool, published: bool)
      requires Ready(ServerThread(g)) && At(g, LockState)
      modifies this
      ensures Ready(ServerThread(g)) && old(trace) <= trace && |schedule| <= |old(schedule)|
      ensures DataOf(g) == old(DataOf(g))
      ensures alive ==> At(g, if published then AddConnected else FinishFlag)
    {
      published := false;
      alive := AwaitState(ServerThread(g));
      if !alive {
        return;
      }
      ghost var was := Fields();
      stateLock := Some(g);
      Mark(g, threads[g].(pc := IpcServer.Pc.CheckActive), Nothing, was);
      published := StillActive(g);
      if published {
        StoreSender(g);
      }
    }

    method StillActive(g: nat) returns (active: bool)
      requires Ready(ServerThread(g)) && At(g, IpcServer.Pc.CheckActive)
      modifies this
      ensures Ready(ServerThread(g)) && old(trace) <= trace && |schedule| <= |old(schedule)|
      ensures DataOf(g) == old(DataOf(g))
      ensures At(g, if active then IpcServer.Pc.StoreSender else FinishFlag)
    {
      var _, _, _ := Yield(ServerThread(g));
      ghost var was := Fields();
      active := running;
      if !active {
        stateLock := None;
      }
      Mark(g, threads[g].(pc := if active then IpcServer.Pc.StoreSender else FinishFlag), Nothing, was);
    }

    method StoreSender(g: nat)
      requires Ready(ServerThread(g)) && At(g, IpcServer.Pc.StoreSender)
      modifies this
      ensures Ready(ServerThread(g)) && old(trace) <= trace && |schedule| <= |old(schedule)| && At(g, AddConnected)
      ensures DataOf(g) == old(DataOf(g))
    {
      var _, _, _ := Yield(ServerThread(g));
      ghost var was := Fields();
      sender, stateLock := Some(g), None;
      Mark(g, threads[g].(pc := AddConnected), Nothing, was);
    }

    /**
     The read loop of a connection, until it stops, fails, or the sink is gone. The data it shows are the first frames
     of the connection's stream, and all of them if it goes on to the stream's end.
     */
    method ReadConnection(g: nat, source: Io.ByteSource)
        returns (alive: bool, ended: bool, ghost frames: seq<Frames.Bytes>)
      requires Ready(ServerThread(g)) && At(g, ReadHead)
      modifies this, source
      ensures Ready(ServerThread(g)) && old(trace) <= trace && |schedule| <= |old(schedule)|
      ensures alive ==> At(g, IpcServer.Pc.ClearSender)
      ensures DataOf(g) == old(DataOf(g)) + frames && frames <= Frames.Parse(old(Io.StreamOf(source.script))).frames
      ensures ended ==> frames == Frames.Parse(old(Io.StreamOf(source.script))).frames
    {
      hide Run, Elsewhere, ThreadNext, Payloads, Io.StreamOf, Frames.Parse;
      var reader := new Io.FrameReader();
      ghost var stream, before := Io.StreamOf(source.script), DataOf(g);
      Sequences.NoneLeft(stream);
      Sequences.NoneLeft(before);
      alive, ended := true, false;
      frames := [];
      Io.AttachedYields(reader, source, stream);
      hide Io.Attached, DataOf;
      var open := CheckConnection(g);
      while alive && open
        invariant Ready(ServerThread(g)) && old(trace) <= trace && |schedule| <= |old(schedule)|
        invariant alive ==> At(g, if open then ReadPoll else IpcServer.Pc.ClearSender)
        invariant fresh(reader) && fresh(reader.header) && fresh(reader.payload)
        invariant alive && open ==> Io.Attached(reader, source, stream) && frames == reader.yielded && !ended
        invariant DataOf(g) == before + frames && frames <= Frames.Parse(stream).frames
        invariant ended ==> frames == Frames.Parse(stream).frames
        decreases |schedule| + if alive && open then 1 else 0
      {
        ghost var more;
        alive, open, ended, more := ReadRound(g, reader, source, stream);
        Sequences.Assoc(before, frames, more);
        frames := frames + more;
      }
    }

    /** `connection_running && server_active()`; the answer tells whether the writer still runs. */
    method CheckConnection(g: nat) returns (open: bool)
      requires Ready(ServerThread(g)) && At(g, ReadHead)
      modifies this
      ensures Ready(ServerThread(g)) && old(trace) <= trace && |schedule| <= |old(schedule)|
      ensures DataOf(g) == old(DataOf(g))
      ensures At(g, if open then ReadPoll else IpcServer.Pc.ClearSender)
    {
      var answer, _, _ := Yield(ServerThread(g));
      open := running && answer.Done?;
      Mark(g, threads[g].(pc := if open then ReadPoll else IpcServer.Pc.ClearSender), answer, Fields());
    }

    /** One round of the read loop: a poll, and whether to go on. */
    method ReadRound(g: nat, reader: Io.FrameReader, source: Io.ByteSource, ghost stream: Frames.Bytes)
        returns (alive: bool, open: bool, ended: bool, ghost shown: seq<Frames.Bytes>)
      requires Ready(ServerThread(g)) && At(g, ReadPoll) && Io.Attached(reader, source, stream)
      modifies this, reader, reader.header, reader.payload, source
      ensures Ready(ServerThread(g)) && old(trace) <= trace && |schedule| <= |old(schedule)|
      ensures alive ==> |schedule| < |old(schedule)| && At(g, if open then ReadPoll else IpcServer.Pc.ClearSender)
      ensures reader.header == old(reader.header) && (reader.payload == old(reader.payload) || fresh(reader.payload))
      ensures DataOf(g) == old(DataOf(g)) + shown && old(reader.yielded) + shown <= Frames.Parse(stream).frames
      ensures alive && open ==>
                Io.Attached(reader, source, stream) && reader.yielded == old(reader.yielded) + shown && !ended
      ensures ended ==> old(reader.yielded) + shown == Frames.Parse(stream).frames
    {
      hide Run, Elsewhere, ThreadNext, Payloads, Io.StreamOf, Frames.Parse, Io.Attached, DataOf;
      alive, open, ended, shown := ReadOne(g, reader, source, stream);
      if alive && open {
        open := CheckConnection(g);
      }
    }

    /** One poll of the connection's reader: a frame goes to the sink as it is, and an error ends the loop. */
    method ReadOne(g: nat, reader: Io.FrameReader, source: Io.ByteSource, ghost stream: Frames.Bytes)
        returns (alive: bool, open: bool, ended: bool, ghost shown: seq<Frames.Bytes>)
      requires Ready(ServerThread(g)) && At(g, ReadPoll) && Io.Attached(reader, source, stream)
      modifies this, reader, reader.header, reader.payload, source
      ensures Ready(ServerThread(g)) && old(trace) <= trace && |schedule| <= |old(schedule)|
      ensures alive ==> |schedule| < |old(schedule)| && At(g, if open then ReadHead else IpcServer.Pc.ClearSender)
      ensures reader.header == old(reader.header) && (reader.payload == old(reader.payload) || fresh(reader.payload))
      ensures DataOf(g) == old(DataOf(g)) + shown && old(reader.yielded) + shown <= Frames.Parse(stream).frames
      ensures alive && open ==>
                Io.Attached(reader, source, stream) && reader.yielded == old(reader.yielded) + shown && !ended
      ensures ended ==> old(reader.yielded) + shown == Frames.Parse(stream).frames
    {
      hide Run, Elsewhere, ThreadNext, Payloads, Io.StreamOf, Frames.Parse;
      shown, open, ended := [], false, false;
      Sequences.NoneLeft(old(DataOf(g)));
      Sequences.NoneLeft(reader.yielded);
      Io.AttachedYields(reader, source, stream);
      hide Io.Attached, DataOf;
      var _, ok, still := Yield(ServerThread(g));
      alive := still;
      if !alive {
        return;
      }
      var result := Io.PollAttached(reader, source, stream);
      if result.Frame? {
        Io.AttachedYields(reader, source, stream);
        open := ok;
        shown := ShowFrame(g, result.data, ok);
      } else if result.Pending? {
        open := true;
        Wait(g);
      } else {
        ended := true;
        EndReading(g, IsExpectedDisconnect(result.error, ok));
      }
    }

    /** `sink.add` of a DATA event; a sink that does not take it ends the read loop. */
    method ShowFrame(g: nat, data: Frames.Message, taken: bool) returns (ghost shown: seq<Frames.Bytes>)
      requires Ready(ServerThread(g)) && At(g, ReadPoll)
      modifies this`threads, this`trace
      ensures Ready(ServerThread(g)) && old(trace) <= trace
          && At(g, if taken then ReadHead else IpcServer.Pc.ClearSender)
      ensures shown == (if taken then [data] else []) && DataOf(g) == old(DataOf(g)) + shown
    {
      shown := if taken then [data] else [];
      ghost var was := Fields();
      Mark(g, Emit(threads[g], Data(data), taken, if taken then ReadHead else IpcServer.Pc.ClearSender),
           Frame(data, taken), was);
    }

    method Wait(g: nat)
      requires Ready(ServerThread(g)) && At(g, ReadPoll)
      modifies this`threads, this`trace
      ensures Ready(ServerThread(g)) && old(trace) <= trace && At(g, ReadHead) && DataOf(g) == old(DataOf(g))
    {
      ghost var was := Fields();
      Mark(g, threads[g].(pc := ReadHead), Nothing, was);
    }

    method EndReading(g: nat, expected: bool)
      requires Ready(ServerThread(g)) && At(g, ReadPoll)
      modifies this
      ensures Ready(ServerThread(g)) && old(trace) <= trace && |schedule| <= |old(schedule)|
      ensures At(g, IpcServer.Pc.ClearSender) && DataOf(g) == old(DataOf(g))
    {
      ghost var was := Fields();
      if expected {
        Mark(g, threads[g].(pc := IpcServer.Pc.ClearSender), Rejected(false), was);
      } else {
        Mark(g, threads[g].(pc := ReadFailed), Failure(false), was);
        ReportWhileActive(g, IpcServer.Pc.ClearSender);
      }
    }

    /** The end of a connection: its sender is cleared, its writer joined, and DISCONNECTED emitted if all goes on. */
    method CloseConnection(g: nat) returns (alive: bool, goOn: bool)
      requires Ready(ServerThread(g)) && At(g, IpcServer.Pc.ClearSender)
      modifies this
      ensures Ready(ServerThread(g)) && old(trace) <= trace && |schedule| <= |old(schedule)|
      ensures DataOf(g) == old(DataOf(g))
      ensures alive ==> At(g, if goOn then LoopHead else FinishFlag)
    {
      goOn := false;
      alive := ClearSender(g);
      if alive {
        alive := JoinWriter(g);
      }
      if alive {
        var active := StillServing(g);
        if active {
          alive, goOn := Add(g, Disconnected, LoopHead);
        } else {
          goOn := true;
        }
      }
    }

    method ClearSender(g: nat) returns (alive: bool)
      requires Ready(ServerThread(g)) && At(g, IpcServer.Pc.ClearSender)
      modifies this
      ensures Ready(ServerThread(g)) && old(trace) <= trace && |schedule| <= |old(schedule)|
      ensures DataOf(g) == old(DataOf(g))
      ensures alive ==> At(g, IpcServer.Pc.JoinWriter)
    {
      alive := AwaitState(ServerThread(g));
      if alive {
        ghost var was := Fields();
        sender := None;
        Mark(g, threads[g].(pc := IpcServer.Pc.JoinWriter), Nothing, was);
      }
    }

    /** The writer's own error, if it has one, is reported. */
    method JoinWriter(g: nat) returns (alive: bool)
      requires Ready(ServerThread(g)) && At(g, IpcServer.Pc.JoinWriter)
      modifies this
      ensures Ready(ServerThread(g)) && old(trace) <= trace && |schedule| <= |old(schedule)|
      ensures DataOf(g) == old(DataOf(g))
      ensures alive ==> At(g, BeforeDisconnected)
    {
      var answer;
      answer, alive := Await(g);
      if alive {
        var t := threads[g];
        var next := if answer.Failure? then Emit(t, Error, answer.taken, BeforeDisconnected)
            else t.(pc := BeforeDisconnected);
        Mark(g, next, answer, Fields());
      }
    }

    method StillServing(g: nat) returns (active: bool)
      requires Ready(ServerThread(g)) && At(g, BeforeDisconnected)
      modifies this
      ensures Ready(ServerThread(g)) && old(trace) <= trace && |schedule| <= |old(schedule)|
      ensures DataOf(g) == old(DataOf(g))
      ensures At(g, if active then AddDisconnected else LoopHead)
    {
      var _, _, _ := Yield(ServerThread(g));
      active := running;
      Mark(g, threads[g].(pc := if active then AddDisconnected else LoopHead), Nothing, Fields());
    }

    /** `finish_server`: the flag is lowered and the sender cleared. */
    method FinishServer(g: nat) returns (alive: bool)
      requires Ready(ServerThread(g)) && At(g, FinishFlag)
      modifies this
      ensures Ready(ServerThread(g)) && old(trace) <= trace
      ensures DataOf(g) == old(DataOf(g))
      ensures alive ==> At(g, Dead)
    {
      var _, _, _ := Yield(ServerThread(g));
      ghost var was := Fields();
      running := false;
      Mark(g, threads[g].(pc := Pc.FinishState), Nothing, was);
      alive := FinishState(g);
    }

    method FinishState(g: nat) returns (alive: bool)
      requires Ready(ServerThread(g)) && At(g, Pc.FinishState)
      modifies this
      ensures Ready(ServerThread(g)) && old(trace) <= trace
      ensures DataOf(g) == old(DataOf(g))
      ensures alive ==> At(g, Dead)
    {
      alive := AwaitState(ServerThread(g));
      if alive {
        ghost var was := Fields();
        sender := None;
        Mark(g, threads[g].(pc := Dead), Nothing, was);
      }
    }

    /** One connection of the accept loop, from its acceptance on: it shows the first frames of its stream. */
    method ServeConnection(g: nat, source: Io.ByteSource)
        returns (alive: bool, goOn: bool, ghost frames: seq<Frames.Bytes>)
      requires Ready(ServerThread(g)) && At(g, LockState)
      modifies this, source
      ensures Ready(ServerThread(g)) && old(trace) <= trace && |schedule| <= |old(schedule)|
      ensures alive ==> At(g, if goOn then LoopHead else FinishFlag)
      ensures DataOf(g) == old(DataOf(g)) + frames && frames <= Frames.Parse(old(Io.StreamOf(source.script))).frames
    {
      hide Run, Elsewhere, ThreadNext, Payloads, Frames.Parse, Io.StreamOf;
      frames := [];
      Sequences.NoneLeft(DataOf(g));
      alive, goOn := PublishSender(g);
      if alive && goOn {
        alive, goOn := Add(g, Connected, ReadHead);
        if alive && goOn {
          var ended;
          alive, ended, frames := ReadConnection(g, source);
          if alive {
            alive, goOn := CloseConnection(g);
          }
        }
      }
    }

    /** The accept loop of `io_loop`; the connections come with the streams of `scripts`, one after the other. */
    method AcceptLoop(g: nat, scripts: seq<seq<Io.ReadStep>>) returns (alive: bool, ghost parts: seq<seq<Frames.Bytes>>)
      requires Ready(ServerThread(g)) && At(g, LoopHead)
      modifies this
      ensures Ready(ServerThread(g)) && old(trace) <= trace
      ensures alive ==> At(g, FinishFlag)
      ensures DataOf(g) == old(DataOf(g)) + Joined(parts) && FromStreams(parts, scripts)
    {
      hide Run, Elsewhere, ThreadNext, Payloads, Frames.Parse, Io.StreamOf, FromStreams, Joined, DataOf;
      alive, parts := true, [];
      ghost var before := DataOf(g);
      NoPartsYet(scripts);
      Sequences.NoneLeft(before);
      var rest := scripts;
      var goOn := CheckActive(g);
      while alive && goOn
        invariant Ready(ServerThread(g)) && old(trace) <= trace
        invariant alive ==> At(g, if goOn then Accept else FinishFlag)
        invariant DataOf(g) == before + Joined(parts) && FromStreams(parts, scripts)
        invariant rest == if |parts| <= |scripts| then scripts[|parts|..] else []
        decreases |schedule| + if alive && goOn then 1 else 0
      {
        var accepted, failed;
        alive, accepted, failed := AcceptOne(g);
        goOn := !failed;
        if alive && accepted {
          var source := new Io.ByteSource(if rest == [] then [] else rest[0]);
          rest := if rest == [] then [] else rest[1..];
          ghost var frames;
          alive, goOn, frames := ServeConnection(g, source);
          OnePartMore(parts, frames, scripts);
          JoinedNext(parts, frames);
          Sequences.Assoc(before, Joined(parts), frames);
          parts := parts + [frames];
        }
        if alive && goOn {
          goOn := CheckActive(g);
        }
      }
    }

    /**
     The server thread, among callers, senders and whatever the environment answers. Its work is part of a run of the
     small-step system, the data it shows are, connection by connection, the first frames of their streams, and when it
     ends it has lowered the flag and cleared the sender.
     */
    method IoLoop(g: nat, scripts: seq<seq<Io.ReadStep>>) returns (ended: bool, ghost parts: seq<seq<Frames.Bytes>>)
      requires Ready(ServerThread(g)) && At(g, Setup)
      modifies this
      ensures Ready(ServerThread(g)) && old(trace) <= trace
      ensures ended ==> At(g, Dead)
      ensures DataOf(g) == old(DataOf(g)) + Joined(parts) && FromStreams(parts, scripts)
    {
      hide Run, Elsewhere, ThreadNext, Payloads;
      parts := [];
      Sequences.NoneLeft(DataOf(g));
      var goOn;
      ended, goOn := SetUp(g);
      if ended && goOn {
        ended, goOn := Add(g, IpcServer.Ready, LoopHead);
      }
      if ended && goOn {
        ended, parts := AcceptLoop(g, scripts);
      }
      if ended {
        ended := FinishServer(g);
      }
    }

    /** What holds in every run holds for the object: the thread's events fit the grammar, and it has no successor. */
    lemma ThreadIsIsolated(g: nat)
      requires Valid() && g < |threads|
      ensures !Scan(threads[g].events).Broken?
      ensures threads[g].pc != Dead ==> g == |threads| - 1 && (sender.Some? ==> sender == Some(g))
    {
      PhasesHold(trace, g);
      if threads[g].pc != Dead {
        NoThreadOutlivesItsTurn(trace, g);
      }
    }
  }

  lemma OwnKeptNow(s: State, actor: Actor)
    ensures OwnKept(s, s, actor)
  {
  }

  lemma OneEvent(s: State, event: Event)
    ensures Run(s, [event]) == Next(s, event)
  {
    assert [event][..0] == [];
  }
}

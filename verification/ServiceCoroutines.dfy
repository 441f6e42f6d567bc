/**
 The run-state machine in the form the source has: an object whose coroutines update its fields in place, statement
 by statement, while the other coroutines run in between. Each call is shown to be part of a run of the small-step
 system, so what holds in every run holds here.
 */
module ServiceCoroutines {
  import opened Options
  import opened RunIntentArbiter
  import opened ServiceStateMachine
  import opened ServiceSettling
  import opened ServiceMending

  /** What the others do before the next statement of a coroutine, and what the environment answers that statement. */
  datatype Pause = Pause(others: seq<Event>, answer: Answer)

  /** The event is an action of this coroutine. */
  predicate ActsAs(event: Event, actor: Holder) {
    match actor
    case Request(id) => ActsFor(event, id)
    case ServiceLoss(index) => event.LossAction? && event.index == index
    case Refresher(who, _) => (event.Refresh? || event.PublishRefresh?) && event.who == who
  }

  predicate Elsewhere(schedule: seq<Pause>, actor: Holder) {
    forall i, k | 0 <= i < |schedule| && 0 <= k < |schedule[i].others| :: !ActsAs(schedule[i].others[k], actor)
  }

  /** How a call ends; a parked coroutine still waits for a lock or an answer when its schedule is used up. */
  datatype Completion = Returned(ok: bool) | Threw | Parked

  /** The coroutine's own part of the state. */
  ghost predicate OwnKept(s: State, t: State, actor: Holder) {
    match actor
    case Request(id) =>
      && (id in s.jobs ==> id in t.jobs && t.jobs[id] == s.jobs[id])
      && (id in s.jobs ==> (t.shared.startPreparationLock == Some(id) <==> s.shared.startPreparationLock == Some(id)))
    case ServiceLoss(index) =>
      index < |s.losses| ==> index < |t.losses| && t.losses[index] == s.losses[index]
    case Refresher(who, _) =>
      s.shared.RefreshedBy(who) ==> t.shared.transitionLock == s.shared.transitionLock
  }

  lemma OthersKeepOwn(s: State, event: Event, actor: Holder)
    requires Core(s) && !ActsAs(event, actor)
    ensures OwnKept(s, Next(s, event), actor)
  {
    if actor.Request? && actor.id in s.jobs {
      OthersLeave(s, event, actor.id);
      OthersKeepPreparation(s, event, actor.id);
    }
    if actor.Refresher? && s.shared.RefreshedBy(actor.who) {
      OthersKeepRefresh(s, event, actor.who);
    }
  }

  lemma OthersKeepRefresh(s: State, event: Event, who: nat)
    requires Core(s) && s.shared.RefreshedBy(who) && !ActsAs(event, Refresher(who, false))
    ensures Next(s, event).shared.transitionLock == s.shared.transitionLock
  {
    match event
    case GateAnswer(k, shouldStart) =>
      if IsStart(s, k) {
        CoreAdvances(s, event, k);
        hide GateNext;
      }
    case StartAction(k, answer) =>
      if IsStart(s, k) {
        CoreAdvances(s, event, k);
        hide StartNext;
      }
    case StopAction(k) =>
      if IsStop(s, k) {
        CoreAdvances(s, event, k);
        hide StopNext;
      }
    case LossAction(index, _) =>
      if index < |s.losses| {
        assert LossOk(s.shared, index, s.losses[index]);
      }
    case _ =>
  }

  lemma OthersKeepPreparation(s: State, event: Event, id: nat)
    requires Core(s) && id in s.jobs && !ActsFor(event, id)
    ensures Next(s, event).shared.startPreparationLock == Some(id) <==> s.shared.startPreparationLock == Some(id)
  {
    match event
    case GateAnswer(k, shouldStart) =>
      if IsStart(s, k) {
        GateAdvances(s.shared, s.jobs[k], shouldStart);
        hide GateNext;
      }
    case StartAction(k, answer) =>
      if IsStart(s, k) {
        StartAdvances(s.shared, s.jobs[k], answer);
        hide StartNext;
      }
    case StopAction(k) =>
      if IsStop(s, k) {
        StopAdvances(s.shared, s.jobs[k]);
        hide StopNext;
      }
    case _ =>
  }

  lemma OwnKeptNow(s: State, actor: Holder)
    ensures OwnKept(s, s, actor)
  {
  }

  lemma OwnKeptOn(s: State, t: State, u: State, actor: Holder)
    requires OwnKept(s, t, actor) && OwnKept(t, u, actor)
    ensures OwnKept(s, u, actor)
  {
  }

  lemma {:induction false} OthersRun(trace: seq<Event>, others: seq<Event>, actor: Holder)
    requires forall k | 0 <= k < |others| :: !ActsAs(others[k], actor)
    ensures Run(Init(), trace + others) == Run(Run(Init(), trace), others)
    ensures OwnKept(Run(Init(), trace), Run(Init(), trace + others), actor)
  {
    if others == [] {
      assert trace + others == trace;
    } else {
      hide Next, Core, OwnKept;
      var before, event := others[..|others| - 1], others[|others| - 1];
      OthersRun(trace, before, actor);
      assert (trace + others)[..|trace + others| - 1] == trace + before;
      CoreHolds(trace + before);
      OthersKeepOwn(Run(Init(), trace + before), event, actor);
      OwnKeptOn(Run(Init(), trace), Run(Init(), trace + before), Run(Init(), trace + others), actor);
    }
  }

  lemma OneMore(trace: seq<Event>, event: Event)
    ensures Run(Init(), trace + [event]) == Next(Run(Init(), trace), event)
  {
    assert (trace + [event])[..|trace|] == trace;
  }

  /** The answers that a start can act upon. */
  predicate Expected(pc: StartPc, answer: Answer) {
    match pc
    case Prepare => answer.Granted? || answer.Denied? || answer.Suspended? || answer.Throws?
    case CallStart => (answer.Up? && answer.startedAt != 0) || answer.Refused? || answer.Throws?
    case Gate => answer.Granted? || answer.Denied?
    case _ => false
  }

  lemma Prepares(m: Shared, job: Job, answer: Answer)
    requires job.Start? && job.start.Prepare? && Expected(Prepare, answer)
    ensures StartNext(m, job, answer) ==
            match answer
            case Granted => Advanced(m, job.(start := SecondCheck))
            case Suspended => Advanced(m.(pendingVpnPreparation := Some(job.token.id)), job.(start := Consent))
            case Throws(_) => Advanced(m.Unprepared(job.token.id), job.(start := ThrownFail))
            case _ => Advanced(m, job.(start := StartPc.Fail))
  {
  }

  lemma CallsStart(m: Shared, job: Job, answer: Answer)
    requires job.Start? && job.start.CallStart? && Expected(CallStart, answer)
    ensures StartNext(m, job, answer) ==
            match answer
            case Up(startedAt) => Advanced(m.(host := Host(startedAt, job.options.enable)), job.(start := FinalCheck))
            case Throws(after) => Advanced(m.(host := after).Unlocked().Unprepared(job.token.id),
                                           job.(start := ThrownFail))
            case _ => Advanced(m.(host := DOWN), job.(start := PublishFailed))
  {
  }

  lemma ChecksInTransition(m: Shared, job: Job, next: StartPc)
    requires job.Start?
    requires (job.start.ThirdCheck? && next == Probe) || (job.start.FinalCheck? && next == PublishStarted)
    ensures StartNext(m, job, Nothing) ==
            if m.IsCurrent(job.token) then Advanced(m, job.(start := next))
            else Advanced(m.Unlocked(), job.(start := WaitReconcile))
  {
  }

  /** The statements that publish an intermediate state. */
  predicate Publishes(pc: StartPc, state: RunState, next: StartPc) {
    || (pc.SetStarting? && state == Starting && next == CallStart)
    || (pc.PublishFailed? && state == Stopped && next == FailRefused)
    || (pc.SetStopping? && state == Stopping && next == CallStop)
  }

  lemma PublishesNext(m: Shared, job: Job, state: RunState, next: StartPc)
    requires job.Start? && Publishes(job.start, state, next)
    ensures StartNext(m, job, Nothing) == Advanced(m.(runState := state), job.(start := next))
  {
  }

  lemma PublishesStart(m: Shared, job: Job)
    requires job.Start? && (job.start.PublishReuse? || job.start.PublishStarted?)
    ensures StartNext(m, job, Nothing) ==
            Advanced(m.(runState := Started).Unlocked().Unprepared(job.token.id), job.(start := Finished(true)))
  {
  }

  lemma StopsNothing(m: Shared, job: Job)
    requires job.Start? && (job.start.ReadIntent? || job.start.ReadRunTime?)
    ensures StartNext(m, job, Nothing) ==
            if (if job.start.ReadIntent? then m.intent.latest.running else !m.host.Up())
            then Advanced(m.Unlocked().Unprepared(job.token.id), job.(start := Finished(false)))
            else Advanced(m, job.(start := if job.start.ReadIntent? then ReadRunTime else SetStopping))
  {
  }

  lemma Locks(m: Shared, job: Job, next: StartPc)
    requires job.Start? && m.transitionLock.None?
    requires (job.start.WaitTransition? && next == ThirdCheck) || (job.start.WaitReconcile? && next == ReadIntent)
    ensures StartNext(m, job, Nothing) == Advanced(m.Locked(Request(job.token.id)), job.(start := next))
  {
  }

  class StateMachine {
    const arbiter: Arbiter
    var runState: RunState
    var options: Option<VpnOptions>
    var pendingVpnPreparation: Option<nat>
    var transitionLock: Option<Holder>
    var startPreparationLock: Option<nat>
    var host: Host
    /** The requests and disconnects in flight; a coroutine's own entry only records how far it has come. */
    var jobs: map<nat, Job>
    var losses: seq<Loss>
    var schedule: seq<Pause>
    /** Everything that has happened so far. */
    ghost var trace: seq<Event>

    ghost function Fields(): Shared
      reads this, arbiter
    {
      Shared(arbiter.Value(), runState, options, pendingVpnPreparation, transitionLock, startPreparationLock, host)
    }

    ghost function Value(): State
      reads this, arbiter
    {
      State(Fields(), jobs, losses)
    }

    /** The fields are where the run so far has brought the small-step system. */
    ghost predicate Valid()
      reads this, arbiter
    {
      Value() == Run(Init(), trace)
    }

    constructor (schedule: seq<Pause>)
      ensures Valid() && Value() == Init() && trace == [] && this.schedule == schedule && fresh(arbiter)
    {
      arbiter := new Arbiter(false);
      runState, options, pendingVpnPreparation := Stopped, None, None;
      transitionLock, startPreparationLock, host := None, None, DOWN;
      jobs, losses := map[], [];
      this.schedule, trace := schedule, [];
    }

    predicate At(id: nat, pc: StartPc)
      reads this
    {
      id in jobs && jobs[id].Start? && jobs[id].token == Token(id, true) && jobs[id].start == pc
    }

    /** The start that was `job` has come to `pc`. */
    predicate Moved(job: Job, pc: StartPc)
      requires job.Start?
      reads this
    {
      job.token.id in jobs && jobs[job.token.id] == job.(start := pc)
    }

    predicate StopsAt(id: nat, pc: StopPc)
      reads this
    {
      id in jobs && jobs[id] == Job.Stop(Token(id, false), pc)
    }

    /** The coroutine of a start is about to execute `pc`; what it is given to run among is the work of others. */
    ghost predicate Ready(request: Token, pc: StartPc)
      reads this, arbiter
    {
      Valid() && Elsewhere(schedule, Request(request.id)) && request.running && At(request.id, pc)
    }

    ghost predicate ReadyToStop(request: Token, pc: StopPc)
      reads this, arbiter
    {
      Valid() && Elsewhere(schedule, Request(request.id)) && !request.running && StopsAt(request.id, pc)
    }

    /** The other coroutines change the fields as their actions do. */
    method Interfere(others: seq<Event>)
      modifies this`runState, this`options, this`pendingVpnPreparation, this`transitionLock, this`startPreparationLock,
               this`host, this`jobs, this`losses, arbiter
      ensures Value() == Run(old(Value()), others)
    {
      hide Run;
      var shared := Shared(Intent(arbiter.latest, arbiter.minted), runState, options, pendingVpnPreparation,
                           transitionLock, startPreparationLock, host);
      var s := Run(State(shared, jobs, losses), others);
      arbiter.latest, arbiter.minted := s.shared.intent.latest, s.shared.intent.minted;
      runState, options, pendingVpnPreparation := s.shared.runState, s.shared.options, s.shared.pendingVpnPreparation;
      transitionLock, startPreparationLock := s.shared.transitionLock, s.shared.startPreparationLock;
      host, jobs, losses := s.shared.host, s.jobs, s.losses;
    }

    /** The others run, and the environment answers; `alive` is false once nothing more will happen elsewhere. */
    method Yield(actor: Holder) returns (answer: Answer, alive: bool)
      requires Valid() && Elsewhere(schedule, actor)
      modifies this, arbiter
      ensures Valid() && Elsewhere(schedule, actor) && old(trace) <= trace
      ensures OwnKept(old(Value()), Value(), actor)
      ensures alive ==> |schedule| < |old(schedule)|
      ensures schedule == if alive then old(schedule)[1..] else []
    {
      answer, alive := Nothing, schedule != [];
      OwnKeptNow(Value(), actor);
      if alive {
        var pause := schedule[0];
        assert Elsewhere(schedule[1..], actor) && forall k | 0 <= k < |pause.others| :: !ActsAs(pause.others[k], actor);
        hide Run, OwnKept, Elsewhere, ActsAs;
        answer, schedule := pause.answer, schedule[1..];
        OthersRun(trace, pause.others, actor);
        Interfere(pause.others);
        trace := trace + pause.others;
      }
    }

    /** The statement that has just been executed was the next action of start `id`; `was` are the fields before it. */
    method Mark(id: nat, job: Job, ghost answer: Answer, ghost was: Shared)
      requires id in jobs && jobs[id].Start? && State(was, jobs, losses) == Run(Init(), trace)
      requires StartNext(was, jobs[id], answer) == Advanced(Fields(), job)
      modifies this`jobs, this`trace
      ensures Valid() && jobs == old(jobs)[id := job] && trace == old(trace) + [StartAction(id, answer)]
    {
      OneMore(trace, StartAction(id, answer));
      jobs := jobs[id := job];
      trace := trace + [StartAction(id, answer)];
    }

    method MarkStop(id: nat, pc: StopPc, ghost was: Shared)
      requires id in jobs && jobs[id].Stop? && State(was, jobs, losses) == Run(Init(), trace)
      requires StopNext(was, jobs[id]) == Advanced(Fields(), jobs[id].(stop := pc))
      modifies this`jobs, this`trace
      ensures Valid() && jobs == old(jobs)[id := old(jobs)[id].(stop := pc)] && trace == old(trace) + [StopAction(id)]
    {
      OneMore(trace, StopAction(id));
      jobs := jobs[id := jobs[id].(stop := pc)];
      trace := trace + [StopAction(id)];
    }

    method MarkLoss(index: nat, pc: LossPc, ghost wasCurrent: bool, ghost was: Shared)
      requires index < |losses| && State(was, jobs, losses) == Run(Init(), trace)
      requires LossNext(was, index, losses[index], wasCurrent) == Advanced(Fields(), losses[index].(pc := pc))
      modifies this`losses, this`trace
      ensures Valid() && losses == old(losses)[index := old(losses)[index].(pc := pc)]
      ensures trace == old(trace) + [LossAction(index, wasCurrent)]
    {
      OneMore(trace, LossAction(index, wasCurrent));
      losses := losses[index := losses[index].(pc := pc)];
      trace := trace + [LossAction(index, wasCurrent)];
    }

    /** The last statement of start `id` will be complete when it has left the preparation lock. */
    ghost predicate Owing(id: nat, answer: Answer, pc: StartPc)
      reads this, arbiter
    {
      var s := Run(Init(), trace);
      && id in jobs && jobs[id].Start? && jobs[id].token == Token(id, true) && jobs == s.jobs && losses == s.losses
      && StartNext(s.shared, jobs[id], answer) == Advanced(Fields().Unprepared(id), jobs[id].(start := pc))
    }

    method Fail(token: Token)
      modifies arbiter
      ensures Fields() == old(Fields()).Failed(token)
    {
      var won := arbiter.ResetToStopped(token);
    }

    // ---- `requestStart`, `start` and `runStart`

    /** A check of the intent outside the transition lock. */
    method CheckCurrent(request: Token, next: StartPc) returns (current: bool)
      requires Valid() && Elsewhere(schedule, Request(request.id)) && request.running
      requires (At(request.id, FirstCheck) && next == ReadOptions)
          || (At(request.id, SecondCheck) && next == WaitTransition)
      modifies this, arbiter
      ensures Valid() && Elsewhere(schedule, Request(request.id)) && old(trace) <= trace
      ensures Moved(old(jobs[request.id]), if current then next else WaitReconcile)
      ensures old(startPreparationLock) == Some(request.id) ==> startPreparationLock == Some(request.id)
    {
      var id := request.id;
      var _, _ := Yield(Request(id));
      ghost var was := Fields();
      current := arbiter.IsCurrent(request);
      Mark(id, jobs[id].(start := if current then next else WaitReconcile), Nothing, was);
    }

    /** A start that cannot go on rolls its request back. */
    method GiveUp(request: Token)
      requires Valid() && Elsewhere(schedule, Request(request.id)) && request.running
      requires At(request.id, StartPc.Fail) || At(request.id, ThrownFail)
      modifies this, arbiter
      ensures Valid() && Elsewhere(schedule, Request(request.id)) && old(trace) <= trace
      ensures Moved(old(jobs[request.id]), WaitReconcile)
      ensures old(startPreparationLock) == Some(request.id) <==> startPreparationLock == Some(request.id)
    {
      var id := request.id;
      var _, _ := Yield(Request(id));
      ghost var was := Fields();
      Fail(request);
      Mark(id, jobs[id].(start := WaitReconcile), Nothing, was);
    }

    /** Consent to a VPN: at once, or by a dialog that a stop may abandon. */
    method PrepareVpn(request: Token) returns (completion: Completion, ghost answer: Answer)
      requires Ready(request, Prepare)
      requires startPreparationLock == Some(request.id)
      modifies this, arbiter
      ensures Elsewhere(schedule, Request(request.id)) && old(trace) <= trace
          && startPreparationLock == Some(request.id)
      ensures completion.Returned? ==>
                Valid() && Moved(old(jobs[request.id]), if completion.ok then SecondCheck else StartPc.Fail)
      ensures completion.Threw? ==> Owing(request.id, answer, ThrownFail)
      ensures completion.Parked? ==> Valid()
    {
      var id := request.id;
      var reply := AwaitAnswer(request, Prepare);
      answer := reply;
      if reply == Nothing {
        return Parked, answer;
      }
      ghost var was := Fields();
      Prepares(was, jobs[id], reply);
      hide Run, Elsewhere, StartNext;
      if reply.Throws? {
        return Threw, reply;
      }
      if !reply.Suspended? {
        Mark(id, jobs[id].(start := if reply.Granted? then SecondCheck else StartPc.Fail), reply, was);
        return Returned(reply.Granted?), reply;
      }
      pendingVpnPreparation := Some(id);
      Mark(id, jobs[id].(start := Consent), Suspended, was);
      completion := AwaitConsent(request);
    }

    /** Others run until the environment answers what the start is waiting for; `Nothing` if it never does. */
    method AwaitAnswer(request: Token, pc: StartPc) returns (reply: Answer)
      requires Ready(request, pc)
      modifies this, arbiter
      ensures Valid() && Elsewhere(schedule, Request(request.id)) && old(trace) <= trace
      ensures OwnKept(old(Value()), Value(), Request(request.id))
      ensures reply == Nothing || Expected(pc, reply)
    {
      hide OwnKept, Elsewhere, Run;
      ghost var start := Value();
      var alive;
      reply, alive := Yield(Request(request.id));
      while alive && !Expected(pc, reply)
        invariant Valid() && Elsewhere(schedule, Request(request.id)) && old(trace) <= trace
        invariant OwnKept(start, Value(), Request(request.id))
        decreases |schedule| + if alive then 1 else 0
      {
        ghost var here := Value();
        reply, alive := Yield(Request(request.id));
        OwnKeptOn(start, here, Value(), Request(request.id));
      }
      if !alive {
        reply := Nothing;
      }
    }

    method AwaitConsent(request: Token) returns (completion: Completion)
      requires Ready(request, Consent)
      requires startPreparationLock == Some(request.id)
      modifies this, arbiter
      ensures Elsewhere(schedule, Request(request.id)) && old(trace) <= trace
          && startPreparationLock == Some(request.id)
      ensures Valid() && !completion.Threw?
      ensures completion.Returned? ==> Moved(old(jobs[request.id]), if completion.ok then SecondCheck else StartPc.Fail)
    {
      var id := request.id;
      var reply, alive := Yield(Request(id));
      while alive && pendingVpnPreparation == Some(id) && !reply.Granted? && !reply.Denied?
        invariant Valid() && Elsewhere(schedule, Request(id)) && old(trace) <= trace
        invariant At(id, Consent) && jobs[id] == old(jobs)[id] && startPreparationLock == Some(id)
        decreases |schedule| + if alive then 1 else 0
      {
        reply, alive := Yield(Request(id));
      }
      ghost var was := Fields();
      if pendingVpnPreparation != Some(id) {
        // A stop has taken the preparation and resumed this coroutine with a refusal.
        Mark(id, jobs[id].(start := StartPc.Fail), Nothing, was);
        return Returned(false);
      }
      if !alive {
        return Parked;
      }
      pendingVpnPreparation := None;
      Mark(id, jobs[id].(start := if reply.Granted? then SecondCheck else StartPc.Fail), reply, was);
      return Returned(reply.Granted?);
    }

    /** Others run until the transition lock is free, or until nothing more happens elsewhere. */
    method AwaitTransition(actor: Holder) returns (free: bool)
      requires Valid() && Elsewhere(schedule, actor)
      modifies this, arbiter
      ensures Valid() && Elsewhere(schedule, actor) && old(trace) <= trace
      ensures OwnKept(old(Value()), Value(), actor)
      ensures free <==> transitionLock.None?
    {
      hide OwnKept, Elsewhere, Run;
      ghost var start := Value();
      var unused, alive := Yield(actor);
      while alive && transitionLock.Some?
        invariant Valid() && Elsewhere(schedule, actor) && old(trace) <= trace
        invariant OwnKept(start, Value(), actor)
        decreases |schedule| + if alive then 1 else 0
      {
        ghost var here := Value();
        unused, alive := Yield(actor);
        OwnKeptOn(start, here, Value(), actor);
      }
      free := transitionLock.None?;
    }

    /** `transitionLock.lock()`. */
    method LockTransition(request: Token, next: StartPc) returns (locked: bool)
      requires Valid() && Elsewhere(schedule, Request(request.id)) && request.running
      requires (At(request.id, WaitTransition) && next == ThirdCheck)
          || (At(request.id, WaitReconcile) && next == ReadIntent)
      modifies this, arbiter
      ensures Valid() && Elsewhere(schedule, Request(request.id)) && old(trace) <= trace
      ensures locked ==> Moved(old(jobs[request.id]), next)
      ensures old(startPreparationLock) == Some(request.id) <==> startPreparationLock == Some(request.id)
    {
      var id := request.id;
      locked := AwaitTransition(Request(id));
      if locked {
        ghost var was := Fields();
        Locks(was, jobs[id], next);
        hide Run, Elsewhere, StartNext, OwnKept;
        transitionLock := Some(Request(id));
        Mark(id, jobs[id].(start := next), Nothing, was);
      }
    }

    /** A check of the intent inside the transition lock, which a start that has been overtaken leaves at once. */
    method CheckInTransition(request: Token, next: StartPc) returns (current: bool)
      requires Valid() && Elsewhere(schedule, Request(request.id)) && request.running
      requires (At(request.id, ThirdCheck) && next == Probe) || (At(request.id, FinalCheck) && next == PublishStarted)
      requires startPreparationLock == Some(request.id)
      modifies this, arbiter
      ensures Valid() && Elsewhere(schedule, Request(request.id)) && old(trace) <= trace
      ensures Moved(old(jobs[request.id]), if current then next else WaitReconcile)
      ensures startPreparationLock == Some(request.id)
    {
      var id := request.id;
      var _, _ := Yield(Request(id));
      ghost var was := Fields();
      current := arbiter.IsCurrent(request);
      ChecksInTransition(was, jobs[id], next);
      hide StartNext, Run, Elsewhere, OwnKept;
      if !current {
        transitionLock := None;
      }
      Mark(id, jobs[id].(start := if current then next else WaitReconcile), Nothing, was);
    }

    /** `runTimeMillis != 0`: the first half of the question whether there is a service to reuse. */
    method ServiceIsUp(request: Token) returns (up: bool)
      requires Ready(request, Probe)
      requires startPreparationLock == Some(request.id)
      modifies this, arbiter
      ensures Valid() && Elsewhere(schedule, Request(request.id)) && old(trace) <= trace
      ensures Moved(old(jobs[request.id]), if up then ProbeKind else SetStarting)
          && startPreparationLock == Some(request.id)
    {
      var id := request.id;
      var _, _ := Yield(Request(id));
      ghost var was := Fields();
      up := host.Up();
      Mark(id, jobs[id].(start := if up then ProbeKind else SetStarting), Nothing, was);
    }

    /** `host.isVpnServiceActive() == options.enable`: the second half, which suspends and may throw. */
    method KindFits(request: Token, options: VpnOptions) returns (completion: Completion, ghost answer: Answer)
      requires Ready(request, ProbeKind)
      requires startPreparationLock == Some(request.id) && jobs[request.id].options == options
      modifies this, arbiter
      ensures Elsewhere(schedule, Request(request.id)) && old(trace) <= trace
          && startPreparationLock == Some(request.id)
      ensures completion.Returned? ==>
                Valid() && Moved(old(jobs[request.id]), if completion.ok then PublishReuse else SetStarting)
      ensures completion.Threw? ==> Owing(request.id, answer, ThrownFail)
      ensures !completion.Parked?
    {
      var id := request.id;
      var reply, _ := Yield(Request(id));
      ghost var was := Fields();
      answer := reply;
      if reply.Throws? {
        transitionLock := None;
        return Threw, answer;
      }
      var reuse := host.VpnServiceActive() == options.enable;
      Mark(id, jobs[id].(start := if reuse then PublishReuse else SetStarting), reply, was);
      return Returned(reuse), answer;
    }

    /** Is there a service of the right kind to reuse? Anything can happen between the two halves of the question. */
    method ProbeService(request: Token, options: VpnOptions) returns (completion: Completion, ghost answer: Answer)
      requires Ready(request, Probe)
      requires startPreparationLock == Some(request.id) && jobs[request.id].options == options
      modifies this, arbiter
      ensures Elsewhere(schedule, Request(request.id)) && old(trace) <= trace
          && startPreparationLock == Some(request.id)
      ensures completion.Returned? ==>
                Valid() && Moved(old(jobs[request.id]), if completion.ok then PublishReuse else SetStarting)
      ensures completion.Threw? ==> Owing(request.id, answer, ThrownFail)
      ensures !completion.Parked?
    {
      hide StartNext, Run, Elsewhere, Owing, Valid;
      completion, answer := Returned(false), Nothing;
      var up := ServiceIsUp(request);
      if up {
        completion, answer := KindFits(request, options);
      }
    }

    /** Reports the service as started and leaves the transition lock. */
    method PublishStart(request: Token)
      requires Valid() && Elsewhere(schedule, Request(request.id)) && request.running
      requires At(request.id, PublishReuse) || At(request.id, PublishStarted)
      requires startPreparationLock == Some(request.id)
      modifies this, arbiter
      ensures Elsewhere(schedule, Request(request.id)) && old(trace) <= trace
          && startPreparationLock == Some(request.id)
      ensures Owing(request.id, Nothing, Finished(true)) && runState == Started && transitionLock.None?
    {
      var id := request.id;
      var _, _ := Yield(Request(id));
      PublishesStart(Fields(), jobs[id]);
      hide StartNext, Elsewhere, OwnKept;
      runState := Started;
      transitionLock := None;
    }

    /** `mutableRunState.value = state` in the middle of a transition or of the reconciliation. */
    method Publish(request: Token, state: RunState, next: StartPc)
      requires Valid() && Elsewhere(schedule, Request(request.id)) && request.running && request.id in jobs
      requires jobs[request.id].Start? && jobs[request.id].token == request
          && Publishes(jobs[request.id].start, state, next)
      modifies this, arbiter
      ensures Valid() && Elsewhere(schedule, Request(request.id)) && old(trace) <= trace
      ensures Moved(old(jobs[request.id]), next)
      ensures old(startPreparationLock) == Some(request.id) <==> startPreparationLock == Some(request.id)
    {
      var id := request.id;
      var _, _ := Yield(Request(id));
      ghost var was := Fields();
      PublishesNext(was, jobs[id], state, next);
      hide StartNext, Run, Elsewhere, OwnKept;
      runState := state;
      Mark(id, jobs[id].(start := next), Nothing, was);
    }

    /** A start that the host has refused rolls its request back and leaves the transition lock. */
    method RollBack(request: Token)
      requires Ready(request, FailRefused)
      requires startPreparationLock == Some(request.id)
      modifies this, arbiter
      ensures Valid() && Elsewhere(schedule, Request(request.id)) && old(trace) <= trace
      ensures Moved(old(jobs[request.id]), WaitReconcile) && startPreparationLock == Some(request.id)
    {
      var id := request.id;
      var _, _ := Yield(Request(id));
      ghost var was := Fields();
      Fail(request);
      transitionLock := None;
      Mark(id, jobs[id].(start := WaitReconcile), Nothing, was);
    }

    /** `host.startService`: the service is up exactly when the answer is not zero, unless the call throws. */
    method StartService(request: Token, options: VpnOptions) returns (completion: Completion, ghost answer: Answer)
      requires Ready(request, CallStart)
      requires startPreparationLock == Some(request.id) && jobs[request.id].options == options
      modifies this, arbiter
      ensures Elsewhere(schedule, Request(request.id)) && old(trace) <= trace
          && startPreparationLock == Some(request.id)
      ensures completion.Returned? ==>
                Valid() && Moved(old(jobs[request.id]), if completion.ok then FinalCheck else PublishFailed)
      ensures completion.Threw? ==> Owing(request.id, answer, ThrownFail)
      ensures completion.Parked? ==> Valid()
    {
      var id := request.id;
      var reply := AwaitAnswer(request, CallStart);
      answer := reply;
      if reply == Nothing {
        return Parked, answer;
      }
      ghost var was := Fields();
      CallsStart(was, jobs[id], reply);
      hide StartNext, Run, Elsewhere;
      if reply.Throws? {
        host, transitionLock := reply.after, None;
        return Threw, answer;
      }
      host := if reply.Up? then Host(reply.startedAt, options.enable) else DOWN;
      Mark(id, jobs[id].(start := if reply.Up? then FinalCheck else PublishFailed), reply, was);
      return Returned(reply.Up?), answer;
    }

    /** Starting a service that is not up: on success its last check is still to come. */
    method BringUp(request: Token, options: VpnOptions) returns (completion: Completion, ghost answer: Answer)
      requires Ready(request, SetStarting)
      requires startPreparationLock == Some(request.id) && jobs[request.id].options == options
      modifies this, arbiter
      ensures Elsewhere(schedule, Request(request.id)) && old(trace) <= trace
          && startPreparationLock == Some(request.id)
      ensures completion.Returned? ==> Valid() && At(request.id, if completion.ok then FinalCheck else WaitReconcile)
      ensures completion.Threw? ==> Owing(request.id, answer, ThrownFail)
      ensures completion.Parked? ==> Valid()
    {
      hide StartNext, Run, Elsewhere, Owing, Valid;
      Publish(request, Starting, CallStart);
      completion, answer := StartService(request, options);
      if completion == Returned(false) {
        Publish(request, Stopped, FailRefused);
        RollBack(request);
      }
    }

    /** The same with its last check: on success the publication is all that is left. */
    method BringUpChecked(request: Token, options: VpnOptions) returns (completion: Completion, ghost answer: Answer)
      requires Ready(request, SetStarting)
      requires startPreparationLock == Some(request.id) && jobs[request.id].options == options
      modifies this, arbiter
      ensures Elsewhere(schedule, Request(request.id)) && old(trace) <= trace
      ensures startPreparationLock == Some(request.id)
      ensures completion.Returned? ==>
                Valid() && At(request.id, if completion.ok then PublishStarted else WaitReconcile)
      ensures completion.Threw? ==> Owing(request.id, answer, ThrownFail)
      ensures completion.Parked? ==> Valid()
    {
      hide StartNext, Run, Elsewhere, Owing, Valid;
      completion, answer := BringUp(request, options);
      if completion == Returned(true) {
        var current := CheckInTransition(request, PublishStarted);
        completion := Returned(current);
      }
    }

    /** The body of the transition lock in `runStart`; a start that fails in it has left the lock. */
    method Transition(request: Token, options: VpnOptions) returns (completion: Completion, ghost answer: Answer)
      requires Ready(request, ThirdCheck)
      requires startPreparationLock == Some(request.id) && jobs[request.id].options == options
      modifies this, arbiter
      ensures Elsewhere(schedule, Request(request.id)) && old(trace) <= trace
          && startPreparationLock == Some(request.id)
      ensures completion == Returned(true) ==> Owing(request.id, answer, Finished(true)) && runState == Started
      ensures completion == Returned(false) ==> Valid() && At(request.id, WaitReconcile)
      ensures completion.Threw? ==> Owing(request.id, answer, ThrownFail)
      ensures completion.Parked? ==> Valid()
    {
      hide StartNext, Run, Elsewhere, Owing, Valid;
      answer := Nothing;
      var current := CheckInTransition(request, Probe);
      if !current {
        return Returned(false), answer;
      }
      completion, answer := ProbeService(request, options);
      if completion == Returned(false) {
        completion, answer := BringUpChecked(request, options);
      }
      if completion == Returned(true) {
        PublishStart(request);
        answer := Nothing;
      }
    }

    method TakeOptions(request: Token) returns (options: Option<VpnOptions>)
      requires Ready(request, StartPc.ReadOptions)
      requires startPreparationLock == Some(request.id)
      modifies this, arbiter
      ensures Valid() && Elsewhere(schedule, Request(request.id)) && old(trace) <= trace
      ensures options.None? ==> Moved(old(jobs[request.id]), StartPc.Fail)
      ensures options.Some? ==> At(request.id, Prepare) && jobs[request.id].options == options.value
      ensures startPreparationLock == Some(request.id)
    {
      var id := request.id;
      var _, _ := Yield(Request(id));
      ghost var was := Fields();
      options := this.options;
      var job := jobs[id];
      job := if options.None? then job.(start := StartPc.Fail) else job.(start := Prepare, options := options.value);
      Mark(id, job, Nothing, was);
    }

    /** `runStart` up to the transition lock: two checks of the intent, the options and the consent. */
    method PrepareStart(request: Token) returns (completion: Completion, options: VpnOptions, ghost answer: Answer)
      requires Ready(request, FirstCheck) && startPreparationLock == Some(request.id)
      modifies this, arbiter
      ensures Elsewhere(schedule, Request(request.id)) && old(trace) <= trace
          && startPreparationLock == Some(request.id)
      ensures completion == Returned(true) ==> Ready(request, WaitTransition) && jobs[request.id].options == options
      ensures completion == Returned(false) ==> Valid() && At(request.id, WaitReconcile)
      ensures completion.Threw? ==> Owing(request.id, answer, ThrownFail)
      ensures completion.Parked? ==> Valid()
    {
      hide StartNext, Run, Elsewhere, Owing, Valid;
      answer, options := Nothing, VpnOptions(false);
      var current := CheckCurrent(request, StartPc.ReadOptions);
      if !current {
        return Returned(false), options, answer;
      }
      var read := TakeOptions(request);
      if read.None? {
        GiveUp(request);
        return Returned(false), options, answer;
      }
      options := read.value;
      completion, answer := PrepareVpn(request);
      if completion == Returned(false) {
        GiveUp(request);
      } else if completion.Returned? {
        current := CheckCurrent(request, WaitTransition);
        completion := Returned(current);
      }
    }

    method RunStart(request: Token) returns (completion: Completion, ghost answer: Answer)
      requires Ready(request, FirstCheck) && startPreparationLock == Some(request.id)
      modifies this, arbiter
      ensures Elsewhere(schedule, Request(request.id)) && old(trace) <= trace
          && startPreparationLock == Some(request.id)
      ensures completion == Returned(true) ==> Owing(request.id, answer, Finished(true)) && runState == Started
      ensures completion == Returned(false) ==> Valid() && At(request.id, WaitReconcile)
      ensures completion.Threw? ==> Owing(request.id, answer, ThrownFail)
      ensures completion.Parked? ==> Valid()
    {
      hide StartNext, Run, Elsewhere, Owing, Valid;
      var options;
      completion, options, answer := PrepareStart(request);
      if completion == Returned(true) {
        var locked := LockTransition(request, ThirdCheck);
        if !locked {
          return Parked, answer;
        }
        completion, answer := Transition(request, options);
      }
    }

    // ---- `reconcileStopped`

    /** A running intent is a reason to leave the service alone. */
    method RunningRequested(request: Token) returns (leave: bool)
      requires Ready(request, ReadIntent)
      modifies this, arbiter
      ensures Elsewhere(schedule, Request(request.id)) && old(trace) <= trace
      ensures !leave ==> Valid() && Moved(old(jobs[request.id]), ReadRunTime)
      ensures leave ==> Owing(request.id, Nothing, Finished(false))
      ensures old(startPreparationLock) == Some(request.id) <==> startPreparationLock == Some(request.id)
    {
      var id := request.id;
      var _, _ := Yield(Request(id));
      ghost var was := Fields();
      StopsNothing(was, jobs[id]);
      hide StartNext, Elsewhere, OwnKept, Run;
      leave := arbiter.latest.running;
      if leave {
        transitionLock := None;
      } else {
        Mark(id, jobs[id].(start := ReadRunTime), Nothing, was);
      }
    }

    /** So is the absence of a service. */
    method NothingRuns(request: Token) returns (leave: bool)
      requires Ready(request, ReadRunTime)
      modifies this, arbiter
      ensures Elsewhere(schedule, Request(request.id)) && old(trace) <= trace
      ensures !leave ==> Valid() && Moved(old(jobs[request.id]), SetStopping)
      ensures leave ==> Owing(request.id, Nothing, Finished(false))
      ensures old(startPreparationLock) == Some(request.id) <==> startPreparationLock == Some(request.id)
    {
      var id := request.id;
      var _, _ := Yield(Request(id));
      ghost var was := Fields();
      StopsNothing(was, jobs[id]);
      hide StartNext, Elsewhere, OwnKept, Run;
      leave := !host.Up();
      if leave {
        transitionLock := None;
      } else {
        Mark(id, jobs[id].(start := SetStopping), Nothing, was);
      }
    }

    /** `host.stopService`. */
    method StopService(request: Token)
      requires Ready(request, CallStop)
      modifies this, arbiter
      ensures Valid() && Elsewhere(schedule, Request(request.id)) && old(trace) <= trace
      ensures Moved(old(jobs[request.id]), SetStopped)
      ensures old(startPreparationLock) == Some(request.id) <==> startPreparationLock == Some(request.id)
    {
      var id := request.id;
      var _, _ := Yield(Request(id));
      ghost var was := Fields();
      host := DOWN;
      Mark(id, jobs[id].(start := SetStopped), Nothing, was);
    }

    method PublishStop(request: Token)
      requires Ready(request, SetStopped)
      modifies this, arbiter
      ensures Elsewhere(schedule, Request(request.id)) && old(trace) <= trace
      ensures Owing(request.id, Nothing, Finished(false))
      ensures old(startPreparationLock) == Some(request.id) <==> startPreparationLock == Some(request.id)
    {
      var id := request.id;
      var _, _ := Yield(Request(id));
      runState := Stopped;
      transitionLock := None;
    }

    method StopUnwanted(request: Token)
      requires Ready(request, SetStopping)
      modifies this, arbiter
      ensures Elsewhere(schedule, Request(request.id)) && old(trace) <= trace
      ensures Owing(request.id, Nothing, Finished(false))
      ensures old(startPreparationLock) == Some(request.id) <==> startPreparationLock == Some(request.id)
    {
      hide StartNext, Run, Elsewhere, Owing, Valid;
      Publish(request, Stopping, CallStop);
      StopService(request);
      PublishStop(request);
    }

    /** An unwanted service is stopped; returns once it has left the transition lock. */
    method ReconcileStopped(request: Token) returns (locked: bool)
      requires Ready(request, WaitReconcile)
      modifies this, arbiter
      ensures Elsewhere(schedule, Request(request.id)) && old(trace) <= trace
      ensures if locked then Owing(request.id, Nothing, Finished(false)) else Valid()
      ensures old(startPreparationLock) == Some(request.id) <==> startPreparationLock == Some(request.id)
    {
      hide StartNext, Run, Elsewhere, Owing, Valid;
      locked := LockTransition(request, ReadIntent);
      if !locked {
        return;
      }
      var leave := RunningRequested(request);
      if !leave {
        leave := NothingRuns(request);
        if !leave {
          StopUnwanted(request);
        }
      }
    }

    // ---- `start` and `requestStart`

    method LockPreparation(request: Token) returns (locked: bool)
      requires Ready(request, WaitPreparation)
      modifies this, arbiter
      ensures Valid() && Elsewhere(schedule, Request(request.id)) && old(trace) <= trace
      ensures locked ==> Moved(old(jobs[request.id]), FirstCheck) && startPreparationLock == Some(request.id)
    {
      var id := request.id;
      locked := AwaitPreparation(Request(id));
      if locked {
        ghost var was := Fields();
        hide Run, Elsewhere, OwnKept, TransitionNext, ReconcileNext;
        startPreparationLock := Some(id);
        Mark(id, jobs[id].(start := FirstCheck), Nothing, was);
      }
    }

    /** Others run until the preparation lock is free, or until nothing more happens elsewhere. */
    method AwaitPreparation(actor: Holder) returns (free: bool)
      requires Valid() && Elsewhere(schedule, actor)
      modifies this, arbiter
      ensures Valid() && Elsewhere(schedule, actor) && old(trace) <= trace
      ensures OwnKept(old(Value()), Value(), actor)
      ensures free <==> startPreparationLock.None?
    {
      hide OwnKept, Elsewhere, Run;
      ghost var start := Value();
      var unused, alive := Yield(actor);
      while alive && startPreparationLock.Some?
        invariant Valid() && Elsewhere(schedule, actor) && old(trace) <= trace
        invariant OwnKept(start, Value(), actor)
        decreases |schedule| + if alive then 1 else 0
      {
        ghost var here := Value();
        unused, alive := Yield(actor);
        OwnKeptOn(start, here, Value(), actor);
      }
      free := startPreparationLock.None?;
    }

    /** The last statement of a start is complete: it has left the preparation lock if it was in it. */
    method Settle(id: nat, ghost answer: Answer, pc: StartPc)
      requires Owing(id, answer, pc)
      modifies this`startPreparationLock, this`jobs, this`trace
      ensures Valid() && Moved(old(jobs[id]), pc) && old(trace) <= trace
      ensures startPreparationLock != Some(id)
    {
      ghost var was := Run(Init(), trace).shared;
      if startPreparationLock == Some(id) {
        startPreparationLock := None;
      }
      hide Run, StartNext;
      Mark(id, jobs[id].(start := pc), answer, was);
    }

    /** `start`: one at a time, and a start that does not succeed stops a service that is not wanted. */
    method Start(request: Token) returns (completion: Completion)
      requires Ready(request, WaitPreparation)
      modifies this, arbiter
      ensures Valid() && Elsewhere(schedule, Request(request.id)) && old(trace) <= trace
      ensures completion.Returned? ==> At(request.id, Finished(completion.ok))
      ensures completion == Returned(true) ==> runState == Started
      ensures completion.Threw? ==> At(request.id, ThrownFail) && startPreparationLock != Some(request.id)
    {
      hide StartNext, Run, Elsewhere, Valid;
      var locked := LockPreparation(request);
      if !locked {
        return Parked;
      }
      ghost var answer;
      completion, answer := RunStart(request);
      if completion == Returned(false) {
        answer := Nothing;
        locked := ReconcileStopped(request);
        if !locked {
          return Parked;
        }
      }
      if !completion.Parked? {
        Settle(request.id, answer, if completion.Threw? then ThrownFail else Finished(completion.ok));
      }
    }

    /** The exception handler of `requestStart`. */
    method Recover(request: Token) returns (completion: Completion)
      requires Ready(request, ThrownFail)
      requires startPreparationLock != Some(request.id)
      modifies this, arbiter
      ensures Valid() && Elsewhere(schedule, Request(request.id)) && old(trace) <= trace
      ensures completion == Parked || (completion == Returned(false) && At(request.id, Finished(false)))
    {
      hide StartNext, Run, Elsewhere, Valid;
      GiveUp(request);
      var locked := ReconcileStopped(request);
      if !locked {
        return Parked;
      }
      Settle(request.id, Nothing, Finished(false));
      return Returned(false);
    }

    /** A request: a fresh token and a coroutine of its own, outside both locks. */
    method CreateRequest(running: bool) returns (request: Token)
      requires Valid()
      modifies this`jobs, this`trace, arbiter
      ensures Valid() && request == Token(old(arbiter.minted), running) == arbiter.latest && old(trace) <= trace
      ensures if running then At(request.id, Gate) else StopsAt(request.id, StopPc.AwaitTransition)
    {
      ghost var event := if running then Event.RequestStart else Event.RequestStop;
      OneMore(trace, event);
      request := arbiter.Request(running);
      var job := if running then Job.Start(request, VpnOptions(false), Gate)
          else Job.Stop(request, StopPc.AwaitTransition);
      jobs := jobs[request.id := job];
      trace := trace + [event];
    }

    /** The answer of the notification permission; without an app it is granted at once. */
    method AwaitGate(request: Token) returns (completion: Completion)
      requires Ready(request, Gate)
      modifies this, arbiter
      ensures Valid() && Elsewhere(schedule, Request(request.id)) && old(trace) <= trace && !completion.Threw?
      ensures completion.Returned? ==>
          Moved(old(jobs[request.id]), if completion.ok then WaitPreparation else Finished(false))
    {
      var id := request.id;
      var reply := AwaitAnswer(request, Gate);
      if reply == Nothing {
        return Parked;
      }
      hide Run, Elsewhere, OwnKept, StartNext;
      OneMore(trace, GateAnswer(id, reply.Granted?));
      if !reply.Granted? {
        Fail(request);
      }
      jobs := jobs[id := jobs[id].(start := if reply.Granted? then WaitPreparation else Finished(false))];
      trace := trace + [GateAnswer(id, reply.Granted?)];
      return Returned(reply.Granted?);
    }

    /**
     One call of `requestStart` with the coroutine it launches, among any others. The whole is a run of the small-step
     system; what the call answers is how that coroutine ends.
     */
    method RequestStart() returns (request: Token, completion: Completion)
      requires Valid() && Elsewhere(schedule, Request(arbiter.minted))
      modifies this, arbiter
      ensures Valid() && request == Token(old(arbiter.minted), true) && old(trace) <= trace
      ensures completion.Returned? ==> At(request.id, Finished(completion.ok))
      ensures completion == Returned(true) ==> runState == Started
      ensures !completion.Threw?
    {
      hide StartNext, Run, Elsewhere, Valid;
      request := CreateRequest(true);
      completion := AwaitGate(request);
      if completion == Returned(true) {
        completion := Start(request);
        if completion.Threw? {
          completion := Recover(request);
        }
      }
    }

    // ---- `stop` and `requestStop`

    method LockForStop(request: Token) returns (locked: bool)
      requires ReadyToStop(request, StopPc.AwaitTransition)
      modifies this, arbiter
      ensures Valid() && Elsewhere(schedule, Request(request.id)) && old(trace) <= trace
      ensures locked ==> StopsAt(request.id, Check)
    {
      var id := request.id;
      locked := AwaitTransition(Request(id));
      if locked {
        ghost var was := Fields();
        transitionLock := Some(Request(id));
        MarkStop(id, Check, was);
      }
    }

    method CheckForStop(request: Token) returns (current: bool)
      requires ReadyToStop(request, Check)
      modifies this, arbiter
      ensures Valid() && Elsewhere(schedule, Request(request.id)) && old(trace) <= trace
      ensures StopsAt(request.id, if current then Abandon else Ended(false)) && (!current ==> arbiter.latest != request)
    {
      var id := request.id;
      var _, _ := Yield(Request(id));
      ghost var was := Fields();
      current := arbiter.IsCurrent(request);
      if !current {
        transitionLock := None;
      }
      MarkStop(id, if current then Abandon else Ended(false), was);
    }

    method AbandonVpnPreparation(request: Token)
      requires ReadyToStop(request, Abandon)
      modifies this, arbiter
      ensures Valid() && Elsewhere(schedule, Request(request.id)) && old(trace) <= trace
      ensures StopsAt(request.id, ProbeStop)
    {
      var id := request.id;
      var _, _ := Yield(Request(id));
      ghost var was := Fields();
      pendingVpnPreparation := None;
      MarkStop(id, ProbeStop, was);
    }

    method AlreadyStopped(request: Token) returns (stopped: bool)
      requires ReadyToStop(request, ProbeStop)
      modifies this, arbiter
      ensures Valid() && Elsewhere(schedule, Request(request.id)) && old(trace) <= trace
      ensures StopsAt(request.id, if stopped then Ended(true) else BeginStop)
      ensures stopped ==> !host.Up() && runState == Stopped
    {
      var id := request.id;
      var _, _ := Yield(Request(id));
      ghost var was := Fields();
      stopped := runState == Stopped && !host.Up();
      if stopped {
        transitionLock := None;
      }
      MarkStop(id, if stopped then Ended(true) else BeginStop, was);
    }

    /** `STOPPING`, `host.stopService`, `STOPPED`. */
    method TakeDown(request: Token)
      requires ReadyToStop(request, BeginStop)
      modifies this, arbiter
      ensures Valid() && Elsewhere(schedule, Request(request.id)) && old(trace) <= trace
      ensures StopsAt(request.id, Report)
    {
      var id := request.id;
      var _, _ := Yield(Request(id));
      ghost var was := Fields();
      runState := Stopping;
      MarkStop(id, StopPc.StopService, was);
      TakeServiceDown(request);
      PublishStopped(request);
    }

    method PublishStopped(request: Token)
      requires ReadyToStop(request, StopPc.PublishStopped)
      modifies this, arbiter
      ensures Valid() && Elsewhere(schedule, Request(request.id)) && old(trace) <= trace
      ensures StopsAt(request.id, Report)
    {
      var id := request.id;
      var _, _ := Yield(Request(id));
      ghost var was := Fields();
      runState := Stopped;
      MarkStop(id, Report, was);
    }

    method TakeServiceDown(request: Token)
      requires ReadyToStop(request, StopPc.StopService)
      modifies this, arbiter
      ensures Valid() && Elsewhere(schedule, Request(request.id)) && old(trace) <= trace
      ensures StopsAt(request.id, StopPc.PublishStopped)
    {
      var id := request.id;
      var _, _ := Yield(Request(id));
      ghost var was := Fields();
      host := DOWN;
      MarkStop(id, StopPc.PublishStopped, was);
    }

    method ReportStop(request: Token) returns (current: bool)
      requires ReadyToStop(request, Report)
      modifies this, arbiter
      ensures Valid() && Elsewhere(schedule, Request(request.id)) && old(trace) <= trace
      ensures StopsAt(request.id, Ended(current)) && current == (arbiter.latest == request)
      ensures !host.Up() && runState == Stopped
    {
      var id := request.id;
      var _, _ := Yield(Request(id));
      ghost var was := Fields();
      assert !host.Up() && runState == Stopped by {
        SeenHolds(trace);
        assert SeesHost(was, jobs[id]);
      }
      current := arbiter.IsCurrent(request);
      transitionLock := None;
      MarkStop(id, Ended(current), was);
    }

    method Stop(request: Token) returns (completion: Completion)
      requires ReadyToStop(request, StopPc.AwaitTransition)
      modifies this, arbiter
      ensures Valid() && Elsewhere(schedule, Request(request.id)) && old(trace) <= trace && !completion.Threw?
      ensures completion.Returned? ==> StopsAt(request.id, Ended(completion.ok))
      ensures completion == Returned(true) ==> !host.Up() && runState == Stopped
      ensures completion == Returned(false) ==> arbiter.latest != request
    {
      hide StopNext, Run, Elsewhere, Valid;
      var locked := LockForStop(request);
      if !locked {
        return Parked;
      }
      var current := CheckForStop(request);
      if !current {
        return Returned(false);
      }
      AbandonVpnPreparation(request);
      var stopped := AlreadyStopped(request);
      if stopped {
        return Returned(true);
      }
      TakeDown(request);
      current := ReportStop(request);
      return Returned(current);
    }

    /** One call of `requestStop` with the coroutine it launches, among any others. */
    method RequestStop() returns (request: Token, completion: Completion)
      requires Valid() && Elsewhere(schedule, Request(arbiter.minted))
      modifies this, arbiter
      ensures Valid() && request == Token(old(arbiter.minted), false) && old(trace) <= trace
      ensures completion.Returned? ==> StopsAt(request.id, Ended(completion.ok))
      ensures completion == Returned(true) ==> !host.Up() && runState == Stopped
      ensures completion == Returned(false) ==> arbiter.latest != request
      ensures !completion.Threw?
    {
      hide StopNext, Run, Elsewhere, Valid;
      request := CreateRequest(false);
      completion := Stop(request);
    }

    // ---- Losses of the service, and the other entry points

    /** The disconnect callback: it captures the newest token at once and goes on in a coroutine of its own. */
    method ServiceDisconnected() returns (index: nat)
      requires Valid()
      modifies this`losses, this`trace
      ensures Valid() && index == |old(losses)| && losses == old(losses) + [Loss(old(arbiter.latest), Captured)]
      ensures old(trace) <= trace
    {
      OneMore(trace, Disconnected);
      index := |losses|;
      losses := losses + [Loss(arbiter.latest, Captured)];
      trace := trace + [Disconnected];
    }

    predicate LossAt(index: nat, token: Token, pc: LossPc)
      reads this
    {
      index < |losses| && losses[index] == Loss(token, pc)
    }

    /** The controller clears the binding if it is still the one that was lost; only then is the loss reported. */
    method ClearBinding(index: nat, token: Token, isCurrent: bool) returns (cleared: bool)
      requires Valid() && Elsewhere(schedule, ServiceLoss(index)) && LossAt(index, token, Captured)
      modifies this, arbiter
      ensures Valid() && Elsewhere(schedule, ServiceLoss(index)) && old(trace) <= trace
      ensures LossAt(index, token, if cleared then AwaitLock else Settled)
    {
      var _, _ := Yield(ServiceLoss(index));
      ghost var was := Fields();
      cleared := isCurrent && host.Up();
      if cleared {
        host := DOWN;
      }
      MarkLoss(index, if cleared then AwaitLock else Settled, isCurrent, was);
    }

    method LockForLoss(index: nat, token: Token) returns (locked: bool)
      requires Valid() && Elsewhere(schedule, ServiceLoss(index)) && LossAt(index, token, AwaitLock)
      modifies this, arbiter
      ensures Valid() && Elsewhere(schedule, ServiceLoss(index)) && old(trace) <= trace
      ensures locked ==> LossAt(index, token, LossRunTime)
    {
      locked := AwaitTransition(ServiceLoss(index));
      if locked {
        ghost var was := Fields();
        transitionLock := Some(ServiceLoss(index));
        MarkLoss(index, LossRunTime, false, was);
      }
    }

    /** `handleServiceLost`: a loss that nobody has made up for is published if its token is still the newest. */
    method HandleServiceLost(index: nat, token: Token) returns (completion: Completion)
      requires Valid() && Elsewhere(schedule, ServiceLoss(index)) && LossAt(index, token, AwaitLock)
      modifies this, arbiter
      ensures Valid() && old(trace) <= trace && !completion.Threw?
      ensures completion.Returned? ==> LossAt(index, token, Settled)
      ensures completion == Returned(true) ==> runState == Stopped && transitionLock.None?
      ensures completion == Returned(false) ==> host.Up() || arbiter.latest != token
    {
      hide LossNext, Run, Elsewhere, Valid;
      var locked := LockForLoss(index, token);
      if !locked {
        return Parked;
      }
      var gone := ServiceIsGone(index, token);
      if !gone {
        return Returned(false);
      }
      var won := ResetAfterLoss(index, token);
      if won {
        PublishLoss(index, token);
      }
      return Returned(won);
    }

    method PublishLoss(index: nat, token: Token)
      requires Valid() && Elsewhere(schedule, ServiceLoss(index)) && LossAt(index, token, LossPublish)
      modifies this, arbiter
      ensures Valid() && old(trace) <= trace
      ensures LossAt(index, token, Settled) && runState == Stopped && transitionLock.None?
    {
      var _, _ := Yield(ServiceLoss(index));
      ghost var was := Fields();
      runState := Stopped;
      transitionLock := None;
      MarkLoss(index, Settled, false, was);
    }

    method ServiceIsGone(index: nat, token: Token) returns (gone: bool)
      requires Valid() && Elsewhere(schedule, ServiceLoss(index)) && LossAt(index, token, LossRunTime)
      modifies this, arbiter
      ensures Valid() && Elsewhere(schedule, ServiceLoss(index)) && old(trace) <= trace
      ensures LossAt(index, token, if gone then LossReset else Settled) && gone == !host.Up()
    {
      var _, _ := Yield(ServiceLoss(index));
      ghost var was := Fields();
      gone := !host.Up();
      if !gone {
        transitionLock := None;
      }
      MarkLoss(index, if gone then LossReset else Settled, false, was);
    }

    method ResetAfterLoss(index: nat, token: Token) returns (won: bool)
      requires Valid() && Elsewhere(schedule, ServiceLoss(index)) && LossAt(index, token, LossReset)
      modifies this, arbiter
      ensures Valid() && Elsewhere(schedule, ServiceLoss(index)) && old(trace) <= trace
      ensures LossAt(index, token, if won then LossPublish else Settled) && (!won ==> arbiter.latest != token)
    {
      var _, _ := Yield(ServiceLoss(index));
      ghost var was := Fields();
      won := arbiter.ResetToStopped(token);
      if !won {
        transitionLock := None;
      }
      MarkLoss(index, if won then LossPublish else Settled, false, was);
    }

    /** `refresh`: inside the transition lock, the published state becomes what the run time was when it was read. */
    method RefreshRunState(who: nat) returns (current: Option<nat>)
      requires Valid() && Elsewhere(schedule, Refresher(who, false))
      modifies this, arbiter
      ensures Valid() && old(trace) <= trace
      ensures current.Some? ==> runState == (if current.value == 0 then Stopped else Started) && transitionLock.None?
    {
      hide Run, Elsewhere;
      var free := AwaitTransition(Refresher(who, false));
      if !free {
        return None;
      }
      OneMore(trace, Refresh(who));
      current := Some(host.runTime);
      transitionLock := Some(Refresher(who, host.Up()));
      trace := trace + [Refresh(who)];
      var _, _ := Yield(Refresher(who, false));
      OneMore(trace, PublishRefresh(who));
      runState := if current.value == 0 then Stopped else Started;
      transitionLock := None;
      trace := trace + [PublishRefresh(who)];
    }

    method SyncState(options: Option<VpnOptions>)
      requires Valid()
      modifies this`options, this`trace
      ensures Valid() && old(trace) <= trace && this.options == options
    {
      OneMore(trace, SyncSharedState(options));
      this.options := options;
      trace := trace + [SyncSharedState(options)];
    }

    /** What holds in every run holds for the object: once all is done, its fields agree with the newest intent. */
    lemma FieldsAgree()
      requires Valid() && NeverStrands(trace) && NeverDeserts(trace) && AllDone(Value())
      ensures host.Up() <==> arbiter.latest.running
      ensures runState == if arbiter.latest.running then Started else Stopped
      ensures arbiter.latest.running ==>
                && At(arbiter.latest.id, Finished(true)) && host.vpn == jobs[arbiter.latest.id].options.enable
      ensures arbiter.latest.id in jobs && jobs[arbiter.latest.id].Stop? ==> StopsAt(arbiter.latest.id, Ended(true))
    {
      SettlesDespiteLosses(trace);
      CoreHolds(trace);
      assert arbiter.latest.id in jobs ==> JobOk(Fields(), jobs[arbiter.latest.id]);
    }
  }
}

/**
 The run-state machine as a small-step system. Requests arrive at any time, outside both mutexes; every
 coroutine advances one atomic action per event, so any check of the intent can be stale when it is acted on.
 */
module ServiceStateMachine {
  import opened Options
  import opened RunIntentArbiter

  datatype RunState = Started | Starting | Stopping | Stopped

  datatype VpnOptions = VpnOptions(enable: bool)

  /** What the service controller reports: a non-zero run time while a service is up, and whether it is the VPN one. */
  datatype Host = Host(runTime: nat, vpn: bool) {
    predicate Up() {
      runTime != 0
    }

    predicate VpnServiceActive() {
      Up() && vpn
    }
  }

  const DOWN := Host(0, false)

  /**
   The next action of a start coroutine, named after the statements of `start`, `runStart` and `reconcileStopped`.
   */
  datatype StartPc =
    | Gate | WaitPreparation | FirstCheck | ReadOptions | Prepare | Consent | Fail | SecondCheck
    | WaitTransition | ThirdCheck | Probe | ProbeKind | PublishReuse | SetStarting | CallStart
    | PublishFailed | FailRefused | FinalCheck | PublishStarted
    | ThrownFail | WaitReconcile | ReadIntent | ReadRunTime | SetStopping | CallStop | SetStopped
    | Finished(ok: bool)

  datatype StopPc =
    | AwaitTransition | Check | Abandon | ProbeStop | BeginStop | StopService | PublishStopped | Report
    | Ended(ok: bool)

  datatype LossPc = Captured | AwaitLock | LossRunTime | LossReset | LossPublish | Settled

  /** One request and the coroutine that serves it. */
  datatype Job =
    | Start(token: Token, options: VpnOptions, start: StartPc)
    | Stop(token: Token, stop: StopPc)

  /** A disconnect callback, with the token that was current when it fired. */
  datatype Loss = Loss(token: Token, pc: LossPc)

  /** Who is inside the transition lock; call `who` of `refresh` there remembers whether it has seen a service. */
  datatype Holder = Request(id: nat) | ServiceLoss(index: nat) | Refresher(who: nat, seen: bool)

  /** The fields that the coroutines share. */
  datatype Shared = Shared(
    intent: Intent,
    runState: RunState,
    options: Option<VpnOptions>,
    pendingVpnPreparation: Option<nat>,
    transitionLock: Option<Holder>,
    startPreparationLock: Option<nat>,
    host: Host)
  {
    predicate IsCurrent(token: Token) {
      intent.latest == token
    }

    function Failed(token: Token): Shared {
      this.(intent := AfterReset(intent, token))
    }

    /** A refresh has read the run time and is about to publish what it has seen. */
    predicate Refreshing() {
      transitionLock.Some? && transitionLock.value.Refresher?
    }

    predicate RefreshedBy(who: nat) {
      Refreshing() && transitionLock.value.who == who
    }

    /** It has seen none. */
    predicate RefreshStops() {
      Refreshing() && !transitionLock.value.seen
    }

    function Locked(holder: Holder): Shared {
      this.(transitionLock := Some(holder))
    }

    function Unlocked(): Shared {
      this.(transitionLock := None)
    }

    /** Leaving `startPreparationLock.withLock`; the exception handler reconciles without holding it. */
    function Unprepared(id: nat): Shared {
      this.(startPreparationLock := if startPreparationLock == Some(id) then None else startPreparationLock)
    }
  }

  /** Requests are keyed by the identity of their token. */
  datatype State = State(shared: Shared, jobs: map<nat, Job>, losses: seq<Loss>)

  /** What the environment answers when an action asks it something. */
  datatype Answer = Nothing | Granted | Denied | Suspended | Up(startedAt: nat) | Refused | Throws(after: Host)

  datatype Event =
    | RequestStart
    | RequestStop
    | SyncSharedState(options: Option<VpnOptions>)
    | Refresh(who: nat)
    | PublishRefresh(who: nat)
    | GateAnswer(id: nat, shouldStart: bool)
    | StartAction(id: nat, answer: Answer)
    | StopAction(id: nat)
    | Disconnected
    | LossAction(index: nat, wasCurrent: bool)

  datatype Advanced<J> = Advanced(shared: Shared, job: J)

  function Init(): State {
    State(Shared(Initial(false), Stopped, None, None, None, None, DOWN), map[], [])
  }

  function FinishStart(m: Shared, job: Job, ok: bool): Advanced<Job>
    requires job.Start?
  {
    Advanced(m.Unlocked().Unprepared(job.token.id), job.(start := Finished(ok)))
  }

  /** The notification gate: a refusal rolls the request back and finishes it without reconciling. */
  function GateNext(m: Shared, job: Job, shouldStart: bool): Advanced<Job>
    requires job.Start?
  {
    if !job.start.Gate? then Advanced(m, job)
    else if shouldStart then Advanced(m, job.(start := WaitPreparation))
    else Advanced(m.Failed(job.token), job.(start := Finished(false)))
  }

  /** `start` and `runStart` up to the transition lock. */
  function PrepareNext(m: Shared, job: Job, answer: Answer): Advanced<Job>
    requires job.Start?
  {
    var id := job.token.id;
    match job.start
    case WaitPreparation =>
      if m.startPreparationLock.None?
      then Advanced(m.(startPreparationLock := Some(id)), job.(start := FirstCheck)) else Advanced(m, job)
    case FirstCheck => Advanced(m, job.(start := if m.IsCurrent(job.token) then ReadOptions else WaitReconcile))
    case ReadOptions =>
      Advanced(m, if m.options.None? then job.(start := Fail) else job.(start := Prepare, options := m.options.value))
    case Prepare =>
      (match answer
       case Granted => Advanced(m, job.(start := SecondCheck))
       case Denied => Advanced(m, job.(start := Fail))
       case Suspended => Advanced(m.(pendingVpnPreparation := Some(id)), job.(start := Consent))
       case Throws(_) => Advanced(m.Unprepared(id), job.(start := ThrownFail))
       case _ => Advanced(m, job))
    case Consent =>
      // A stop that took the pending preparation has already resumed this coroutine with a refusal.
      if m.pendingVpnPreparation != Some(id) then Advanced(m, job.(start := Fail))
      else
        (match answer
         case Granted => Advanced(m.(pendingVpnPreparation := None), job.(start := SecondCheck))
         case Denied => Advanced(m.(pendingVpnPreparation := None), job.(start := Fail))
         case _ => Advanced(m, job))
    case Fail => Advanced(m.Failed(job.token), job.(start := WaitReconcile))
    case SecondCheck => Advanced(m, job.(start := if m.IsCurrent(job.token) then WaitTransition else WaitReconcile))
    case WaitTransition =>
      if m.transitionLock.None? then Advanced(m.Locked(Request(id)), job.(start := ThirdCheck)) else Advanced(m, job)
    case _ => Advanced(m, job)
  }

  /** The body of the transition lock in `runStart`. */
  function TransitionNext(m: Shared, job: Job, answer: Answer): Advanced<Job>
    requires job.Start?
  {
    var id := job.token.id;
    match job.start
    case ThirdCheck =>
      if m.IsCurrent(job.token) then Advanced(m, job.(start := Probe))
      else Advanced(m.Unlocked(), job.(start := WaitReconcile))
    case Probe => Advanced(m, job.(start := if m.host.Up() then ProbeKind else SetStarting))
    case ProbeKind =>
      // The run time and the kind of the service are two reads: it can be lost in between.
      if answer.Throws? then Advanced(m.Unlocked().Unprepared(id), job.(start := ThrownFail))
      else
        var reuse := m.host.VpnServiceActive() == job.options.enable;
        Advanced(m, job.(start := if reuse then PublishReuse else SetStarting))
    case PublishReuse => FinishStart(m.(runState := Started), job, true)
    case SetStarting => Advanced(m.(runState := Starting), job.(start := CallStart))
    case CallStart =>
      (match answer
       case Up(startedAt) =>
         if startedAt == 0 then Advanced(m, job)
         else Advanced(m.(host := Host(startedAt, job.options.enable)), job.(start := FinalCheck))
       case Refused => Advanced(m.(host := DOWN), job.(start := PublishFailed))
       case Throws(after) => Advanced(m.(host := after).Unlocked().Unprepared(id), job.(start := ThrownFail))
       case _ => Advanced(m, job))
    case PublishFailed => Advanced(m.(runState := Stopped), job.(start := FailRefused))
    case FailRefused => Advanced(m.Failed(job.token).Unlocked(), job.(start := WaitReconcile))
    case FinalCheck =>
      if m.IsCurrent(job.token) then Advanced(m, job.(start := PublishStarted))
      else Advanced(m.Unlocked(), job.(start := WaitReconcile))
    case PublishStarted => FinishStart(m.(runState := Started), job, true)
    case _ => Advanced(m, job)
  }

  /** The exception handler of `requestStart`, and `reconcileStopped`. */
  function ReconcileNext(m: Shared, job: Job): Advanced<Job>
    requires job.Start?
  {
    match job.start
    case ThrownFail => Advanced(m.Failed(job.token), job.(start := WaitReconcile))
    case WaitReconcile =>
      if m.transitionLock.None? then Advanced(m.Locked(Request(job.token.id)), job.(start := ReadIntent))
      else Advanced(m, job)
    case ReadIntent =>
      if m.intent.latest.running then FinishStart(m, job, false) else Advanced(m, job.(start := ReadRunTime))
    case ReadRunTime => if m.host.Up() then Advanced(m, job.(start := SetStopping)) else FinishStart(m, job, false)
    case SetStopping => Advanced(m.(runState := Stopping), job.(start := CallStop))
    case CallStop => Advanced(m.(host := DOWN), job.(start := SetStopped))
    case SetStopped => FinishStart(m.(runState := Stopped), job, false)
    case _ => Advanced(m, job)
  }

  predicate InTransition(pc: StartPc) {
    || pc.ThirdCheck? || pc.Probe? || pc.ProbeKind? || pc.PublishReuse? || pc.SetStarting? || pc.CallStart?
    || pc.PublishFailed? || pc.FailRefused? || pc.FinalCheck? || pc.PublishStarted?
  }

  predicate InReconcile(pc: StartPc) {
    || pc.ThrownFail? || pc.WaitReconcile? || pc.ReadIntent? || pc.ReadRunTime? || pc.SetStopping?
    || pc.CallStop? || pc.SetStopped?
  }

  function StartNext(m: Shared, job: Job, answer: Answer): Advanced<Job>
    requires job.Start?
  {
    if InTransition(job.start) then TransitionNext(m, job, answer)
    else if InReconcile(job.start) then ReconcileNext(m, job)
    else PrepareNext(m, job, answer)
  }

  function StopNext(m: Shared, job: Job): Advanced<Job>
    requires job.Stop?
  {
    match job.stop
    case AwaitTransition =>
      if m.transitionLock.None? then Advanced(m.Locked(Request(job.token.id)), job.(stop := Check))
      else Advanced(m, job)
    case Check =>
      if m.IsCurrent(job.token) then Advanced(m, job.(stop := Abandon))
      else Advanced(m.Unlocked(), job.(stop := Ended(false)))
    case Abandon => Advanced(m.(pendingVpnPreparation := None), job.(stop := ProbeStop))
    case ProbeStop =>
      if m.runState == Stopped && !m.host.Up() then Advanced(m.Unlocked(), job.(stop := Ended(true)))
      else Advanced(m, job.(stop := BeginStop))
    case BeginStop => Advanced(m.(runState := Stopping), job.(stop := StopService))
    case StopService => Advanced(m.(host := DOWN), job.(stop := PublishStopped))
    case PublishStopped => Advanced(m.(runState := Stopped), job.(stop := Report))
    case Report => Advanced(m.Unlocked(), job.(stop := Ended(m.IsCurrent(job.token))))
    case Ended(_) => Advanced(m, job)
  }

  /**
   The disconnect handler clears the binding first, if it still is the current one, and reports the loss afterwards,
   under the transition lock. A binding is held only while a service is up, so without one there is nothing to clear.
   */
  function LossNext(m: Shared, index: nat, loss: Loss, wasCurrent: bool): Advanced<Loss> {
    match loss.pc
    case Captured =>
      if wasCurrent && m.host.Up() then Advanced(m.(host := DOWN), loss.(pc := AwaitLock))
      else Advanced(m, loss.(pc := Settled))
    case AwaitLock =>
      if m.transitionLock.None? then Advanced(m.Locked(ServiceLoss(index)), loss.(pc := LossRunTime))
      else Advanced(m, loss)
    case LossRunTime =>
      if m.host.Up() then Advanced(m.Unlocked(), loss.(pc := Settled)) else Advanced(m, loss.(pc := LossReset))
    case LossReset =>
      if m.IsCurrent(loss.token) then Advanced(m.Failed(loss.token), loss.(pc := LossPublish))
      else Advanced(m.Unlocked(), loss.(pc := Settled))
    case LossPublish => Advanced(m.(runState := Stopped).Unlocked(), loss.(pc := Settled))
    case Settled => Advanced(m, loss)
  }

  function Requested(s: State, running: bool): State {
    var intent := AfterRequest(s.shared.intent, running);
    var job := if running then Start(intent.latest, VpnOptions(false), Gate) else Stop(intent.latest, AwaitTransition);
    s.(shared := s.shared.(intent := intent), jobs := s.jobs[intent.latest.id := job])
  }

  function WithJob(s: State, id: nat, after: Advanced<Job>): State {
    s.(shared := after.shared, jobs := s.jobs[id := after.job])
  }

  function WithLoss(s: State, index: nat, after: Advanced<Loss>): State
    requires index < |s.losses|
  {
    s.(shared := after.shared, losses := s.losses[index := after.job])
  }

  predicate IsStart(s: State, id: nat) {
    id in s.jobs && s.jobs[id].Start?
  }

  predicate IsStop(s: State, id: nat) {
    id in s.jobs && s.jobs[id].Stop?
  }

  /** One event. An event that its coroutine cannot take yet changes nothing, so every schedule is a run. */
  function Next(s: State, event: Event): State {
    match event
    case RequestStart => Requested(s, true)
    case RequestStop => Requested(s, false)
    case SyncSharedState(options) => s.(shared := s.shared.(options := options))
    case Refresh(who) =>
      if s.shared.transitionLock.None? then s.(shared := s.shared.Locked(Refresher(who, s.shared.host.Up()))) else s
    case PublishRefresh(who) =>
      if s.shared.RefreshedBy(who)
      then s.(shared := s.shared.(runState := if s.shared.RefreshStops() then Stopped else Started).Unlocked())
      else s
    case GateAnswer(id, shouldStart) =>
      if IsStart(s, id) then WithJob(s, id, GateNext(s.shared, s.jobs[id], shouldStart)) else s
    case StartAction(id, answer) =>
      if IsStart(s, id) then WithJob(s, id, StartNext(s.shared, s.jobs[id], answer)) else s
    case StopAction(id) => if IsStop(s, id) then WithJob(s, id, StopNext(s.shared, s.jobs[id])) else s
    case Disconnected => s.(losses := s.losses + [Loss(s.shared.intent.latest, Captured)])
    case LossAction(index, wasCurrent) =>
      if index < |s.losses| then WithLoss(s, index, LossNext(s.shared, index, s.losses[index], wasCurrent)) else s
  }

  function Run(s: State, schedule: seq<Event>): State {
    if schedule == [] then s else Next(Run(s, schedule[..|schedule| - 1]), schedule[|schedule| - 1])
  }

  lemma {:induction false} RunConcat(s: State, before: seq<Event>, after: seq<Event>)
    ensures Run(Run(s, before), after) == Run(s, before + after)
  {
    if after == [] {
      assert before + after == before;
    } else {
      RunConcat(s, before, after[..|after| - 1]);
      assert (before + after)[..|before + after| - 1] == before + after[..|after| - 1];
    }
  }
}

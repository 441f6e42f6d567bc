/** The run-state machine settles to its newest intent, over every interleaving and through losses of the service. */
module ServiceMending {
  import opened Options
  import opened RunIntentArbiter
  import opened ServiceStateMachine
  import opened ServiceSettling

  // ---- What a coroutine knows about the service, in every run

  /** What a coroutine inside the transition lock can rely on, although a loss may take the service away under it. */
  predicate SeesHost(m: Shared, job: Job) {
    match job
    case Start(_, options, pc) =>
      && (pc.ProbeKind? || pc.PublishReuse? || pc.FinalCheck? || pc.PublishStarted? ==> m.runState != Stopped)
      && (pc.PublishReuse? || pc.FinalCheck? || pc.PublishStarted? ==> m.host.Up() ==> m.host.vpn == options.enable)
      && (pc.PublishFailed? || pc.FailRefused? || pc.SetStopped? ==> !m.host.Up())
      && (pc.FailRefused? ==> m.runState == Stopped)
      && (pc.CallStart? ==> m.runState == Starting)
      && (pc.CallStop? || pc.SetStopped? ==> m.runState == Stopping)
    case Stop(_, pc) =>
      && (pc.PublishStopped? || pc.Report? ==> !m.host.Up())
      && (pc.StopService? || pc.PublishStopped? ==> m.runState == Stopping)
      && (pc.Report? ==> m.runState == Stopped)
  }

  /** The start that the newest intent asked for has finished. */
  predicate Won(m: Shared, job: Job) {
    job.Start? && m.IsCurrent(job.token) && job.start.Finished?
  }

  predicate WonOk(m: Shared, job: Job) {
    Won(m, job) && m.host.Up() ==> m.runState == Started && m.host.vpn == job.options.enable
  }

  /** The coroutine may still change the service or the published state on the strength of an earlier check. */
  predicate Acting(job: Job) {
    match job
    case Start(_, _, pc) => Inside(job) && !pc.ThirdCheck? && !pc.ReadIntent?
    case Stop(_, pc) => Inside(job) && !pc.Check?
  }

  /** A running service is never published as stopped, and a refresh only has old news that is no worse. */
  predicate HostSeen(m: Shared) {
    && (m.host.Up() ==> m.runState != Stopped)
    && (m.Refreshing() ==> if m.transitionLock.value.seen then m.runState != Stopped else !m.host.Up())
  }

  /** The token of a disconnect has been minted, and while a loss is being published no start has won. */
  ghost predicate LossSeen(s: State, loss: Loss) {
    && loss.token.id < s.shared.intent.minted
    && (loss.pc.LossPublish? ==> forall id | id in s.jobs :: !Won(s.shared, s.jobs[id]))
  }

  ghost predicate Seen(s: State) {
    && HostSeen(s.shared)
    && (forall i | 0 <= i < |s.losses| :: LossSeen(s, s.losses[i]))
    && (forall id | id in s.jobs :: SeesHost(s.shared, s.jobs[id]) && WonOk(s.shared, s.jobs[id]))
    && (forall a, b | a in s.jobs && b in s.jobs :: Acting(s.jobs[a]) ==> !Won(s.shared, s.jobs[b]))
  }

  predicate OwnSeen(m: Shared, job: Job, after: Advanced<Job>) {
    var n := after.shared;
    && (HostSeen(m) && SeesHost(m, job) && WonOk(m, job) && (Acting(job) ==> !Won(m, job)) ==>
          && HostSeen(n)
          && SeesHost(n, after.job) && WonOk(n, after.job) && (Acting(after.job) ==> !Won(n, after.job)))
    && (Acting(after.job) && !Acting(job) ==>
          m.IsCurrent(job.token) || (!m.intent.latest.running && n.intent == m.intent))
    && (Won(n, after.job) && !Won(m, job) ==> Inside(job))
    && (n.host != m.host || n.runState != m.runState ==> Acting(job))
  }

  lemma PrepareOwnSeen(m: Shared, job: Job, answer: Answer)
    requires job.Start? && JobOk(m, job) && !InTransition(job.start) && !InReconcile(job.start)
    ensures OwnSeen(m, job, PrepareNext(m, job, answer))
  {
  }

  /** The part of the transition that only asks, as opposed to the calls and publications. */
  predicate Asks(pc: StartPc) {
    pc.ThirdCheck? || pc.Probe? || pc.ProbeKind? || pc.FinalCheck?
  }

  lemma AskingOwnSeen(m: Shared, job: Job, answer: Answer)
    requires job.Start? && JobOk(m, job) && Asks(job.start)
    ensures OwnSeen(m, job, TransitionNext(m, job, answer))
  {
  }

  lemma ActingOwnSeen(m: Shared, job: Job, answer: Answer)
    requires job.Start? && JobOk(m, job) && InTransition(job.start) && !Asks(job.start)
    ensures OwnSeen(m, job, TransitionNext(m, job, answer))
  {
  }

  lemma ReconcileOwnSeen(m: Shared, job: Job)
    requires job.Start? && JobOk(m, job)
    ensures OwnSeen(m, job, ReconcileNext(m, job))
  {
  }

  lemma StartOwnSeen(m: Shared, job: Job, answer: Answer)
    requires job.Start? && JobOk(m, job)
    ensures OwnSeen(m, job, StartNext(m, job, answer))
  {
    hide PrepareNext, TransitionNext, ReconcileNext, OwnSeen, JobOk;
    if InReconcile(job.start) {
      ReconcileOwnSeen(m, job);
    } else if !InTransition(job.start) {
      PrepareOwnSeen(m, job, answer);
    } else if Asks(job.start) {
      AskingOwnSeen(m, job, answer);
    } else {
      ActingOwnSeen(m, job, answer);
    }
  }

  lemma StopOwnSeen(m: Shared, job: Job)
    requires job.Stop? && JobOk(m, job)
    ensures OwnSeen(m, job, StopNext(m, job))
  {
  }

  lemma GateOwnSeen(m: Shared, job: Job, shouldStart: bool)
    requires job.Start? && JobOk(m, job) && m.intent.latest.id < m.intent.minted
    ensures OwnSeen(m, job, GateNext(m, job, shouldStart))
  {
  }

  lemma AdvanceKeepsViews(s: State, id: nat, after: Advanced<Job>, k: nat)
    requires Core(s) && Seen(s) && id in s.jobs
    requires Advances(s.shared, s.jobs[id], after) && OwnSeen(s.shared, s.jobs[id], after)
    requires k in s.jobs
    ensures var t := WithJob(s, id, after); SeesHost(t.shared, t.jobs[k]) && WonOk(t.shared, t.jobs[k])
  {
    if k != id {
      assert JobOk(s.shared, s.jobs[k]) && JobOk(s.shared, s.jobs[id]);
      assert Acting(s.jobs[id]) ==> !Won(s.shared, s.jobs[k]);
      if Inside(s.jobs[k]) {
        assert !Inside(s.jobs[id]);
      }
    }
  }

  lemma AdvanceKeepsActing(s: State, id: nat, after: Advanced<Job>, a: nat, b: nat)
    requires Core(s) && Seen(s) && id in s.jobs
    requires Advances(s.shared, s.jobs[id], after) && OwnSeen(s.shared, s.jobs[id], after)
    requires a in s.jobs && b in s.jobs
    ensures var t := WithJob(s, id, after); Acting(t.jobs[a]) ==> !Won(t.shared, t.jobs[b])
  {
    assert JobOk(s.shared, s.jobs[a]) && JobOk(s.shared, s.jobs[b]);
    assert Acting(s.jobs[a]) ==> !Won(s.shared, s.jobs[b]);
    assert Acting(s.jobs[id]) ==> !Won(s.shared, s.jobs[id]);
  }

  lemma AdvanceKeepsLosses(s: State, id: nat, after: Advanced<Job>, i: nat)
    requires Core(s) && Seen(s) && id in s.jobs && i < |s.losses|
    requires Advances(s.shared, s.jobs[id], after) && OwnSeen(s.shared, s.jobs[id], after)
    ensures LossSeen(WithJob(s, id, after), s.losses[i])
  {
    assert LossSeen(s, s.losses[i]) && LossOk(s.shared, i, s.losses[i]) && JobOk(s.shared, s.jobs[id]);
    var t := WithJob(s, id, after);
    forall k | k in t.jobs && s.losses[i].pc.LossPublish? ensures !Won(t.shared, t.jobs[k]) {
      assert JobOk(s.shared, s.jobs[k]) && !Won(s.shared, s.jobs[k]);
    }
  }

  lemma AdvanceKeepsSeen(s: State, id: nat, after: Advanced<Job>)
    requires Core(s) && Seen(s) && id in s.jobs
    requires Advances(s.shared, s.jobs[id], after) && OwnSeen(s.shared, s.jobs[id], after)
    ensures Seen(WithJob(s, id, after))
  {
    var t := WithJob(s, id, after);
    AdvanceKeepsViews(s, id, after, id);
    assert HostSeen(t.shared) by {
      assert Acting(s.jobs[id]) ==> !Won(s.shared, s.jobs[id]);
    }
    hide SeesHost, WonOk, Acting, Won, OwnSeen, Advances, Core, LossSeen, HostSeen;
    forall k | k in t.jobs ensures SeesHost(t.shared, t.jobs[k]) && WonOk(t.shared, t.jobs[k]) {
      AdvanceKeepsViews(s, id, after, k);
    }
    forall a, b | a in t.jobs && b in t.jobs ensures Acting(t.jobs[a]) ==> !Won(t.shared, t.jobs[b]) {
      AdvanceKeepsActing(s, id, after, a, b);
    }
    forall i | 0 <= i < |t.losses| ensures LossSeen(t, t.losses[i]) {
      AdvanceKeepsLosses(s, id, after, i);
    }
  }

  lemma RequestKeepsSeen(s: State, running: bool)
    requires Core(s) && Seen(s)
    ensures Seen(Requested(s, running))
  {
    var t := Requested(s, running);
    var id := t.shared.intent.latest.id;
    forall k | k in t.jobs ensures SeesHost(t.shared, t.jobs[k]) && WonOk(t.shared, t.jobs[k]) {
      assert k != id ==> k in s.jobs && t.jobs[k] == s.jobs[k];
    }
    assert forall k | k in t.jobs :: !Won(t.shared, t.jobs[k]);
    assert forall i | 0 <= i < |s.losses| :: LossSeen(s, s.losses[i]);
  }

  lemma LossKeepsHost(m: Shared, index: nat, loss: Loss, wasCurrent: bool)
    requires LossOk(m, index, loss) && HostSeen(m)
    ensures HostSeen(LossNext(m, index, loss, wasCurrent).shared)
  {
  }

  /** What a disconnect handler's step leaves of what a request's coroutine has seen. */
  lemma LossKeepsView(m: Shared, index: nat, loss: Loss, wasCurrent: bool, job: Job)
    requires LossOk(m, index, loss) && JobOk(m, job) && SeesHost(m, job) && WonOk(m, job)
    ensures var n := LossNext(m, index, loss, wasCurrent).shared;
            SeesHost(n, job) && WonOk(n, job) && (Won(n, job) ==> Won(m, job))
    ensures LossNext(m, index, loss, wasCurrent).job.pc.LossPublish? ==>
              loss.pc.LossPublish? || !Won(LossNext(m, index, loss, wasCurrent).shared, job)
  {
  }

  lemma LossKeepsSeen(s: State, index: nat, wasCurrent: bool)
    requires Core(s) && Seen(s) && index < |s.losses|
    ensures Seen(Next(s, LossAction(index, wasCurrent)))
  {
    var m, loss, t := s.shared, s.losses[index], Next(s, LossAction(index, wasCurrent));
    assert LossOk(m, index, loss) && LossSeen(s, loss);
    LossKeepsHost(m, index, loss, wasCurrent);
    assert t.shared.intent.minted >= m.intent.minted && t.losses[index].token == loss.token;
    assert t.losses[index].pc.LossPublish? ==> loss.pc.LossReset? || loss.pc.LossPublish?;
    hide LossNext, SeesHost, WonOk, Won, Acting, LossOk, JobOk, HostSeen;
    forall k | k in s.jobs
      ensures SeesHost(t.shared, t.jobs[k]) && WonOk(t.shared, t.jobs[k])
      ensures Won(t.shared, t.jobs[k]) ==> Won(m, s.jobs[k])
      ensures t.losses[index].pc.LossPublish? ==> loss.pc.LossPublish? || !Won(t.shared, t.jobs[k])
    {
      assert JobOk(m, s.jobs[k]);
      LossKeepsView(m, index, loss, wasCurrent, s.jobs[k]);
    }
    forall i | 0 <= i < |s.losses| ensures LossSeen(t, t.losses[i]) {
      assert LossSeen(s, s.losses[i]);
    }
  }

  lemma RefreshKeepsSeen(s: State, event: Event)
    requires Core(s) && Seen(s) && (event.Refresh? || event.PublishRefresh?)
    ensures Seen(Next(s, event))
  {
    if s.shared.Refreshing() {
      forall k | k in s.jobs ensures !Inside(s.jobs[k]) {
        assert JobOk(s.shared, s.jobs[k]);
      }
    }
    assert forall i | 0 <= i < |s.losses| :: LossSeen(s, s.losses[i]);
  }

  lemma OutsideKeepsSeen(s: State, event: Event)
    requires Core(s) && Seen(s) && (event.SyncSharedState? || event.Disconnected?)
    ensures Seen(Next(s, event))
  {
    assert forall i | 0 <= i < |s.losses| :: LossSeen(s, s.losses[i]);
  }

  lemma NextKeepsSeen(s: State, event: Event)
    requires Core(s) && Seen(s)
    ensures Seen(Next(s, event))
  {
    hide OwnSeen, Advances, StartNext, StopNext, GateNext, Seen;
    match event
    case RequestStart => RequestKeepsSeen(s, true);
    case RequestStop => RequestKeepsSeen(s, false);
    case GateAnswer(id, shouldStart) =>
      if IsStart(s, id) {
        GateAdvances(s.shared, s.jobs[id], shouldStart);
        GateOwnSeen(s.shared, s.jobs[id], shouldStart);
        AdvanceKeepsSeen(s, id, GateNext(s.shared, s.jobs[id], shouldStart));
      }
    case StartAction(id, answer) =>
      if IsStart(s, id) {
        StartAdvances(s.shared, s.jobs[id], answer);
        StartOwnSeen(s.shared, s.jobs[id], answer);
        AdvanceKeepsSeen(s, id, StartNext(s.shared, s.jobs[id], answer));
      }
    case StopAction(id) =>
      if IsStop(s, id) {
        StopAdvances(s.shared, s.jobs[id]);
        StopOwnSeen(s.shared, s.jobs[id]);
        AdvanceKeepsSeen(s, id, StopNext(s.shared, s.jobs[id]));
      }
    case LossAction(index, wasCurrent) =>
      if index < |s.losses| {
        LossKeepsSeen(s, index, wasCurrent);
      }
    case Refresh(_) => RefreshKeepsSeen(s, event);
    case PublishRefresh(_) => RefreshKeepsSeen(s, event);
    case _ => OutsideKeepsSeen(s, event);
  }

  lemma {:induction false} SeenHolds(schedule: seq<Event>)
    ensures Core(Run(Init(), schedule)) && Seen(Run(Init(), schedule))
  {
    if schedule != [] {
      hide Core, Seen, Next;
      SeenHolds(schedule[..|schedule| - 1]);
      NextKeepsCore(Run(Init(), schedule[..|schedule| - 1]), schedule[|schedule| - 1]);
      NextKeepsSeen(Run(Init(), schedule[..|schedule| - 1]), schedule[|schedule| - 1]);
    }
  }

  /**
   The event by which a stop answers: it answers true exactly if its request is the newest then, or if it finds the
   service down and published as stopped before it has done anything; either way nothing is running any more.
   */
  lemma StopAnswersExactly(schedule: seq<Event>, event: Event, id: nat)
    requires var s := Run(Init(), schedule);
             IsStop(s, id) && !Over(s.jobs[id]) && id in Next(s, event).jobs && Over(Next(s, event).jobs[id])
    ensures var s, t := Run(Init(), schedule), Next(Run(Init(), schedule), event);
            && IsStop(t, id) && t.jobs[id].token == s.jobs[id].token
            && (t.jobs[id].stop.ok <==> s.shared.IsCurrent(s.jobs[id].token) || s.jobs[id].stop.ProbeStop?)
            && (t.jobs[id].stop.ok ==> !t.shared.host.Up() && t.shared.runState == Stopped)
  {
    SeenHolds(schedule);
    var s := Run(Init(), schedule);
    assert JobOk(s.shared, s.jobs[id]) && SeesHost(s.shared, s.jobs[id]);
    if !ActsFor(event, id) {
      OthersLeave(s, event, id);
    }
  }

  /**
   The event by which a start answers: when it answers true it publishes itself as started and a service that is up is
   of its kind; when it answers false it has been overtaken or rolled back, and, unless it was turned away at its gate,
   no service is up against the intent.
   */
  lemma StartAnswers(schedule: seq<Event>, event: Event, id: nat)
    requires var s := Run(Init(), schedule);
             IsStart(s, id) && !Over(s.jobs[id]) && id in Next(s, event).jobs && Over(Next(s, event).jobs[id])
    ensures var s, t := Run(Init(), schedule), Next(Run(Init(), schedule), event);
            && IsStart(t, id) && t.jobs[id].token == s.jobs[id].token && t.jobs[id].options == s.jobs[id].options
            && (t.jobs[id].start.ok ==>
                  t.shared.runState == Started
                      && (t.shared.host.Up() ==> t.shared.host.vpn == t.jobs[id].options.enable))
            && (!t.jobs[id].start.ok ==>
                  !t.shared.IsCurrent(t.jobs[id].token) && (!s.jobs[id].start.Gate? ==> !Unwanted(t.shared)))
  {
    SeenHolds(schedule);
    var s := Run(Init(), schedule);
    assert JobOk(s.shared, s.jobs[id]) && SeesHost(s.shared, s.jobs[id]);
    if !ActsFor(event, id) {
      OthersLeave(s, event, id);
    } else if event.StartAction? {
      StartOwnAnswer(s.shared, s.jobs[id], event.answer);
    } else if event.GateAnswer? {
      GateOwnAnswer(s.shared, s.jobs[id], event.shouldStart);
    }
    hide Core, Seen, StartNext, GateNext;
  }

  predicate OwnAnswer(m: Shared, job: Job, after: Advanced<Job>)
    requires job.Start? && after.job.Start?
  {
    var n := after.shared;
    && after.job.token == job.token
    && (!Over(job) && Over(after.job) ==>
          && after.job.options == job.options
          && (after.job.start.ok ==> n.runState == Started && (n.host.Up() ==> n.host.vpn == job.options.enable))
          && (!after.job.start.ok ==> !n.IsCurrent(job.token) && (!job.start.Gate? ==> !Unwanted(n))))
  }

  lemma TransitionOwnAnswer(m: Shared, job: Job, answer: Answer)
    requires job.Start? && JobOk(m, job) && SeesHost(m, job) && InTransition(job.start)
    ensures TransitionNext(m, job, answer).job.Start? && OwnAnswer(m, job, TransitionNext(m, job, answer))
  {
  }

  lemma ReconcileOwnAnswer(m: Shared, job: Job)
    requires job.Start? && JobOk(m, job) && SeesHost(m, job) && InReconcile(job.start)
    ensures ReconcileNext(m, job).job.Start? && OwnAnswer(m, job, ReconcileNext(m, job))
  {
  }

  lemma StartOwnAnswer(m: Shared, job: Job, answer: Answer)
    requires job.Start? && JobOk(m, job) && SeesHost(m, job)
    ensures StartNext(m, job, answer).job.Start? && OwnAnswer(m, job, StartNext(m, job, answer))
  {
    hide TransitionNext, ReconcileNext, JobOk, SeesHost;
    if InTransition(job.start) {
      TransitionOwnAnswer(m, job, answer);
    } else if InReconcile(job.start) {
      ReconcileOwnAnswer(m, job);
    }
  }

  lemma GateOwnAnswer(m: Shared, job: Job, shouldStart: bool)
    requires job.Start? && JobOk(m, job)
    ensures GateNext(m, job, shouldStart).job.Start? && OwnAnswer(m, job, GateNext(m, job, shouldStart))
  {
  }

  // ---- Somebody sets things right

  /** The service is down although the newest intent or the published state says otherwise. */
  predicate Untrue(m: Shared) {
    !m.host.Up() && (m.intent.latest.running || m.runState != Stopped)
  }

  /** The published state is stopped, or is about to be by a refresh that has seen no service. */
  predicate StopsSoon(m: Shared) {
    m.runState == Stopped || m.RefreshStops()
  }

  /** The service is down, and a rollback of the newest request would not make that true. */
  predicate Lost(m: Shared) {
    !m.host.Up() && !StopsSoon(m)
  }

  /** Whoever is current, the coroutine will bring a service up or publish that there is none. */
  predicate Corrects(job: Job) {
    match job
    case Start(_, options, pc) =>
      || pc.Probe? || (pc.ProbeKind? && options.enable) || pc.SetStarting? || pc.CallStart? || pc.PublishFailed?
      || pc.SetStopping? || pc.CallStop? || pc.SetStopped?
    case Stop(_, pc) => pc.Abandon? || pc.ProbeStop? || pc.BeginStop? || pc.StopService? || pc.PublishStopped?
  }

  /** The start has not come past its check inside the transition lock, and has not reconciled either. */
  predicate Early(pc: StartPc) {
    || pc.Gate? || pc.WaitPreparation? || pc.FirstCheck? || pc.ReadOptions? || pc.Prepare? || pc.Consent?
    || pc.SecondCheck? || pc.WaitTransition? || pc.ThirdCheck? || pc.Fail? || pc.ThrownFail?
  }

  /** Nothing but a rollback is left for the start: it has been refused, or there are no options for it. */
  predicate Forced(m: Shared, job: Job)
    requires job.Start?
  {
    || (m.options.None?
        && (job.start.Gate? || job.start.WaitPreparation? || job.start.FirstCheck? || job.start.ReadOptions?))
    || (job.start.Consent? && m.pendingVpnPreparation != Some(job.token.id))
    || job.start.Fail? || job.start.ThrownFail?
  }

  /** The coroutine can set an untrue state right, alone or with the newest start behind it. */
  predicate Mends(m: Shared, job: Job) {
    || Corrects(job)
    || (m.IsCurrent(job.token) &&
        match job
        case Start(_, _, pc) => pc.FailRefused? || (Early(pc) && (Forced(m, job) ==> StopsSoon(m)))
        case Stop(_, pc) => pc.AwaitTransition? || pc.Check?)
  }

  /** A disconnect handler sets things right while the token it captured is still the newest. */
  predicate LossMends(m: Shared, loss: Loss) {
    || loss.pc.LossPublish?
    || (m.IsCurrent(loss.token) && (loss.pc.AwaitLock? || loss.pc.LossRunTime? || loss.pc.LossReset?))
  }

  predicate RefreshMends(m: Shared) {
    !m.intent.latest.running && m.RefreshStops()
  }

  ghost predicate SomebodyMends(s: State) {
    || (exists id :: id in s.jobs && Mends(s.shared, s.jobs[id]))
    || (exists i: nat :: i < |s.losses| && LossMends(s.shared, s.losses[i]))
    || RefreshMends(s.shared)
  }

  ghost predicate Mended(s: State) {
    Untrue(s.shared) ==> SomebodyMends(s)
  }

  /** Of all coroutines but one, none would set things right if the shared fields were `m`. */
  ghost predicate NobodyElse(m: Shared, s: State, job: Option<nat>, loss: Option<nat>) {
    && (forall id | id in s.jobs :: Some(id) != job ==> !Mends(m, s.jobs[id]))
    && (forall i: nat | i < |s.losses| :: Some(i) != loss ==> !LossMends(m, s.losses[i]))
  }

  /** The newest request is rolled back over a service that is lost, or with its next action will be. */
  predicate RollsBack(m: Shared, job: Job, answer: Answer) {
    && job.Start? && m.IsCurrent(job.token) && Lost(m)
    && (|| job.start.Fail? || job.start.ThrownFail?
        || (job.start.Prepare? && (answer.Denied? || answer.Throws?))
        || (job.start.Consent? && m.pendingVpnPreparation == Some(job.token.id) && answer.Denied?))
  }

  /** An exception leaves the transition lock and no service. */
  predicate ThrowsOut(m: Shared, job: Job, answer: Answer) {
    && job.Start? && answer.Throws?
    && ((job.start.CallStart? && !answer.after.Up()) || (job.start.ProbeKind? && Untrue(m)))
  }

  predicate RefusesAtGate(m: Shared, job: Job, shouldStart: bool) {
    job.Start? && m.IsCurrent(job.token) && Lost(m) && job.start.Gate? && !shouldStart
  }

  /** A loss is taken under a token that has been overtaken, so nothing but the service will be taken back. */
  predicate TakesOvertaken(m: Shared, loss: Loss, wasCurrent: bool) {
    loss.pc.Captured? && wasCurrent && m.host.Up() && !m.IsCurrent(loss.token)
  }

  /**
   The steps after which an untrue state is left to nobody: a loss taken under an overtaken token, the rollback of the
   newest request or a refusal that leads to it, the removal or absence of the options it needs, and an exception;
   each while no other coroutine could set things right in the state that the step leaves.
   */
  ghost predicate Deserts(s: State, event: Event) {
    var n := Next(s, event).shared;
    match event
    case RequestStart => Lost(s.shared) && s.shared.options.None? && NobodyElse(n, s, None, None)
    case SyncSharedState(options) => Lost(s.shared) && options.None? && NobodyElse(n, s, None, None)
    case GateAnswer(id, shouldStart) =>
      IsStart(s, id) && RefusesAtGate(s.shared, s.jobs[id], shouldStart) && NobodyElse(n, s, Some(id), None)
    case StartAction(id, answer) =>
      && IsStart(s, id) && (RollsBack(s.shared, s.jobs[id], answer) || ThrowsOut(s.shared, s.jobs[id], answer))
      && NobodyElse(n, s, Some(id), None)
    case LossAction(i, wasCurrent) =>
      i < |s.losses| && TakesOvertaken(s.shared, s.losses[i], wasCurrent) && NobodyElse(n, s, None, Some(i))
    case _ => false
  }

  // ---- One step of a request

  /** Nothing that the others' prospects depend on has become worse. */
  predicate NoWorse(m: Shared, n: Shared, job: Job) {
    && n.intent == m.intent && n.options == m.options && (StopsSoon(m) ==> StopsSoon(n))
    && (n.pendingVpnPreparation == m.pendingVpnPreparation || Preparing(job))
    && (RefreshMends(m) ==> RefreshMends(n))
  }

  /** The own part of a step: it leaves an untrue state unattended only where one of the faults says so. */
  predicate OwnMending(m: Shared, job: Job, after: Advanced<Job>, fault: bool) {
    var n := after.shared;
    && (fault ==> Untrue(n) && !Mends(n, after.job) && !RefreshMends(n))
    && (!fault && n.intent != m.intent ==> !Untrue(n) || RefreshMends(n))
    && (!fault && n.intent == m.intent && Untrue(n) && !Mends(n, after.job) ==>
          || (Untrue(m) && !Mends(m, job) && NoWorse(m, n, job))
          || (m.intent.latest.running && StopsSoon(n) && Acting(job) && !m.IsCurrent(job.token)))
  }

  lemma PrepareOwnMending(m: Shared, job: Job, answer: Answer)
    requires job.Start? && !InTransition(job.start) && !InReconcile(job.start)
    requires JobOk(m, job) && SeesHost(m, job) && HostSeen(m)
    ensures OwnMending(m, job, PrepareNext(m, job, answer), RollsBack(m, job, answer))
    ensures !ThrowsOut(m, job, answer)
  {
  }

  lemma TransitionOwnMending(m: Shared, job: Job, answer: Answer)
    requires job.Start? && InTransition(job.start)
    requires JobOk(m, job) && SeesHost(m, job) && HostSeen(m)
    ensures OwnMending(m, job, TransitionNext(m, job, answer), ThrowsOut(m, job, answer))
    ensures !RollsBack(m, job, answer)
  {
  }

  lemma ReconcileOwnMending(m: Shared, job: Job, answer: Answer)
    requires job.Start? && InReconcile(job.start)
    requires JobOk(m, job) && SeesHost(m, job) && HostSeen(m)
    ensures OwnMending(m, job, ReconcileNext(m, job), RollsBack(m, job, answer))
    ensures !ThrowsOut(m, job, answer)
  {
  }

  lemma StartOwnMending(m: Shared, job: Job, answer: Answer)
    requires job.Start? && JobOk(m, job) && SeesHost(m, job) && HostSeen(m)
    ensures OwnMending(m, job, StartNext(m, job, answer), RollsBack(m, job, answer) || ThrowsOut(m, job, answer))
  {
    hide PrepareNext, TransitionNext, ReconcileNext, OwnMending, RollsBack, ThrowsOut, JobOk, SeesHost, HostSeen;
    if InTransition(job.start) {
      TransitionOwnMending(m, job, answer);
    } else if InReconcile(job.start) {
      ReconcileOwnMending(m, job, answer);
    } else {
      PrepareOwnMending(m, job, answer);
    }
  }

  lemma StopOwnMending(m: Shared, job: Job)
    requires job.Stop? && JobOk(m, job) && SeesHost(m, job) && HostSeen(m)
    ensures OwnMending(m, job, StopNext(m, job), false)
  {
  }

  lemma GateOwnMending(m: Shared, job: Job, shouldStart: bool)
    requires job.Start? && JobOk(m, job) && SeesHost(m, job) && HostSeen(m)
    ensures OwnMending(m, job, GateNext(m, job, shouldStart), RefusesAtGate(m, job, shouldStart))
  {
  }

  lemma OtherMendsStill(m: Shared, n: Shared, job: Job, other: Job)
    requires NoWorse(m, n, job) && JobOk(m, job) && JobOk(m, other) && job.token.id != other.token.id && Mends(m, other)
    ensures Mends(n, other)
  {
  }

  /** While an overtaken coroutine still acts, the start of the newest intent has not come past its checks. */
  lemma NewestIsEarly(s: State, id: nat)
    requires Core(s) && Seen(s) && id in s.jobs
    requires s.shared.intent.latest.running && Acting(s.jobs[id]) && !s.shared.IsCurrent(s.jobs[id].token)
    ensures var newest := s.shared.intent.latest.id;
            IsStart(s, newest) && newest != id && s.shared.IsCurrent(s.jobs[newest].token)
                && Early(s.jobs[newest].start)
  {
    var newest := s.shared.intent.latest.id;
    assert JobOk(s.shared, s.jobs[newest]) && JobOk(s.shared, s.jobs[id]);
    assert !Won(s.shared, s.jobs[newest]);
    assert !Inside(s.jobs[newest]);
  }

  lemma AdvanceMendedExactly(s: State, id: nat, after: Advanced<Job>, fault: bool)
    requires Core(s) && Seen(s) && Mended(s) && id in s.jobs && OwnMending(s.shared, s.jobs[id], after, fault)
    ensures Mended(WithJob(s, id, after)) <==> !(fault && NobodyElse(after.shared, s, Some(id), None))
  {
    if fault {
      FaultIsLeftToOthers(s, id, after);
    } else {
      AdvanceKeepsMended(s, id, after);
    }
  }

  lemma FaultIsLeftToOthers(s: State, id: nat, after: Advanced<Job>)
    requires id in s.jobs && Untrue(after.shared) && !Mends(after.shared, after.job) && !RefreshMends(after.shared)
    ensures Mended(WithJob(s, id, after)) <==> !NobodyElse(after.shared, s, Some(id), None)
  {
    var t := WithJob(s, id, after);
    assert t.jobs[id] == after.job && forall k | k in s.jobs && k != id :: t.jobs[k] == s.jobs[k];
    hide Mends, LossMends, Untrue, RefreshMends;
  }

  lemma AdvanceKeepsMended(s: State, id: nat, after: Advanced<Job>)
    requires Core(s) && Seen(s) && Mended(s) && id in s.jobs && OwnMending(s.shared, s.jobs[id], after, false)
    ensures Mended(WithJob(s, id, after))
  {
    var m, n, job, t := s.shared, after.shared, s.jobs[id], WithJob(s, id, after);
    hide Core, Seen, Mends, LossMends, Untrue, RefreshMends, NoWorse, Acting, StopsSoon;
    assert t.jobs[id] == after.job;
    if n.intent == m.intent && Untrue(n) && !Mends(n, after.job) {
      if m.intent.latest.running && StopsSoon(n) && Acting(job) && !m.IsCurrent(job.token) {
        NewestIsEarly(s, id);
        EarlyMends(n, t.jobs[m.intent.latest.id]);
      } else {
        UnhelpedKeepsMended(s, id, after);
      }
    }
  }

  lemma EarlyMends(m: Shared, job: Job)
    requires job.Start? && m.IsCurrent(job.token) && Early(job.start) && StopsSoon(m)
    ensures Mends(m, job)
  {
  }

  lemma UnhelpedKeepsMended(s: State, id: nat, after: Advanced<Job>)
    requires Core(s) && SomebodyMends(s) && id in s.jobs
    requires !Mends(s.shared, s.jobs[id]) && NoWorse(s.shared, after.shared, s.jobs[id])
    ensures SomebodyMends(WithJob(s, id, after))
  {
    var t := WithJob(s, id, after);
    if i: nat :| i < |s.losses| && LossMends(s.shared, s.losses[i]) {
      assert LossMends(t.shared, t.losses[i]);
    } else if k :| k in s.jobs && Mends(s.shared, s.jobs[k]) {
      assert JobOk(s.shared, s.jobs[k]) && JobOk(s.shared, s.jobs[id]);
      OtherMendsStill(s.shared, t.shared, s.jobs[id], s.jobs[k]);
      assert Mends(t.shared, t.jobs[k]);
    }
  }

  // ---- Every step

  lemma StartMendedExactly(s: State, id: nat, answer: Answer)
    requires Core(s) && Seen(s) && Mended(s) && IsStart(s, id)
    ensures Mended(Next(s, StartAction(id, answer))) <==> !Deserts(s, StartAction(id, answer))
  {
    var m, job := s.shared, s.jobs[id];
    assert JobOk(m, job) && SeesHost(m, job) && HostSeen(m);
    StartOwnMending(m, job, answer);
    hide StartNext, OwnMending, Core, Seen, Mended, NobodyElse, RollsBack, ThrowsOut, JobOk, SeesHost, HostSeen;
    AdvanceMendedExactly(s, id, StartNext(m, job, answer), RollsBack(m, job, answer) || ThrowsOut(m, job, answer));
  }

  lemma GateMendedExactly(s: State, id: nat, shouldStart: bool)
    requires Core(s) && Seen(s) && Mended(s) && IsStart(s, id)
    ensures Mended(Next(s, GateAnswer(id, shouldStart))) <==> !Deserts(s, GateAnswer(id, shouldStart))
  {
    var m, job := s.shared, s.jobs[id];
    assert JobOk(m, job) && SeesHost(m, job) && HostSeen(m);
    GateOwnMending(m, job, shouldStart);
    hide GateNext, OwnMending, Core, Seen, Mended, NobodyElse, RefusesAtGate, JobOk, SeesHost, HostSeen;
    AdvanceMendedExactly(s, id, GateNext(m, job, shouldStart), RefusesAtGate(m, job, shouldStart));
  }

  lemma StopKeepsMended(s: State, id: nat)
    requires Core(s) && Seen(s) && Mended(s) && IsStop(s, id)
    ensures Mended(Next(s, StopAction(id)))
  {
    var m, job := s.shared, s.jobs[id];
    assert JobOk(m, job) && SeesHost(m, job) && HostSeen(m);
    StopOwnMending(m, job);
    hide StopNext, OwnMending, Core, Seen, Mended, NobodyElse, JobOk, SeesHost, HostSeen;
    AdvanceMendedExactly(s, id, StopNext(m, job), false);
  }

  /** The own part of a disconnect handler's step, and what it leaves of the others' prospects. */
  lemma LossOwnMending(m: Shared, index: nat, loss: Loss, wasCurrent: bool)
    requires LossOk(m, index, loss) && HostSeen(m)
    ensures var after := LossNext(m, index, loss, wasCurrent);
            var n := after.shared;
            && (TakesOvertaken(m, loss, wasCurrent) ==> Untrue(n) && !LossMends(n, after.job) && !RefreshMends(n))
            && (n.intent != m.intent ==> LossMends(n, after.job))
            && (!TakesOvertaken(m, loss, wasCurrent) && Untrue(n) && !LossMends(n, after.job) ==>
                  || loss.pc.LossPublish?
                  || (Untrue(m) && !LossMends(m, loss) && n.intent == m.intent && n.options == m.options
                      && n.pendingVpnPreparation == m.pendingVpnPreparation && (StopsSoon(m) <==> StopsSoon(n))
                      && (RefreshMends(m) ==> RefreshMends(n))))
            && (loss.pc.LossPublish? ==> n.intent == m.intent && StopsSoon(n))
  {
  }

  lemma NewestIsEarlyAtLoss(s: State, index: nat)
    requires Core(s) && Seen(s) && index < |s.losses| && s.losses[index].pc.LossPublish?
        && s.shared.intent.latest.running
    ensures var newest := s.shared.intent.latest.id;
            IsStart(s, newest) && s.shared.IsCurrent(s.jobs[newest].token) && Early(s.jobs[newest].start)
  {
    var newest := s.shared.intent.latest.id;
    assert LossOk(s.shared, index, s.losses[index]) && LossSeen(s, s.losses[index]);
    assert JobOk(s.shared, s.jobs[newest]) && !Won(s.shared, s.jobs[newest]) && !Inside(s.jobs[newest]);
  }

  lemma LossMendedExactly(s: State, index: nat, wasCurrent: bool)
    requires Core(s) && Seen(s) && Mended(s) && index < |s.losses|
    ensures Mended(Next(s, LossAction(index, wasCurrent))) <==> !Deserts(s, LossAction(index, wasCurrent))
  {
    var m, loss, t := s.shared, s.losses[index], Next(s, LossAction(index, wasCurrent));
    assert LossOk(m, index, loss);
    LossOwnMending(m, index, loss, wasCurrent);
    assert t.jobs == s.jobs && forall i: nat | i < |s.losses| && i != index :: t.losses[i] == s.losses[i];
    if !TakesOvertaken(m, loss, wasCurrent) && Untrue(t.shared) && !LossMends(t.shared, t.losses[index]) {
      if loss.pc.LossPublish? {
        NewestIsEarlyAtLoss(s, index);
        assert Mends(t.shared, t.jobs[m.intent.latest.id]);
      } else {
        assert forall k | k in s.jobs :: Mends(m, s.jobs[k]) ==> Mends(t.shared, t.jobs[k]);
        assert forall i: nat | i < |s.losses| :: LossMends(m, s.losses[i]) ==> LossMends(t.shared, t.losses[i]);
      }
    }
    hide Mends, LossMends, Untrue, LossNext, Core, Seen, TakesOvertaken, RefreshMends, StopsSoon;
  }

  lemma StartRequestMendedExactly(s: State)
    requires Core(s) && Seen(s) && Mended(s)
    ensures Mended(Next(s, RequestStart)) <==> !Deserts(s, RequestStart)
  {
    var t := Next(s, RequestStart);
    var id := t.shared.intent.latest.id;
    assert id in t.jobs && t.jobs[id].start == Gate && t.shared.IsCurrent(t.jobs[id].token);
    forall k | k in s.jobs ensures k != id && t.jobs[k] == s.jobs[k] {
      assert JobOk(s.shared, s.jobs[k]);
    }
    assert Mends(t.shared, t.jobs[id]) <==> (t.shared.options.None? ==> StopsSoon(t.shared));
    hide Mends, LossMends, Core, Seen;
  }

  lemma StopRequestKeepsMended(s: State)
    ensures Mended(Next(s, RequestStop))
  {
    var t := Next(s, RequestStop);
    var id := t.shared.intent.latest.id;
    assert id in t.jobs && Mends(t.shared, t.jobs[id]);
  }

  lemma OptionsMendedExactly(s: State, options: Option<VpnOptions>)
    requires Mended(s)
    ensures Mended(Next(s, SyncSharedState(options))) <==> !Deserts(s, SyncSharedState(options))
  {
    var t := Next(s, SyncSharedState(options));
    assert Untrue(t.shared) == Untrue(s.shared) && Lost(t.shared) == Lost(s.shared)
        && RefreshMends(t.shared) == RefreshMends(s.shared);
    assert Lost(s.shared) ==> Untrue(s.shared) && !RefreshMends(s.shared);
    assert forall i: nat | i < |s.losses| :: LossMends(t.shared, s.losses[i]) == LossMends(s.shared, s.losses[i]);
    if options.Some? || !Lost(s.shared) {
      forall k | k in s.jobs && Untrue(s.shared) && Mends(s.shared, s.jobs[k]) ensures Mends(t.shared, t.jobs[k]) {
      }
    }
    hide Mends, LossMends, Untrue, RefreshMends, Lost;
  }

  lemma OutsideKeepsMended(s: State, event: Event)
    requires Seen(s) && Mended(s) && (event.Refresh? || event.PublishRefresh? || event.Disconnected?)
    ensures Mended(Next(s, event))
  {
    var t := Next(s, event);
    assert HostSeen(s.shared);
    assert t.jobs == s.jobs && t.shared.intent == s.shared.intent && t.shared.options == s.shared.options;
    assert Untrue(t.shared) ==> Untrue(s.shared) && (RefreshMends(s.shared) ==> RefreshMends(t.shared));
    assert StopsSoon(s.shared) ==> StopsSoon(t.shared);
    assert forall k | k in s.jobs :: Mends(s.shared, s.jobs[k]) ==> Mends(t.shared, t.jobs[k]);
    assert forall i: nat | i < |s.losses| ::
        t.losses[i] == s.losses[i] && LossMends(t.shared, t.losses[i]) == LossMends(s.shared, s.losses[i]);
    hide Mends, LossMends, Untrue, RefreshMends;
  }

  /** Exactly these faults leave an untrue state to nobody, whatever else is going on. */
  lemma DesertsExactly(s: State, event: Event)
    requires Core(s) && Seen(s) && Mended(s)
    ensures Mended(Next(s, event)) <==> !Deserts(s, event)
  {
    match event
    case RequestStart => StartRequestMendedExactly(s);
    case RequestStop => StopRequestKeepsMended(s);
    case SyncSharedState(options) => OptionsMendedExactly(s, options);
    case GateAnswer(id, shouldStart) =>
      if IsStart(s, id) {
        GateMendedExactly(s, id, shouldStart);
      }
    case StartAction(id, answer) =>
      if IsStart(s, id) {
        StartMendedExactly(s, id, answer);
      }
    case StopAction(id) =>
      if IsStop(s, id) {
        StopKeepsMended(s, id);
      }
    case LossAction(index, wasCurrent) =>
      if index < |s.losses| {
        LossMendedExactly(s, index, wasCurrent);
      }
    case _ => OutsideKeepsMended(s, event);
  }

  // ---- Every run

  ghost predicate NeverDeserts(schedule: seq<Event>)
    decreases |schedule|
  {
    schedule != [] ==>
      && NeverDeserts(schedule[..|schedule| - 1])
      && !Deserts(Run(Init(), schedule[..|schedule| - 1]), schedule[|schedule| - 1])
  }

  lemma {:induction false} MendedHolds(schedule: seq<Event>)
    requires NeverDeserts(schedule)
    ensures Mended(Run(Init(), schedule))
    decreases |schedule|
  {
    if schedule != [] {
      hide Core, Seen, Mended, Deserts, Next;
      var before := schedule[..|schedule| - 1];
      MendedHolds(before);
      SeenHolds(before);
      DesertsExactly(Run(Init(), before), schedule[|schedule| - 1]);
    }
  }

  predicate Done(job: Job) {
    if job.Start? then job.start.Finished? else job.stop.Ended?
  }

  ghost predicate Quiescent(s: State) {
    forall id | id in s.jobs :: Done(s.jobs[id])
  }

  /** Every request is answered, every disconnect handled and every refresh published. */
  ghost predicate AllDone(s: State) {
    Quiescent(s) && (forall i | 0 <= i < |s.losses| :: s.losses[i].pc.Settled?) && !s.shared.Refreshing()
  }

  /**
   The service, the newest intent and the published state agree; the newest request has been told so, and a running
   service is of the kind that it asked for.
   */
  ghost predicate Agrees(s: State) {
    && (s.shared.host.Up() <==> s.shared.intent.latest.running)
    && s.shared.runState == (if s.shared.intent.latest.running then Started else Stopped)
    && (s.shared.intent.latest.running ==>
          && IsStart(s, s.shared.intent.latest.id)
          && s.jobs[s.shared.intent.latest.id].start == Finished(true)
          && s.shared.host.vpn == s.jobs[s.shared.intent.latest.id].options.enable)
    && (IsStop(s, s.shared.intent.latest.id) ==> s.jobs[s.shared.intent.latest.id].stop == Ended(true))
  }

  lemma DoneMendsNothing(s: State)
    requires AllDone(s)
    ensures !SomebodyMends(s)
  {
    forall id | id in s.jobs ensures !Mends(s.shared, s.jobs[id]) {
      assert Done(s.jobs[id]);
    }
    assert forall i: nat | i < |s.losses| :: !LossMends(s.shared, s.losses[i]);
  }

  lemma TrueAgrees(s: State)
    requires Core(s) && Seen(s) && Quiescent(s) && !Unwanted(s.shared) && !Untrue(s.shared)
    ensures Agrees(s)
  {
    var id := s.shared.intent.latest.id;
    if s.shared.intent.latest.running {
      assert JobOk(s.shared, s.jobs[id]) && Done(s.jobs[id]);
      assert Won(s.shared, s.jobs[id]) && WonOk(s.shared, s.jobs[id]);
    } else if IsStop(s, id) {
      assert JobOk(s.shared, s.jobs[id]) && Done(s.jobs[id]);
    }
  }

  /** In an ended run nothing is left to set right and nothing to stop exactly if everything agrees. */
  lemma AgreesExactly(s: State)
    requires Core(s) && Seen(s) && AllDone(s)
    ensures Agrees(s) <==> Mended(s) && !Unwanted(s.shared)
  {
    DoneMendsNothing(s);
    if Mended(s) && !Unwanted(s.shared) {
      TrueAgrees(s);
    }
  }

  lemma CoveredIsWanted(s: State)
    requires Covered(s) && Quiescent(s)
    ensures !Unwanted(s.shared)
  {
    assert forall k | k in s.jobs :: Done(s.jobs[k]) && !Bound(s.shared, s.jobs[k]);
  }

  /**
   Whatever the interleaving, the losses and the exceptions: once every request is answered and every disconnect
   handled, service, newest intent and published state agree, unless a refusal stranded a running service or a fault
   left an untrue state to nobody.
   */
  lemma SettlesDespiteLosses(schedule: seq<Event>)
    requires NeverStrands(schedule) && NeverDeserts(schedule) && AllDone(Run(Init(), schedule))
    ensures Agrees(Run(Init(), schedule))
  {
    SeenHolds(schedule);
    MendedHolds(schedule);
    UnwantedServiceIsCovered(schedule);
    CoveredIsWanted(Run(Init(), schedule));
    AgreesExactly(Run(Init(), schedule));
  }

  // ---- A deserted state stays untrue until the next request

  /** An event by which a coroutine advances, as opposed to a new request or a change from outside. */
  predicate IsAction(event: Event) {
    event.GateAnswer? || event.StartAction? || event.StopAction? || event.LossAction? || event.PublishRefresh?
  }

  /** A step of a coroutine that does not mend makes nothing better, for itself or for others. */
  predicate StaysUntrue(m: Shared, job: Job, after: Advanced<Job>) {
    var n := after.shared;
    Untrue(m) && !Mends(m, job) ==>
      && Untrue(n) && !Mends(n, after.job) && n.options == m.options
      && (StopsSoon(n) ==> StopsSoon(m)) && (!RefreshMends(m) ==> !RefreshMends(n))
      && n.pendingVpnPreparation in {m.pendingVpnPreparation, None, Some(job.token.id)}
      && (n.intent == m.intent || n.intent == AfterReset(m.intent, job.token))
  }

  lemma PrepareStaysUntrue(m: Shared, job: Job, answer: Answer)
    requires job.Start? && JobOk(m, job) && SeesHost(m, job) && !InTransition(job.start) && !InReconcile(job.start)
    ensures StaysUntrue(m, job, PrepareNext(m, job, answer))
  {
  }

  lemma TransitionStaysUntrue(m: Shared, job: Job, answer: Answer)
    requires job.Start? && JobOk(m, job) && SeesHost(m, job) && InTransition(job.start)
    ensures StaysUntrue(m, job, TransitionNext(m, job, answer))
  {
  }

  lemma ReconcileStaysUntrue(m: Shared, job: Job)
    requires job.Start? && JobOk(m, job) && SeesHost(m, job) && InReconcile(job.start)
    ensures StaysUntrue(m, job, ReconcileNext(m, job))
  {
  }

  lemma StartStaysUntrue(m: Shared, job: Job, answer: Answer)
    requires job.Start? && JobOk(m, job) && SeesHost(m, job)
    ensures StaysUntrue(m, job, StartNext(m, job, answer))
  {
    hide StaysUntrue, JobOk, SeesHost, PrepareNext, TransitionNext, ReconcileNext;
    if InTransition(job.start) {
      TransitionStaysUntrue(m, job, answer);
    } else if InReconcile(job.start) {
      ReconcileStaysUntrue(m, job);
    } else {
      PrepareStaysUntrue(m, job, answer);
    }
  }

  lemma StopStaysUntrue(m: Shared, job: Job)
    requires job.Stop? && JobOk(m, job) && SeesHost(m, job)
    ensures StaysUntrue(m, job, StopNext(m, job))
  {
  }

  lemma GateStaysUntrue(m: Shared, job: Job, shouldStart: bool)
    requires job.Start? && JobOk(m, job)
    ensures StaysUntrue(m, job, GateNext(m, job, shouldStart))
  {
  }

  lemma OtherStaysUnhelpful(m: Shared, n: Shared, id: nat, other: Job)
    requires JobOk(m, other) && id != other.token.id && !Mends(m, other)
    requires n.options == m.options && (StopsSoon(n) ==> StopsSoon(m))
    requires n.pendingVpnPreparation in {m.pendingVpnPreparation, None, Some(id)}
    requires n.intent == m.intent || n.intent.latest.id == m.intent.minted
    ensures !Mends(n, other)
  {
  }

  lemma AdvanceStaysUnmended(s: State, id: nat, after: Advanced<Job>)
    requires Core(s) && Seen(s) && !Mended(s) && id in s.jobs && StaysUntrue(s.shared, s.jobs[id], after)
    ensures !Mended(WithJob(s, id, after))
  {
    var m, t := s.shared, WithJob(s, id, after);
    assert !Mends(m, s.jobs[id]);
    forall k | k in t.jobs ensures !Mends(t.shared, t.jobs[k]) {
      assert k in s.jobs && !Mends(m, s.jobs[k]) && JobOk(m, s.jobs[k]);
      if k != id {
        OtherStaysUnhelpful(m, t.shared, id, s.jobs[k]);
      }
    }
    forall i: nat | i < |t.losses| ensures !LossMends(t.shared, t.losses[i]) {
      assert !LossMends(m, s.losses[i]) && LossSeen(s, s.losses[i]);
    }
  }

  lemma LossStaysUnmended(s: State, index: nat, wasCurrent: bool)
    requires Core(s) && Seen(s) && !Mended(s) && index < |s.losses|
    ensures !Mended(Next(s, LossAction(index, wasCurrent)))
  {
    var m, t := s.shared, Next(s, LossAction(index, wasCurrent));
    assert LossOk(m, index, s.losses[index]) && !LossMends(m, s.losses[index]);
    LossStaysUntrue(m, index, s.losses[index], wasCurrent);
    hide LossNext, LossMends, Mends;
    forall k | k in t.jobs ensures !Mends(t.shared, t.jobs[k]) {
      assert k in s.jobs && !Mends(m, s.jobs[k]);
      EqualViewMends(m, t.shared, s.jobs[k]);
    }
    forall i: nat | i < |t.losses| ensures !LossMends(t.shared, t.losses[i]) {
      assert !LossMends(m, s.losses[i]);
      assert i != index ==> t.losses[i] == s.losses[i];
      LossMendsByIntent(m, t.shared, s.losses[i]);
    }
  }

  lemma LossStaysUntrue(m: Shared, index: nat, loss: Loss, wasCurrent: bool)
    requires LossOk(m, index, loss) && Untrue(m) && !LossMends(m, loss)
    ensures var after := LossNext(m, index, loss, wasCurrent);
            && after.shared == m.(transitionLock := after.shared.transitionLock) && !LossMends(after.shared, after.job)
            && (RefreshMends(after.shared) ==> RefreshMends(m)) && (StopsSoon(after.shared) <==> StopsSoon(m))
  {
  }

  lemma EqualViewMends(m: Shared, n: Shared, job: Job)
    requires n == m.(transitionLock := n.transitionLock) && (StopsSoon(n) <==> StopsSoon(m))
    ensures Mends(n, job) <==> Mends(m, job)
  {
  }

  lemma LossMendsByIntent(m: Shared, n: Shared, loss: Loss)
    requires n.intent == m.intent
    ensures LossMends(n, loss) <==> LossMends(m, loss)
  {
  }

  lemma RefreshStaysUnmended(s: State, who: nat)
    requires Seen(s) && !Mended(s)
    ensures !Mended(Next(s, PublishRefresh(who)))
  {
    var m, t := s.shared, Next(s, PublishRefresh(who));
    assert HostSeen(m) && t.jobs == s.jobs && t.losses == s.losses;
    assert Untrue(t.shared) && t.shared.intent == m.intent && t.shared.options == m.options;
    assert StopsSoon(t.shared) ==> StopsSoon(m);
    forall k | k in t.jobs ensures !Mends(t.shared, t.jobs[k]) {
      assert !Mends(m, s.jobs[k]);
    }
    forall i: nat | i < |t.losses| ensures !LossMends(t.shared, t.losses[i]) {
      assert !LossMends(m, s.losses[i]);
    }
  }

  lemma ActionStaysUnmended(s: State, event: Event)
    requires Core(s) && Seen(s) && !Mended(s) && IsAction(event)
    ensures !Mended(Next(s, event))
  {
    hide Mended, StaysUntrue, StartNext, StopNext, GateNext;
    match event
    case GateAnswer(id, shouldStart) =>
      if IsStart(s, id) {
        assert JobOk(s.shared, s.jobs[id]);
        GateStaysUntrue(s.shared, s.jobs[id], shouldStart);
        AdvanceStaysUnmended(s, id, GateNext(s.shared, s.jobs[id], shouldStart));
      }
    case StartAction(id, answer) =>
      if IsStart(s, id) {
        assert JobOk(s.shared, s.jobs[id]) && SeesHost(s.shared, s.jobs[id]);
        StartStaysUntrue(s.shared, s.jobs[id], answer);
        AdvanceStaysUnmended(s, id, StartNext(s.shared, s.jobs[id], answer));
      }
    case StopAction(id) =>
      if IsStop(s, id) {
        assert JobOk(s.shared, s.jobs[id]) && SeesHost(s.shared, s.jobs[id]);
        StopStaysUntrue(s.shared, s.jobs[id]);
        AdvanceStaysUnmended(s, id, StopNext(s.shared, s.jobs[id]));
      }
    case LossAction(index, wasCurrent) =>
      if index < |s.losses| {
        LossStaysUnmended(s, index, wasCurrent);
      }
    case PublishRefresh(who) => RefreshStaysUnmended(s, who);
  }

  lemma {:induction false} ActionsStayUnmended(schedule: seq<Event>, rest: seq<Event>)
    requires !Mended(Run(Init(), schedule))
    requires forall k | 0 <= k < |rest| :: IsAction(rest[k])
    ensures !Mended(Run(Init(), schedule + rest))
  {
    hide Mended, Next, Core, Seen, IsAction;
    if rest == [] {
      assert schedule + rest == schedule;
    } else {
      var before, event := schedule + rest[..|rest| - 1], rest[|rest| - 1];
      ActionsStayUnmended(schedule, rest[..|rest| - 1]);
      SeenHolds(before);
      ActionStaysUnmended(Run(Init(), before), event);
      assert schedule + rest == before + [event] && (before + [event])[..|before|] == before;
    }
  }

  /**
   The faults are exactly what they are called: after a run without any, one more event that strands nothing, and the
   coroutines' own actions until all is done, everything agrees if and only if that event deserted nothing.
   */
  lemma SettlesExactly(schedule: seq<Event>, event: Event, rest: seq<Event>)
    requires NeverDeserts(schedule) && NeverStrands(schedule + [event] + rest)
    requires forall k | 0 <= k < |rest| :: IsAction(rest[k])
    requires NeverDeserts(schedule + [event]) ==> NeverDeserts(schedule + [event] + rest)
    requires AllDone(Run(Init(), schedule + [event] + rest))
    ensures Agrees(Run(Init(), schedule + [event] + rest)) <==> !Deserts(Run(Init(), schedule), event)
  {
    hide Mended, Next, Core, Seen, Covered, Deserts, AllDone, Agrees, IsAction, Unwanted;
    var longer, all := schedule + [event], schedule + [event] + rest;
    assert longer[..|longer| - 1] == schedule;
    SeenHolds(schedule);
    MendedHolds(schedule);
    DesertsExactly(Run(Init(), schedule), event);
    SeenHolds(all);
    UnwantedServiceIsCovered(all);
    assert !Unwanted(Run(Init(), all).shared) by {
      assert Quiescent(Run(Init(), all)) by {
        DoneIsQuiescent(Run(Init(), all));
      }
      CoveredIsWanted(Run(Init(), all));
    }
    AgreesExactly(Run(Init(), all));
    if Deserts(Run(Init(), schedule), event) {
      ActionsStayUnmended(longer, rest);
    } else {
      MendedHolds(all);
    }
  }

  lemma DoneIsQuiescent(s: State)
    requires AllDone(s)
    ensures Quiescent(s)
  {
  }

  // ---- Runs without losses and exceptions

  /** `startService` throws and leaves no service behind. */
  predicate ThrowsDown(s: State, event: Event) {
    && event.StartAction? && IsStart(s, event.id)
    && s.jobs[event.id].start == CallStart
    && event.answer.Throws? && !event.answer.after.Up()
  }

  /** Nothing but refusals of the ordinary kind goes wrong. */
  ghost predicate Faultless(schedule: seq<Event>)
    decreases |schedule|
  {
    schedule != [] ==>
      var before := Run(Init(), schedule[..|schedule| - 1]);
      var event := schedule[|schedule| - 1];
      && Faultless(schedule[..|schedule| - 1])
      && !Strands(before, event) && !event.Disconnected? && !ThrowsDown(before, event)
  }

  /** The coroutine has published an intermediate state that it has not replaced yet. */
  predicate Busy(job: Job) {
    match job
    case Start(_, _, pc) => pc.CallStart? || pc.PublishFailed? || pc.CallStop? || pc.SetStopped?
    case Stop(_, pc) => pc.StopService? || pc.PublishStopped?
  }

  /** What those inside the transition lock know of the service is still so. */
  predicate StillSees(m: Shared, job: Job) {
    job.Start? && job.start.ProbeKind? ==> m.host.Up()
  }

  predicate RefreshSees(m: Shared) {
    m.Refreshing() ==> (m.transitionLock.value.seen <==> m.host.Up())
  }

  /** What a machine without faults has published is right, unless somebody is just about to replace it. */
  ghost predicate Quiet(s: State) {
    && s.losses == [] && RefreshSees(s.shared)
    && (forall id | id in s.jobs :: StillSees(s.shared, s.jobs[id]))
    && ((forall id | id in s.jobs :: !Busy(s.jobs[id])) && !s.shared.host.Up() ==> s.shared.runState == Stopped)
  }

  predicate Rests(m: Shared, job: Job) {
    !Busy(job) && !m.host.Up() ==> m.runState == Stopped
  }

  predicate OwnQuiet(m: Shared, job: Job, after: Advanced<Job>) {
    (Rests(m, job) ==> Rests(after.shared, after.job)) && (StillSees(m, job) ==> StillSees(after.shared, after.job))
  }

  lemma StartRests(m: Shared, job: Job, answer: Answer)
    requires job.Start? && SeesHost(m, job)
    requires job.start.CallStart? && answer.Throws? ==> answer.after.Up()
    ensures OwnQuiet(m, job, StartNext(m, job, answer))
  {
  }

  lemma StopRests(m: Shared, job: Job)
    requires job.Stop? && SeesHost(m, job)
    ensures OwnQuiet(m, job, StopNext(m, job))
  {
  }

  lemma GateRests(m: Shared, job: Job, shouldStart: bool)
    requires job.Start?
    ensures OwnQuiet(m, job, GateNext(m, job, shouldStart))
  {
  }

  lemma AdvanceKeepsQuiet(s: State, id: nat, after: Advanced<Job>)
    requires Core(s) && Quiet(s) && id in s.jobs && Advances(s.shared, s.jobs[id], after)
        && OwnQuiet(s.shared, s.jobs[id], after)
    ensures Quiet(WithJob(s, id, after))
  {
    var t := WithJob(s, id, after);
    assert JobOk(s.shared, s.jobs[id]);
    forall k | k in t.jobs ensures StillSees(t.shared, t.jobs[k]) {
      assert StillSees(s.shared, s.jobs[k]) && JobOk(s.shared, s.jobs[k]);
    }
    if (forall k | k in t.jobs :: !Busy(t.jobs[k])) && !t.shared.host.Up() {
      assert t.jobs[id] == after.job;
      assert forall k | k in s.jobs && k != id :: t.jobs[k] == s.jobs[k] && !Busy(s.jobs[k]);
      assert Busy(s.jobs[id]) || (forall k | k in s.jobs :: !Busy(s.jobs[k]));
    }
  }

  lemma RequestKeepsQuiet(s: State, running: bool)
    requires Core(s) && Quiet(s)
    ensures Quiet(Requested(s, running))
  {
    var t := Requested(s, running);
    forall k | k in t.jobs ensures StillSees(t.shared, t.jobs[k]) {
      assert k in s.jobs ==> StillSees(s.shared, s.jobs[k]);
    }
    if forall k | k in t.jobs :: !Busy(t.jobs[k]) {
      forall k | k in s.jobs ensures !Busy(s.jobs[k]) {
        assert JobOk(s.shared, s.jobs[k]) && t.jobs[k] == s.jobs[k];
      }
    }
  }

  lemma OutsideKeepsQuiet(s: State, event: Event)
    requires Quiet(s)
    requires event.SyncSharedState? || event.Refresh? || event.PublishRefresh? || event.LossAction?
    ensures Quiet(Next(s, event))
  {
    var t := Next(s, event);
    assert t.jobs == s.jobs && t.shared.host == s.shared.host;
    assert forall id | id in s.jobs :: StillSees(s.shared, s.jobs[id]) ==> StillSees(t.shared, s.jobs[id]);
  }

  lemma NextKeepsQuiet(s: State, event: Event)
    requires Core(s) && Seen(s) && Quiet(s) && !event.Disconnected? && !ThrowsDown(s, event)
    ensures Quiet(Next(s, event))
  {
    hide StartNext, StopNext, GateNext, Core, OwnQuiet, Busy, Advances, StillSees;
    match event
    case RequestStart => RequestKeepsQuiet(s, true);
    case RequestStop => RequestKeepsQuiet(s, false);
    case GateAnswer(id, shouldStart) =>
      if IsStart(s, id) {
        CoreAdvances(s, event, id);
        GateRests(s.shared, s.jobs[id], shouldStart);
        AdvanceKeepsQuiet(s, id, GateNext(s.shared, s.jobs[id], shouldStart));
      }
    case StartAction(id, answer) =>
      if IsStart(s, id) {
        CoreAdvances(s, event, id);
        StartRests(s.shared, s.jobs[id], answer);
        AdvanceKeepsQuiet(s, id, StartNext(s.shared, s.jobs[id], answer));
      }
    case StopAction(id) =>
      if IsStop(s, id) {
        CoreAdvances(s, event, id);
        StopRests(s.shared, s.jobs[id]);
        AdvanceKeepsQuiet(s, id, StopNext(s.shared, s.jobs[id]));
      }
    case _ => OutsideKeepsQuiet(s, event);
  }

  lemma CoreAdvances(s: State, event: Event, id: nat)
    requires Core(s) && id in s.jobs
    ensures event.GateAnswer? && IsStart(s, id) ==>
        Advances(s.shared, s.jobs[id], GateNext(s.shared, s.jobs[id], event.shouldStart))
    ensures event.StartAction? && IsStart(s, id) ==>
        Advances(s.shared, s.jobs[id], StartNext(s.shared, s.jobs[id], event.answer))
    ensures event.StopAction? && IsStop(s, id) ==> Advances(s.shared, s.jobs[id], StopNext(s.shared, s.jobs[id]))
  {
    assert JobOk(s.shared, s.jobs[id]);
    hide Advances, GateNext, StartNext, StopNext;
    if event.GateAnswer? && IsStart(s, id) {
      GateAdvances(s.shared, s.jobs[id], event.shouldStart);
    } else if event.StartAction? && IsStart(s, id) {
      StartAdvances(s.shared, s.jobs[id], event.answer);
    } else if event.StopAction? && IsStop(s, id) {
      StopAdvances(s.shared, s.jobs[id]);
    }
  }

  /** Without faults a service that is lost has somebody at work on it. */
  lemma QuietLost(s: State, m: Shared, job: Option<nat>)
    requires Quiet(s) && Lost(s.shared) && (job.Some? && job.value in s.jobs ==> !Busy(s.jobs[job.value]))
    ensures !NobodyElse(m, s, job, None)
  {
    var k :| k in s.jobs && Busy(s.jobs[k]);
    assert Some(k) != job && Mends(m, s.jobs[k]);
  }

  lemma QuietNeverDeserts(s: State, event: Event)
    requires Core(s) && Seen(s) && Quiet(s) && !ThrowsDown(s, event)
    ensures !Deserts(s, event)
  {
    var n := Next(s, event).shared;
    hide Core, Seen, NobodyElse, Next, StopsSoon;
    if Lost(s.shared) {
      if !event.StartAction? && !event.GateAnswer? {
        QuietLost(s, n, None);
      } else if IsStart(s, event.id) && !Busy(s.jobs[event.id]) {
        QuietLost(s, n, Some(event.id));
      }
    }
    if event.StartAction? && IsStart(s, event.id) {
      assert StillSees(s.shared, s.jobs[event.id]);
    }
  }

  lemma {:induction false} FaultlessHolds(schedule: seq<Event>)
    requires Faultless(schedule)
    ensures Quiet(Run(Init(), schedule)) && NeverStrands(schedule) && NeverDeserts(schedule)
    decreases |schedule|
  {
    if schedule != [] {
      hide Core, Seen, Quiet, Deserts, Next;
      var before := schedule[..|schedule| - 1];
      FaultlessHolds(before);
      SeenHolds(before);
      NextKeepsQuiet(Run(Init(), before), schedule[|schedule| - 1]);
      QuietNeverDeserts(Run(Init(), before), schedule[|schedule| - 1]);
    }
  }

  /** In particular, without losses and throwing starts, only a stranding refusal keeps the machine from settling. */
  lemma SettlesToNewestIntent(schedule: seq<Event>)
    requires Faultless(schedule) && Quiescent(Run(Init(), schedule))
    ensures Agrees(Run(Init(), schedule))
  {
    var s := Run(Init(), schedule);
    FaultlessHolds(schedule);
    SeenHolds(schedule);
    MendedHolds(schedule);
    UnwantedServiceIsCovered(schedule);
    CoveredIsWanted(s);
    QuietIsTrue(s);
    TrueAgrees(s);
  }

  lemma QuietIsTrue(s: State)
    requires Quiet(s) && Mended(s) && Quiescent(s)
    ensures !Untrue(s.shared)
  {
    forall id | id in s.jobs ensures !Busy(s.jobs[id]) && !Mends(s.shared, s.jobs[id]) {
      assert Done(s.jobs[id]);
    }
  }
}

/** What every interleaving of the run-state machine keeps, and that an unwanted service is never forgotten. */
module ServiceSettling {
  import opened Options
  import opened RunIntentArbiter
  import opened ServiceStateMachine

  // ---- What every event keeps: identities, mutual exclusion, checks that have become final

  /** The coroutine is inside `transitionLock.withLock`. */
  predicate Inside(job: Job) {
    match job
    case Start(_, _, pc) => InTransition(pc) || (InReconcile(pc) && !pc.ThrownFail? && !pc.WaitReconcile?)
    case Stop(_, pc) => !pc.AwaitTransition? && !pc.Ended?
  }

  predicate LossInside(loss: Loss) {
    loss.pc.LossRunTime? || loss.pc.LossReset? || loss.pc.LossPublish?
  }

  /** The start coroutine is in `runStart`, so it must be the one inside `startPreparationLock.withLock`. */
  predicate Preparing(job: Job) {
    job.Start? && !InReconcile(job.start) && !job.start.Gate? && !job.start.WaitPreparation? && !job.start.Finished?
  }

  /** A coroutine that has given up: its request is not the current one and never will be again. */
  predicate GivenUp(job: Job) {
    match job
    case Start(_, _, pc) => (InReconcile(pc) && !pc.ThrownFail?) || pc == Finished(false)
    case Stop(_, pc) => pc == Ended(false)
  }

  predicate TokenOk(m: Shared, job: Job) {
    && job.token.id < m.intent.minted
    && job.token.running == job.Start?
    && (m.intent.latest.id == job.token.id ==> m.intent.latest == job.token)
    && (GivenUp(job) ==> m.intent.latest != job.token)
  }

  predicate LockOk(m: Shared, job: Job) {
    && (Inside(job) <==> m.transitionLock == Some(Request(job.token.id)))
    && (Preparing(job) ==> m.startPreparationLock == Some(job.token.id))
    && (m.startPreparationLock == Some(job.token.id) ==> job.Start? && (Preparing(job) || InReconcile(job.start)))
    && (m.pendingVpnPreparation == Some(job.token.id) ==> job.Start? && job.start.Consent?)
  }

  predicate JobOk(m: Shared, job: Job) {
    TokenOk(m, job) && LockOk(m, job)
  }

  predicate LossOk(m: Shared, index: nat, loss: Loss) {
    && (LossInside(loss) <==> m.transitionLock == Some(ServiceLoss(index)))
    && (loss.pc.LossReset? || loss.pc.LossPublish? ==> !m.host.Up())
  }

  /** Every name held by a shared field belongs to some coroutine. */
  predicate NamesOk(m: Shared, jobs: set<nat>, losses: nat) {
    && m.intent.latest.id < m.intent.minted
    && (m.intent.latest.running ==> m.intent.latest.id in jobs)
    && (m.pendingVpnPreparation.Some? ==> m.pendingVpnPreparation.value in jobs)
    && (m.startPreparationLock.Some? ==> m.startPreparationLock.value in jobs)
    && match m.transitionLock
       case None => true
       case Some(Request(id)) => id in jobs
       case Some(ServiceLoss(i)) => i < losses
       case Some(Refresher(_, _)) => true
  }

  ghost predicate Core(s: State) {
    && NamesOk(s.shared, s.jobs.Keys, |s.losses|)
    && (forall id | id in s.jobs :: s.jobs[id].token.id == id && JobOk(s.shared, s.jobs[id]))
    && (forall i | 0 <= i < |s.losses| :: LossOk(s.shared, i, s.losses[i]))
  }

  /** What one action of a coroutine may do to the rest: the part of the argument that is the same for all of them. */
  predicate Advances(m: Shared, job: Job, after: Advanced<Job>) {
    var n := after.shared;
    && after.job.token == job.token
    && after.job.Start? == job.Start?
    && (n.intent == m.intent || n.intent == AfterReset(m.intent, job.token))
    && (n.transitionLock == m.transitionLock
        || (m.transitionLock.None? && n.transitionLock == Some(Request(job.token.id)))
        || (m.transitionLock == Some(Request(job.token.id)) && n.transitionLock.None?))
    && (n.startPreparationLock == m.startPreparationLock
        || (m.startPreparationLock.None? && n.startPreparationLock == Some(job.token.id))
        || (m.startPreparationLock == Some(job.token.id) && n.startPreparationLock.None?))
    && n.pendingVpnPreparation in {m.pendingVpnPreparation, None, Some(job.token.id)}
    && (n.host != m.host ==> m.transitionLock == Some(Request(job.token.id)))
    && (n.runState != m.runState ==> m.transitionLock == Some(Request(job.token.id)))
    && JobOk(n, after.job)
  }

  lemma GateAdvances(m: Shared, job: Job, shouldStart: bool)
    requires job.Start? && JobOk(m, job) && m.intent.latest.id < m.intent.minted
    ensures Advances(m, job, GateNext(m, job, shouldStart))
  {
  }

  lemma PrepareAdvances(m: Shared, job: Job, answer: Answer)
    requires job.Start? && JobOk(m, job) && m.intent.latest.id < m.intent.minted
    ensures Advances(m, job, PrepareNext(m, job, answer))
  {
  }

  lemma TransitionAdvances(m: Shared, job: Job, answer: Answer)
    requires job.Start? && JobOk(m, job) && m.intent.latest.id < m.intent.minted
    ensures Advances(m, job, TransitionNext(m, job, answer))
  {
  }

  lemma ReconcileAdvances(m: Shared, job: Job)
    requires job.Start? && JobOk(m, job) && m.intent.latest.id < m.intent.minted
    ensures Advances(m, job, ReconcileNext(m, job))
  {
  }

  lemma StartAdvances(m: Shared, job: Job, answer: Answer)
    requires job.Start? && JobOk(m, job) && m.intent.latest.id < m.intent.minted
    ensures Advances(m, job, StartNext(m, job, answer))
  {
    PrepareAdvances(m, job, answer);
    TransitionAdvances(m, job, answer);
    ReconcileAdvances(m, job);
  }

  lemma StopAdvances(m: Shared, job: Job)
    requires job.Stop? && JobOk(m, job) && m.intent.latest.id < m.intent.minted
    ensures Advances(m, job, StopNext(m, job))
  {
  }

  lemma OthersKept(m: Shared, job: Job, after: Advanced<Job>, other: Job)
    requires Advances(m, job, after) && JobOk(m, job) && JobOk(m, other) && other.token.id != job.token.id
    requires m.intent.latest.id < m.intent.minted
    ensures JobOk(after.shared, other)
  {
  }

  lemma AdvanceKeepsCore(s: State, id: nat, after: Advanced<Job>)
    requires Core(s) && id in s.jobs && Advances(s.shared, s.jobs[id], after)
    ensures Core(WithJob(s, id, after))
  {
    var t := WithJob(s, id, after);
    assert t.jobs.Keys == s.jobs.Keys;
    forall k | k in t.jobs ensures t.jobs[k].token.id == k && JobOk(t.shared, t.jobs[k]) {
      if k != id {
        OthersKept(s.shared, s.jobs[id], after, s.jobs[k]);
      }
    }
    assert NamesOk(t.shared, t.jobs.Keys, |t.losses|);
  }

  lemma RequestKeepsCore(s: State, running: bool)
    requires Core(s)
    ensures Core(Requested(s, running))
  {
  }

  lemma LossKeepsJob(m: Shared, index: nat, loss: Loss, wasCurrent: bool, job: Job)
    requires LossOk(m, index, loss) && JobOk(m, job) && m.intent.latest.id < m.intent.minted
    ensures JobOk(LossNext(m, index, loss, wasCurrent).shared, job)
  {
  }

  lemma LossKeepsLoss(m: Shared, index: nat, loss: Loss, wasCurrent: bool, k: nat, other: Loss)
    requires LossOk(m, index, loss) && LossOk(m, k, other)
    ensures k != index ==> LossOk(LossNext(m, index, loss, wasCurrent).shared, k, other)
    ensures LossOk(LossNext(m, index, loss, wasCurrent).shared, index, LossNext(m, index, loss, wasCurrent).job)
  {
  }

  lemma LossKeepsNames(m: Shared, index: nat, loss: Loss, wasCurrent: bool, jobs: set<nat>, losses: nat)
    requires LossOk(m, index, loss) && NamesOk(m, jobs, losses) && index < losses
    ensures NamesOk(LossNext(m, index, loss, wasCurrent).shared, jobs, losses)
  {
  }

  lemma LossKeepsCore(s: State, index: nat, wasCurrent: bool)
    requires Core(s) && index < |s.losses|
    ensures Core(Next(s, LossAction(index, wasCurrent)))
  {
    hide LossNext, JobOk, LossOk;
    var m, loss := s.shared, s.losses[index];
    var t := Next(s, LossAction(index, wasCurrent));
    LossKeepsNames(m, index, loss, wasCurrent, s.jobs.Keys, |s.losses|);
    forall id | id in s.jobs ensures JobOk(t.shared, t.jobs[id]) {
      LossKeepsJob(m, index, loss, wasCurrent, s.jobs[id]);
    }
    forall k | 0 <= k < |s.losses| ensures LossOk(t.shared, k, t.losses[k]) {
      LossKeepsLoss(m, index, loss, wasCurrent, k, s.losses[k]);
    }
  }

  lemma NextKeepsCore(s: State, event: Event)
    requires Core(s)
    ensures Core(Next(s, event))
  {
    match event
    case RequestStart => RequestKeepsCore(s, true);
    case RequestStop => RequestKeepsCore(s, false);
    case GateAnswer(id, shouldStart) =>
      if IsStart(s, id) {
        GateAdvances(s.shared, s.jobs[id], shouldStart);
        AdvanceKeepsCore(s, id, GateNext(s.shared, s.jobs[id], shouldStart));
      }
    case StartAction(id, answer) =>
      if IsStart(s, id) {
        StartAdvances(s.shared, s.jobs[id], answer);
        AdvanceKeepsCore(s, id, StartNext(s.shared, s.jobs[id], answer));
      }
    case StopAction(id) =>
      if IsStop(s, id) {
        StopAdvances(s.shared, s.jobs[id]);
        AdvanceKeepsCore(s, id, StopNext(s.shared, s.jobs[id]));
      }
    case LossAction(index, wasCurrent) =>
      if index < |s.losses| {
        LossKeepsCore(s, index, wasCurrent);
      }
    case _ =>
  }

  lemma {:induction false} CoreHolds(schedule: seq<Event>)
    ensures Core(Run(Init(), schedule))
  {
    if schedule != [] {
      CoreHolds(schedule[..|schedule| - 1]);
      NextKeepsCore(Run(Init(), schedule[..|schedule| - 1]), schedule[|schedule| - 1]);
    }
  }

  /** The event is an action of request `id`, or the answer its gate has been waiting for. */
  predicate ActsFor(event: Event, id: nat) {
    match event
    case GateAnswer(k, _) => k == id
    case StartAction(k, _) => k == id
    case StopAction(k) => k == id
    case _ => false
  }

  /** Nobody else changes a coroutine's own state. */
  lemma OthersLeave(s: State, event: Event, id: nat)
    requires Core(s) && id in s.jobs && !ActsFor(event, id)
    ensures id in Next(s, event).jobs && Next(s, event).jobs[id] == s.jobs[id]
  {
    assert JobOk(s.shared, s.jobs[id]);
    hide GateNext, StartNext, StopNext, LossNext;
  }

  /** The two mutexes do their job: one coroutine in a transition, one start in preparation. */
  lemma MutualExclusion(schedule: seq<Event>, a: nat, b: nat)
    requires var s := Run(Init(), schedule); a in s.jobs && b in s.jobs
    ensures var s := Run(Init(), schedule);
            && (Inside(s.jobs[a]) && Inside(s.jobs[b]) ==> a == b)
            && (Preparing(s.jobs[a]) && Preparing(s.jobs[b]) ==> a == b)
  {
    CoreHolds(schedule);
  }

  /**
   Once a stop has abandoned the preparation, no start is left parked on a consent dialog that still has to answer.
   */
  lemma AbandonFreesConsent(schedule: seq<Event>, id: nat)
    requires var s := Run(Init(), schedule); IsStop(s, id) && s.jobs[id].stop == Abandon
    ensures var s := Next(Run(Init(), schedule), StopAction(id));
            forall k | IsStart(s, k) && s.jobs[k].start == Consent ::
              Next(s, StartAction(k, Nothing)).jobs[k].start == Fail
  {
  }

  // ---- What a start works with

  /** The options synchronised last. */
  function LastSynced(schedule: seq<Event>): Option<VpnOptions> {
    if schedule == [] then None
    else
      match schedule[|schedule| - 1]
      case SyncSharedState(options) => options
      case _ => LastSynced(schedule[..|schedule| - 1])
  }

  lemma NextKeepsOptions(s: State, event: Event)
    requires !event.SyncSharedState?
    ensures Next(s, event).shared.options == s.shared.options
  {
    if event.StartAction? && IsStart(s, event.id) {
      StartKeepsOptions(s.shared, s.jobs[event.id], event.answer);
      hide StartNext;
    }
  }

  lemma StartKeepsOptions(m: Shared, job: Job, answer: Answer)
    requires job.Start?
    ensures var after := StartNext(m, job, answer);
            && after.shared.options == m.options
            && (!job.start.ReadOptions? ==> after.job.options == job.options)
  {
  }

  lemma {:induction false} OptionsAreSynced(schedule: seq<Event>)
    ensures Run(Init(), schedule).shared.options == LastSynced(schedule)
  {
    if schedule != [] {
      hide Next;
      OptionsAreSynced(schedule[..|schedule| - 1]);
      var s, event := Run(Init(), schedule[..|schedule| - 1]), schedule[|schedule| - 1];
      if event.SyncSharedState? {
        SyncSets(s, event.options);
      } else {
        NextKeepsOptions(s, event);
      }
    }
  }

  lemma SyncSets(s: State, options: Option<VpnOptions>)
    ensures Next(s, SyncSharedState(options)).shared.options == options
  {
  }

  /** A start takes the options synchronised last when it reads them, fails without any, and keeps them to its end. */
  lemma StartsWithLatestOptions(schedule: seq<Event>, event: Event, id: nat)
    requires IsStart(Run(Init(), schedule), id)
    ensures var s, t := Run(Init(), schedule), Next(Run(Init(), schedule), event);
            && IsStart(t, id)
            && (!s.jobs[id].start.ReadOptions? ==> t.jobs[id].options == s.jobs[id].options)
            && (s.jobs[id].start.ReadOptions? && t.jobs[id] != s.jobs[id] ==>
                  match LastSynced(schedule)
                  case None => t.jobs[id].start.Fail?
                  case Some(options) => t.jobs[id].start.Prepare? && t.jobs[id].options == options)
  {
    CoreHolds(schedule);
    OptionsAreSynced(schedule);
    var s := Run(Init(), schedule);
    if !ActsFor(event, id) {
      OthersLeave(s, event, id);
    } else if event.StartAction? {
      StartReadsOptions(s.shared, s.jobs[id], event.answer);
      hide StartNext, Core;
    } else {
      hide StartNext, Core;
    }
  }

  lemma StartReadsOptions(m: Shared, job: Job, answer: Answer)
    requires job.Start?
    ensures var after := StartNext(m, job, answer).job;
            && after.Start?
            && (!job.start.ReadOptions? ==> after.options == job.options)
            && (job.start.ReadOptions? ==>
                  match m.options
                  case None => after.start.Fail?
                  case Some(options) => after.start.Prepare? && after.options == options)
  {
  }

  // ---- What a stop answers

  lemma {:induction false} GivenUpForGood(s: State, later: seq<Event>, id: nat)
    requires Core(s) && id in s.jobs && Over(s.jobs[id])
    ensures var t := Run(s, later); Core(t) && id in t.jobs && t.jobs[id] == s.jobs[id]
  {
    if later != [] {
      hide Core, Next, Over;
      var t := Run(s, later[..|later| - 1]);
      GivenUpForGood(s, later[..|later| - 1], id);
      NextKeepsCore(t, later[|later| - 1]);
      OverStays(t, later[|later| - 1], id);
    }
  }

  /** The coroutine has answered. */
  predicate Over(job: Job) {
    match job
    case Start(_, _, pc) => pc.Finished?
    case Stop(_, pc) => pc.Ended?
  }

  lemma OverStays(s: State, event: Event, id: nat)
    requires Core(s) && id in s.jobs && Over(s.jobs[id])
    ensures id in Next(s, event).jobs && Next(s, event).jobs[id] == s.jobs[id]
  {
    if !ActsFor(event, id) {
      OthersLeave(s, event, id);
    }
  }

  /** A stop that has answered false has been overtaken, and stays so in every continuation. */
  lemma RefusedStopIsOvertaken(schedule: seq<Event>, later: seq<Event>, id: nat)
    requires var s := Run(Init(), schedule); id in s.jobs && GivenUp(s.jobs[id]) && Over(s.jobs[id])
    ensures var t := Run(Run(Init(), schedule), later);
            id in t.jobs && t.jobs[id] == Run(Init(), schedule).jobs[id] && !t.shared.IsCurrent(t.jobs[id].token)
  {
    CoreHolds(schedule);
    GivenUpForGood(Run(Init(), schedule), later, id);
    var t := Run(Run(Init(), schedule), later);
    assert JobOk(t.shared, t.jobs[id]);
  }

  // ---- An unwanted service is never forgotten

  /** The coroutine will stop an unwanted service before it finishes. */
  predicate Bound(m: Shared, job: Job) {
    match job
    case Start(_, _, pc) =>
      && !pc.Gate? && !pc.Probe? && !pc.ProbeKind? && !pc.PublishReuse? && !pc.PublishStarted? && !pc.SetStopped?
      && !pc.Finished?
    case Stop(token, pc) =>
      m.IsCurrent(token) && !pc.PublishStopped? && !pc.Report? && !pc.Ended?
  }

  predicate Unwanted(m: Shared) {
    m.host.Up() && !m.intent.latest.running
  }

  ghost predicate Covered(s: State) {
    Unwanted(s.shared) ==> exists id :: id in s.jobs && Bound(s.shared, s.jobs[id])
  }

  /**
   A notification refusal that rolls back the newest request while nobody else is going to stop the running service.
   */
  ghost predicate Strands(s: State, event: Event) {
    && event.GateAnswer? && !event.shouldStart && IsStart(s, event.id)
    && s.jobs[event.id].start == Gate
    && s.shared.IsCurrent(s.jobs[event.id].token)
    && s.shared.host.Up()
    && forall k | k in s.jobs && k != event.id :: !Bound(s.shared, s.jobs[k])
  }

  predicate KeepsOwnCover(m: Shared, job: Job, after: Advanced<Job>) {
    Unwanted(after.shared) && !Bound(after.shared, after.job) ==> Unwanted(m) && !Bound(m, job)
  }

  lemma StartKeepsOwnCover(m: Shared, job: Job, answer: Answer)
    requires job.Start? && JobOk(m, job)
    ensures KeepsOwnCover(m, job, StartNext(m, job, answer))
  {
  }

  lemma StopKeepsOwnCover(m: Shared, job: Job)
    requires job.Stop? && JobOk(m, job)
    ensures KeepsOwnCover(m, job, StopNext(m, job))
  {
  }

  lemma AdvanceKeepsCovered(s: State, id: nat, after: Advanced<Job>)
    requires Core(s) && Covered(s) && id in s.jobs
    requires Advances(s.shared, s.jobs[id], after)
    requires KeepsOwnCover(s.shared, s.jobs[id], after)
    ensures Covered(WithJob(s, id, after))
  {
    var t := WithJob(s, id, after);
    if Unwanted(t.shared) {
      if Bound(t.shared, after.job) {
        assert t.jobs[id] == after.job;
      } else {
        var k :| k in s.jobs && Bound(s.shared, s.jobs[k]);
        assert t.jobs[k] == s.jobs[k] && Bound(t.shared, t.jobs[k]);
      }
    }
  }

  lemma RequestKeepsCovered(s: State, running: bool)
    requires Core(s) && Covered(s)
    ensures Covered(Requested(s, running))
  {
    var t := Requested(s, running);
    var id := t.shared.intent.latest.id;
    assert id in t.jobs && (!running ==> Bound(t.shared, t.jobs[id]));
  }

  lemma LossKeepsCovered(s: State, index: nat, wasCurrent: bool)
    requires Core(s) && Covered(s) && index < |s.losses|
    ensures Covered(Next(s, LossAction(index, wasCurrent)))
  {
    var t := Next(s, LossAction(index, wasCurrent));
    if Unwanted(t.shared) {
      assert LossOk(s.shared, index, s.losses[index]);
      assert t.shared.intent == s.shared.intent && t.shared.host == s.shared.host;
      var k :| k in s.jobs && Bound(s.shared, s.jobs[k]);
      assert Bound(t.shared, t.jobs[k]);
    }
  }

  /** The gate is the only place that can lose track of an unwanted service, and exactly when it strands it. */
  lemma GateCoverExactly(s: State, id: nat, shouldStart: bool)
    requires Core(s) && Covered(s) && IsStart(s, id)
    ensures Covered(Next(s, GateAnswer(id, shouldStart))) <==> !Strands(s, GateAnswer(id, shouldStart))
  {
    var event := GateAnswer(id, shouldStart);
    var t := Next(s, event);
    assert t.jobs.Keys == s.jobs.Keys;
    assert JobOk(s.shared, s.jobs[id]);
    assert forall k | k in s.jobs && k != id :: t.jobs[k] == s.jobs[k];
    if s.jobs[id].start != Gate || !s.shared.IsCurrent(s.jobs[id].token) || !s.shared.host.Up() {
      if Unwanted(t.shared) {
        var k :| k in s.jobs && Bound(s.shared, s.jobs[k]);
        assert Bound(t.shared, t.jobs[k]);
      }
    } else if !shouldStart {
      forall k | k in s.jobs && k != id ensures Bound(t.shared, t.jobs[k]) <==> Bound(s.shared, s.jobs[k]) {
        assert JobOk(s.shared, s.jobs[k]);
      }
      if !Strands(s, event) {
        var k :| k in s.jobs && k != id && Bound(s.shared, s.jobs[k]);
        assert Bound(t.shared, t.jobs[k]);
      }
    }
  }

  lemma NextKeepsCovered(s: State, event: Event)
    requires Core(s) && Covered(s) && !Strands(s, event)
    ensures Covered(Next(s, event))
  {
    match event
    case RequestStart => RequestKeepsCovered(s, true);
    case RequestStop => RequestKeepsCovered(s, false);
    case GateAnswer(id, shouldStart) =>
      if IsStart(s, id) {
        GateCoverExactly(s, id, shouldStart);
      }
    case StartAction(id, answer) =>
      if IsStart(s, id) {
        StartAdvances(s.shared, s.jobs[id], answer);
        StartKeepsOwnCover(s.shared, s.jobs[id], answer);
        AdvanceKeepsCovered(s, id, StartNext(s.shared, s.jobs[id], answer));
      }
    case StopAction(id) =>
      if IsStop(s, id) {
        StopAdvances(s.shared, s.jobs[id]);
        StopKeepsOwnCover(s.shared, s.jobs[id]);
        AdvanceKeepsCovered(s, id, StopNext(s.shared, s.jobs[id]));
      }
    case LossAction(index, wasCurrent) =>
      if index < |s.losses| {
        LossKeepsCovered(s, index, wasCurrent);
      }
    case _ =>
      if Unwanted(Next(s, event).shared) {
        var k :| k in s.jobs && Bound(s.shared, s.jobs[k]);
        assert Bound(Next(s, event).shared, s.jobs[k]);
      }
  }

  ghost predicate NeverStrands(schedule: seq<Event>)
    decreases |schedule|
  {
    schedule != [] ==>
      && NeverStrands(schedule[..|schedule| - 1])
      && !Strands(Run(Init(), schedule[..|schedule| - 1]), schedule[|schedule| - 1])
  }

  /**
   While a service is up against the newest intent, a coroutine in flight is bound to stop it. Losses of the
   service and exceptions out of it are allowed; a stranding refusal at the gate is the one thing that is not.
   */
  lemma {:induction false} UnwantedServiceIsCovered(schedule: seq<Event>)
    requires NeverStrands(schedule)
    ensures Covered(Run(Init(), schedule))
    decreases |schedule|
  {
    if schedule != [] {
      var before := schedule[..|schedule| - 1];
      UnwantedServiceIsCovered(before);
      CoreHolds(before);
      NextKeepsCovered(Run(Init(), before), schedule[|schedule| - 1]);
    }
  }
}

/** Which starts still report that they have started, and which never do: overtaken ones and ones awaiting consent. */
module ServiceOvertaken {
  import opened Options
  import opened RunIntentArbiter
  import opened ServiceStateMachine
  import opened ServiceSettling
  import opened ServiceMending
  import opened ServiceProgress

  /** A newer request has taken over from this start. */
  predicate Overtaken(m: Shared, job: Job) {
    job.Start? && job.token != m.intent.latest
  }

  predicate Reported(job: Job) {
    job.Start? && job.start == Finished(true)
  }

  /**
   Past its last check of the intent: about to publish, or on the way to the reuse of a service. The machine makes the
   last check before each of its two publications too early, so both of them have such a gap. A start that wants no VPN
   reuses whatever is not an active VPN service when it asks for the kind, be it nothing at all.
   */
  predicate PastItsChecks(m: Shared, job: Job) {
    job.Start? &&
    match job.start
    case Probe => m.host.Up() && (job.options.enable ==> m.host.VpnServiceActive())
    case ProbeKind => job.options.enable ==> m.host.VpnServiceActive()
    case PublishReuse => true
    case PublishStarted => true
    case Finished(ok) => ok
    case _ => false
  }

  lemma OwnStaysChecked(m: Shared, job: Job, answer: Answer)
    requires JobOk(m, job) && Overtaken(m, job) && !PastItsChecks(m, job)
    ensures !PastItsChecks(StartNext(m, job, answer).shared, StartNext(m, job, answer).job)
  {
  }

  lemma OwnGateStaysChecked(m: Shared, job: Job, shouldStart: bool)
    requires Overtaken(m, job) && !PastItsChecks(m, job)
    ensures !PastItsChecks(GateNext(m, job, shouldStart).shared, GateNext(m, job, shouldStart).job)
  {
  }

  /** Nobody else brings a service up while the start has the transition lock; a loss only takes it away. */
  lemma OtherStaysChecked(m: Shared, other: Job, after: Advanced<Job>, job: Job)
    requires JobOk(m, job) && JobOk(m, other) && other.token.id != job.token.id && Advances(m, other, after)
    requires !PastItsChecks(m, job)
    ensures !PastItsChecks(after.shared, job)
  {
  }

  lemma LossStaysChecked(m: Shared, index: nat, loss: Loss, wasCurrent: bool, job: Job)
    requires !PastItsChecks(m, job)
    ensures !PastItsChecks(LossNext(m, index, loss, wasCurrent).shared, job)
  {
  }

  lemma StaysOvertaken(s: State, event: Event, id: nat)
    requires Core(s) && IsStart(s, id) && Overtaken(s.shared, s.jobs[id])
    ensures IsStart(Next(s, event), id) && Overtaken(Next(s, event).shared, Next(s, event).jobs[id])
    ensures Next(s, event).jobs[id].token == s.jobs[id].token
  {
    assert JobOk(s.shared, s.jobs[id]);
    match event
    case GateAnswer(k, shouldStart) =>
      if IsStart(s, k) {
        GateAdvances(s.shared, s.jobs[k], shouldStart);
        hide GateNext;
      }
    case StartAction(k, answer) =>
      if IsStart(s, k) {
        StartAdvances(s.shared, s.jobs[k], answer);
        hide StartNext;
      }
    case StopAction(k) =>
      if IsStop(s, k) {
        StopAdvances(s.shared, s.jobs[k]);
        hide StopNext;
      }
    case LossAction(index, wasCurrent) => hide StartNext;
    case _ =>
  }

  lemma StaysChecked(s: State, event: Event, id: nat)
    requires Core(s) && IsStart(s, id) && Overtaken(s.shared, s.jobs[id]) && !PastItsChecks(s.shared, s.jobs[id])
    ensures !PastItsChecks(Next(s, event).shared, Next(s, event).jobs[id])
  {
    var m, job := s.shared, s.jobs[id];
    assert JobOk(m, job);
    hide StartNext, GateNext, StopNext, LossNext, Advances, JobOk, PastItsChecks, Overtaken;
    match event
    case GateAnswer(k, shouldStart) =>
      if IsStart(s, k) {
        GateAdvances(m, s.jobs[k], shouldStart);
        if k == id {
          OwnGateStaysChecked(m, job, shouldStart);
        } else {
          OtherStaysChecked(m, s.jobs[k], GateNext(m, s.jobs[k], shouldStart), job);
        }
      }
    case StartAction(k, answer) =>
      if IsStart(s, k) {
        StartAdvances(m, s.jobs[k], answer);
        if k == id {
          OwnStaysChecked(m, job, answer);
        } else {
          OtherStaysChecked(m, s.jobs[k], StartNext(m, s.jobs[k], answer), job);
        }
      }
    case StopAction(k) =>
      if IsStop(s, k) {
        StopAdvances(m, s.jobs[k]);
        OtherStaysChecked(m, s.jobs[k], StopNext(m, s.jobs[k]), job);
      }
    case LossAction(index, wasCurrent) =>
      if index < |s.losses| {
        LossStaysChecked(m, index, s.losses[index], wasCurrent, job);
      }
    case _ => OutsideStaysChecked(s, event, id);
  }

  lemma OutsideStaysChecked(s: State, event: Event, id: nat)
    requires Core(s) && IsStart(s, id) && !PastItsChecks(s.shared, s.jobs[id])
    requires !event.GateAnswer? && !event.StartAction? && !event.StopAction? && !event.LossAction?
    ensures !PastItsChecks(Next(s, event).shared, Next(s, event).jobs[id])
  {
    assert JobOk(s.shared, s.jobs[id]);
  }

  /** An overtaken start that is not past its checks never reports started, whatever happens later. */
  lemma {:induction false} NeverReports(s: State, later: seq<Event>, id: nat)
    requires Core(s) && IsStart(s, id) && Overtaken(s.shared, s.jobs[id]) && !PastItsChecks(s.shared, s.jobs[id])
    ensures var t := Run(s, later);
            && Core(t) && IsStart(t, id) && Overtaken(t.shared, t.jobs[id]) && !PastItsChecks(t.shared, t.jobs[id])
  {
    if later != [] {
      hide Next, Core, Overtaken, PastItsChecks;
      NeverReports(s, later[..|later| - 1], id);
      var t, event := Run(s, later[..|later| - 1]), later[|later| - 1];
      NextKeepsCore(t, event);
      StaysOvertaken(t, event, id);
      StaysChecked(t, event, id);
    }
  }

  predicate Publishing(job: Job) {
    job.Start? && (job.start.PublishReuse? || job.start.PublishStarted?)
  }

  lemma PublishingStep(s: State, event: Event, id: nat)
    requires Core(s) && id in s.jobs && (Publishing(s.jobs[id]) || Reported(s.jobs[id]))
    ensures id in Next(s, event).jobs
    ensures Reported(Next(s, event).jobs[id]) || Next(s, event).jobs[id] == s.jobs[id]
    ensures Publishing(s.jobs[id]) && event.StartAction? && event.id == id ==> Reported(Next(s, event).jobs[id])
  {
    if !ActsFor(event, id) {
      OthersLeave(s, event, id);
    }
  }

  /** A start at its publication reports started with its next action, however long others keep it waiting. */
  lemma {:induction false} PublicationIsInevitable(s: State, later: seq<Event>, id: nat)
    requires Core(s) && id in s.jobs && Publishing(s.jobs[id])
    ensures var t := Run(s, later);
            && Core(t) && id in t.jobs && (Reported(t.jobs[id]) || t.jobs[id] == s.jobs[id])
            && ((exists k :: 0 <= k < |later| && later[k].StartAction? && later[k].id == id) ==> Reported(t.jobs[id]))
  {
    if later != [] {
      hide Next, Core, Publishing, Reported;
      var before := later[..|later| - 1];
      PublicationIsInevitable(s, before, id);
      var t, event := Run(s, before), later[|later| - 1];
      NextKeepsCore(t, event);
      PublishingStep(t, event, id);
      if k :| 0 <= k < |later| && later[k].StartAction? && later[k].id == id {
        assert k < |before| ==> before[k] == later[k];
      }
    }
  }

  ghost predicate ReportsAfter(s: State, later: seq<Event>, id: nat) {
    IsStart(Run(s, later), id) && Reported(Run(s, later).jobs[id])
  }

  lemma ReportsOneLater(s: State, event: Event, later: seq<Event>, id: nat)
    requires ReportsAfter(Next(s, event), later, id)
    ensures ReportsAfter(s, [event] + later, id)
  {
    RunConcat(s, [event], later);
    assert [event][..0] == [];
  }

  lemma ReportsFromPublication(s: State, id: nat) returns (later: seq<Event>)
    requires IsStart(s, id) && Publishing(s.jobs[id])
    ensures ReportsAfter(s, later, id)
  {
    later := [StartAction(id, Nothing)];
    assert later[..0] == [];
  }

  lemma ReportsFromKind(s: State, id: nat) returns (later: seq<Event>)
    requires IsStart(s, id) && s.jobs[id].start.ProbeKind?
    requires s.shared.host.VpnServiceActive() == s.jobs[id].options.enable
    ensures ReportsAfter(s, later, id)
  {
    later := ReportsFromPublication(Next(s, StartAction(id, Nothing)), id);
    ReportsOneLater(s, StartAction(id, Nothing), later, id);
    later := [StartAction(id, Nothing)] + later;
  }

  /** A start that wants no VPN and meets an active one reuses it all the same if it is lost before the kind is read. */
  lemma ReportsThroughLoss(s: State, id: nat) returns (later: seq<Event>)
    requires IsStart(s, id) && s.jobs[id].start.ProbeKind? && !s.jobs[id].options.enable && s.shared.host.Up()
    ensures ReportsAfter(s, later, id)
  {
    var lost := LossAction(|s.losses|, true);
    var t := Next(s, Disconnected);
    later := ReportsFromKind(Next(t, lost), id);
    ReportsOneLater(t, lost, later, id);
    later := [lost] + later;
    ReportsOneLater(s, Disconnected, later, id);
    later := [Disconnected] + later;
  }

  lemma Reports(s: State, id: nat) returns (later: seq<Event>)
    requires IsStart(s, id) && PastItsChecks(s.shared, s.jobs[id])
    ensures ReportsAfter(s, later, id)
  {
    if s.jobs[id].start.Finished? {
      later := [];
    } else if Publishing(s.jobs[id]) {
      later := ReportsFromPublication(s, id);
    } else if s.jobs[id].start.ProbeKind? {
      later := ReportsFromProbeKind(s, id);
    } else {
      later := ReportsFromProbeKind(Next(s, StartAction(id, Nothing)), id);
      ReportsOneLater(s, StartAction(id, Nothing), later, id);
      later := [StartAction(id, Nothing)] + later;
    }
  }

  lemma ReportsFromProbeKind(s: State, id: nat) returns (later: seq<Event>)
    requires IsStart(s, id) && s.jobs[id].start.ProbeKind? && PastItsChecks(s.shared, s.jobs[id])
    ensures ReportsAfter(s, later, id)
  {
    if s.shared.host.VpnServiceActive() == s.jobs[id].options.enable {
      later := ReportsFromKind(s, id);
    } else {
      later := ReportsThroughLoss(s, id);
    }
  }

  /**
   After any run, an overtaken start can still report that it has started exactly when it is past its checks: at one
   of the two publications, or between the reads that lead to the reuse of a service, as long as those can succeed.
   */
  lemma OvertakenReportsExactly(schedule: seq<Event>, id: nat)
    requires var s := Run(Init(), schedule); IsStart(s, id) && Overtaken(s.shared, s.jobs[id])
    ensures var s := Run(Init(), schedule);
            PastItsChecks(s.shared, s.jobs[id]) <==> exists later :: ReportsAfter(s, later, id)
  {
    CoreHolds(schedule);
    var s := Run(Init(), schedule);
    if PastItsChecks(s.shared, s.jobs[id]) {
      var later := Reports(s, id);
    } else {
      forall later ensures !ReportsAfter(s, later, id) {
        NeverReports(s, later, id);
      }
    }
  }

  // ---- What an overtaken request no longer does

  /** Where an overtaken request can come to that stands before one of its checks: no further than that check. */
  predicate TurnsBack(from: Job, job: Job) {
    match (from, job)
    case (Start(_, _, at), Start(_, _, pc)) =>
      || InReconcile(pc) || pc == Finished(false)
      || (at.Gate? && pc.Gate?)
      || ((at.Gate? || at.WaitPreparation?) && pc.WaitPreparation?)
      || ((at.Gate? || at.WaitPreparation? || at.FirstCheck?) && pc.FirstCheck?)
      || (at.SecondCheck? && pc.SecondCheck?)
      || (at.WaitTransition? && pc.WaitTransition?)
      || ((at.WaitTransition? || at.ThirdCheck?) && pc.ThirdCheck?)
    case (Stop(_, at), Stop(_, pc)) =>
      || pc == Ended(false)
      || (at.AwaitTransition? && pc.AwaitTransition?)
      || ((at.AwaitTransition? || at.Check?) && pc.Check?)
    case _ => false
  }

  lemma OwnTurnsBack(m: Shared, from: Job, job: Job, answer: Answer)
    requires JobOk(m, job) && !m.IsCurrent(job.token) && TurnsBack(from, job)
    ensures job.Start? ==> TurnsBack(from, StartNext(m, job, answer).job)
    ensures job.Stop? ==> TurnsBack(from, StopNext(m, job).job)
  {
  }

  lemma TurnsBackStep(s: State, event: Event, id: nat, from: Job)
    requires Core(s) && id in s.jobs && !s.shared.IsCurrent(s.jobs[id].token) && TurnsBack(from, s.jobs[id])
    ensures var t := Next(s, event);
            && id in t.jobs && t.jobs[id].token == s.jobs[id].token && !t.shared.IsCurrent(t.jobs[id].token)
            && TurnsBack(from, t.jobs[id])
  {
    assert JobOk(s.shared, s.jobs[id]);
    StaysPast(s, event, s.jobs[id].token);
    if !ActsFor(event, id) {
      OthersLeave(s, event, id);
    } else {
      CoreAdvances(s, event, id);
      if event.StartAction? {
        OwnTurnsBack(s.shared, from, s.jobs[id], event.answer);
        hide StartNext;
      } else if event.StopAction? {
        OwnTurnsBack(s.shared, from, s.jobs[id], Nothing);
        hide StopNext;
      }
    }
  }

  /** A token that has been overtaken stays so. */
  lemma StaysPast(s: State, event: Event, token: Token)
    requires Core(s) && token.id < s.shared.intent.minted && !s.shared.IsCurrent(token)
    ensures token.id < Next(s, event).shared.intent.minted && !Next(s, event).shared.IsCurrent(token)
  {
    match event
    case GateAnswer(k, _) =>
      if IsStart(s, k) {
        CoreAdvances(s, event, k);
        hide GateNext, Core;
      }
    case StartAction(k, _) =>
      if IsStart(s, k) {
        CoreAdvances(s, event, k);
        hide StartNext, Core;
      }
    case StopAction(k) =>
      if IsStop(s, k) {
        CoreAdvances(s, event, k);
        hide StopNext, Core;
      }
    case _ => hide StartNext, StopNext, GateNext;
  }

  /**
   An overtaken request that stands before one of its checks goes no further than that check, whatever happens: it does
   not ask for consent, start, stop or publish anything, and a start that turns back only reconciles.
   */
  lemma {:induction false} OvertakenTurnsBack(s: State, later: seq<Event>, id: nat)
    requires Core(s) && id in s.jobs && !s.shared.IsCurrent(s.jobs[id].token) && TurnsBack(s.jobs[id], s.jobs[id])
    ensures var t := Run(s, later);
            && Core(t) && id in t.jobs && !t.shared.IsCurrent(t.jobs[id].token) && TurnsBack(s.jobs[id], t.jobs[id])
  {
    if later != [] {
      hide Core, Next, TurnsBack;
      var t := Run(s, later[..|later| - 1]);
      OvertakenTurnsBack(s, later[..|later| - 1], id);
      NextKeepsCore(t, later[|later| - 1]);
      TurnsBackStep(t, later[|later| - 1], id, s.jobs[id]);
    }
  }

  // ---- A start whose consent dialog a stop has abandoned

  /** The start has been refused, or will be: the dialog that it waits for is no longer its own. */
  predicate Doomed(m: Shared, job: Job) {
    job.Start? &&
    match job.start
    case Consent => m.pendingVpnPreparation != Some(job.token.id)
    case Fail => true
    case Finished(ok) => !ok
    case _ => InReconcile(job.start)
  }

  lemma DoomedStays(m: Shared, job: Job, answer: Answer)
    requires JobOk(m, job) && Doomed(m, job)
    ensures Doomed(StartNext(m, job, answer).shared, StartNext(m, job, answer).job)
  {
  }

  lemma OtherLeavesDoomed(s: State, event: Event, id: nat)
    requires Core(s) && IsStart(s, id) && Doomed(s.shared, s.jobs[id]) && !ActsFor(event, id)
    ensures IsStart(Next(s, event), id) && Doomed(Next(s, event).shared, Next(s, event).jobs[id])
  {
    OthersLeave(s, event, id);
    assert JobOk(s.shared, s.jobs[id]);
    match event
    case GateAnswer(k, shouldStart) =>
      if IsStart(s, k) {
        GateAdvances(s.shared, s.jobs[k], shouldStart);
        hide GateNext;
      }
    case StartAction(k, answer) =>
      if IsStart(s, k) {
        StartAdvances(s.shared, s.jobs[k], answer);
        hide StartNext;
      }
    case StopAction(k) =>
      if IsStop(s, k) {
        StopAdvances(s.shared, s.jobs[k]);
        hide StopNext;
      }
    case _ =>
  }

  lemma {:induction false} DoomedForGood(s: State, later: seq<Event>, id: nat)
    requires Core(s) && IsStart(s, id) && Doomed(s.shared, s.jobs[id])
    ensures var t := Run(s, later); Core(t) && IsStart(t, id) && Doomed(t.shared, t.jobs[id])
  {
    if later != [] {
      hide Core, Doomed, StartNext, StopNext, LossNext;
      var t, event := Run(s, later[..|later| - 1]), later[|later| - 1];
      DoomedForGood(s, later[..|later| - 1], id);
      NextKeepsCore(t, event);
      if ActsFor(event, id) {
        OwnDoomedStays(t, event, id);
      } else {
        OtherLeavesDoomed(t, event, id);
      }
    }
  }

  lemma OwnDoomedStays(s: State, event: Event, id: nat)
    requires Core(s) && IsStart(s, id) && Doomed(s.shared, s.jobs[id]) && ActsFor(event, id)
    ensures IsStart(Next(s, event), id) && Doomed(Next(s, event).shared, Next(s, event).jobs[id])
  {
    assert JobOk(s.shared, s.jobs[id]);
    if event.StartAction? {
      DoomedStays(s.shared, s.jobs[id], event.answer);
      hide StartNext;
    }
  }

  /**
   The dialog that a start waits for is taken from it by others exactly when some stop abandons the preparation: a stop
   that has passed its own check, although the start may be newer by now.
   */
  lemma ConsentIsTakenExactly(s: State, event: Event, id: nat)
    requires Core(s) && IsStart(s, id) && s.jobs[id].start == Consent && !Doomed(s.shared, s.jobs[id])
    requires !ActsFor(event, id)
    ensures IsStart(Next(s, event), id)
    ensures Doomed(Next(s, event).shared, Next(s, event).jobs[id]) <==>
              event.StopAction? && IsStop(s, event.id) && s.jobs[event.id].stop == Abandon
  {
    OthersLeave(s, event, id);
    assert JobOk(s.shared, s.jobs[id]);
    if event.StartAction? && IsStart(s, event.id) {
      assert JobOk(s.shared, s.jobs[event.id]);
      OtherKeepsDialog(s.shared, s.jobs[event.id], event.answer, s.jobs[id]);
      hide StartNext;
    }
  }

  lemma OtherKeepsDialog(m: Shared, other: Job, answer: Answer, job: Job)
    requires JobOk(m, other) && JobOk(m, job) && other.Start? && other.token.id != job.token.id
    requires job.Start? && job.start == Consent && m.pendingVpnPreparation == Some(job.token.id)
    ensures StartNext(m, other, answer).shared.pendingVpnPreparation == m.pendingVpnPreparation
  {
  }

  /**
   A start that waits for consent when a stop abandons the preparation never starts, whoever answers what afterwards;
   this includes a start that is newer than the stop and has overtaken it since the stop's check.
   */
  lemma AbandonedNeverStarts(schedule: seq<Event>, id: nat, start: nat, later: seq<Event>)
    requires var s := Run(Init(), schedule);
             && IsStop(s, id) && s.jobs[id].stop == Abandon && IsStart(s, start) && s.jobs[start].start == Consent
    ensures var t := Run(Next(Run(Init(), schedule), StopAction(id)), later);
            IsStart(t, start) && !Reported(t.jobs[start]) && Doomed(t.shared, t.jobs[start])
  {
    CoreHolds(schedule);
    var s := Run(Init(), schedule);
    NextKeepsCore(s, StopAction(id));
    DoomedForGood(Next(s, StopAction(id)), later, start);
  }

  // ---- The newest start at its consent dialog

  /** A disconnect handler that is about to roll this very request back has the transition lock. */
  ghost predicate Cornered(s: State, id: nat) {
    && IsStart(s, id) && s.shared.transitionLock.Some? && s.shared.transitionLock.value.ServiceLoss?
    && s.shared.transitionLock.value.index < |s.losses|
    && var loss := s.losses[s.shared.transitionLock.value.index];
       loss.token == s.jobs[id].token && (loss.pc.LossReset? || (loss.pc.LossRunTime? && !s.shared.host.Up()))
  }

  /** The start is the newest and waits outside the transition lock. */
  predicate Outside(m: Shared, job: Job) {
    job.Start? && m.IsCurrent(job.token) && !Inside(job) && !job.start.Finished?
  }

  lemma OwnStaysOutside(m: Shared, job: Job, answer: Answer)
    requires JobOk(m, job) && Outside(m, job) && m.transitionLock.Some?
    ensures var after := StartNext(m, job, answer);
            || Outside(after.shared, after.job)
            || (Overtaken(after.shared, after.job) && !PastItsChecks(after.shared, after.job))
    ensures var n := StartNext(m, job, answer).shared; n.host == m.host && n.transitionLock == m.transitionLock
  {
  }

  lemma CorneredStep(s: State, event: Event, id: nat)
    requires Core(s) && Cornered(s, id) && Outside(s.shared, s.jobs[id])
    ensures var t := Next(s, event);
            && IsStart(t, id)
            && (|| (Cornered(t, id) && Outside(t.shared, t.jobs[id]))
                || (Overtaken(t.shared, t.jobs[id]) && !PastItsChecks(t.shared, t.jobs[id])))
  {
    var m, job, t := s.shared, s.jobs[id], Next(s, event);
    var index := m.transitionLock.value.index;
    assert JobOk(m, job) && LossOk(m, index, s.losses[index]);
    if ActsFor(event, id) {
      if event.StartAction? {
        OwnStaysOutside(m, job, event.answer);
        hide StartNext;
      }
    } else {
      OthersLeave(s, event, id);
      match event
      case GateAnswer(k, shouldStart) =>
        if IsStart(s, k) {
          CoreAdvances(s, event, k);
          hide GateNext;
        }
      case StartAction(k, answer) =>
        if IsStart(s, k) {
          CoreAdvances(s, event, k);
          hide StartNext;
        }
      case StopAction(k) =>
        if IsStop(s, k) {
          CoreAdvances(s, event, k);
          hide StopNext;
        }
      case LossAction(k, wasCurrent) =>
        if k < |s.losses| {
          assert LossOk(m, k, s.losses[k]);
        }
      case _ =>
    }
  }

  lemma {:induction false} CorneredNeverReports(s: State, later: seq<Event>, id: nat)
    requires Core(s) && Cornered(s, id) && Outside(s.shared, s.jobs[id])
    ensures var t := Run(s, later);
            && Core(t) && IsStart(t, id)
            && (|| (Cornered(t, id) && Outside(t.shared, t.jobs[id]))
                || (Overtaken(t.shared, t.jobs[id]) && !PastItsChecks(t.shared, t.jobs[id])))
  {
    if later != [] {
      hide Next, Core, Cornered, Overtaken, PastItsChecks, Outside;
      var t, event := Run(s, later[..|later| - 1]), later[|later| - 1];
      CorneredNeverReports(s, later[..|later| - 1], id);
      NextKeepsCore(t, event);
      if Overtaken(t.shared, t.jobs[id]) && !PastItsChecks(t.shared, t.jobs[id]) {
        StaysOvertaken(t, event, id);
        StaysChecked(t, event, id);
      } else {
        CorneredStep(t, event, id);
      }
    }
  }

  /** The newest start has come to the transition lock, and whoever has it will leave it. */
  ghost predicate AtTheLock(s: State, id: nat) {
    && Core(s) && IsStart(s, id) && s.jobs[id].start.WaitTransition? && s.shared.IsCurrent(s.jobs[id].token)
    && !Cornered(s, id)
  }

  /** The next action of whoever has the transition lock. */
  function HolderEvent(s: State): Event
    requires s.shared.transitionLock.Some?
  {
    match s.shared.transitionLock.value
    case Request(k) => if k in s.jobs then Serve(s.shared, s.jobs[k]) else Disconnected
    case ServiceLoss(i) => LossAction(i, false)
    case Refresher(who, _) => PublishRefresh(who)
  }

  lemma HolderActs(s: State)
    requires Core(s) && s.shared.transitionLock.Some?
    ensures IsAction(HolderEvent(s)) && Next(s, HolderEvent(s)) != s
  {
    match s.shared.transitionLock.value
    case Request(k) =>
      assert JobOk(s.shared, s.jobs[k]);
      ServedAdvances(s, k);
      Servable(s.shared, s.jobs[k]);
      hide Served;
      assert Next(s, HolderEvent(s)).jobs[k] != s.jobs[k];
    case ServiceLoss(i) =>
      assert LossOk(s.shared, i, s.losses[i]);
      assert Next(s, HolderEvent(s)).losses[i] != s.losses[i];
    case Refresher(_, _) =>
  }

  lemma HolderSparesTheNewest(s: State, id: nat)
    requires AtTheLock(s, id) && s.shared.transitionLock.Some?
    ensures AtTheLock(Next(s, HolderEvent(s)), id)
  {
    var event := HolderEvent(s);
    assert JobOk(s.shared, s.jobs[id]);
    NextKeepsCore(s, event);
    OthersLeave(s, event, id);
    match s.shared.transitionLock.value
    case Request(k) =>
      assert JobOk(s.shared, s.jobs[k]);
      ServedAdvances(s, k);
      hide Served, Core;
    case ServiceLoss(i) =>
      assert LossOk(s.shared, i, s.losses[i]);
      hide Core;
    case Refresher(_, _) => hide Core;
  }

  lemma {:induction false} StartsFromTheLock(s: State, id: nat) returns (later: seq<Event>)
    requires AtTheLock(s, id)
    ensures ReportsAfter(s, later, id)
    decreases ActionsLeft(s)
  {
    hide ReportsAfter, ActionsLeft;
    if s.shared.transitionLock.None? {
      later := StartsAlone(s, id);
    } else {
      HolderActs(s);
      HolderSparesTheNewest(s, id);
      ActionsUseUpWork(s, HolderEvent(s));
      later := StartsFromTheLock(Next(s, HolderEvent(s)), id);
      ReportsOneLater(s, HolderEvent(s), later, id);
      later := [HolderEvent(s)] + later;
    }
  }

  lemma StartsAlone(s: State, id: nat) returns (later: seq<Event>)
    requires AtTheLock(s, id) && s.shared.transitionLock.None?
    ensures ReportsAfter(s, later, id)
  {
    hide ReportsAfter, Core;
    var act := StartAction(id, Nothing);
    var probing := Next(Next(s, act), act);
    later := StartsFromProbe(probing, id);
    ReportsOneLater(Next(s, act), act, later, id);
    ReportsOneLater(s, act, [act] + later, id);
    later := [act] + ([act] + later);
  }

  lemma StartsFromProbe(s: State, id: nat) returns (later: seq<Event>)
    requires IsStart(s, id) && s.jobs[id].start.Probe? && s.shared.IsCurrent(s.jobs[id].token)
    ensures ReportsAfter(s, later, id)
  {
    hide ReportsAfter;
    var act := StartAction(id, Nothing);
    var t := Next(s, act);
    if t.jobs[id].start.SetStarting? {
      later := StartsFromCall(t, id);
    } else if t.shared.host.VpnServiceActive() == t.jobs[id].options.enable {
      later := ReportsFromKind(t, id);
    } else {
      later := StartsFromCall(Next(t, act), id);
      ReportsOneLater(t, act, later, id);
      later := [act] + later;
    }
    ReportsOneLater(s, act, later, id);
    later := [act] + later;
  }

  lemma StartsFromCall(s: State, id: nat) returns (later: seq<Event>)
    requires IsStart(s, id) && s.jobs[id].start.SetStarting? && s.shared.IsCurrent(s.jobs[id].token)
    ensures ReportsAfter(s, later, id)
  {
    hide ReportsAfter;
    var act, called := StartAction(id, Nothing), StartAction(id, Up(1));
    var t := Next(s, act);
    var u := Next(t, called);
    later := ReportsFromPublication(Next(u, act), id);
    ReportsOneLater(u, act, later, id);
    ReportsOneLater(t, called, [act] + later, id);
    ReportsOneLater(s, act, [called] + ([act] + later), id);
    later := [act] + ([called] + ([act] + later));
  }

  lemma StartsFromConsent(s: State, id: nat) returns (later: seq<Event>)
    requires Core(s) && IsStart(s, id) && s.jobs[id].start.Consent? && s.shared.IsCurrent(s.jobs[id].token)
    requires !Doomed(s.shared, s.jobs[id]) && !Cornered(s, id)
    ensures ReportsAfter(s, later, id)
  {
    var granted, checked := StartAction(id, Granted), StartAction(id, Nothing);
    assert JobOk(s.shared, s.jobs[id]);
    NextKeepsCore(s, granted);
    NextKeepsCore(Next(s, granted), checked);
    hide ReportsAfter, Core;
    later := StartsFromTheLock(Next(Next(s, granted), checked), id);
    ReportsOneLater(Next(s, granted), checked, later, id);
    ReportsOneLater(s, granted, [checked] + later, id);
    later := [granted] + ([checked] + later);
  }

  /**
   After any run, the newest start that waits for consent has a continuation in which it starts if and only if the
   dialog is still its own and no disconnect handler is about to roll it back inside the transition lock.
   */
  lemma ConsentStartsExactly(schedule: seq<Event>, id: nat)
    requires var s := Run(Init(), schedule);
             IsStart(s, id) && s.jobs[id].start.Consent? && s.shared.IsCurrent(s.jobs[id].token)
    ensures var s := Run(Init(), schedule);
            (exists later :: ReportsAfter(s, later, id)) <==>
              s.shared.pendingVpnPreparation == Some(id) && !Cornered(s, id)
  {
    CoreHolds(schedule);
    var s := Run(Init(), schedule);
    assert JobOk(s.shared, s.jobs[id]);
    if Cornered(s, id) {
      forall later ensures !ReportsAfter(s, later, id) {
        CorneredNeverReports(s, later, id);
      }
    } else if Doomed(s.shared, s.jobs[id]) {
      forall later ensures !ReportsAfter(s, later, id) {
        DoomedForGood(s, later, id);
      }
    } else {
      var later := StartsFromConsent(s, id);
    }
  }
}

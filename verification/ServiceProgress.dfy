/** No request is left waiting: coroutines are finite, never deadlock, and can always be run to completion. */
module ServiceProgress {
  import opened Options
  import opened RunIntentArbiter
  import opened ServiceStateMachine
  import opened ServiceSettling
  import opened ServiceMending

  /** An upper bound on the actions a coroutine has left. */
  function Rank(job: Job): nat {
    match job
    case Start(_, _, pc) =>
      (match pc
       case Gate => 21 case WaitPreparation => 20 case FirstCheck => 19 case ReadOptions => 18 case Prepare => 17
       case Consent => 16 case SecondCheck => 15 case WaitTransition => 14 case ThirdCheck => 13 case Probe => 12
       case ProbeKind => 11 case SetStarting => 10 case CallStart => 9 case PublishReuse => 9 case PublishFailed => 8
       case FinalCheck => 8 case FailRefused => 7 case PublishStarted => 7 case Fail => 7 case ThrownFail => 7
       case WaitReconcile => 6 case ReadIntent => 5 case ReadRunTime => 4 case SetStopping => 3 case CallStop => 2
       case SetStopped => 1 case Finished(_) => 0)
    case Stop(_, pc) =>
      (match pc
       case AwaitTransition => 8 case Check => 7 case Abandon => 6 case ProbeStop => 5 case BeginStop => 4
       case StopService => 3 case PublishStopped => 2 case Report => 1 case Ended(_) => 0)
  }

  function LossRank(loss: Loss): nat {
    match loss.pc
    case Captured => 5 case AwaitLock => 4 case LossRunTime => 3 case LossReset => 2 case LossPublish => 1
    case Settled => 0
  }

  function JobsLeft(jobs: map<nat, Job>, n: nat): nat {
    if n == 0 then 0 else JobsLeft(jobs, n - 1) + if n - 1 in jobs then Rank(jobs[n - 1]) else 0
  }

  function LossesLeft(losses: seq<Loss>): nat {
    if losses == [] then 0 else LossesLeft(losses[..|losses| - 1]) + LossRank(losses[|losses| - 1])
  }

  function ActionsLeft(s: State): nat {
    JobsLeft(s.jobs, s.shared.intent.minted) + LossesLeft(s.losses) + if s.shared.Refreshing() then 1 else 0
  }

  lemma {:induction false} JobsLeftAt(before: map<nat, Job>, after: map<nat, Job>, id: nat, n: nat)
    requires before.Keys == after.Keys && id in before
    requires forall k | k in before && k != id :: after[k] == before[k]
    ensures JobsLeft(after, n) + (if id < n then Rank(before[id]) else 0)
         == JobsLeft(before, n) + (if id < n then Rank(after[id]) else 0)
  {
    if n != 0 {
      JobsLeftAt(before, after, id, n - 1);
    }
  }

  lemma {:induction false} JobsLeftBeyond(jobs: map<nat, Job>, n: nat, m: nat)
    requires n <= m && forall k | k in jobs :: k < n
    ensures JobsLeft(jobs, m) == JobsLeft(jobs, n)
  {
    if n < m {
      JobsLeftBeyond(jobs, n, m - 1);
    }
  }

  lemma {:induction false} LossesLeftAt(losses: seq<Loss>, i: nat, loss: Loss)
    requires i < |losses|
    ensures LossesLeft(losses[i := loss]) + LossRank(losses[i]) == LossesLeft(losses) + LossRank(loss)
  {
    var last := |losses| - 1;
    if i < last {
      LossesLeftAt(losses[..last], i, loss);
      assert losses[i := loss][..last] == losses[..last][i := loss];
    } else {
      assert losses[i := loss][..last] == losses[..last];
    }
  }

  lemma PrepareRanks(m: Shared, job: Job, answer: Answer)
    requires job.Start?
    ensures PrepareNext(m, job, answer) == Advanced(m, job) || Rank(PrepareNext(m, job, answer).job) < Rank(job)
  {
  }

  lemma TransitionRanks(m: Shared, job: Job, answer: Answer)
    requires job.Start?
    ensures TransitionNext(m, job, answer) == Advanced(m, job) || Rank(TransitionNext(m, job, answer).job) < Rank(job)
  {
  }

  lemma ReconcileRanks(m: Shared, job: Job)
    requires job.Start?
    ensures ReconcileNext(m, job) == Advanced(m, job) || Rank(ReconcileNext(m, job).job) < Rank(job)
  {
  }

  lemma StartRanks(m: Shared, job: Job, answer: Answer)
    requires job.Start?
    ensures StartNext(m, job, answer) == Advanced(m, job) || Rank(StartNext(m, job, answer).job) < Rank(job)
  {
    hide PrepareNext, TransitionNext, ReconcileNext, Rank;
    PrepareRanks(m, job, answer);
    TransitionRanks(m, job, answer);
    ReconcileRanks(m, job);
  }

  lemma StopRanks(m: Shared, job: Job)
    requires job.Stop?
    ensures StopNext(m, job) == Advanced(m, job) || Rank(StopNext(m, job).job) < Rank(job)
  {
  }

  lemma GateRanks(m: Shared, job: Job, shouldStart: bool)
    requires job.Start?
    ensures GateNext(m, job, shouldStart) == Advanced(m, job) || Rank(GateNext(m, job, shouldStart).job) < Rank(job)
  {
  }

  lemma LossUsesUpWork(s: State, index: nat, wasCurrent: bool)
    requires Core(s) && index < |s.losses|
    ensures var t := Next(s, LossAction(index, wasCurrent)); t == s || ActionsLeft(t) < ActionsLeft(s)
  {
    var t := Next(s, LossAction(index, wasCurrent));
    LossesLeftAt(s.losses, index, t.losses[index]);
    forall k | k in s.jobs ensures k < s.shared.intent.minted {
      assert JobOk(s.shared, s.jobs[k]);
    }
    JobsLeftBeyond(s.jobs, s.shared.intent.minted, t.shared.intent.minted);
    assert t.losses[index] == s.losses[index] ==> t.losses == s.losses;
  }

  lemma AdvanceLeaves(s: State, id: nat, after: Advanced<Job>)
    requires Core(s) && id in s.jobs && Advances(s.shared, s.jobs[id], after)
    ensures ActionsLeft(WithJob(s, id, after)) + Rank(s.jobs[id]) == ActionsLeft(s) + Rank(after.job)
  {
    var t := WithJob(s, id, after);
    assert JobOk(s.shared, s.jobs[id]);
    JobsLeftAt(s.jobs, t.jobs, id, s.shared.intent.minted);
    forall k | k in t.jobs ensures k < s.shared.intent.minted {
      assert JobOk(s.shared, s.jobs[k]);
    }
    JobsLeftBeyond(t.jobs, s.shared.intent.minted, t.shared.intent.minted);
  }

  lemma AdvanceUsesUpWork(s: State, id: nat, after: Advanced<Job>)
    requires Core(s) && id in s.jobs && Advances(s.shared, s.jobs[id], after)
    requires after == Advanced(s.shared, s.jobs[id]) || Rank(after.job) < Rank(s.jobs[id])
    ensures WithJob(s, id, after) == s || ActionsLeft(WithJob(s, id, after)) < ActionsLeft(s)
  {
    AdvanceLeaves(s, id, after);
    if after == Advanced(s.shared, s.jobs[id]) {
      assert WithJob(s, id, after).jobs == s.jobs;
    }
  }

  /** Requests alone create work: every action of a coroutine does nothing or uses up part of a finite budget. */
  lemma ActionsUseUpWork(s: State, event: Event)
    requires Core(s) && IsAction(event)
    ensures Next(s, event) == s || ActionsLeft(Next(s, event)) < ActionsLeft(s)
  {
    match event
    case GateAnswer(id, shouldStart) =>
      if IsStart(s, id) {
        GateAdvances(s.shared, s.jobs[id], shouldStart);
        GateRanks(s.shared, s.jobs[id], shouldStart);
        AdvanceUsesUpWork(s, id, GateNext(s.shared, s.jobs[id], shouldStart));
      }
    case StartAction(id, answer) =>
      if IsStart(s, id) {
        StartAdvances(s.shared, s.jobs[id], answer);
        StartRanks(s.shared, s.jobs[id], answer);
        AdvanceUsesUpWork(s, id, StartNext(s.shared, s.jobs[id], answer));
      }
    case StopAction(id) =>
      if IsStop(s, id) {
        StopAdvances(s.shared, s.jobs[id]);
        StopRanks(s.shared, s.jobs[id]);
        AdvanceUsesUpWork(s, id, StopNext(s.shared, s.jobs[id]));
      }
    case LossAction(index, wasCurrent) =>
      if index < |s.losses| {
        LossUsesUpWork(s, index, wasCurrent);
      }
    case PublishRefresh(_) =>
  }

  // ---- What can still take an unwanted service down

  /** The coroutine is bound to stop the service, or its next actions may still lead it there. */
  predicate Helps(m: Shared, job: Job) {
    || Bound(m, job)
    || match job
       case Start(_, _, pc) => pc.Gate? || pc.Probe? || pc.ProbeKind?
       case Stop(_, pc) => pc.Abandon? || pc.ProbeStop? || pc.BeginStop? || pc.StopService?
  }

  ghost predicate JobHelps(s: State) {
    exists id :: id in s.jobs && Helps(s.shared, s.jobs[id])
  }

  /** A loss not taken yet will settle the state: its token is the newest, or that of another on its way is. */
  ghost predicate LossHelps(s: State, i: nat) {
    && i < |s.losses| && s.losses[i].pc.Captured?
    && (s.shared.IsCurrent(s.losses[i].token) || exists j: nat :: j < |s.losses| && LossMends(s.shared, s.losses[j]))
  }

  ghost predicate Helped(s: State) {
    Unwanted(s.shared) ==> JobHelps(s) || exists i :: LossHelps(s, i)
  }

  /** Somebody in flight can set right what is untrue, and take down what is unwanted. */
  ghost predicate Hopeful(s: State) {
    Mended(s) && Helped(s)
  }

  lemma FaultsAloneLoseHope(schedule: seq<Event>)
    requires NeverStrands(schedule) && NeverDeserts(schedule)
    ensures Hopeful(Run(Init(), schedule))
  {
    MendedHolds(schedule);
    UnwantedServiceIsCovered(schedule);
    var s := Run(Init(), schedule);
    if Unwanted(s.shared) {
      var id :| id in s.jobs && Bound(s.shared, s.jobs[id]);
      assert Helps(s.shared, s.jobs[id]);
    }
  }

  lemma DoneNeedsNoHelp(s: State)
    requires AllDone(s)
    ensures Helped(s) <==> !Unwanted(s.shared)
  {
    forall id | id in s.jobs ensures !Helps(s.shared, s.jobs[id]) {
      assert Done(s.jobs[id]);
    }
    forall i ensures !LossHelps(s, i) {
    }
  }

  // ---- The next action of a run that is to end well

  /** The answer that lets a start go on without a fault; over an unwanted service it is made to reconcile instead. */
  function Obliging(m: Shared, pc: StartPc): Answer {
    match pc
    case Prepare => Granted
    case Consent => Granted
    case ProbeKind => if Unwanted(m) then Throws(m.host) else Nothing
    case CallStart => Up(1)
    case _ => Nothing
  }

  function Serve(m: Shared, job: Job): Event {
    match job
    case Start(token, _, pc) => if pc.Gate? then GateAnswer(token.id, true) else StartAction(token.id, Obliging(m, pc))
    case Stop(token, _) => StopAction(token.id)
  }

  function Served(m: Shared, job: Job): Advanced<Job> {
    match job
    case Start(_, _, pc) => if pc.Gate? then GateNext(m, job, true) else StartNext(m, job, Obliging(m, pc))
    case Stop(_, _) => StopNext(m, job)
  }

  lemma ServedAdvances(s: State, id: nat)
    requires Core(s) && id in s.jobs
    ensures Advances(s.shared, s.jobs[id], Served(s.shared, s.jobs[id]))
    ensures Next(s, Serve(s.shared, s.jobs[id])) == WithJob(s, id, Served(s.shared, s.jobs[id]))
  {
    assert JobOk(s.shared, s.jobs[id]);
    CoreAdvances(s, Serve(s.shared, s.jobs[id]), id);
  }

  /** A coroutine that needs no lock it does not have can be served. */
  lemma Servable(m: Shared, job: Job)
    requires JobOk(m, job) && !Done(job)
    requires Inside(job) || m.transitionLock.None?
    requires job.Start? && job.start.WaitPreparation? ==> m.startPreparationLock.None?
    ensures Served(m, job).job != job
  {
  }

  lemma ServedHelps(m: Shared, job: Job)
    requires JobOk(m, job)
    ensures var after := Served(m, job);
            Unwanted(after.shared) && !Helps(after.shared, after.job) ==> Unwanted(m) && !Helps(m, job)
  {
  }

  lemma ServeKeepsHelp(s: State, id: nat)
    requires Core(s) && id in s.jobs && (Unwanted(s.shared) ==> JobHelps(s))
    ensures var t := Next(s, Serve(s.shared, s.jobs[id])); Unwanted(t.shared) ==> JobHelps(t)
  {
    var job, after := s.jobs[id], Served(s.shared, s.jobs[id]);
    var t := WithJob(s, id, after);
    assert JobOk(s.shared, job);
    ServedAdvances(s, id);
    ServedHelps(s.shared, job);
    hide Served, Serve, Core;
    if Unwanted(t.shared) {
      if Helps(t.shared, after.job) {
        assert t.jobs[id] == after.job;
      } else {
        var k :| k in s.jobs && Helps(s.shared, s.jobs[k]);
        assert t.jobs[k] == s.jobs[k] && Helps(t.shared, t.jobs[k]);
      }
    }
  }

  /** Inside the transition lock, or alone with nothing left to wait for, a served coroutine deserts nothing. */
  lemma ServeDesertsNothing(s: State, id: nat)
    requires Core(s) && Mended(s) && id in s.jobs
    requires Inside(s.jobs[id])
        || (s.shared.transitionLock.None? && forall i | 0 <= i < |s.losses| :: s.losses[i].pc.Settled?)
    ensures !Deserts(s, Serve(s.shared, s.jobs[id]))
  {
    var m, job := s.shared, s.jobs[id];
    if job.Start? && (job.start.Fail? || job.start.ThrownFail?) && m.IsCurrent(job.token) && Lost(m) {
      forall k | k in s.jobs ensures !Mends(m, s.jobs[k]) {
        assert JobOk(m, s.jobs[k]) && JobOk(m, job) && !Inside(s.jobs[k]);
      }
      assert forall i: nat | i < |s.losses| :: !LossMends(m, s.losses[i]);
      assert false;
    }
    hide NobodyElse;
  }

  lemma ServeKeepsHope(s: State, id: nat) returns (event: Event)
    requires Core(s) && Seen(s) && id in s.jobs && !Done(s.jobs[id])
    requires Inside(s.jobs[id])
        || (s.shared.transitionLock.None? && forall i | 0 <= i < |s.losses| :: s.losses[i].pc.Settled?)
    requires s.jobs[id].Start? && s.jobs[id].start.WaitPreparation? ==> s.shared.startPreparationLock.None?
    ensures IsAction(event) && Next(s, event) != s && !Strands(s, event) && !ThrowsDown(s, event)
    ensures Mended(s) && (Unwanted(s.shared) ==> JobHelps(s)) ==> Hopeful(Next(s, event))
  {
    event := Serve(s.shared, s.jobs[id]);
    assert JobOk(s.shared, s.jobs[id]);
    ServedAdvances(s, id);
    Servable(s.shared, s.jobs[id]);
    hide Served, Mended, Unwanted, JobHelps, Core, Seen, Deserts;
    assert Next(s, event).jobs[id] != s.jobs[id];
    if Mended(s) && (Unwanted(s.shared) ==> JobHelps(s)) {
      ServeKeepsHelp(s, id);
      ServeDesertsNothing(s, id);
      DesertsExactly(s, event);
    }
  }

  /** A disconnect handler waits for nothing but the transition lock, and one that is not asked to takes nothing. */
  lemma LossKeepsHope(s: State, index: nat) returns (event: Event)
    requires Core(s) && Seen(s) && index < |s.losses| && !s.losses[index].pc.Settled?
    requires s.shared.transitionLock.None? || s.shared.transitionLock == Some(ServiceLoss(index))
    ensures IsAction(event) && Next(s, event) != s && !Strands(s, event) && !ThrowsDown(s, event)
    ensures Mended(s) && (Unwanted(s.shared) ==> JobHelps(s)) ==> Hopeful(Next(s, event))
  {
    event := LossAction(index, false);
    var t := Next(s, event);
    assert LossOk(s.shared, index, s.losses[index]);
    assert t.losses[index] != s.losses[index] && t.jobs == s.jobs;
    assert Unwanted(t.shared) ==> Unwanted(s.shared) && t.shared.intent == s.shared.intent;
    assert forall id | id in s.jobs :: t.shared.intent == s.shared.intent && Helps(s.shared, s.jobs[id]) ==>
        Helps(t.shared, t.jobs[id]);
    hide Helps, Unwanted, Mended, LossNext, Core, Seen;
    if Mended(s) {
      DesertsExactly(s, event);
    }
  }

  lemma RefreshKeepsHope(s: State) returns (event: Event)
    requires Core(s) && Seen(s) && s.shared.Refreshing()
    ensures IsAction(event) && Next(s, event) != s && !Strands(s, event) && !ThrowsDown(s, event)
    ensures Mended(s) && (Unwanted(s.shared) ==> JobHelps(s)) ==> Hopeful(Next(s, event))
  {
    event := PublishRefresh(s.shared.transitionLock.value.who);
    var t := Next(s, event);
    assert Unwanted(t.shared) == Unwanted(s.shared) && t.jobs == s.jobs;
    assert forall id | id in s.jobs :: Helps(s.shared, s.jobs[id]) ==> Helps(t.shared, t.jobs[id]);
    hide Helps, Unwanted, Mended, Core, Seen;
    if Mended(s) {
      DesertsExactly(s, event);
    }
  }

  /** When no request is left to take an unwanted service down, a loss of it under the newest token will. */
  lemma LossTakesUnwanted(s: State, index: nat) returns (event: Event)
    requires Core(s) && Seen(s) && Mended(s) && Unwanted(s.shared) && LossHelps(s, index)
    ensures IsAction(event) && Next(s, event) != s && !Strands(s, event) && !ThrowsDown(s, event)
    ensures Hopeful(Next(s, event))
  {
    event := LossAction(index, true);
    var t := Next(s, event);
    assert t.shared == s.shared.(host := DOWN);
    assert !Deserts(s, event) by {
      if !s.shared.IsCurrent(s.losses[index].token) {
        var j: nat :| j < |s.losses| && LossMends(s.shared, s.losses[j]);
        assert LossMends(t.shared, s.losses[j]) && Some(j) != Some(index);
      }
    }
    DesertsExactly(s, event);
  }

  /**
   The machine never deadlocks: while some request is unanswered, some disconnect unhandled or some refresh
   unpublished, a coroutine can act, without stranding anything and without giving up a hope of settling.
   */
  lemma NoDeadlock(s: State) returns (event: Event)
    requires Core(s) && Seen(s) && !AllDone(s)
    ensures IsAction(event) && Next(s, event) != s && !Strands(s, event) && !ThrowsDown(s, event)
    ensures Hopeful(s) ==> Hopeful(Next(s, event))
  {
    hide Core, Seen, Mended, Unwanted, JobHelps, LossHelps, Inside;
    if Hopeful(s) && Unwanted(s.shared) && !JobHelps(s) {
      var i :| LossHelps(s, i);
      event := LossTakesUnwanted(s, i);
    } else if s.shared.Refreshing() {
      event := RefreshKeepsHope(s);
    } else if s.shared.transitionLock.Some? {
      event := HolderKeepsHope(s);
    } else if i: nat :| i < |s.losses| && !s.losses[i].pc.Settled? {
      event := LossKeepsHope(s, i);
    } else {
      var id := FreeToAct(s);
      event := ServeKeepsHope(s, id);
    }
  }

  lemma HolderKeepsHope(s: State) returns (event: Event)
    requires Core(s) && Seen(s) && s.shared.transitionLock.Some? && !s.shared.Refreshing()
    ensures IsAction(event) && Next(s, event) != s && !Strands(s, event) && !ThrowsDown(s, event)
    ensures Mended(s) && (Unwanted(s.shared) ==> JobHelps(s)) ==> Hopeful(Next(s, event))
  {
    match s.shared.transitionLock.value
    case ServiceLoss(index) =>
      assert LossOk(s.shared, index, s.losses[index]);
      event := LossKeepsHope(s, index);
    case Request(id) =>
      assert JobOk(s.shared, s.jobs[id]);
      event := ServeKeepsHope(s, id);
  }

  /** With the transition lock free, a request waits at most for the preparation of another, which can go on. */
  lemma FreeToAct(s: State) returns (id: nat)
    requires Core(s) && !Quiescent(s) && s.shared.transitionLock.None?
    ensures id in s.jobs && !Done(s.jobs[id])
    ensures s.jobs[id].Start? && s.jobs[id].start.WaitPreparation? ==> s.shared.startPreparationLock.None?
  {
    id :| id in s.jobs && !Done(s.jobs[id]);
    if s.jobs[id].Start? && s.jobs[id].start.WaitPreparation? && s.shared.startPreparationLock.Some? {
      id := s.shared.startPreparationLock.value;
      assert JobOk(s.shared, s.jobs[id]);
    }
  }

  /**
   From every run, however many requests and disconnects are still in flight, the coroutines can be run to completion,
   without stranding anything; while there is hope they desert nothing and end in agreement with the newest intent.
   */
  lemma {:induction false} CanAlwaysSettle(schedule: seq<Event>) returns (rest: seq<Event>)
    ensures (forall k | 0 <= k < |rest| :: IsAction(rest[k])) && AllDone(Run(Init(), schedule + rest))
    ensures Hopeful(Run(Init(), schedule)) ==> Agrees(Run(Init(), schedule + rest))
    ensures Faultless(schedule) ==> Faultless(schedule + rest)
    ensures NeverStrands(schedule) ==> NeverStrands(schedule + rest)
    ensures NeverDeserts(schedule) && Hopeful(Run(Init(), schedule)) ==> NeverDeserts(schedule + rest)
    decreases ActionsLeft(Run(Init(), schedule))
  {
    hide Next, Core, Seen, AllDone, Agrees, Mended, Unwanted, Helped, Strands, Deserts, ThrowsDown, ActionsLeft,
        IsAction;
    var s := Run(Init(), schedule);
    SeenHolds(schedule);
    if AllDone(s) {
      rest := [];
      assert schedule + rest == schedule;
      DoneNeedsNoHelp(s);
      AgreesExactly(s);
    } else {
      var event := NoDeadlock(s);
      ActionsUseUpWork(s, event);
      if Mended(s) {
        DesertsExactly(s, event);
      }
      var longer := schedule + [event];
      assert longer[..|longer| - 1] == schedule;
      ActionIsNoLoss(event);
      rest := CanAlwaysSettle(longer);
      assert longer + rest == schedule + ([event] + rest);
      rest := [event] + rest;
    }
  }

  lemma ActionIsNoLoss(event: Event)
    requires IsAction(event)
    ensures !event.Disconnected?
  {
  }

  // ---- Lost hope

  lemma UnhelpfulStart(m: Shared, job: Job, answer: Answer)
    requires job.Start? && JobOk(m, job) && SeesHost(m, job) && Unwanted(m) && !Helps(m, job)
    ensures var after := StartNext(m, job, answer);
            after.shared.host == m.host && after.shared.intent == m.intent && !Helps(after.shared, after.job)
  {
  }

  lemma UnhelpfulStop(m: Shared, job: Job)
    requires job.Stop? && JobOk(m, job) && SeesHost(m, job) && Unwanted(m) && !Helps(m, job)
    ensures var after := StopNext(m, job);
            after.shared.host == m.host && after.shared.intent == m.intent && !Helps(after.shared, after.job)
  {
  }

  lemma UnhelpfulLeavesNoHelp(s: State, id: nat, after: Advanced<Job>)
    requires Unwanted(s.shared) && !Helped(s) && id in s.jobs
    requires after.shared.host == s.shared.host && after.shared.intent == s.shared.intent
        && !Helps(after.shared, after.job)
    ensures Unwanted(after.shared) && !Helped(WithJob(s, id, after))
  {
    var t := WithJob(s, id, after);
    forall k | k in t.jobs ensures !Helps(t.shared, t.jobs[k]) {
      assert !Helps(s.shared, s.jobs[k]);
    }
    forall i ensures !LossHelps(t, i) {
      assert !LossHelps(s, i);
    }
  }

  /** A loss that takes an unwanted service under an overtaken token leaves its state to nobody. */
  lemma UnhelpfulLossDeserts(s: State, index: nat)
    requires Core(s) && Seen(s) && Unwanted(s.shared) && !Helped(s) && index < |s.losses|
        && s.losses[index].pc.Captured?
    ensures !Mended(Next(s, LossAction(index, true)))
  {
    var t := Next(s, LossAction(index, true));
    assert !LossHelps(s, index) && HostSeen(s.shared) && t.shared == s.shared.(host := DOWN);
    forall k | k in t.jobs ensures !Mends(t.shared, t.jobs[k]) {
      assert !Helps(s.shared, s.jobs[k]) && SeesHost(s.shared, s.jobs[k]) && JobOk(s.shared, s.jobs[k]);
    }
    forall i: nat | i < |t.losses| ensures !LossMends(t.shared, t.losses[i]) {
      assert !LossMends(s.shared, s.losses[i]);
    }
  }

  lemma UnhelpfulLoss(s: State, index: nat, wasCurrent: bool)
    requires Core(s) && Seen(s) && Unwanted(s.shared) && !Helped(s) && index < |s.losses|
    ensures !Hopeful(Next(s, LossAction(index, wasCurrent)))
  {
    var loss, t := s.losses[index], Next(s, LossAction(index, wasCurrent));
    assert LossOk(s.shared, index, loss);
    if loss.pc.Captured? && wasCurrent {
      UnhelpfulLossDeserts(s, index);
    } else {
      assert t.shared.host == s.shared.host && t.shared.intent == s.shared.intent && t.jobs == s.jobs;
      forall k | k in t.jobs ensures !Helps(t.shared, t.jobs[k]) {
        assert !Helps(s.shared, s.jobs[k]);
      }
      assert forall j: nat | j < |t.losses| && LossMends(t.shared, t.losses[j]) :: LossMends(s.shared, s.losses[j]);
      forall i ensures !LossHelps(t, i) {
        assert !LossHelps(s, i);
      }
    }
  }

  lemma UnhelpfulRefresh(s: State, who: nat)
    requires Unwanted(s.shared) && !Helped(s)
    ensures Unwanted(Next(s, PublishRefresh(who)).shared) && !Helped(Next(s, PublishRefresh(who)))
  {
    var t := Next(s, PublishRefresh(who));
    assert t.jobs == s.jobs && t.losses == s.losses;
    forall k | k in t.jobs ensures !Helps(t.shared, t.jobs[k]) {
      assert !Helps(s.shared, s.jobs[k]);
    }
    forall i ensures !LossHelps(t, i) {
      assert !LossHelps(s, i);
    }
  }

  lemma ActionStaysHopeless(s: State, event: Event)
    requires Core(s) && Seen(s) && !Hopeful(s) && IsAction(event)
    ensures !Hopeful(Next(s, event))
  {
    hide Mended, Unwanted, Helped, StartNext, StopNext, LossNext;
    if !Mended(s) {
      ActionStaysUnmended(s, event);
    } else {
      UnhelpedIsUnwanted(s);
      match event
      case GateAnswer(id, shouldStart) =>
        if IsStart(s, id) {
          GateIsNoUse(s, id, shouldStart);
          UnhelpfulLeavesNoHelp(s, id, GateNext(s.shared, s.jobs[id], shouldStart));
        }
      case StartAction(id, answer) =>
        if IsStart(s, id) {
          NobodyHelps(s, id);
          UnhelpfulStart(s.shared, s.jobs[id], answer);
          UnhelpfulLeavesNoHelp(s, id, StartNext(s.shared, s.jobs[id], answer));
        }
      case StopAction(id) =>
        if IsStop(s, id) {
          NobodyHelps(s, id);
          UnhelpfulStop(s.shared, s.jobs[id]);
          UnhelpfulLeavesNoHelp(s, id, StopNext(s.shared, s.jobs[id]));
        }
      case LossAction(index, wasCurrent) =>
        if index < |s.losses| {
          UnhelpfulLoss(s, index, wasCurrent);
        }
      case PublishRefresh(who) => UnhelpfulRefresh(s, who);
    }
  }

  lemma UnhelpedIsUnwanted(s: State)
    requires !Helped(s)
    ensures Unwanted(s.shared)
  {
  }

  lemma NobodyHelps(s: State, id: nat)
    requires Core(s) && Seen(s) && !Helped(s) && id in s.jobs
    ensures JobOk(s.shared, s.jobs[id]) && SeesHost(s.shared, s.jobs[id]) && !Helps(s.shared, s.jobs[id])
  {
  }

  lemma GateIsNoUse(s: State, id: nat, shouldStart: bool)
    requires Core(s) && Seen(s) && !Helped(s) && IsStart(s, id)
    ensures var after := GateNext(s.shared, s.jobs[id], shouldStart);
            after.shared == s.shared && after.job == s.jobs[id] && !Helps(after.shared, after.job)
  {
    NobodyHelps(s, id);
  }

  /** Once hope is lost, by whatever fault, the coroutines alone never get it back. */
  lemma {:induction false} HopelessForGood(schedule: seq<Event>, rest: seq<Event>)
    requires !Hopeful(Run(Init(), schedule))
    requires forall k | 0 <= k < |rest| :: IsAction(rest[k])
    ensures !Hopeful(Run(Init(), schedule + rest))
  {
    hide Hopeful, Next, Core, Seen, IsAction;
    if rest == [] {
      assert schedule + rest == schedule;
    } else {
      var before, event := schedule + rest[..|rest| - 1], rest[|rest| - 1];
      HopelessForGood(schedule, rest[..|rest| - 1]);
      SeenHolds(before);
      ActionStaysHopeless(Run(Init(), before), event);
      assert schedule + rest == before + [event] && (before + [event])[..|before|] == before;
    }
  }

  /** The actions `rest` bring the run to an end in which everything agrees. */
  ghost predicate SettlesWith(schedule: seq<Event>, rest: seq<Event>) {
    && (forall k | 0 <= k < |rest| :: IsAction(rest[k]))
    && AllDone(Run(Init(), schedule + rest)) && Agrees(Run(Init(), schedule + rest))
  }

  /**
   Every run whatever, with any faults in it: the coroutines in flight can still bring it to an end in agreement with
   the newest intent if and only if one of them can set right what is untrue and take down what is unwanted.
   */
  lemma CanSettleExactly(schedule: seq<Event>)
    ensures Hopeful(Run(Init(), schedule)) <==> exists rest :: SettlesWith(schedule, rest)
  {
    hide Hopeful, AllDone, Agrees, IsAction;
    if Hopeful(Run(Init(), schedule)) {
      var rest := CanAlwaysSettle(schedule);
      assert SettlesWith(schedule, rest);
    } else {
      forall rest | SettlesWith(schedule, rest) ensures false {
        HopelessForGood(schedule, rest);
        EndsHopeful(schedule + rest);
      }
    }
  }

  lemma EndsHopeful(schedule: seq<Event>)
    requires AllDone(Run(Init(), schedule)) && Agrees(Run(Init(), schedule))
    ensures Hopeful(Run(Init(), schedule))
  {
    SeenHolds(schedule);
    AgreesExactly(Run(Init(), schedule));
    DoneNeedsNoHelp(Run(Init(), schedule));
  }
}

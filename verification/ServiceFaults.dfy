/** The limits of the settling theorem: each excluded fault really does leave the machine unsettled. */
module ServiceFaults {
  import opened Options
  import opened RunIntentArbiter
  import opened ServiceStateMachine
  import opened ServiceSettling
  import opened ServiceMending
  import opened ServiceOvertaken

  const OPTIONS := VpnOptions(true)

  function Running(id: nat): Token {
    Token(id, true)
  }

  /** The schedule and the state it leads to, one event further. */
  lemma Then(schedule: seq<Event>, event: Event) returns (longer: seq<Event>, s: State)
    ensures longer == schedule + [event] && s == Run(Init(), longer) == Next(Run(Init(), schedule), event)
    ensures Faultless(longer) <==>
              && Faultless(schedule) && !event.Disconnected?
              && !Strands(Run(Init(), schedule), event) && !ThrowsDown(Run(Init(), schedule), event)
  {
    longer := schedule + [event];
    assert longer[..|longer| - 1] == schedule;
    s := Run(Init(), longer);
  }

  /** One action of start coroutine `id`: its own view of `base` advances, the rest of `base` is untouched. */
  lemma Act(base: State, id: nat, schedule: seq<Event>, view: Advanced<Job>, answer: Answer, next: Advanced<Job>)
      returns (longer: seq<Event>)
    requires view.job.Start? && Run(Init(), schedule) == WithJob(base, id, view)
    requires next == StartNext(view.shared, view.job, answer)
    requires view.job.start == CallStart && answer.Throws? ==> answer.after.Up()
    ensures longer == schedule + [StartAction(id, answer)] && Run(Init(), longer) == WithJob(base, id, next)
    ensures Faultless(schedule) ==> Faultless(longer)
  {
    var s;
    longer, s := Then(schedule, StartAction(id, answer));
    assert base.jobs[id := view.job][id := next.job] == base.jobs[id := next.job];
  }

  /** The request of a start and its admission. */
  lemma Admitted(base: State, schedule: seq<Event>, id: nat) returns (longer: seq<Event>)
    requires Run(Init(), schedule) == base && id == base.shared.intent.minted
    ensures Run(Init(), longer) ==
              WithJob(base, id, Advanced(base.shared.(intent := Intent(Running(id), id + 1)),
                                         Start(Running(id), VpnOptions(false), WaitPreparation)))
    ensures Faultless(schedule) ==> Faultless(longer)
  {
    var s;
    longer, s := Then(schedule, RequestStart);
    longer, s := Then(longer, GateAnswer(id, true));
    assert s.jobs == base.jobs[id := Start(Running(id), VpnOptions(false), WaitPreparation)];
  }

  function With(options: VpnOptions, id: nat, pc: StartPc): Job {
    Start(Running(id), options, pc)
  }

  function At(id: nat, pc: StartPc): Job {
    With(OPTIONS, id, pc)
  }

  /** A new start runs alone into its preparation. */
  lemma Prepared(base: State, schedule: seq<Event>, options: VpnOptions, id: nat, m: Shared)
      returns (longer: seq<Event>)
    requires Run(Init(), schedule) == base
    requires id == base.shared.intent.minted && base.shared.options == Some(options)
    requires base.shared.startPreparationLock.None?
    requires m == base.shared.(intent := Intent(Running(id), id + 1), startPreparationLock := Some(id))
    ensures Run(Init(), longer) == WithJob(base, id, Advanced(m, With(options, id, Prepare)))
    ensures Faultless(schedule) ==> Faultless(longer)
  {
    hide Run, Faultless;
    longer := Admitted(base, schedule, id);
    var entry := Start(Running(id), VpnOptions(false), WaitPreparation);
    var requested := base.shared.(intent := Intent(Running(id), id + 1));
    longer := Act(base, id, longer, Advanced(requested, entry), Nothing, Advanced(m, entry.(start := FirstCheck)));
    longer := Act(base, id, longer, Advanced(m, entry.(start := FirstCheck)), Nothing,
                  Advanced(m, entry.(start := ReadOptions)));
    longer := Act(base, id, longer, Advanced(m, entry.(start := ReadOptions)), Nothing,
                  Advanced(m, With(options, id, Prepare)));
  }

  /** A new start runs alone until it needs the transition lock. */
  lemma Waiting(base: State, schedule: seq<Event>, options: VpnOptions, id: nat, m: Shared) returns (longer: seq<Event>)
    requires Run(Init(), schedule) == base
    requires id == base.shared.intent.minted && base.shared.options == Some(options)
    requires base.shared.startPreparationLock.None?
    requires m == base.shared.(intent := Intent(Running(id), id + 1), startPreparationLock := Some(id))
    ensures Run(Init(), longer) == WithJob(base, id, Advanced(m, With(options, id, WaitTransition)))
    ensures Faultless(schedule) ==> Faultless(longer)
  {
    hide Run, Faultless, WithJob;
    longer := Prepared(base, schedule, options, id, m);
    longer := Act(base, id, longer, Advanced(m, With(options, id, Prepare)), Granted,
                  Advanced(m, With(options, id, SecondCheck)));
    longer := Act(base, id, longer, Advanced(m, With(options, id, SecondCheck)), Nothing,
                  Advanced(m, With(options, id, WaitTransition)));
  }

  /** A new start runs alone up to its reading of the host, when both locks are free. */
  lemma Probing(base: State, schedule: seq<Event>, options: VpnOptions, id: nat) returns (longer: seq<Event>, m: Shared)
    requires Run(Init(), schedule) == base
    requires id == base.shared.intent.minted && base.shared.options == Some(options)
    requires base.shared.transitionLock.None? && base.shared.startPreparationLock.None?
    ensures Run(Init(), longer) == WithJob(base, id, Advanced(m, With(options, id, Probe)))
    ensures m == base.shared.(intent := Intent(Running(id), id + 1), transitionLock := Some(Request(id)),
                              startPreparationLock := Some(id))
    ensures Faultless(schedule) ==> Faultless(longer)
  {
    hide Run, Faultless, WithJob;
    var free := base.shared.(intent := Intent(Running(id), id + 1), startPreparationLock := Some(id));
    m := free.Locked(Request(id));
    longer := Waiting(base, schedule, options, id, free);
    longer := Act(base, id, longer, Advanced(free, With(options, id, WaitTransition)), Nothing,
                  Advanced(m, With(options, id, ThirdCheck)));
    longer := Act(base, id, longer, Advanced(m, With(options, id, ThirdCheck)), Nothing,
                  Advanced(m, With(options, id, Probe)));
  }

  /** A first start that has reached the call of the service, with nothing else going on. */
  lemma Calling() returns (schedule: seq<Event>)
    ensures Faultless(schedule)
    ensures Run(Init(), schedule) ==
              State(Shared(Intent(Running(1), 2), Starting, Some(OPTIONS), None, Some(Request(1)), Some(1), DOWN),
                    map[1 := At(1, CallStart)], [])
  {
    var base, m;
    schedule, base := Then([], SyncSharedState(Some(OPTIONS)));
    schedule, m := Probing(base, schedule, OPTIONS, 1);
    schedule := Act(base, 1, schedule, Advanced(m, At(1, Probe)), Nothing, Advanced(m, At(1, SetStarting)));
    schedule := Act(base, 1, schedule, Advanced(m, At(1, SetStarting)), Nothing,
                    Advanced(m.(runState := Starting), At(1, CallStart)));
    assert base.jobs[1 := At(1, CallStart)] == map[1 := At(1, CallStart)];
  }

  /** The same start about to publish: its last check has passed. */
  lemma Publishing() returns (schedule: seq<Event>)
    ensures Faultless(schedule)
    ensures Run(Init(), schedule) ==
              State(Shared(Intent(Running(1), 2), Starting, Some(OPTIONS), None, Some(Request(1)), Some(1),
                           Host(1, true)),
                    map[1 := At(1, PublishStarted)], [])
  {
    schedule := Calling();
    var s;
    schedule, s := Then(schedule, StartAction(1, Up(1)));
    schedule, s := Then(schedule, StartAction(1, Nothing));
  }

  lemma Serving() returns (schedule: seq<Event>)
    ensures Faultless(schedule)
    ensures Run(Init(), schedule) ==
              State(Shared(Intent(Running(1), 2), Started, Some(OPTIONS), None, None, None, Host(1, true)),
                    map[1 := At(1, Finished(true))], [])
  {
    schedule := Publishing();
    var s;
    schedule, s := Then(schedule, StartAction(1, Nothing));
  }

  /** A notification refusal strands a running service: all is done, the intent is stopped, the service is up. */
  lemma RefusalStrandsService() returns (schedule: seq<Event>, refusal: Event)
    ensures Faultless(schedule) && Strands(Run(Init(), schedule), refusal)
    ensures var s := Run(Init(), schedule + [refusal]);
            Quiescent(s) && s.shared.host.Up() && !s.shared.intent.latest.running && s.shared.runState == Started
  {
    schedule := Serving();
    var s;
    schedule, s := Then(schedule, RequestStart);
    assert s.jobs[2] == Start(Running(2), VpnOptions(false), Gate);
    refusal := GateAnswer(2, false);
    var longer, t := Then(schedule, refusal);
    assert t.jobs.Keys == {1, 2};
  }

  /** The exception handler runs alone and finds no service to stop. */
  lemma RolledBack(base: State, schedule: seq<Event>, m: Shared) returns (longer: seq<Event>, rest: seq<Event>)
    requires Run(Init(), schedule) == WithJob(base, 1, Advanced(m, At(1, ThrownFail)))
    requires m.transitionLock.None? && m.startPreparationLock.None? && !m.host.Up() && m.IsCurrent(Running(1))
    ensures longer == schedule + rest && forall event | event in rest :: IsAction(event)
    ensures Run(Init(), longer) == WithJob(base, 1, Advanced(m.Failed(Running(1)), At(1, Finished(false))))
  {
    hide Run, Faultless, WithJob;
    var failed := m.Failed(Running(1));
    var locked := failed.Locked(Request(1));
    longer := Act(base, 1, schedule, Advanced(m, At(1, ThrownFail)), Nothing, Advanced(failed, At(1, WaitReconcile)));
    longer := Act(base, 1, longer, Advanced(failed, At(1, WaitReconcile)), Nothing,
                  Advanced(locked, At(1, ReadIntent)));
    longer := Act(base, 1, longer, Advanced(locked, At(1, ReadIntent)), Nothing, Advanced(locked, At(1, ReadRunTime)));
    longer := Act(base, 1, longer, Advanced(locked, At(1, ReadRunTime)), Nothing,
                  Advanced(failed, At(1, Finished(false))));
    rest := [StartAction(1, Nothing), StartAction(1, Nothing), StartAction(1, Nothing), StartAction(1, Nothing)];
  }

  /** A start that throws with the service down leaves the published state at Starting for good. */
  lemma ThrowLeavesStarting() returns (schedule: seq<Event>, thrown: Event, rest: seq<Event>)
    ensures Faultless(schedule) && ThrowsDown(Run(Init(), schedule), thrown)
    ensures forall event | event in rest :: IsAction(event)
    ensures var s := Run(Init(), schedule + [thrown] + rest);
            Quiescent(s) && !s.shared.host.Up() && !s.shared.intent.latest.running && s.shared.runState == Starting
  {
    schedule := Calling();
    thrown := StartAction(1, Throws(DOWN));
    var full, base := Then(schedule, thrown);
    assert base == WithJob(base, 1, Advanced(base.shared, At(1, ThrownFail))) by {
      assert base.jobs == base.jobs[1 := At(1, ThrownFail)];
    }
    full, rest := RolledBack(base, full, base.shared);
    assert full == schedule + [thrown] + rest;
  }

  /** A taken loss under an overtaken token, reported while nobody else is at work. */
  lemma LossReported(schedule: seq<Event>) returns (longer: seq<Event>)
    requires var s := Run(Init(), schedule);
             && |s.losses| == 1 && s.losses[0].pc == AwaitLock && !s.shared.IsCurrent(s.losses[0].token)
             && s.shared.transitionLock.None? && !s.shared.host.Up()
    ensures var s := Run(Init(), schedule);
            Run(Init(), longer) == s.(losses := [s.losses[0].(pc := Settled)])
    ensures schedule <= longer
  {
    var s;
    longer, s := Then(schedule, LossAction(0, true));
    longer, s := Then(longer, LossAction(0, true));
    longer, s := Then(longer, LossAction(0, true));
  }

  /** A loss taken under an overtaken token while no coroutine would mend what it leaves. */
  lemma TakenFromNobody(s: State)
    requires |s.losses| == 1 && TakesOvertaken(s.shared, s.losses[0], true)
    requires forall id | id in s.jobs :: !Mends(s.shared.(host := DOWN), s.jobs[id])
    ensures Deserts(s, LossAction(0, true))
    ensures Next(s, LossAction(0, true)) ==
              s.(shared := s.shared.(host := DOWN), losses := [s.losses[0].(pc := AwaitLock)])
  {
  }

  /** A loss captured under an older token keeps the newer intent, although the service it adopted is gone. */
  lemma LossKeepsNewerIntent() returns (before: seq<Event>, schedule: seq<Event>)
    ensures before + [LossAction(0, true)] <= schedule && Deserts(Run(Init(), before), LossAction(0, true))
    ensures var s := Run(Init(), schedule);
            AllDone(s) && !s.shared.host.Up() && s.shared.intent.latest.running && s.shared.runState == Started
  {
    before := ReusedBeforeLoss();
    TakenFromNobody(Run(Init(), before));
    hide Faultless, Deserts, TakesOvertaken, Mends;
    var s;
    schedule, s := Then(before, LossAction(0, true));
    schedule := LossReported(schedule);
  }

  /** A disconnect is observed, and a newer start still finds and reuses the service that has been lost. */
  lemma ReusedBeforeLoss() returns (before: seq<Event>)
    ensures Run(Init(), before) ==
              State(Shared(Intent(Running(2), 3), Started, Some(OPTIONS), None, None, None, Host(1, true)),
                    map[1 := At(1, Finished(true)), 2 := At(2, Finished(true))], [Loss(Running(1), Captured)])
  {
    before := Serving();
    var base, m;
    before, base := Then(before, Disconnected);
    hide Run, Faultless;
    before, m := Probing(base, before, OPTIONS, 2);
    before := Reuses(base, before, 2, m);
  }

  /** A start that finds a running VPN service takes it over. */
  lemma Reuses(base: State, schedule: seq<Event>, id: nat, m: Shared) returns (longer: seq<Event>)
    requires Run(Init(), schedule) == WithJob(base, id, Advanced(m, At(id, Probe)))
    requires m.host.VpnServiceActive() && m.runState == Started
    ensures Run(Init(), longer) == WithJob(base, id, Advanced(m.Unlocked().Unprepared(id), At(id, Finished(true))))
  {
    hide Run, Faultless, WithJob;
    longer := Act(base, id, schedule, Advanced(m, At(id, Probe)), Nothing, Advanced(m, At(id, ProbeKind)));
    longer := Act(base, id, longer, Advanced(m, At(id, ProbeKind)), Nothing, Advanced(m, At(id, PublishReuse)));
    longer := Act(base, id, longer, Advanced(m, At(id, PublishReuse)), Nothing,
                  Advanced(m.Unlocked().Unprepared(id), At(id, Finished(true))));
  }

  const PROXY := VpnOptions(false)

  /** A disconnect of the VPN service is observed, and a newer start that wants none has just seen a service running. */
  lemma AskingForTheKind() returns (before: seq<Event>, m: Shared)
    ensures m == Shared(Intent(Running(2), 3), Started, Some(PROXY), None, Some(Request(2)), Some(2), Host(1, true))
    ensures Run(Init(), before) ==
              State(m, map[1 := At(1, Finished(true)), 2 := With(PROXY, 2, ProbeKind)], [Loss(Running(1), Captured)])
  {
    before := Serving();
    var base;
    before, base := Then(before, Disconnected);
    before, base := Then(before, SyncSharedState(Some(PROXY)));
    hide Run, Faultless;
    before, m := Probing(base, before, PROXY, 2);
    before := Act(base, 2, before, Advanced(m, With(PROXY, 2, Probe)), Nothing, Advanced(m, With(PROXY, 2, ProbeKind)));
  }

  /**
   The run time and the kind of the service are read one after the other. A loss in between makes a start that wants no
   VPN reuse a service that is gone, and the report of the loss comes under an overtaken token.
   */
  lemma LossBetweenReads() returns (before: seq<Event>, schedule: seq<Event>)
    ensures before + [LossAction(0, true)] <= schedule && Deserts(Run(Init(), before), LossAction(0, true))
    ensures var s := Run(Init(), schedule);
            && AllDone(s) && IsStart(s, 2) && s.jobs[2].start == Finished(true)
            && !s.shared.host.Up() && s.shared.intent.latest.running && s.shared.runState == Started
  {
    var m, s;
    before, m := AskingForTheKind();
    TakenFromNobody(Run(Init(), before));
    hide Faultless, Deserts, TakesOvertaken, Mends;
    schedule, s := Then(before, LossAction(0, true));
    schedule := ReusesWhatIsGone(schedule, s);
    schedule := LossReported(schedule);
  }

  lemma ReusesWhatIsGone(schedule: seq<Event>, s: State) returns (longer: seq<Event>)
    requires s == Run(Init(), schedule)
    requires s == State(Shared(Intent(Running(2), 3), Started, Some(PROXY), None, Some(Request(2)), Some(2), DOWN),
                        map[1 := At(1, Finished(true)), 2 := With(PROXY, 2, ProbeKind)], [Loss(Running(1), AwaitLock)])
    ensures schedule <= longer
    ensures Run(Init(), longer) ==
              State(Shared(Intent(Running(2), 3), Started, Some(PROXY), None, None, None, DOWN),
                    map[1 := At(1, Finished(true)), 2 := With(PROXY, 2, Finished(true))], [Loss(Running(1), AwaitLock)])
  {
    hide Faultless;
    var t;
    longer, t := Then(schedule, StartAction(2, Nothing));
    longer, t := Then(longer, StartAction(2, Nothing));
    assert t.jobs == map[1 := At(1, Finished(true)), 2 := With(PROXY, 2, Finished(true))];
  }

  /**
   A stop that arrives between the last check of a start and its publication does not keep the start from
   reporting itself as started; the machine still settles, because the stop is bound to act.
   */
  lemma OvertakenStartPublishes() returns (schedule: seq<Event>)
    ensures Faultless(schedule)
    ensures var s := Run(Init(), schedule);
            && s.shared.runState == Started && IsStart(s, 1) && IsStop(s, 2)
            && Reported(s.jobs[1]) && Overtaken(s.shared, s.jobs[1])
            && s.shared.IsCurrent(s.jobs[2].token) && Bound(s.shared, s.jobs[2])
  {
    schedule := Publishing();
    var s;
    schedule, s := Then(schedule, RequestStop);
    schedule, s := Then(schedule, StartAction(1, Nothing));
  }

  /** The same gap before the publication of a reused service: the stop arrives while the host is being asked. */
  lemma OvertakenStartReuses() returns (schedule: seq<Event>)
    ensures Faultless(schedule)
    ensures var s := Run(Init(), schedule);
            && s.shared.runState == Started && IsStart(s, 2) && IsStop(s, 3)
            && Reported(s.jobs[2]) && Overtaken(s.shared, s.jobs[2]) && s.shared.IsCurrent(s.jobs[3].token)
  {
    schedule := OvertakenProbe();
    hide Faultless, Strands;
    var s;
    StartStrandsNothing(StartAction(2, Nothing));
    schedule, s := Then(schedule, StartAction(2, Nothing));
    schedule, s := Then(schedule, StartAction(2, Nothing));
    schedule, s := Then(schedule, StartAction(2, Nothing));
  }

  lemma StartStrandsNothing(event: Event)
    requires event.StartAction?
    ensures forall s :: !Strands(s, event)
  {
  }

  /** A second start has found the service running, and a stop arrives while it asks the host about it. */
  lemma OvertakenProbe() returns (schedule: seq<Event>)
    ensures Faultless(schedule)
    ensures var s := Run(Init(), schedule);
            && s.shared.host == Host(1, true) && s.jobs.Keys == {1, 2, 3} && s.jobs[2] == At(2, Probe) && IsStop(s, 3)
            && Overtaken(s.shared, s.jobs[2])
            && s.shared.IsCurrent(s.jobs[3].token)
  {
    var m, s;
    schedule := Serving();
    schedule, m := Probing(Run(Init(), schedule), schedule, OPTIONS, 2);
    schedule, s := Then(schedule, RequestStop);
  }

  /**
   A stop that is overtaken between its check and its look at the service answers true all the same, if nothing was
   running in the first place.
   */
  lemma OvertakenStopAnswersTrue() returns (schedule: seq<Event>)
    ensures Faultless(schedule)
    ensures var s := Run(Init(), schedule);
            IsStop(s, 1) && s.jobs[1].stop == Ended(true) && IsStart(s, 2) && s.shared.IsCurrent(s.jobs[2].token)
  {
    var s;
    schedule, s := AbandoningStop();
    schedule, s := Then(schedule, RequestStart);
    schedule, s := Then(schedule, StopAction(1));
    schedule, s := Then(schedule, StopAction(1));
  }

  lemma AbandoningStop() returns (schedule: seq<Event>, s: State)
    ensures Faultless(schedule) && s == Run(Init(), schedule)
    ensures s == State(Shared(Intent(Token(1, false), 2), Stopped, Some(OPTIONS), None, Some(Request(1)), None, DOWN),
                       map[1 := Stop(Token(1, false), Abandon)], [])
  {
    schedule, s := Then([], SyncSharedState(Some(OPTIONS)));
    schedule, s := Then(schedule, RequestStop);
    schedule, s := Then(schedule, StopAction(1));
    schedule, s := Then(schedule, StopAction(1));
  }

  /** A stop waits at its abandonment after its check, and a newer start has come to its consent dialog meanwhile. */
  lemma OvertakenStopAbandons() returns (schedule: seq<Event>)
    ensures Faultless(schedule)
    ensures var s := Run(Init(), schedule);
            && IsStop(s, 1) && s.jobs[1].stop == Abandon && IsStart(s, 2) && s.jobs[2].start == Consent
            && s.shared.IsCurrent(s.jobs[2].token) && !Doomed(s.shared, s.jobs[2])
  {
    var base;
    schedule, base := AbandoningStop();
    hide Run, Faultless;
    var m := base.shared.(intent := Intent(Running(2), 3), startPreparationLock := Some(2));
    schedule := Prepared(base, schedule, OPTIONS, 2, m);
    schedule := Act(base, 2, schedule, Advanced(m, At(2, Prepare)), Suspended,
                    Advanced(m.(pendingVpnPreparation := Some(2)), At(2, Consent)));
  }
}

/** The privileged helper and the Core process it owns (services/helper/src/service/hub.rs). */
module HelperOwnership {
  import opened Characters
  import opened Options

  /** Handles of spawned children, in spawning order; a handle is never reused. */
  type Child = nat

  datatype ManagedCore = ManagedCore(sessionId: string, child: Child)

  /** The builds: only Linux asks a Core to exit, and only Windows can fail to confine one. */
  datatype Platform = Linux | Windows | Other

  /**
   * The operating system as the helper meets it: the children still running, those whose exit status the helper
   * has collected, and those it spawned but failed to confine, which it then forgets.
   */
  datatype World = World(platform: Platform, alive: set<Child>, reaped: set<Child>, unconfined: set<Child>,
                         spawned: nat)

  datatype State = State(managed: Option<ManagedCore>, world: World)

  /** One poll of a child: which processes exit before it, and whether the system call itself fails. */
  datatype Tick = Tick(exits: set<Child>, fails: bool)

  /** The polls that fit before the deadline; the first one is always made. */
  type Polls = ticks: seq<Tick> | |ticks| > 0 witness [Tick({}, false)]

  datatype Waited = Exited | TimedOut | Failed

  /** How the system behaves while a Core is being terminated. */
  datatype Termination = Termination(requested: bool, graceful: Polls, forced: Polls)

  /** How the system behaves during a start. */
  datatype Launch = Launch(release: Termination, verified: bool, ownerSocket: bool, spawns: bool, confined: bool)

  datatype Response =
    | Started(sessionId: string, pid: Child)
    | Stopped(sessionId: string)
    | NotStopped(sessionId: string, reason: string)
    | Error(code: string)

  datatype Event =
    | Start(address: string, sessionId: string, launch: Launch)
    | Stop(sessionId: string, release: Termination)
    | Exit(children: set<Child>)
    | Shutdown(release: Termination)

  const CORE_SOCKET_PREFIX := "/tmp/FlClashSocket_"
  const CORE_SOCKET_SUFFIX := ".sock"
  const CORE_PIPE_PREFIX := "\\\\.\\pipe\\FlClashCore_"

  predicate IsValidSessionId(value: string) {
    |value| == 32 && forall k | 0 <= k < |value| :: IsDigit(value[k]) || 'a' <= value[k] <= 'f'
  }

  function StripPrefix(s: string, prefix: string): Option<string> {
    if prefix <= s then Some(s[|prefix|..]) else None
  }

  function StripSuffix(s: string, suffix: string): Option<string> {
    if |suffix| <= |s| && s[|s| - |suffix|..] == suffix then Some(s[..|s| - |suffix|]) else None
  }

  predicate AllDigits(s: string) {
    forall k | 0 <= k < |s| :: IsDigit(s[k])
  }

  predicate IsSocketAddress(address: string) {
    match StripPrefix(address, CORE_SOCKET_PREFIX)
    case None => false
    case Some(suffix) =>
      match StripSuffix(suffix, CORE_SOCKET_SUFFIX)
      case None => false
      case Some(digits) => digits != "" && |digits| <= 10 && AllDigits(digits)
  }

  predicate IsPipeAddress(address: string) {
    match StripPrefix(address, CORE_PIPE_PREFIX)
    case None => false
    case Some(suffix) => IsValidSessionId(suffix)
  }

  predicate IsAllowedCoreAddress(platform: Platform, address: string) {
    if platform.Linux? then IsSocketAddress(address) else IsPipeAddress(address)
  }

  ghost predicate Numbers(digits: string, address: string) {
    1 <= |digits| <= 10 && AllDigits(digits) && address == CORE_SOCKET_PREFIX + digits + CORE_SOCKET_SUFFIX
  }

  /** The allowed addresses: on Linux the sockets numbered by one to ten digits, elsewhere the pipes named by an id. */
  lemma AllowedAddresses(platform: Platform, address: string)
    ensures platform.Linux? ==> (IsAllowedCoreAddress(platform, address) <==> exists digits :: Numbers(digits, address))
    ensures !platform.Linux? ==>
              (IsAllowedCoreAddress(platform, address) <==>
                 exists id :: IsValidSessionId(id) && address == CORE_PIPE_PREFIX + id)
  {
    SocketAddresses(address);
    if IsPipeAddress(address) {
      assert address == CORE_PIPE_PREFIX + address[|CORE_PIPE_PREFIX|..];
    }
    if id :| IsValidSessionId(id) && address == CORE_PIPE_PREFIX + id {
      assert address[|CORE_PIPE_PREFIX|..] == id;
    }
  }

  lemma SocketAddresses(address: string)
    ensures IsSocketAddress(address) <==> exists digits :: Numbers(digits, address)
  {
    if IsSocketAddress(address) {
      var suffix := address[|CORE_SOCKET_PREFIX|..];
      assert Numbers(suffix[..|suffix| - |CORE_SOCKET_SUFFIX|], address);
    }
    if digits :| Numbers(digits, address) {
      assert address == CORE_SOCKET_PREFIX + (digits + CORE_SOCKET_SUFFIX);
      assert address[|CORE_SOCKET_PREFIX|..] == digits + CORE_SOCKET_SUFFIX;
    }
  }

  // ----- What each operation does to the slot and to the processes -----

  function Elapse(w: World, exits: set<Child>): World {
    w.(alive := w.alive - exits)
  }

  function Polled(w: World, child: Child, tick: Tick): (World, Waited) {
    var v := Elapse(w, tick.exits);
    if tick.fails then (v, Failed)
    else if child in v.alive then (v, TimedOut)
    else (v.(reaped := v.reaped + {child}), Exited)
  }

  function Wait(w: World, child: Child, ticks: Polls): (World, Waited)
    decreases |ticks|
  {
    var (v, seen) := Polled(w, child, ticks[0]);
    if seen != TimedOut || |ticks| == 1 then (v, seen) else Wait(v, child, ticks[1..])
  }

  /** An accepted request to exit is waited for first; a poll that fails there ends the attempt without a kill. */
  function Terminate(w: World, child: Child, t: Termination): (World, bool) {
    var (v, asked) := if w.platform.Linux? && t.requested then Wait(w, child, t.graceful) else (w, TimedOut);
    if asked != TimedOut then (v, asked == Exited)
    else
      var (u, killed) := Wait(v, child, t.forced);
      (u, killed == Exited)
  }

  function Release(s: State, t: Termination): (State, bool) {
    match s.managed
    case None => (s, true)
    case Some(core) =>
      var (w, gone) := Terminate(s.world, core.child, t);
      (State(if gone then None else s.managed, w), gone)
  }

  function Spawned(s: State, sessionId: string, confined: bool): (State, Response) {
    var child := s.world.spawned;
    var w := s.world.(alive := s.world.alive + {child}, spawned := child + 1);
    if confined || !w.platform.Windows? then (State(Some(ManagedCore(sessionId, child)), w), Started(sessionId, child))
    else (State(s.managed, w.(unconfined := w.unconfined + {child})), Error("internalError"))
  }

  function StartNext(s: State, address: string, sessionId: string, launch: Launch): (State, Response) {
    if !IsAllowedCoreAddress(s.world.platform, address) || !IsValidSessionId(sessionId)
    then (s, Error("invalidRequest"))
    else
      var (t, released) := Release(s, launch.release);
      if !released then (t, Error("coreStopFailed"))
      else if !launch.verified then (t, Error("coreVerificationFailed"))
      else if s.world.platform.Linux? && !launch.ownerSocket then (t, Error("invalidRequest"))
      else if !launch.spawns then (t, Error("processLaunchFailed"))
      else Spawned(t, sessionId, launch.confined)
  }

  datatype StopDecision = NotRunning | StopIt | SessionMismatch

  function Decide(current: Option<string>, requested: string): StopDecision {
    match current
    case None => NotRunning
    case Some(sessionId) => if sessionId == requested then StopIt else SessionMismatch
  }

  function Session(s: State): Option<string> {
    match s.managed
    case None => None
    case Some(core) => Some(core.sessionId)
  }

  function StopNext(s: State, sessionId: string, release: Termination): (State, Response) {
    if !IsValidSessionId(sessionId) then (s, Error("invalidRequest"))
    else
      match Decide(Session(s), sessionId)
      case NotRunning => (s, NotStopped(sessionId, "notRunning"))
      case SessionMismatch => (s, NotStopped(sessionId, "sessionMismatch"))
      case StopIt =>
        var (t, gone) := Release(s, release);
        (t, if gone then Stopped(sessionId) else Error("coreStopFailed"))
  }

  /** Requests hold the lock of the slot from beginning to end, so they form a sequence. */
  function Next(s: State, event: Event): State {
    match event
    case Start(address, sessionId, launch) => StartNext(s, address, sessionId, launch).0
    case Stop(sessionId, release) => StopNext(s, sessionId, release).0
    case Exit(children) => s.(world := Elapse(s.world, children))
    case Shutdown(release) => Release(s, release).0
  }

  function Run(s: State, events: seq<Event>): State {
    if events == [] then s else Next(Run(s, events[..|events| - 1]), events[|events| - 1])
  }

  function Idle(platform: Platform): State {
    State(None, World(platform, {}, {}, {}, 0))
  }

  // ----- Ownership -----

  predicate Manages(s: State, child: Child) {
    s.managed.Some? && s.managed.value.child == child
  }

  /** Every child ever spawned is collected, or managed, or was never confined: one of the three, and only one. */
  ghost predicate Owned(s: State) {
    && (forall c: Child :: c in s.world.alive || c in s.world.reaped || c in s.world.unconfined || Manages(s, c)
                           ==> c < s.world.spawned)
    && (forall c: Child | c < s.world.spawned :: c in s.world.reaped || c in s.world.unconfined || Manages(s, c))
    && (forall c: Child | c in s.world.reaped :: c !in s.world.alive && c !in s.world.unconfined && !Manages(s, c))
    && (forall c: Child | c in s.world.unconfined :: !Manages(s, c))
  }

  lemma {:induction false} WaitOutcome(w: World, child: Child, ticks: Polls)
    ensures var (v, seen) := Wait(w, child, ticks);
            && v.platform == w.platform && v.alive <= w.alive && v.unconfined == w.unconfined && v.spawned == w.spawned
            && v.reaped == (if seen == Exited then w.reaped + {child} else w.reaped)
            && (seen == Exited ==> child !in v.alive)
            && (seen == TimedOut ==> child in v.alive)
    decreases |ticks|
  {
    var (v, seen) := Polled(w, child, ticks[0]);
    if seen == TimedOut && |ticks| > 1 {
      WaitOutcome(v, child, ticks[1..]);
    }
  }

  /** By poll `k` the child has exited. */
  ghost predicate GoneBy(w: World, child: Child, ticks: Polls, k: nat) {
    child !in w.alive || exists j: nat :: j <= k && j < |ticks| && child in ticks[j].exits
  }

  /** Waiting succeeds exactly when some poll before the deadline finds the child gone and none up to it failed. */
  lemma {:induction false} WaitSucceedsExactly(w: World, child: Child, ticks: Polls)
    ensures Wait(w, child, ticks).1 == Exited <==>
              exists k: nat :: k < |ticks| && GoneBy(w, child, ticks, k) && forall j: nat | j <= k :: !ticks[j].fails
    decreases |ticks|
  {
    var (v, seen) := Polled(w, child, ticks[0]);
    if seen == Exited {
      assert GoneBy(w, child, ticks, 0);
    } else if seen == TimedOut {
      if |ticks| > 1 {
        var rest: Polls := ticks[1..];
        WaitSucceedsExactly(v, child, rest);
        forall k: nat | k < |rest|
          ensures GoneBy(v, child, rest, k) <==> GoneBy(w, child, ticks, k + 1)
        {
          if j: nat :| j <= k + 1 && j < |ticks| && child in ticks[j].exits {
            assert j > 0 && child in rest[j - 1].exits;
          }
          if j: nat :| j <= k && j < |rest| && child in rest[j].exits {
            assert child in ticks[j + 1].exits;
          }
        }
        if k: nat :| k < |rest| && GoneBy(v, child, rest, k) && forall j: nat | j <= k :: !rest[j].fails {
          assert GoneBy(w, child, ticks, k + 1);
          assert forall j: nat | j <= k + 1 :: !ticks[j].fails by {
            assert forall j: nat | 0 < j <= k + 1 :: ticks[j] == rest[j - 1];
          }
        }
        if k: nat :| k < |ticks| && GoneBy(w, child, ticks, k) && forall j: nat | j <= k :: !ticks[j].fails {
          assert k > 0;
          assert GoneBy(v, child, rest, k - 1);
          assert forall j: nat | j <= k - 1 :: !rest[j].fails by {
            assert forall j: nat | j <= k - 1 :: rest[j] == ticks[j + 1];
          }
        }
      }
    }
  }

  /** Some poll before the deadline finds the child gone, and no poll up to it fails. */
  ghost predicate ExitIsSeen(w: World, child: Child, ticks: Polls) {
    exists k: nat :: k < |ticks| && GoneBy(w, child, ticks, k) && forall j: nat | j <= k :: !ticks[j].fails
  }

  /** No poll fails, and the child outlives them all. */
  predicate Outlives(w: World, child: Child, ticks: Polls) {
    child in w.alive && forall j: nat | j < |ticks| :: !ticks[j].fails && child !in ticks[j].exits
  }

  lemma {:induction false} WaitTimesOutExactly(w: World, child: Child, ticks: Polls)
    ensures Wait(w, child, ticks).1 == TimedOut <==> Outlives(w, child, ticks)
    ensures Wait(w, child, ticks).1 == TimedOut ==> child in Wait(w, child, ticks).0.alive
    decreases |ticks|
  {
    var (v, seen) := Polled(w, child, ticks[0]);
    if seen == TimedOut && |ticks| > 1 {
      var rest: Polls := ticks[1..];
      WaitTimesOutExactly(v, child, rest);
      if Outlives(v, child, rest) {
        forall j: nat | j < |ticks| ensures !ticks[j].fails && child !in ticks[j].exits {
          assert j > 0 ==> ticks[j] == rest[j - 1];
        }
      }
      if Outlives(w, child, ticks) {
        forall j: nat | j < |rest| ensures !rest[j].fails && child !in rest[j].exits {
          assert rest[j] == ticks[j + 1];
        }
      }
    }
  }

  /**
   A Core is terminated exactly if its exit is seen: on Linux in time after the request, or, unless a poll fails there,
   in time after the kill; elsewhere, or if it could not be asked, in time after the kill.
   */
  lemma TerminatesExactly(w: World, child: Child, t: Termination)
    ensures Terminate(w, child, t).1 <==>
              if w.platform.Linux? && t.requested then
                ExitIsSeen(w, child, t.graceful) || (Outlives(w, child, t.graceful) && ExitIsSeen(w, child, t.forced))
              else ExitIsSeen(w, child, t.forced)
  {
    WaitSucceedsExactly(w, child, t.forced);
    if w.platform.Linux? && t.requested {
      WaitSucceedsExactly(w, child, t.graceful);
      WaitTimesOutExactly(w, child, t.graceful);
      var v := Wait(w, child, t.graceful).0;
      WaitSucceedsExactly(v, child, t.forced);
      if child in v.alive && child in w.alive {
        assert forall k: nat :: GoneBy(v, child, t.forced, k) <==> GoneBy(w, child, t.forced, k);
      }
    }
    hide Wait;
  }

  lemma TerminateOutcome(w: World, child: Child, t: Termination)
    ensures var (v, gone) := Terminate(w, child, t);
            && v.platform == w.platform && v.alive <= w.alive && v.unconfined == w.unconfined && v.spawned == w.spawned
            && v.reaped == (if gone then w.reaped + {child} else w.reaped)
            && (gone ==> child !in v.alive)
  {
    WaitOutcome(w, child, t.graceful);
    WaitOutcome(if w.platform.Linux? && t.requested then Wait(w, child, t.graceful).0 else w, child, t.forced);
  }

  /** Releasing empties the slot exactly when the exit was collected; a failed release changes no ownership. */
  lemma ReleaseOutcome(s: State, t: Termination)
    requires Owned(s)
    ensures var (u, gone) := Release(s, t);
            && Owned(u) && u.world.alive <= s.world.alive && u.world.unconfined == s.world.unconfined
            && u.world.spawned == s.world.spawned && u.world.platform == s.world.platform
            && (gone ==> u.managed == None && forall c | Manages(s, c) :: c in u.world.reaped && c !in u.world.alive)
            && (!gone ==> s.managed.Some? && u.managed == s.managed && u.world.reaped == s.world.reaped)
  {
    if s.managed.Some? {
      hide Terminate;
      TerminateOutcome(s.world, s.managed.value.child, t);
    }
  }

  lemma SpawnKeepsOwned(s: State, sessionId: string, confined: bool)
    requires Owned(s) && s.managed == None
    ensures Owned(Spawned(s, sessionId, confined).0)
  {}

  lemma StartKeepsOwned(s: State, address: string, sessionId: string, launch: Launch)
    requires Owned(s)
    ensures Owned(StartNext(s, address, sessionId, launch).0)
  {
    hide IsAllowedCoreAddress, IsValidSessionId, Release, Spawned, Owned;
    ReleaseOutcome(s, launch.release);
    if Release(s, launch.release).1 {
      SpawnKeepsOwned(Release(s, launch.release).0, sessionId, launch.confined);
    }
  }

  lemma NextKeepsOwned(s: State, event: Event)
    requires Owned(s)
    ensures Owned(Next(s, event))
  {
    match event
    case Start(address, sessionId, launch) => StartKeepsOwned(s, address, sessionId, launch);
    case Stop(sessionId, release) => ReleaseOutcome(s, release);
    case Exit(children) =>
    case Shutdown(release) => ReleaseOutcome(s, release);
  }

  /** Over any run of requests, failures and exits, each child is collected, managed, or was never confined. */
  lemma {:induction false} OwnedAlways(platform: Platform, events: seq<Event>)
    ensures Owned(Run(Idle(platform), events))
  {
    if events != [] {
      OwnedAlways(platform, events[..|events| - 1]);
      NextKeepsOwned(Run(Idle(platform), events[..|events| - 1]), events[|events| - 1]);
    }
  }

  lemma PlatformStays(s: State, event: Event)
    requires Owned(s)
    ensures Next(s, event).world.platform == s.world.platform
    ensures !s.world.platform.Windows? ==> Next(s, event).world.unconfined == s.world.unconfined
  {
    hide IsAllowedCoreAddress, IsValidSessionId, Release, Owned;
    match event
    case Start(address, sessionId, launch) => ReleaseOutcome(s, launch.release);
    case Stop(sessionId, release) => ReleaseOutcome(s, release);
    case Exit(children) =>
    case Shutdown(release) => ReleaseOutcome(s, release);
  }

  /** Outside Windows a child is adopted without further system calls, so no child is ever left unconfined. */
  lemma {:induction false} NothingUnconfined(platform: Platform, events: seq<Event>)
    ensures Run(Idle(platform), events).world.platform == platform
    ensures !platform.Windows? ==> Run(Idle(platform), events).world.unconfined == {}
  {
    if events != [] {
      NothingUnconfined(platform, events[..|events| - 1]);
      OwnedAlways(platform, events[..|events| - 1]);
      PlatformStays(Run(Idle(platform), events[..|events| - 1]), events[|events| - 1]);
    }
  }

  /** Outside Windows every Core that runs is the managed one, so there is never more than one. */
  lemma LiveCoreIsManaged(platform: Platform, events: seq<Event>)
    requires !platform.Windows?
    ensures var s := Run(Idle(platform), events);
            && (forall c | c in s.world.alive :: Manages(s, c)) && |s.world.alive| <= 1
  {
    OwnedAlways(platform, events);
    NothingUnconfined(platform, events);
    var s := Run(Idle(platform), events);
    if s.managed.Some? {
      assert s.world.alive <= {s.managed.value.child};
      SubsetSize(s.world.alive, {s.managed.value.child});
    } else {
      assert s.world.alive == {};
    }
  }

  lemma {:induction false} SubsetSize(a: set<Child>, b: set<Child>)
    requires a <= b
    ensures |a| <= |b|
    decreases a
  {
    if c :| c in a {
      SubsetSize(a - {c}, b - {c});
    }
  }

  const NEVER := Termination(false, [Tick({}, false)], [Tick({}, false)])

  /**
   On Windows adoption can fail. After a start whose Core could not be confined, at any time and however it goes on
   exiting or not, no stop request and no other start ever collects that Core: it is out of the helper's hands.
   */
  lemma {:induction false} UnconfinedForGood(s: State, child: Child, later: seq<Event>)
    requires Owned(s) && child in s.world.unconfined
    ensures var t := Run(s, later);
            Owned(t) && child in t.world.unconfined && child !in t.world.reaped && !Manages(t, child)
  {
    if later != [] {
      hide Next, Owned;
      UnconfinedForGood(s, child, later[..|later| - 1]);
      var t := Run(s, later[..|later| - 1]);
      NextKeepsOwned(t, later[|later| - 1]);
      UnconfinedStays(t, later[|later| - 1]);
      OwnedApart(Run(s, later), child);
    } else {
      OwnedApart(s, child);
    }
  }

  lemma OwnedApart(s: State, child: Child)
    requires Owned(s) && child in s.world.unconfined
    ensures child !in s.world.reaped && !Manages(s, child)
  {
  }

  lemma UnconfinedStays(s: State, event: Event)
    requires Owned(s)
    ensures s.world.unconfined <= Next(s, event).world.unconfined
  {
    hide IsAllowedCoreAddress, IsValidSessionId, Release, Owned;
    match event
    case Start(address, sessionId, launch) => ReleaseOutcome(s, launch.release);
    case Stop(sessionId, release) => ReleaseOutcome(s, release);
    case Exit(children) =>
    case Shutdown(release) => ReleaseOutcome(s, release);
  }

  /** Such a start exists: a valid request on a Windows pipe whose child cannot be put into its job. */
  lemma UnconfinedCoreEscapes(pipe: string, sessionId: string)
    requires IsValidSessionId(pipe) && IsValidSessionId(sessionId)
    ensures var start := Start(CORE_PIPE_PREFIX + pipe, sessionId, Launch(NEVER, true, true, true, false));
            var s := Run(Idle(Windows), [start]);
            && s.world.alive == {0} == s.world.unconfined && s.managed == None
            && forall release :: StopNext(s, sessionId, release) == (s, NotStopped(sessionId, "notRunning"))
  {
    var address := CORE_PIPE_PREFIX + pipe;
    assert IsAllowedCoreAddress(Windows, address) by {
      AllowedAddresses(Windows, address);
    }
    var events := [Start(address, sessionId, Launch(NEVER, true, true, true, false))];
    assert events[..0] == [] && Run(Idle(Windows), events[..0]) == Idle(Windows);
    hide IsAllowedCoreAddress, IsValidSessionId;
  }

  /** Owning every child that is not collected is the same as never having failed to confine one. */
  lemma OwnsExactly(platform: Platform, events: seq<Event>)
    ensures var s := Run(Idle(platform), events);
            (forall c: Child | c < s.world.spawned && c !in s.world.reaped :: Manages(s, c)) <==>
                s.world.unconfined == {}
  {
    OwnedAlways(platform, events);
    var s := Run(Idle(platform), events);
    if c :| c in s.world.unconfined {
      assert c < s.world.spawned && c !in s.world.reaped && !Manages(s, c);
    }
  }

  // ----- What the answers promise -----

  /** An answer that the Core was stopped means that this session's Core was managed and its exit was collected. */
  lemma StoppedMeansExited(platform: Platform, events: seq<Event>, sessionId: string, release: Termination)
    ensures var s := Run(Idle(platform), events); var (t, answer) := StopNext(s, sessionId, release);
            answer == Stopped(sessionId) ==>
              && s.managed.Some? && s.managed.value.sessionId == sessionId && t.managed == None
              && s.managed.value.child in t.world.reaped && s.managed.value.child !in t.world.alive
  {
    OwnedAlways(platform, events);
    hide Run, Release, Owned, IsValidSessionId;
    var s := Run(Idle(platform), events);
    ReleaseOutcome(s, release);
    assert s.managed.Some? ==> Manages(s, s.managed.value.child);
  }

  /** A stop that did not stop the Core leaves the slot as it was, and only its own session touches any process. */
  lemma UnstoppedKeepsTheCore(platform: Platform, events: seq<Event>, sessionId: string, release: Termination)
    ensures var s := Run(Idle(platform), events); var (t, answer) := StopNext(s, sessionId, release);
            && (answer != Stopped(sessionId) ==> t.managed == s.managed && t.world.reaped == s.world.reaped)
            && (Session(s) != Some(sessionId) ==> t == s && !answer.Stopped?)
  {
    OwnedAlways(platform, events);
    hide Run, Release, Owned, IsValidSessionId;
    ReleaseOutcome(Run(Idle(platform), events), release);
  }

  /** A started Core is a new child, the managed one, and the Core managed before it has exited. */
  lemma StartReplaces(platform: Platform, events: seq<Event>, address: string, sessionId: string, launch: Launch)
    ensures var s := Run(Idle(platform), events); var (t, answer) := StartNext(s, address, sessionId, launch);
            answer.Started? ==>
              && answer == Started(sessionId, s.world.spawned)
              && t.managed == Some(ManagedCore(sessionId, answer.pid)) && answer.pid in t.world.alive
              && forall c | Manages(s, c) :: c in t.world.reaped && c !in t.world.alive
  {
    OwnedAlways(platform, events);
    hide Run, Release, IsValidSessionId, IsAllowedCoreAddress;
    ReleaseOutcome(Run(Idle(platform), events), launch.release);
  }

  /** The previous Core, if there is one, can be got rid of. */
  predicate Releases(s: State, release: Termination) {
    s.managed.Some? ==> Terminate(s.world, s.managed.value.child, release).1
  }

  /**
   A start succeeds exactly if the request is valid, the previous Core has gone, and the new one is verified, has the
   owner's socket on Linux, is spawned, and confined on Windows. The first of these that fails is the answer.
   */
  lemma StartsExactly(s: State, address: string, sessionId: string, launch: Launch)
    ensures var answer := StartNext(s, address, sessionId, launch).1;
            var valid := IsAllowedCoreAddress(s.world.platform, address) && IsValidSessionId(sessionId);
            var ready := valid && Releases(s, launch.release) && launch.verified;
            var permitted := ready && (s.world.platform.Linux? ==> launch.ownerSocket);
            && (answer.Started? <==> permitted && launch.spawns && (s.world.platform.Windows? ==> launch.confined))
            && (answer == Error("internalError") <==> permitted && launch.spawns && !answer.Started?)
            && (answer == Error("processLaunchFailed") <==> permitted && !launch.spawns)
            && (answer == Error("coreVerificationFailed") <==> valid && Releases(s, launch.release) && !launch.verified)
            && (answer == Error("coreStopFailed") <==> valid && !Releases(s, launch.release))
            && (answer == Error("invalidRequest") <==> !valid || (ready && !permitted))
            && (!valid ==> StartNext(s, address, sessionId, launch).0 == s)
  {
    hide IsAllowedCoreAddress, IsValidSessionId, Terminate;
    if s.managed.Some? {
      TerminateOutcome(s.world, s.managed.value.child, launch.release);
    }
    assert "coreStopFailed"[0] == 'c' && "coreVerificationFailed"[4] == 'V' && "coreStopFailed"[4] == 'S';
    assert "invalidRequest"[2] == 'v' && "internalError"[2] == 't' && "processLaunchFailed"[0] == 'p';
  }

  /** A stop succeeds exactly for the session that is managed, when its Core can be got rid of. */
  lemma StopsExactly(s: State, sessionId: string, release: Termination)
    ensures var answer := StopNext(s, sessionId, release).1;
            var valid, ours := IsValidSessionId(sessionId), Session(s) == Some(sessionId);
            && (answer == Stopped(sessionId) <==> valid && ours && Releases(s, release))
            && (answer == Error("coreStopFailed") <==> valid && ours && !Releases(s, release))
            && (answer == NotStopped(sessionId, "notRunning") <==> valid && s.managed == None)
            && (answer == NotStopped(sessionId, "sessionMismatch") <==> valid && s.managed.Some? && !ours)
            && (answer == Error("invalidRequest") <==> !valid)
  {
    hide IsValidSessionId, Terminate;
    assert "coreStopFailed"[0] == 'c' && "invalidRequest"[0] == 'i';
  }

  /** Nothing is spawned unless the previous Core has gone; a failed release leaves that Core managed. */
  lemma NoSpawnOverALiveCore(platform: Platform, events: seq<Event>, address: string, sessionId: string, launch: Launch)
    ensures var s := Run(Idle(platform), events); var (t, answer) := StartNext(s, address, sessionId, launch);
            && (t.world.spawned != s.world.spawned ==>
                  t.world.spawned == s.world.spawned + 1 && forall c | Manages(s, c) :: c in t.world.reaped)
            && (answer == Error("coreStopFailed") ==>
                  s.managed.Some? && t.managed == s.managed && t.world.spawned == s.world.spawned)
  {
    OwnedAlways(platform, events);
    hide Run, Release, IsValidSessionId, IsAllowedCoreAddress;
    ReleaseOutcome(Run(Idle(platform), events), launch.release);
  }

  /** Requests of other sessions to stop, however many and however late, never touch the Core of this one. */
  lemma {:induction false} OthersNeverStopIt(s: State, later: seq<Event>)
    requires s.managed.Some?
    requires forall k | 0 <= k < |later| ::
               later[k].Exit? || (later[k].Stop? && later[k].sessionId != s.managed.value.sessionId)
    ensures var t := Run(s, later);
            && t.managed == s.managed && t.world.reaped == s.world.reaped && t.world.spawned == s.world.spawned
  {
    if later != [] {
      hide Release, IsValidSessionId;
      OthersNeverStopIt(s, later[..|later| - 1]);
      var last := later[|later| - 1];
      assert last.Exit? || (last.Stop? && last.sessionId != s.managed.value.sessionId);
    }
  }
}

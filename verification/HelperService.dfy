/** The helper's request handlers, changing the slot of the managed Core in place. */
module HelperService {
  import opened Options
  import opened HelperOwnership

  /** The system calls the helper makes on its children; what the system does next is a parameter of each call. */
  class Kernel {
    var world: World

    constructor (platform: Platform)
      ensures world == Idle(platform).world
    {
      world := World(platform, {}, {}, {}, 0);
    }

    method TryWait(child: Child, tick: Tick) returns (seen: Waited)
      modifies this
      ensures (world, seen) == Polled(old(world), child, tick)
    {
      world := Elapse(world, tick.exits);
      if tick.fails {
        return Failed;
      }
      if child in world.alive {
        return TimedOut;
      }
      world := world.(reaped := world.reaped + {child});
      return Exited;
    }

    /** A signal may only be sent to a child whose status has not been collected: its pid could be another's by then. */
    method Signal(child: Child, accepted: bool) returns (sent: bool)
      requires child < world.spawned && child !in world.reaped
      ensures sent == accepted
    {
      return accepted;
    }

    method Spawn() returns (child: Child)
      modifies this
      ensures child == old(world).spawned
      ensures world == old(world).(alive := old(world).alive + {child}, spawned := child + 1)
    {
      child := world.spawned;
      world := world.(alive := world.alive + {child}, spawned := child + 1);
    }

    method Forget(child: Child)
      modifies this
      ensures world == old(world).(unconfined := old(world).unconfined + {child})
    {
      world := world.(unconfined := world.unconfined + {child});
    }
  }

  class Helper {
    var managed: Option<ManagedCore>
    const kernel: Kernel

    function View(): State
      reads this, kernel
    {
      State(managed, kernel.world)
    }

    ghost predicate Valid()
      reads this, kernel
    {
      Owned(View())
    }

    constructor (platform: Platform)
      ensures Valid() && View() == Idle(platform) && fresh(kernel)
    {
      managed := None;
      kernel := new Kernel(platform);
    }

    method WaitForExit(child: Child, ticks: Polls) returns (seen: Waited)
      modifies kernel
      ensures (kernel.world, seen) == Wait(old(kernel.world), child, ticks)
    {
      var k := 0;
      while true
        invariant 0 <= k < |ticks|
        invariant Wait(old(kernel.world), child, ticks) == Wait(kernel.world, child, ticks[k..])
        decreases |ticks| - k
      {
        var rest: Polls := ticks[k..];
        seen := kernel.TryWait(child, ticks[k]);
        if seen != TimedOut || k + 1 == |ticks| {
          return;
        }
        assert rest[1..] == ticks[k + 1..];
        k := k + 1;
      }
    }

    /** SIGTERM where there is one; elsewhere a Core can only be killed. */
    method RequestExit(child: Child, t: Termination) returns (asked: bool)
      requires child < kernel.world.spawned && child !in kernel.world.reaped
      ensures asked == (kernel.world.platform.Linux? && t.requested)
    {
      asked := false;
      if kernel.world.platform.Linux? {
        asked := kernel.Signal(child, t.requested);
      }
    }

    method Terminate(child: Child, t: Termination) returns (gone: bool)
      requires child < kernel.world.spawned && child !in kernel.world.reaped
      modifies kernel
      ensures (kernel.world, gone) == HelperOwnership.Terminate(old(kernel.world), child, t)
    {
      var asked := RequestExit(child, t);
      if asked {
        WaitOutcome(kernel.world, child, t.graceful);
        var seen := WaitForExit(child, t.graceful);
        if seen != TimedOut {
          return seen == Exited;
        }
      }
      var _ := kernel.Signal(child, true);
      var seen := WaitForExit(child, t.forced);
      return seen == Exited;
    }

    method ReleaseManagedCore(t: Termination) returns (gone: bool)
      requires Valid()
      modifies this, kernel
      ensures Valid() && (View(), gone) == Release(old(View()), t)
    {
      ReleaseOutcome(View(), t);
      if managed == None {
        return true;
      }
      assert Manages(View(), managed.value.child);
      gone := Terminate(managed.value.child, t);
      if gone {
        managed := None;
      }
    }

    method Start(address: string, sessionId: string, launch: Launch) returns (answer: Response)
      requires Valid()
      modifies this, kernel
      ensures Valid() && (View(), answer) == StartNext(old(View()), address, sessionId, launch)
    {
      hide IsAllowedCoreAddress, IsValidSessionId, Release, Owned;
      StartKeepsOwned(View(), address, sessionId, launch);
      if !IsAllowedCoreAddress(kernel.world.platform, address) {
        return Error("invalidRequest");
      }
      if !IsValidSessionId(sessionId) {
        return Error("invalidRequest");
      }
      ReleaseOutcome(View(), launch.release);
      var released := ReleaseManagedCore(launch.release);
      if !released {
        return Error("coreStopFailed");
      }
      if !launch.verified {
        return Error("coreVerificationFailed");
      }
      if kernel.world.platform.Linux? && !launch.ownerSocket {
        return Error("invalidRequest");
      }
      if !launch.spawns {
        return Error("processLaunchFailed");
      }
      var child := kernel.Spawn();
      if kernel.world.platform.Windows? && !launch.confined {
        kernel.Forget(child);
        return Error("internalError");
      }
      managed := Some(ManagedCore(sessionId, child));
      return Started(sessionId, child);
    }

    method StopCore(sessionId: string, release: Termination) returns (answer: Response)
      requires Valid()
      modifies this, kernel
      ensures Valid() && (View(), answer) == StopNext(old(View()), sessionId, release)
    {
      hide IsValidSessionId, Release, Owned;
      if !IsValidSessionId(sessionId) {
        return Error("invalidRequest");
      }
      var decision := Decide(Session(View()), sessionId);
      match decision {
        case NotRunning => return NotStopped(sessionId, "notRunning");
        case SessionMismatch => return NotStopped(sessionId, "sessionMismatch");
        case StopIt =>
          var gone := ReleaseManagedCore(release);
          return if gone then Stopped(sessionId) else Error("coreStopFailed");
      }
    }

    /** One request after another, each holding the lock of the slot, with exits in between. */
    method Serve(events: seq<Event>)
      requires Valid()
      modifies this, kernel
      ensures Valid() && View() == Run(old(View()), events)
    {
      hide Owned, HelperOwnership.Next;
      var k := 0;
      assert events[..0] == [];
      while k < |events|
        invariant 0 <= k <= |events|
        invariant Valid() && View() == Run(old(View()), events[..k])
      {
        assert events[..k + 1][..k] == events[..k];
        Handle(events[k]);
        k := k + 1;
      }
      assert events[..|events|] == events;
    }

    method Handle(event: Event)
      requires Valid()
      modifies this, kernel
      ensures Valid() && View() == HelperOwnership.Next(old(View()), event)
    {
      hide Owned, StartNext, StopNext, Release;
      NextKeepsOwned(View(), event);
      match event {
        case Start(address, sessionId, launch) => var _ := Start(address, sessionId, launch);
        case Stop(sessionId, release) => var _ := StopCore(sessionId, release);
        case Exit(children) => kernel.world := Elapse(kernel.world, children);
        case Shutdown(release) => var _ := ReleaseManagedCore(release);
      }
    }
  }
}

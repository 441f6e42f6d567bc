/** The controller of the background services: the contract the run-state machine relies on. */
module ServiceController {
  import opened Options
  import opened ServiceStateMachine

  datatype Component = VpnComponent | ProxyComponent

  function ComponentFor(options: VpnOptions): Component {
    if options.enable then VpnComponent else ProxyComponent
  }

  /** One binding object; a later binding of the same component is another object. */
  datatype Binding = Binding(component: Component, id: nat)

  class Controller {
    var binding: Option<Binding>
    var runTimeMillis: nat
    /** The binding objects created so far. */
    var bindings: nat
    /** The Android services that run, whoever started them. */
    var services: set<Component>

    predicate Binds(component: Component)
      reads this
    {
      binding.Some? && binding.value.component == component
    }

    /** The service as the state machine sees it. */
    function View(): Host
      reads this
    {
      Host(runTimeMillis, runTimeMillis != 0 && Binds(VpnComponent))
    }

    /** Between calls a binding is held only while a service is up; after `Unbind` one is up without a binding. */
    ghost predicate Valid()
      reads this
    {
      binding.Some? ==> binding.value.id < bindings && View().Up()
    }

    constructor (running: set<Component>)
      ensures Valid() && View() == DOWN && binding.None? && services == running
    {
      binding, runTimeMillis, bindings, services := None, 0, 0, running;
    }

    /**
     The bound service is asked to stop, the binding given up, and then both services are stopped by name: one that
     the system has started itself has no binding. Only a service whose stop is `refused` throughout can go on.
     */
    method TearDownServices(refused: set<Component>)
      modifies this`binding, this`services
      ensures binding.None? && services == old(services) * refused
    {
      if binding.Some? && binding.value.component !in refused {
        services := services - {binding.value.component};
      }
      binding := None;
      if VpnComponent !in refused {
        services := services - {VpnComponent};
      }
      if ProxyComponent !in refused {
        services := services - {ProxyComponent};
      }
      assert forall c | c in old(services) :: c.VpnComponent? || c.ProxyComponent?;
    }

    /**
     `bound` and `started` tell whether binding and starting the service succeed, `now` is the clock.
     A service is up afterwards exactly when the result is not zero, and then it is of the requested kind;
     a service that was already up keeps its run time, and a binding of the right component is kept.
     */
    method Start(options: VpnOptions, bound: bool, started: bool, now: nat, refused: set<Component>)
        returns (startedAt: nat)
      requires Valid() && now != 0
      modifies this
      ensures Valid()
      ensures View() == if startedAt != 0 then Host(startedAt, options.enable) else DOWN
      ensures startedAt != 0 <==> (bound || old(Binds(ComponentFor(options)))) && started
      ensures startedAt != 0 ==> startedAt == if old(View()).Up() then old(runTimeMillis) else now
      ensures binding == (if startedAt == 0 then None
                          else if old(Binds(ComponentFor(options))) then old(binding)
                          else Some(Binding(ComponentFor(options), old(bindings))))
      ensures startedAt != 0 ==> ComponentFor(options) in services
      ensures startedAt != 0 && old(binding).Some? && !old(Binds(ComponentFor(options))) ==>
                services <= {ComponentFor(options)} + refused
    {
      var next := ComponentFor(options);
      if !Binds(next) {
        if binding.Some? {
          TearDownServices(refused);
        }
        binding, bindings := Some(Binding(next, bindings)), bindings + 1;
        if !bound {
          binding, runTimeMillis := None, 0;
          return 0;
        }
      }
      if !started {
        if next !in refused {
          services := services - {next};
        }
        binding, runTimeMillis := None, 0;
        return 0;
      }
      services := services + {next};
      if runTimeMillis == 0 {
        runTimeMillis := now;
      }
      startedAt := runTimeMillis;
    }

    method Stop(refused: set<Component>)
      requires Valid()
      modifies this
      ensures Valid() && View() == DOWN && binding.None? && services == old(services) * refused
    {
      TearDownServices(refused);
      runTimeMillis := 0;
    }

    /** The binding is given up and the service left alone; its run time is kept, but not what kind it is. */
    method Unbind()
      requires Valid()
      modifies this`binding
      ensures Valid() && binding.None? && View() == Host(old(runTimeMillis), false)
    {
      binding := None;
    }

    method IsVpnServiceActive() returns (active: bool)
      ensures active == View().VpnServiceActive()
    {
      active := runTimeMillis != 0 && Binds(VpnComponent);
    }

    /** A disconnect clears the service only when it concerns the very binding that is still held. */
    method HandleDisconnected(disconnected: Binding) returns (wasCurrent: bool)
      requires Valid()
      modifies this`binding, this`runTimeMillis
      ensures Valid() && wasCurrent == (old(binding) == Some(disconnected))
      ensures View() == if wasCurrent then DOWN else old(View())
      ensures binding == if wasCurrent then None else old(binding)
      ensures wasCurrent ==> old(View()).Up()
    {
      wasCurrent := binding == Some(disconnected);
      if wasCurrent {
        binding, runTimeMillis := None, 0;
      }
    }
  }
}

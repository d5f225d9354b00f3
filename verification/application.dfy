/** `ApplicationManager` of packages/mini-qiankun/src/application.ts: the static
    fields become the fields of one manager object, and every method is proved to
    leave exactly the state that the value model `Lifecycle` gives, appending the
    hooks it awaited to the ghost `trace`. */
module Application {
  import opened Types
  import opened Lifecycle

  class ApplicationManager {
    var order: seq<string>
    var configs: map<string, MicroApp>
    var apps: map<string, AppInstance>
    var globalHooks: LifeCycles
    var current: Option<string>
    var listeners: nat
    /** Every hook awaited so far, in order. */
    ghost var trace: seq<Invocation>

    function Snapshot(): State
      reads this
    {
      State(order, configs, apps, globalHooks, current, listeners)
    }

    ghost predicate Valid()
      reads this
    {
      WellFormed(Snapshot())
    }

    constructor ()
      ensures Valid() && Snapshot() == Initial && trace == []
    {
      order, configs, apps := [], map[], map[];
      globalHooks, current, listeners := NoHooks, None, 0;
      trace := [];
    }

    method SetGlobalLifeCycles(hooks: LifeCycles)
      requires Valid()
      modifies this
      ensures Valid() && Snapshot() == SetGlobal(old(Snapshot()), hooks) && trace == old(trace)
    {
      globalHooks := hooks;
    }

    method RegisterApp(app: MicroApp, env: Env)
      requires Valid()
      modifies this
      ensures Valid() && Snapshot() == Register(old(Snapshot()), app, env) && trace == old(trace)
    {
      if app.name !in apps {
        configs := configs[app.name := app];
        order := order + [app.name];
        apps := apps[app.name := AppInstance(app.name, NotLoaded, None, Resolve(app.container, env))];
      }
    }

    method LoadApp(n: string, env: Env) returns (out: Outcome)
      requires Valid()
      modifies this
      ensures var r := Load(old(Snapshot()), n, env);
        Snapshot() == r.state && trace == old(trace) + r.calls && out == r.out
      ensures Valid()
    {
      if n !in apps {
        return Threw(AppNotFound(n));
      }
      if apps[n].status != NotLoaded {
        return Done;
      }
      ghost var s0 := Snapshot();
      // `inst` stands for the shared instance object; it is written back before
      // anything else reads the instance map.
      var inst := apps[n].(status := Loading);
      var config := configs[n];
      var found := Resolve(config.container, env);
      if found.Some? {
        inst := inst.(container := found);
      }
      UpdateInstance(s0, n, inst);
      if config.entry !in env.entries {
        // fetching the entry or running its scripts rejected: logged, not rethrown
        apps := apps[n := inst];
        return Done;
      }
      inst := inst.(app := Some(env.entries[config.entry]));
      inst := inst.(status := NotBootstrapped);
      UpdateInstance(s0, n, inst);
      apps := apps[n := inst];
      var ignored := BootstrapApp(n, env);
      out := Done;
    }

    /** Awaits each present hook of `plan` in order, recording it in the trace; the
        first rejection stops the sequence and is returned. */
    method AwaitHooks(plan: Plan, env: Env) returns (failed: Option<HookKind>)
      modifies this`trace
      ensures trace == old(trace) + RunHooks(plan, env).executed
      ensures failed == RunHooks(plan, env).failed
    {
      if plan.first.Some? {
        trace := trace + [plan.first.value];
        if Fails(env, plan.first.value) {
          return Some(plan.first.value.kind);
        }
      }
      if plan.second.Some? {
        trace := trace + [plan.second.value];
        if Fails(env, plan.second.value) {
          return Some(plan.second.value.kind);
        }
      }
      failed := None;
    }

    method BootstrapApp(n: string, env: Env) returns (out: Outcome)
      requires Valid()
      modifies this
      ensures var r := Bootstrap(old(Snapshot()), n, env);
        Snapshot() == r.state && trace == old(trace) + r.calls && out == r.out
      ensures Valid()
    {
      if n !in apps || apps[n].status != NotBootstrapped {
        return Done;
      }
      var inst := apps[n];
      var failed := AwaitHooks(BootstrapPlan(globalHooks, inst.app, n), env);
      if failed.Some? {
        // logged and rethrown
        return Threw(HookFailed(failed.value));
      }
      apps := apps[n := inst.(status := NotMounted)];
      out := Done;
    }

    method MountApp(n: string, env: Env) returns (out: Outcome)
      requires Valid()
      modifies this
      ensures var r := Mount(old(Snapshot()), n, env);
        Snapshot() == r.state && trace == old(trace) + r.calls && out == r.out
      ensures Valid()
      decreases MountMeasure(Snapshot(), n), 1
    {
      ghost var s0, t0 := Snapshot(), trace;
      ghost var u := Step(s0, [], Done);
      if !Truthy(current) && current != Some(n) {
        out := UnmountApp(n, env);
        u := Unmount(s0, n, env);
        if out.Threw? {
          return;
        }
      }
      assert trace == t0 + u.calls;
      out := MountRestApp(n, env);
      AppendAssoc(t0, u.calls, MountRest(u.state, n, env).calls);
    }

    method MountRestApp(n: string, env: Env) returns (out: Outcome)
      requires Valid()
      modifies this
      ensures var r := MountRest(old(Snapshot()), n, env);
        Snapshot() == r.state && trace == old(trace) + r.calls && out == r.out
      ensures Valid()
      decreases MountMeasure(Snapshot(), n), 0
    {
      if n !in apps {
        out := LoadApp(n, env);
        return;
      }
      if apps[n].status == NotLoaded {
        ghost var s0, t0 := Snapshot(), trace;
        var ignored := LoadApp(n, env);
        ghost var l := Load(s0, n, env);
        out := MountApp(n, env);
        ghost var m := Mount(l.state, n, env);
        AppendAssoc(t0, l.calls, m.calls);
        return;
      }
      out := MountLoadedApp(n, env);
    }

    /** The part of `mountApp` after the load-and-retry branches (application.ts:174-211). */
    method MountLoadedApp(n: string, env: Env) returns (out: Outcome)
      requires Valid() && n in apps && apps[n].status != NotLoaded
      modifies this
      ensures var r := MountLoaded(old(Snapshot()), n, env);
        Snapshot() == r.state && trace == old(trace) + r.calls && out == r.out
      ensures Valid()
    {
      if apps[n].status == Mounted {
        return Done;
      }
      ghost var s0 := Snapshot();
      var config := configs[n];
      var found := Resolve(config.container, env);
      if found.None? {
        return Threw(ContainerNotFound(config.container));
      }
      var inst := apps[n].(container := found);
      OverwriteInstance(apps, n, inst, inst.(status := Mounted));
      apps := apps[n := inst];
      var failed := AwaitHooks(MountPlan(globalHooks, inst.app, n, MergeProps(config, inst.container)), env);
      if failed.Some? {
        // logged and rethrown
        assert Snapshot() == s0.(apps := s0.apps[n := inst]);
        return Threw(HookFailed(failed.value));
      }
      apps := apps[n := inst.(status := Mounted)];
      current := Some(n);
      assert Snapshot() == s0.(apps := s0.apps[n := inst.(status := Mounted)], current := Some(n));
      out := Done;
    }

    method UnmountApp(n: string, env: Env) returns (out: Outcome)
      requires Valid()
      modifies this
      ensures var r := Unmount(old(Snapshot()), n, env);
        Snapshot() == r.state && trace == old(trace) + r.calls && out == r.out
      ensures Valid()
    {
      if n !in apps || apps[n].status != Mounted {
        return Done;
      }
      ghost var s0 := Snapshot();
      var inst := apps[n];
      var props := MergeProps(configs[n], inst.container);
      OverwriteInstance(apps, n, inst.(status := Unmounting), inst.(status := NotMounted));
      OverwriteInstance(apps, n, inst.(status := Unmounting), inst);
      apps := apps[n := inst.(status := Unmounting)];
      var failed := AwaitHooks(UnmountPlan(globalHooks, inst.app, n, props), env);
      if failed.Some? {
        // logged; the status is restored and the error rethrown
        apps := apps[n := inst.(status := Mounted)];
        assert Snapshot() == s0;
        return Threw(HookFailed(failed.value));
      }
      apps := apps[n := inst.(status := NotMounted)];
      if current == Some(n) {
        current := None;
      }
      assert Snapshot() == s0.(apps := s0.apps[n := inst.(status := NotMounted)],
                              current := if s0.current == Some(n) then None else s0.current);
      out := Done;
    }

    function GetCurrentApp(): (r: Option<AppInstance>)
      reads this
      requires Valid()
      ensures r == CurrentApp(Snapshot())
    {
      if !Truthy(current) then None
      else if current.value in apps then Some(apps[current.value])
      else None
    }

    function GetAppInstance(n: string): (r: Option<AppInstance>)
      reads this
      ensures r == GetInstance(Snapshot(), n)
    {
      if n in apps then Some(apps[n]) else None
    }

    function IsAppRegistered(n: string): (r: bool)
      reads this
      ensures r == IsRegistered(Snapshot(), n)
    {
      n in configs
    }

    method UnregisterApp(n: string, env: Env)
      requires Valid()
      modifies this
      ensures var r := Unregister(old(Snapshot()), n, env);
        Snapshot() == r.state && trace == old(trace) + r.calls
      ensures Valid()
    {
      if current == Some(n) {
        var ignored := UnmountApp(n, env);
      }
      configs := configs - {n};
      apps := apps - {n};
      order := Without(order, n);
    }

    /** `startRouteListener`: every call adds one more `route-change` listener. */
    method StartRouteListener()
      requires Valid()
      modifies this
      ensures Valid() && Snapshot() == old(Snapshot()).(listeners := old(listeners) + 1) && trace == old(trace)
    {
      listeners := listeners + 1;
    }

    /** `findMatchedApp`: scans the registered descriptors in registration order and
        returns the first whose rule matches. */
    method FindMatchedApp(loc: Location, holds: set<nat>) returns (r: Option<MicroApp>)
      requires Valid()
      ensures r == FirstMatch(RegisteredApps(Snapshot()), loc, holds)
    {
      var registered := RegisteredApps(Snapshot());
      var i := 0;
      while i < |registered|
        invariant 0 <= i <= |registered|
        invariant FirstMatch(registered, loc, holds) == FirstMatch(registered[i..], loc, holds)
      {
        assert registered[i..][1..] == registered[i + 1..];
        if IsAppActive(registered[i], loc, holds) {
          return Some(registered[i]);
        }
        i := i + 1;
      }
      r := None;
    }

    method HandleRouteChange(loc: Location, holds: set<nat>, env: Env) returns (out: Outcome)
      requires Valid()
      modifies this
      ensures var r := RouteChange(old(Snapshot()), loc, holds, env);
        Snapshot() == r.state && trace == old(trace) + r.calls && out == r.out
      ensures Valid()
    {
      var matched := FindMatchedApp(loc, holds);
      if matched.Some? {
        out := MountApp(matched.value.name, env);
      } else {
        var currentApp := GetCurrentApp();
        if currentApp.Some? {
          out := UnmountApp(currentApp.value.name, env);
        } else {
          out := Done;
        }
      }
    }
  }
}

/** What the application manager of packages/mini-qiankun/src/application.ts
    guarantees, stated over the value model `Lifecycle`. */
module LifecycleFacts {
  import opened Types
  import opened Lifecycle

  // ---------------------------------------------------------------------------
  // Registry

  /** Descriptor and instance are filed and deleted together, so
      `isAppRegistered` and `getAppInstance` always agree. */
  lemma RegistryAgrees(s: State, n: string)
    requires WellFormed(s)
    ensures IsRegistered(s, n) <==> GetInstance(s, n).Some?
    ensures GetInstance(s, n).Some? ==> GetInstance(s, n).value.name == n
  {
  }

  /** After `unregisterApp(n)` neither map knows `n`, nothing else is forgotten,
      and if `n` was current there is no current application any more. */
  lemma UnregisterForgets(s: State, n: string, env: Env)
    requires WellFormed(s)
    ensures var t := Unregister(s, n, env).state;
      && !IsRegistered(t, n) && GetInstance(t, n) == None
      && (forall m :: m != n ==> (IsRegistered(t, m) <==> IsRegistered(s, m)))
      && (s.current == Some(n) ==> CurrentApp(t) == None)
  {
  }

  // ---------------------------------------------------------------------------
  // Awaiting hooks

  /** The hooks awaited are a prefix of the plan; the run succeeds exactly when the
      whole plan ran and none of it rejected; a failed run stops at the hook that
      rejected, after hooks that all resolved. */
  lemma RunHooksSpec(p: Plan, env: Env)
    ensures var r := RunHooks(p, env);
      && r.executed <= Calls(p)
      && (r.failed.None? <==> r.executed == Calls(p) && forall c :: c in Calls(p) ==> !Fails(env, c))
      && (r.failed.Some? ==>
            && r.executed != []
            && Fails(env, r.executed[|r.executed| - 1])
            && r.failed.value == r.executed[|r.executed| - 1].kind
            && forall i :: 0 <= i < |r.executed| - 1 ==> !Fails(env, r.executed[i]))
  {
  }

  // ---------------------------------------------------------------------------
  // bootstrapApp

  /** From `NOT_BOOTSTRAPPED`: the global `bootstrap` is awaited before the
      application's; success gives `NOT_MOUNTED`; a rejection is rethrown with
      nothing changed. */
  lemma BootstrapSteps(s: State, n: string, env: Env)
    requires WellFormed(s) && n in s.apps && s.apps[n].status == NotBootstrapped
    ensures var r := Bootstrap(s, n, env);
      var plan := Calls(BootstrapPlan(s.globalHooks, s.apps[n].app, n));
      && r.calls <= plan
      && (forall i, j :: 0 <= i < j < |r.calls| ==> r.calls[i].kind == GlobalBootstrap && r.calls[j].kind == AppBootstrap)
      && (r.out.Done? <==> r.calls == plan && forall c :: c in plan ==> !Fails(env, c))
      && (r.out.Done? ==> r.state.apps[n].status == NotMounted)
      && (r.out.Threw? ==> r.state == s && r.out.error.HookFailed?)
  {
    RunHooksSpec(BootstrapPlan(s.globalHooks, s.apps[n].app, n), env);
  }

  // ---------------------------------------------------------------------------
  // loadApp

  /** Whether bootstrapping `n` with the lifecycle object `hooks` would reject. */
  predicate BootstrapRejects(s: State, n: string, hooks: LifeCycles, env: Env) {
    RunHooks(BootstrapPlan(s.globalHooks, Some(hooks), n), env).failed.Some?
  }

  /** From `NOT_LOADED`, `loadApp` never throws and ends in exactly one of:
      `LOADING` when fetching or running the entry failed, `NOT_BOOTSTRAPPED`
      when bootstrapping rejected, `NOT_MOUNTED` when everything succeeded.
      The lifecycle object found is recorded, and the container is rebound when
      its selector resolves. */
  lemma LoadEndStates(s: State, n: string, env: Env)
    requires WellFormed(s) && n in s.apps && s.apps[n].status == NotLoaded
    ensures var r := Load(s, n, env);
      var e := s.configs[n].entry;
      var c := s.configs[n].container;
      && r.out == Done
      && (r.state.apps[n].status == Loading <==> e !in env.entries)
      && (r.state.apps[n].status == NotBootstrapped <==> e in env.entries && BootstrapRejects(s, n, env.entries[e], env))
      && (r.state.apps[n].status == NotMounted <==> e in env.entries && !BootstrapRejects(s, n, env.entries[e], env))
      && (e in env.entries ==> r.state.apps[n].app == Some(env.entries[e]))
      && (e !in env.entries ==> r.state.apps[n].app == s.apps[n].app && r.calls == [])
      && r.state.apps[n].container == (if c in env.resolvable then Some(Element(c)) else s.apps[n].container)
  {
    var e := s.configs[n].entry;
    if e in env.entries {
      var inst := s.apps[n].(status := Loading, container := if s.configs[n].container in env.resolvable then Some(Element(s.configs[n].container)) else s.apps[n].container);
      var fetched := s.(apps := s.apps[n := inst.(app := Some(env.entries[e]), status := NotBootstrapped)]);
      BootstrapSteps(fetched, n, env);
    }
  }

  /** `loadApp` on an unknown name throws and changes nothing; on a status other
      than `NOT_LOADED` it does nothing at all. */
  lemma LoadGuards(s: State, n: string, env: Env)
    requires WellFormed(s)
    ensures n !in s.apps ==> Load(s, n, env) == Step(s, [], Threw(AppNotFound(n)))
    ensures n in s.apps && s.apps[n].status != NotLoaded ==> Load(s, n, env) == Step(s, [], Done)
  {
  }

  // ---------------------------------------------------------------------------
  // mountApp

  /** Once the application is loaded and not `MOUNTED`, a container selector that
      resolves to nothing makes `mountApp` throw before any hook, with nothing
      changed. */
  lemma MountLoadedNoContainer(s: State, n: string, env: Env)
    requires WellFormed(s) && n in s.apps && s.apps[n].status !in {NotLoaded, Mounted}
    requires s.configs[n].container !in env.resolvable
    ensures MountLoaded(s, n, env) == Step(s, [], Threw(ContainerNotFound(s.configs[n].container)))
  {
  }

  /** The steps of `mountApp` once the application is loaded and not `MOUNTED`
      (from `LOADING`, `NOT_BOOTSTRAPPED` or `NOT_MOUNTED` alike) and its container
      resolves: the container is rebound, the global `mount` is awaited before the
      application's, which receives the descriptor with `container` replaced;
      success makes it `MOUNTED` and current; a rejection is rethrown with status
      and `currentApp` as they were. */
  lemma MountLoadedSteps(s: State, n: string, env: Env)
    requires WellFormed(s) && n in s.apps && s.apps[n].status !in {NotLoaded, Mounted}
    requires s.configs[n].container in env.resolvable
    ensures var r := MountLoaded(s, n, env);
      var props := MergeProps(s.configs[n], Some(Element(s.configs[n].container)));
      var plan := Calls(MountPlan(s.globalHooks, s.apps[n].app, n, props));
      && r.calls <= plan
      && (forall i, j :: 0 <= i < j < |r.calls| ==> r.calls[i].kind == GlobalMount && r.calls[j].kind == AppMount)
      && (forall k :: 0 <= k < |r.calls| && r.calls[k].kind == AppMount ==> r.calls[k].props == Some(props))
      && r.state.apps[n].container == Some(Element(s.configs[n].container))
      && (r.out.Done? <==> r.calls == plan && forall k :: k in plan ==> !Fails(env, k))
      && (r.out.Done? ==> r.state.apps[n].status == Mounted && r.state.current == Some(n))
      && (r.out.Threw? ==> r.state.apps[n].status == s.apps[n].status && r.state.current == s.current && r.out.error.HookFailed?)
  {
    RunHooksSpec(MountPlan(s.globalHooks, s.apps[n].app, n, MergeProps(s.configs[n], Some(Element(s.configs[n].container)))), env);
  }

  /** An unknown name makes `mountApp` throw from `loadApp`, with nothing changed. */
  lemma MountUnregistered(s: State, n: string, env: Env)
    requires WellFormed(s) && n !in s.apps
    ensures Mount(s, n, env) == Step(s, [], Threw(AppNotFound(n)))
  {
  }

  /** With a current application, mounting an application that is already
      `MOUNTED` changes nothing. */
  lemma MountMountedIsNoop(s: State, n: string, env: Env)
    requires WellFormed(s) && Truthy(s.current) && n in s.apps && s.apps[n].status == Mounted
    ensures Mount(s, n, env) == Step(s, [], Done)
  {
  }

  /** With no current application, `mountApp(n)` first unmounts `n` itself: when
      `n` is `MOUNTED` its `unmount` hooks run before anything else, and a
      rejection there is rethrown with nothing changed. */
  lemma MountWithoutCurrentUnmountsItself(s: State, n: string, env: Env)
    requires WellFormed(s) && !Truthy(s.current) && s.current != Some(n)
    requires n in s.apps && s.apps[n].status == Mounted
    ensures var r := Mount(s, n, env);
      var u := Unmount(s, n, env);
      && u.calls <= r.calls
      && (u.out.Threw? ==> r == u && r.state == s)
  {
  }

  /** `mountApp(n)` changes the instance of no application other than `n`; so an
      application that was `MOUNTED` stays so when another one is mounted, and
      two applications can be `MOUNTED` at once. */
  lemma MountKeepsOthersMounted(s: State, a: string, b: string, env: Env)
    requires WellFormed(s) && a != b && a in s.apps && s.apps[a].status == Mounted
    requires Mount(s, b, env).out.Done?
    ensures var t := Mount(s, b, env).state;
      t.apps[a].status == Mounted && t.apps[b].status == Mounted
  {
  }

  /** A loaded application that is not `MOUNTED` is mounted by the steps of
      `MountLoaded` alone: the unmount at the start of `mountApp` finds nothing to
      do. */
  lemma MountWhenLoaded(s: State, n: string, env: Env)
    requires WellFormed(s) && n in s.apps && s.apps[n].status !in {NotLoaded, Mounted}
    ensures Mount(s, n, env) == MountLoaded(s, n, env)
  {
  }

  /** A `NOT_LOADED` application is loaded and then mounted again from the state
      loading left, the hook calls of both in order. */
  lemma MountWhenNotLoaded(s: State, n: string, env: Env)
    requires WellFormed(s) && n in s.apps && s.apps[n].status == NotLoaded
    ensures var l := Load(s, n, env);
      var m := Mount(l.state, n, env);
      Mount(s, n, env) == Step(m.state, l.calls + m.calls, m.out)
  {
    var l := Load(s, n, env);
    var m := Mount(l.state, n, env);
    var rest := MountRest(s, n, env);
    assert rest == Step(m.state, l.calls + m.calls, m.out);
    assert Unmount(s, n, env) == Step(s, [], Done);
    assert Mount(s, n, env) == Step(rest.state, [] + rest.calls, rest.out);
    assert [] + rest.calls == rest.calls;
  }

  /** The first mount of a freshly registered application when nothing rejects:
      the entry is loaded and bootstrapped (global hook, then the application's)
      and then mounted (global hook, then the application's with the merged
      props); the application ends `MOUNTED` and current. */
  lemma MountFresh(s: State, n: string, env: Env)
    requires WellFormed(s) && n in s.apps && s.apps[n].status == NotLoaded
    requires s.configs[n].entry in env.entries && s.configs[n].container in env.resolvable
    requires env.failing == {}
    ensures var r := Mount(s, n, env);
      var hooks := env.entries[s.configs[n].entry];
      var props := MergeProps(s.configs[n], Some(Element(s.configs[n].container)));
      && r.out == Done
      && r.state.apps[n].status == Mounted
      && r.state.current == Some(n)
      && r.calls == Calls(BootstrapPlan(s.globalHooks, Some(hooks), n)) + Calls(MountPlan(s.globalHooks, Some(hooks), n, props))
  {
    var l := Load(s, n, env);
    MountWhenNotLoaded(s, n, env);
    LoadFresh(s, n, env);
    assert l.state.configs == s.configs && l.state.globalHooks == s.globalHooks;
    MountWhenLoaded(l.state, n, env);
    MountLoadedFresh(l.state, n, env);
  }

  /** The mounting half of `MountFresh`: both mount hooks run and the application
      ends `MOUNTED` and current. */
  lemma MountLoadedFresh(s: State, n: string, env: Env)
    requires WellFormed(s) && n in s.apps && s.apps[n].status == NotMounted
    requires s.configs[n].container in env.resolvable && env.failing == {}
    ensures var r := MountLoaded(s, n, env);
      var props := MergeProps(s.configs[n], Some(Element(s.configs[n].container)));
      && r.out == Done && r.state.apps[n].status == Mounted && r.state.current == Some(n)
      && r.calls == Calls(MountPlan(s.globalHooks, s.apps[n].app, n, props))
  {
    MountLoadedSteps(s, n, env);
  }

  /** The loading half of `MountFresh`: both bootstrap hooks run and the
      application ends `NOT_MOUNTED` with the entry's lifecycle object. */
  lemma LoadFresh(s: State, n: string, env: Env)
    requires WellFormed(s) && n in s.apps && s.apps[n].status == NotLoaded
    requires s.configs[n].entry in env.entries && env.failing == {}
    ensures var l := Load(s, n, env);
      var hooks := env.entries[s.configs[n].entry];
      && l.state.apps[n].status == NotMounted && l.state.apps[n].app == Some(hooks)
      && l.calls == Calls(BootstrapPlan(s.globalHooks, Some(hooks), n))
  {
    var e := s.configs[n].entry;
    var inst := s.apps[n].(status := Loading, container := if s.configs[n].container in env.resolvable then Some(Element(s.configs[n].container)) else s.apps[n].container);
    var fetched := s.(apps := s.apps[n := inst.(app := Some(env.entries[e]), status := NotBootstrapped)]);
    BootstrapSteps(fetched, n, env);
  }

  // ---------------------------------------------------------------------------
  // unmountApp

  /** From `MOUNTED`: the application's `unmount` is awaited before the global one;
      success gives `NOT_MOUNTED` and clears `currentApp` only when it named this
      application; a rejection leaves it `MOUNTED`, keeps `currentApp` and is
      rethrown.  No application is ever left `UNMOUNTING`. */
  lemma UnmountSteps(s: State, n: string, env: Env)
    requires WellFormed(s) && n in s.apps && s.apps[n].status == Mounted
    ensures var r := Unmount(s, n, env);
      var plan := Calls(UnmountPlan(s.globalHooks, s.apps[n].app, n, MergeProps(s.configs[n], s.apps[n].container)));
      && r.calls <= plan
      && (forall i, j :: 0 <= i < j < |r.calls| ==> r.calls[i].kind == AppUnmount && r.calls[j].kind == GlobalUnmount)
      && (r.out.Done? <==> r.calls == plan && forall k :: k in plan ==> !Fails(env, k))
      && (r.out.Done? ==>
            r.state.apps[n].status == NotMounted && r.state.current == (if s.current == Some(n) then None else s.current))
      && (r.out.Threw? ==> r.state.apps[n].status == Mounted && r.state.current == s.current)
      && forall m :: m in r.state.apps ==> r.state.apps[m].status != Unmounting
  {
    RunHooksSpec(UnmountPlan(s.globalHooks, s.apps[n].app, n, MergeProps(s.configs[n], s.apps[n].container)), env);
  }

  // ---------------------------------------------------------------------------
  // Route matching

  /** `findMatchedApp` returns the first descriptor, in the given order, whose
      rule is active, and nothing exactly when no rule is active. */
  lemma {:induction false} FirstMatchIsFirst(apps: seq<MicroApp>, loc: Location, holds: set<nat>)
    ensures FirstMatch(apps, loc, holds).None? <==> forall i :: 0 <= i < |apps| ==> !IsAppActive(apps[i], loc, holds)
    ensures FirstMatch(apps, loc, holds).Some? ==>
      exists i :: 0 <= i < |apps| && apps[i] == FirstMatch(apps, loc, holds).value
        && IsAppActive(apps[i], loc, holds)
        && forall j :: 0 <= j < i ==> !IsAppActive(apps[j], loc, holds)
  {
    if apps != [] && !IsAppActive(apps[0], loc, holds) {
      FirstMatchIsFirst(apps[1..], loc, holds);
      if FirstMatch(apps, loc, holds).Some? {
        var i :| 0 <= i < |apps[1..]| && apps[1..][i] == FirstMatch(apps, loc, holds).value
          && IsAppActive(apps[1..][i], loc, holds)
          && forall j :: 0 <= j < i ==> !IsAppActive(apps[1..][j], loc, holds);
        assert forall j :: 0 <= j < i + 1 ==> !IsAppActive(apps[j], loc, holds) by {
          forall j | 0 <= j < i + 1 ensures !IsAppActive(apps[j], loc, holds) {
            if j > 0 { assert apps[j] == apps[1..][j - 1]; }
          }
        }
      } else {
        forall i | 0 <= i < |apps| ensures !IsAppActive(apps[i], loc, holds) {
          if i > 0 { assert apps[i] == apps[1..][i - 1]; }
        }
      }
    }
  }

  /** A string rule is active exactly when the pathname starts with it. */
  lemma PathPrefixActive(app: MicroApp, loc: Location, holds: set<nat>)
    requires app.activeRule.PathPrefix?
    ensures IsAppActive(app, loc, holds) <==> exists rest :: loc.pathname == app.activeRule.prefix + rest
  {
    var p := app.activeRule.prefix;
    if IsAppActive(app, loc, holds) {
      assert loc.pathname == p + loc.pathname[|p|..];
    }
  }

  /** `handleRouteChange` mounts the earliest-registered application whose rule is
      active. */
  lemma RouteChangeMountsFirstActive(s: State, loc: Location, holds: set<nat>, env: Env, i: nat)
    requires WellFormed(s) && i < |s.order|
    requires IsAppActive(s.configs[s.order[i]], loc, holds)
    requires forall j :: 0 <= j < i ==> !IsAppActive(s.configs[s.order[j]], loc, holds)
    ensures RouteChange(s, loc, holds, env) == Mount(s, s.order[i], env)
  {
    var apps := RegisteredApps(s);
    FirstMatchIsFirst(apps, loc, holds);
    var m := FirstMatch(apps, loc, holds).value;
    var k :| 0 <= k < |apps| && apps[k] == m && IsAppActive(apps[k], loc, holds)
      && forall j :: 0 <= j < k ==> !IsAppActive(apps[j], loc, holds);
    assert k == i;
  }

  /** When no rule is active, `handleRouteChange` unmounts the current application
      if `getCurrentApp` finds one, and otherwise does nothing. */
  lemma RouteChangeNoMatch(s: State, loc: Location, holds: set<nat>, env: Env)
    requires WellFormed(s)
    requires forall j :: 0 <= j < |s.order| ==> !IsAppActive(s.configs[s.order[j]], loc, holds)
    ensures CurrentApp(s).None? ==> RouteChange(s, loc, holds, env) == Step(s, [], Done)
    ensures CurrentApp(s).Some? ==> RouteChange(s, loc, holds, env) == Unmount(s, s.current.value, env)
  {
    FirstMatchIsFirst(RegisteredApps(s), loc, holds);
  }
}

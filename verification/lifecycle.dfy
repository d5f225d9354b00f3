/** The application manager of packages/mini-qiankun/src/application.ts as a value:
    each operation maps a manager state (plus the outside world `Env`) to a `Step`,
    the new state, the hook calls awaited in order, and what the operation threw.
    The class `Application.ApplicationManager` is proved to do exactly this. */
module Lifecycle {
  import opened Types

  /** The manager's static fields: registration order of `appConfigs`/`apps`
      (both are insertion-ordered maps over the same keys), the two maps,
      the global hook record, `currentApp`, and the number of `route-change`
      listeners that `startRouteListener` has added. */
  datatype State = State(
    order: seq<string>,
    configs: map<string, MicroApp>,
    apps: map<string, AppInstance>,
    globalHooks: LifeCycles,
    current: Option<string>,
    listeners: nat)

  /** The state before anything is registered: `globalLifeCycles = {}`, `currentApp = null`. */
  const Initial := State([], map[], map[], NoHooks, None, 0)

  /** The result of one operation. */
  datatype Step = Step(state: State, calls: seq<Invocation>, out: Outcome)

  predicate Distinct(s: seq<string>) {
    forall i, j :: 0 <= i < j < |s| ==> s[i] != s[j]
  }

  /** What every operation keeps: the two maps share their keys, which are the
      registration order without repeats; each record is filed under its own name;
      and no application is left `UNMOUNTING` between operations. `current` may name
      an application that is no longer registered. */
  ghost predicate WellFormed(s: State) {
    && Distinct(s.order)
    && (forall k :: k in s.order <==> k in s.configs)
    && s.apps.Keys == s.configs.Keys
    && (forall k :: k in s.configs ==> s.configs[k].name == k)
    && (forall k :: k in s.apps ==> s.apps[k].name == k && s.apps[k].status != Unmounting)
  }

  /** Every name in the registration order has a descriptor. */
  predicate Filed(s: State) {
    forall k :: k in s.order ==> k in s.configs
  }

  /** `t` differs from `s` at most in application `n`'s instance and in `current`. */
  ghost predicate Frame(s: State, t: State, n: string) {
    && t.order == s.order
    && t.configs == s.configs
    && t.globalHooks == s.globalHooks
    && t.listeners == s.listeners
    && t.apps.Keys == s.apps.Keys
    && (forall m :: m in s.apps && m != n ==> t.apps[m] == s.apps[m])
  }

  /** Replacing one registered application's instance by another of the same name
      that is not `UNMOUNTING` keeps the state well formed. */
  lemma UpdateInstance(s: State, n: string, inst: AppInstance)
    requires WellFormed(s) && n in s.apps && inst.name == n && inst.status != Unmounting
    ensures WellFormed(s.(apps := s.apps[n := inst]))
    ensures Frame(s, s.(apps := s.apps[n := inst]), n)
  {
  }

  lemma AppendAssoc<T>(a: seq<T>, b: seq<T>, c: seq<T>)
    ensures (a + b) + c == a + (b + c)
  {
  }

  /** A second write to the same key overrides the first. */
  lemma OverwriteInstance(m: map<string, AppInstance>, n: string, a: AppInstance, b: AppInstance)
    requires n in m
    ensures m[n := a][n := b] == m[n := b]
    ensures m[n := a][n := m[n]] == m
  {
  }

  // ---------------------------------------------------------------------------
  // Awaiting a list of hooks

  /** The hooks one step awaits, in order: at most two, each present or not. */
  datatype Plan = Plan(first: Option<Invocation>, second: Option<Invocation>)

  function Calls(p: Plan): seq<Invocation>
  {
    (if p.first.Some? then [p.first.value] else []) + (if p.second.Some? then [p.second.value] else [])
  }

  datatype Run = Run(executed: seq<Invocation>, failed: Option<HookKind>)

  /** Awaits the planned hooks in order; the first that rejects stops the run and
      its error is the run's error. */
  function RunHooks(p: Plan, env: Env): Run
  {
    var first := if p.first.Some? then [p.first.value] else [];
    if p.first.Some? && Fails(env, p.first.value) then Run(first, Some(p.first.value.kind))
    else if p.second.Some? && Fails(env, p.second.value) then Run(first + [p.second.value], Some(p.second.value.kind))
    else Run(Calls(p), None)
  }

  /** Global `bootstrap`, then the application's `bootstrap` (application.ts:142-148). */
  function BootstrapPlan(global: LifeCycles, app: Option<LifeCycles>, n: string): Plan
  {
    Plan(if global.bootstrap then Some(Invocation(GlobalBootstrap, n, None)) else None,
         if app.Some? && app.value.bootstrap then Some(Invocation(AppBootstrap, n, None)) else None)
  }

  /** Global `mount` with no argument, then the application's `mount` with the merged
      props (application.ts:191-202). */
  function MountPlan(global: LifeCycles, app: Option<LifeCycles>, n: string, props: Props): Plan
  {
    Plan(if global.mount then Some(Invocation(GlobalMount, n, None)) else None,
         if app.Some? && app.value.mount then Some(Invocation(AppMount, n, Some(props))) else None)
  }

  /** The application's `unmount` with the merged props, then the global `unmount`
      (application.ts:223-234). */
  function UnmountPlan(global: LifeCycles, app: Option<LifeCycles>, n: string, props: Props): Plan
  {
    Plan(if app.Some? && app.value.unmount then Some(Invocation(AppUnmount, n, Some(props))) else None,
         if global.unmount then Some(Invocation(GlobalUnmount, n, None)) else None)
  }

  // ---------------------------------------------------------------------------
  // Operations

  /** `setGlobalLifeCycles`: replaces the whole record. */
  function SetGlobal(s: State, hooks: LifeCycles): (t: State)
    ensures t.globalHooks == hooks
    ensures t.order == s.order && t.configs == s.configs && t.apps == s.apps
    ensures t.current == s.current && t.listeners == s.listeners
  {
    s.(globalHooks := hooks)
  }

  /** `registerApp`: a known name is ignored; otherwise the descriptor is filed,
      appended to the registration order, and a `NOT_LOADED` instance is created
      whose container is whatever the selector resolves to now. */
  function Register(s: State, app: MicroApp, env: Env): (t: State)
    requires WellFormed(s)
    ensures WellFormed(t)
    ensures app.name in s.configs ==> t == s
    ensures app.name !in s.configs ==>
      && t.order == s.order + [app.name]
      && t.configs == s.configs[app.name := app]
      && t.apps.Keys == s.apps.Keys + {app.name}
      && t.apps[app.name].status == NotLoaded && t.apps[app.name].app == None
      && (forall m :: m in s.apps ==> t.apps[m] == s.apps[m])
      && t.globalHooks == s.globalHooks && t.current == s.current && t.listeners == s.listeners
  {
    if app.name in s.apps then s
    else
      s.(order := s.order + [app.name],
         configs := s.configs[app.name := app],
         apps := s.apps[app.name := AppInstance(app.name, NotLoaded, None, Resolve(app.container, env))])
  }

  /** `bootstrapApp`: acts only from `NOT_BOOTSTRAPPED`; on success the status is
      `NOT_MOUNTED`, on a rejected hook the error is rethrown and nothing changes. */
  function Bootstrap(s: State, n: string, env: Env): (r: Step)
    requires WellFormed(s)
    ensures WellFormed(r.state) && Frame(s, r.state, n) && r.state.current == s.current
    ensures n !in s.apps || s.apps[n].status != NotBootstrapped ==> r == Step(s, [], Done)
    ensures r.out.Done? && n in s.apps && s.apps[n].status == NotBootstrapped ==> r.state.apps[n].status == NotMounted
    ensures r.out.Threw? ==> r.state == s && r.out.error.HookFailed?
  {
    if n !in s.apps || s.apps[n].status != NotBootstrapped then Step(s, [], Done)
    else
      var inst := s.apps[n];
      var run := RunHooks(BootstrapPlan(s.globalHooks, inst.app, n), env);
      if run.failed.Some? then Step(s, run.executed, Threw(HookFailed(run.failed.value)))
      else Step(s.(apps := s.apps[n := inst.(status := NotMounted)]), run.executed, Done)
  }

  /** `loadApp`: throws for an unknown name; does nothing unless `NOT_LOADED`;
      otherwise marks `LOADING`, rebinds the container if the selector resolves,
      fetches and runs the entry, records the discovered lifecycle object, marks
      `NOT_BOOTSTRAPPED` and bootstraps.  Any failure after the status became
      `LOADING` is logged and swallowed. */
  function Load(s: State, n: string, env: Env): (r: Step)
    requires WellFormed(s)
    ensures WellFormed(r.state) && Frame(s, r.state, n) && r.state.current == s.current
    ensures r.out.Threw? <==> n !in s.apps
    ensures n !in s.apps || s.apps[n].status != NotLoaded ==> r.state == s && r.calls == []
    ensures n in s.apps ==> r.state.apps[n].status != NotLoaded
    ensures n in s.apps && s.apps[n].status == NotLoaded ==>
      r.state.apps[n].status in {Loading, NotBootstrapped, NotMounted}
  {
    if n !in s.apps then Step(s, [], Threw(AppNotFound(n)))
    else if s.apps[n].status != NotLoaded then Step(s, [], Done)
    else
      var config := s.configs[n];
      var found := Resolve(config.container, env);
      var inst := s.apps[n].(status := Loading, container := if found.Some? then found else s.apps[n].container);
      if config.entry !in env.entries then Step(s.(apps := s.apps[n := inst]), [], Done)
      else
        var fetched := s.(apps := s.apps[n := inst.(app := Some(env.entries[config.entry]), status := NotBootstrapped)]);
        var b := Bootstrap(fetched, n, env);
        Step(b.state, b.calls, Done)
  }

  /** `unmountApp`: acts only from `MOUNTED`; runs the application's `unmount` then the
      global one; success gives `NOT_MOUNTED` and clears `current` if it named this
      application; a rejected hook restores `MOUNTED` and rethrows. */
  function Unmount(s: State, n: string, env: Env): (r: Step)
    requires WellFormed(s)
    ensures WellFormed(r.state) && Frame(s, r.state, n)
    ensures n !in s.apps || s.apps[n].status != Mounted ==> r == Step(s, [], Done)
    ensures r.out.Threw? ==> r.state == s && n in s.apps && s.apps[n].status == Mounted && r.out.error.HookFailed?
    ensures r.out.Done? && n in s.apps && s.apps[n].status == Mounted ==>
      && r.state.apps[n].status == NotMounted
      && r.state.current == (if s.current == Some(n) then None else s.current)
  {
    if n !in s.apps || s.apps[n].status != Mounted then Step(s, [], Done)
    else
      var inst := s.apps[n];
      var props := MergeProps(s.configs[n], inst.container);
      var run := RunHooks(UnmountPlan(s.globalHooks, inst.app, n, props), env);
      if run.failed.Some? then Step(s, run.executed, Threw(HookFailed(run.failed.value)))
      else
        Step(s.(apps := s.apps[n := inst.(status := NotMounted)],
                current := if s.current == Some(n) then None else s.current),
             run.executed, Done)
  }

  /** Lines 174-211 of `mountApp`, for a registered application that is not `NOT_LOADED`:
      nothing to do when `MOUNTED`; a container selector that resolves to nothing
      throws; otherwise the container is rebound, the global and then the
      application `mount` hooks are awaited, and on success the application is
      `MOUNTED` and becomes current.  A rejected hook is rethrown. */
  function MountLoaded(s: State, n: string, env: Env): (r: Step)
    requires WellFormed(s) && n in s.apps && s.apps[n].status != NotLoaded
    ensures WellFormed(r.state) && Frame(s, r.state, n)
    ensures s.apps[n].status == Mounted ==> r == Step(s, [], Done)
    ensures r.out.Done? ==> r.state.apps[n].status == Mounted
    ensures r.out.Done? ==> r.state.current == Some(n) || r.state == s
    ensures r.out.Threw? ==> r.state.current == s.current && r.state.apps[n].status == s.apps[n].status
  {
    if s.apps[n].status == Mounted then Step(s, [], Done)
    else
      var config := s.configs[n];
      var found := Resolve(config.container, env);
      if found.None? then Step(s, [], Threw(ContainerNotFound(config.container)))
      else
        var inst := s.apps[n].(container := found);
        var bound := s.(apps := s.apps[n := inst]);
        var run := RunHooks(MountPlan(s.globalHooks, inst.app, n, MergeProps(config, found)), env);
        if run.failed.Some? then Step(bound, run.executed, Threw(HookFailed(run.failed.value)))
        else Step(bound.(apps := s.apps[n := inst.(status := Mounted)], current := Some(n)), run.executed, Done)
  }

  function MountMeasure(s: State, n: string): nat
  {
    if n in s.apps && s.apps[n].status == NotLoaded then 1 else 0
  }

  /** `mountApp`: when no application is current (and `current` is not this name) it
      first unmounts this same application; an unknown name throws from `loadApp`;
      a `NOT_LOADED` application is loaded and the mount is retried (once: loading
      never leaves it `NOT_LOADED`); otherwise `MountLoaded`. */
  function Mount(s: State, n: string, env: Env): (r: Step)
    requires WellFormed(s)
    ensures WellFormed(r.state) && Frame(s, r.state, n)
    ensures r.out.Threw? ==> r.state.current == s.current
    ensures r.out.Done? ==> n in r.state.apps && r.state.apps[n].status == Mounted
    ensures r.out.Done? ==> r.state.current == Some(n) || r.state.current == s.current
    decreases MountMeasure(s, n), 1
  {
    var u := if !Truthy(s.current) && s.current != Some(n) then Unmount(s, n, env) else Step(s, [], Done);
    if u.out.Threw? then u
    else
      var m := MountRest(u.state, n, env);
      Step(m.state, u.calls + m.calls, m.out)
  }

  function MountRest(s: State, n: string, env: Env): (r: Step)
    requires WellFormed(s)
    ensures WellFormed(r.state) && Frame(s, r.state, n)
    ensures r.out.Threw? ==> r.state.current == s.current
    ensures r.out.Done? ==> n in r.state.apps && r.state.apps[n].status == Mounted
    ensures r.out.Done? ==> r.state.current == Some(n) || r.state.current == s.current
    decreases MountMeasure(s, n), 0
  {
      if n !in s.apps then Load(s, n, env)
      else if s.apps[n].status == NotLoaded then
        var l := Load(s, n, env);
        var m := Mount(l.state, n, env);
        Step(m.state, l.calls + m.calls, m.out)
      else MountLoaded(s, n, env)
  }

  /** `s` with every occurrence of `x` removed, keeping the others in order. */
  function Without(s: seq<string>, x: string): (r: seq<string>)
    ensures forall y :: y in r <==> y in s && y != x
    ensures Distinct(s) ==> Distinct(r)
    ensures x !in s ==> r == s
    ensures |r| <= |s|
  {
    if s == [] then []
    else
      var rest := Without(s[1..], x);
      assert Distinct(s) ==> s[0] !in s[1..];
      assert x !in s ==> x !in s[1..] && s == [s[0]] + s[1..];
      if s[0] == x then rest else [s[0]] + rest
  }

  /** Removal works piece by piece, so the names that stay keep their order. */
  lemma {:induction false} WithoutConcat(a: seq<string>, b: seq<string>, x: string)
    ensures Without(a + b, x) == Without(a, x) + Without(b, x)
    decreases |a|
  {
    if a != [] {
      assert (a + b)[1..] == a[1..] + b;
      WithoutConcat(a[1..], b, x);
    } else {
      assert a + b == b;
    }
  }

  /** `unregisterApp`: when the name is current its unmount is attempted first (its
      error swallowed); then descriptor and instance are deleted together and the
      name leaves the registration order.  Only a successful unmount clears
      `current`; otherwise it goes on naming the removed application. */
  function Unregister(s: State, n: string, env: Env): (r: Step)
    requires WellFormed(s)
    ensures WellFormed(r.state) && r.out == Done
    ensures r.state.configs.Keys == s.configs.Keys - {n} && r.state.apps.Keys == s.apps.Keys - {n}
    ensures forall m :: m in r.state.apps ==> r.state.apps[m] == s.apps[m] && r.state.configs[m] == s.configs[m]
    ensures r.state.order == Without(s.order, n)
    ensures r.state.globalHooks == s.globalHooks && r.state.listeners == s.listeners
    ensures s.current != Some(n) ==> r.state.current == s.current && r.calls == []
    ensures s.current == Some(n) ==>
      (r.state.current == None <==> n in s.apps && s.apps[n].status == Mounted && Unmount(s, n, env).out.Done?)
    ensures r.state.current == None || r.state.current == s.current
  {
    var u := if s.current == Some(n) then Unmount(s, n, env) else Step(s, [], Done);
    var t := u.state;
    Step(t.(order := Without(t.order, n), configs := t.configs - {n}, apps := t.apps - {n}), u.calls, Done)
  }

  /** `getCurrentApp`. */
  function CurrentApp(s: State): (r: Option<AppInstance>)
    requires WellFormed(s)
    ensures r.Some? <==> Truthy(s.current) && s.current.value in s.apps
    ensures r.Some? ==> r.value.name == s.current.value && r.value == s.apps[r.value.name]
  {
    if !Truthy(s.current) then None
    else if s.current.value in s.apps then Some(s.apps[s.current.value])
    else None
  }

  /** `isAppRegistered`. */
  predicate IsRegistered(s: State, n: string) {
    n in s.configs
  }

  /** `getAppInstance`. */
  function GetInstance(s: State, n: string): (r: Option<AppInstance>)
    ensures r.Some? <==> n in s.apps
    ensures r.Some? ==> r.value == s.apps[n]
  {
    if n in s.apps then Some(s.apps[n]) else None
  }

  /** `getRegisteredApps`: the descriptors in registration order. */
  function RegisteredApps(s: State): (apps: seq<MicroApp>)
    requires Filed(s)
    ensures |apps| == |s.order|
    ensures forall i :: 0 <= i < |apps| ==> apps[i] == s.configs[s.order[i]]
  {
    seq(|s.order|, i requires 0 <= i < |s.order| => s.configs[s.order[i]])
  }

  /** `isAppActive`: a string rule is a prefix of the pathname; a predicate rule is
      whatever the predicate returns for the location (`holds` lists the predicates
      that return true there). */
  predicate IsAppActive(app: MicroApp, loc: Location, holds: set<nat>) {
    match app.activeRule
    case PathPrefix(prefix) => prefix <= loc.pathname
    case Predicate(id) => id in holds
  }

  /** The first descriptor whose rule matches, or none. */
  function FirstMatch(apps: seq<MicroApp>, loc: Location, holds: set<nat>): Option<MicroApp>
  {
    if apps == [] then None
    else if IsAppActive(apps[0], loc, holds) then Some(apps[0])
    else FirstMatch(apps[1..], loc, holds)
  }

  /** `handleRouteChange`: mounts the first match, or unmounts the current
      application when nothing matches. */
  function RouteChange(s: State, loc: Location, holds: set<nat>, env: Env): (r: Step)
    requires WellFormed(s)
    ensures WellFormed(r.state)
    ensures r.state.order == s.order && r.state.configs == s.configs
    ensures r.state.globalHooks == s.globalHooks && r.state.listeners == s.listeners
  {
    var matched := FirstMatch(RegisteredApps(s), loc, holds);
    if matched.Some? then Mount(s, matched.value.name, env)
    else
      match CurrentApp(s)
      case Some(inst) => Unmount(s, inst.name, env)
      case None => Step(s, [], Done)
  }
}

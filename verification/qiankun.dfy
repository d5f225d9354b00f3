/** The public entry points of packages/mini-qiankun/src/qiankun.ts:
    `registerMicroApps` installs the global hooks when given, registers every
    descriptor in list order and adds a `route-change` listener; `start`
    dispatches one `route-change` event, which every listener added so far
    answers with one `handleRouteChange` pass. */
module Qiankun {
  import opened Types
  import opened Lifecycle
  import opened Application

  /** `apps.forEach(registerApp)`. */
  function RegisterAll(s: State, apps: seq<MicroApp>, env: Env): (t: State)
    requires WellFormed(s)
    ensures WellFormed(t)
    ensures t.globalHooks == s.globalHooks && t.current == s.current && t.listeners == s.listeners
    ensures forall k :: k in s.configs ==> k in t.configs && t.configs[k] == s.configs[k]
    ensures forall i :: 0 <= i < |apps| ==> apps[i].name in t.configs
    decreases |apps|
  {
    if apps == [] then s else RegisterAll(Register(s, apps[0], env), apps[1..], env)
  }

  /** The state `registerMicroApps(apps, lifeCycles)` leaves. */
  function Registration(s: State, apps: seq<MicroApp>, lifeCycles: Option<LifeCycles>, env: Env): (t: State)
    requires WellFormed(s)
    ensures WellFormed(t)
  {
    var installed := if lifeCycles.Some? then SetGlobal(s, lifeCycles.value) else s;
    var registered := RegisterAll(installed, apps, env);
    registered.(listeners := registered.listeners + 1)
  }

  /** `k` listeners answering one `route-change` event, one after the other.  A
      listener's rejection is not seen by `start`. */
  function Dispatch(s: State, loc: Location, holds: set<nat>, env: Env, k: nat): (r: Step)
    requires WellFormed(s)
    ensures WellFormed(r.state) && r.out == Done
    ensures r.state.listeners == s.listeners && r.state.order == s.order && r.state.configs == s.configs
    decreases k
  {
    if k == 0 then Step(s, [], Done)
    else
      var first := RouteChange(s, loc, holds, env);
      var rest := Dispatch(first.state, loc, holds, env, k - 1);
      Step(rest.state, first.calls + rest.calls, Done)
  }

  /** What `start()` does: one event, one pass per listener. */
  function Started(s: State, loc: Location, holds: set<nat>, env: Env): (r: Step)
    requires WellFormed(s)
    ensures WellFormed(r.state) && r.out == Done
  {
    Dispatch(s, loc, holds, env, s.listeners)
  }

  method RegisterMicroApps(mgr: ApplicationManager, apps: seq<MicroApp>, lifeCycles: Option<LifeCycles>, env: Env)
    requires mgr.Valid()
    modifies mgr
    ensures mgr.Snapshot() == Registration(old(mgr.Snapshot()), apps, lifeCycles, env) && mgr.trace == old(mgr.trace)
    ensures mgr.Valid()
  {
    if lifeCycles.Some? {
      mgr.SetGlobalLifeCycles(lifeCycles.value);
    }
    ghost var installed := mgr.Snapshot();
    var i := 0;
    while i < |apps|
      invariant 0 <= i <= |apps|
      invariant mgr.Valid() && mgr.trace == old(mgr.trace)
      invariant RegisterAll(mgr.Snapshot(), apps[i..], env) == RegisterAll(installed, apps, env)
    {
      mgr.RegisterApp(apps[i], env);
      assert apps[i..][1..] == apps[i + 1..];
      i := i + 1;
    }
    // `RouterManager.start()` patches the History API; router.ts is not part of this model.
    mgr.StartRouteListener();
  }

  method Start(mgr: ApplicationManager, loc: Location, holds: set<nat>, env: Env)
    requires mgr.Valid()
    modifies mgr
    ensures var r := Started(old(mgr.Snapshot()), loc, holds, env);
      mgr.Snapshot() == r.state && mgr.trace == old(mgr.trace) + r.calls
    ensures mgr.Valid()
  {
    ghost var all := Started(mgr.Snapshot(), loc, holds, env);
    var k := mgr.listeners;
    var i := 0;
    while i < k
      invariant 0 <= i <= k && mgr.Valid() && mgr.listeners == k
      invariant var rest := Dispatch(mgr.Snapshot(), loc, holds, env, k - i);
        rest.state == all.state && mgr.trace + rest.calls == old(mgr.trace) + all.calls
    {
      ghost var before, t0 := mgr.Snapshot(), mgr.trace;
      var ignored := mgr.HandleRouteChange(loc, holds, env);
      ghost var first := RouteChange(before, loc, holds, env);
      AppendAssoc(t0, first.calls, Dispatch(first.state, loc, holds, env, k - i - 1).calls);
      i := i + 1;
    }
  }

  // ---------------------------------------------------------------------------
  // What registration and start guarantee

  /** The descriptors of `apps` that registration files: those whose name is
      neither `known` nor used by an earlier descriptor of the list, in list order. */
  function NewApps(known: set<string>, apps: seq<MicroApp>): seq<MicroApp>
    decreases |apps|
  {
    if apps == [] then []
    else if apps[0].name in known then NewApps(known, apps[1..])
    else [apps[0]] + NewApps(known + {apps[0].name}, apps[1..])
  }

  /** A descriptor is filed exactly when it is the first of its name in the list
      and its name was not registered before. */
  lemma {:induction false} NewAppsAreFirstOccurrences(known: set<string>, apps: seq<MicroApp>, a: MicroApp)
    ensures a in NewApps(known, apps) <==>
      exists i :: 0 <= i < |apps| && apps[i] == a && a.name !in known
        && forall j :: 0 <= j < i ==> apps[j].name != a.name
    decreases |apps|
  {
    if apps != [] {
      var head := apps[0];
      var known' := if head.name in known then known else known + {head.name};
      NewAppsAreFirstOccurrences(known', apps[1..], a);
      if a in NewApps(known, apps) {
        if a == head && head.name !in known {
          assert apps[0] == a;
        } else {
          var i :| 0 <= i < |apps[1..]| && apps[1..][i] == a && a.name !in known'
            && forall j :: 0 <= j < i ==> apps[1..][j].name != a.name;
          assert apps[i + 1] == a;
          forall j | 0 <= j < i + 1 ensures apps[j].name != a.name {
            if j > 0 { assert apps[j] == apps[1..][j - 1]; }
          }
        }
      } else {
        if exists i :: 0 <= i < |apps| && apps[i] == a && a.name !in known && (forall j :: 0 <= j < i ==> apps[j].name != a.name) {
          var i :| 0 <= i < |apps| && apps[i] == a && a.name !in known
            && forall j :: 0 <= j < i ==> apps[j].name != a.name;
          assert i != 0;
          assert apps[1..][i - 1] == a;
          forall j | 0 <= j < i - 1 ensures apps[1..][j].name != a.name {
            assert apps[1..][j] == apps[j + 1];
          }
          assert false;
        }
      }
    }
  }

  /** The names of a list of descriptors, in order. */
  function Names(apps: seq<MicroApp>): (names: seq<string>)
    ensures |names| == |apps| && forall i :: 0 <= i < |apps| ==> names[i] == apps[i].name
  {
    if apps == [] then [] else [apps[0].name] + Names(apps[1..])
  }

  lemma NamesCons(a: MicroApp, rest: seq<MicroApp>)
    ensures Names([a] + rest) == [a.name] + Names(rest)
  {
    assert ([a] + rest)[1..] == rest;
  }

  /** Registering a list appends the names of `NewApps` to the registration order. */
  lemma {:induction false} RegisterAllAppends(s: State, apps: seq<MicroApp>, env: Env)
    requires WellFormed(s)
    ensures RegisterAll(s, apps, env).order == s.order + Names(NewApps(s.configs.Keys, apps))
    decreases |apps|
  {
    if apps == [] {
      assert s.order + [] == s.order;
    } else {
      var s1 := Register(s, apps[0], env);
      RegisterAllAppends(s1, apps[1..], env);
      if apps[0].name !in s.configs {
        var rest := NewApps(s1.configs.Keys, apps[1..]);
        assert s1.configs.Keys == s.configs.Keys + {apps[0].name};
        NamesCons(apps[0], rest);
        AppendAssoc(s.order, [apps[0].name], Names(rest));
      }
    }
  }

  /** Registering a list files each descriptor of `NewApps` under its name. */
  lemma {:induction false} RegisterAllFiles(s: State, apps: seq<MicroApp>, env: Env)
    requires WellFormed(s)
    ensures var t := RegisterAll(s, apps, env);
      forall a :: a in NewApps(s.configs.Keys, apps) ==> a.name in t.configs && t.configs[a.name] == a
    decreases |apps|
  {
    if apps != [] {
      var s1 := Register(s, apps[0], env);
      var t := RegisterAll(s1, apps[1..], env);
      assert RegisterAll(s, apps, env) == t;
      RegisterAllFiles(s1, apps[1..], env);
      if apps[0].name !in s.configs {
        assert s1.configs.Keys == s.configs.Keys + {apps[0].name};
        var rest := NewApps(s1.configs.Keys, apps[1..]);
        assert NewApps(s.configs.Keys, apps) == [apps[0]] + rest;
        RegisterAllKeepsDescriptors(s1, apps[1..], env, apps[0].name);
        forall a | a in [apps[0]] + rest
          ensures a.name in t.configs && t.configs[a.name] == a
        {
          if a !in rest { assert a == apps[0]; }
        }
      } else {
        assert s1 == s;
        assert NewApps(s.configs.Keys, apps) == NewApps(s1.configs.Keys, apps[1..]);
      }
    }
  }

  /** A registered name keeps its descriptor through further registrations. */
  lemma RegisterAllKeepsDescriptors(s: State, apps: seq<MicroApp>, env: Env, n: string)
    requires WellFormed(s) && n in s.configs
    ensures RegisterAll(s, apps, env).configs[n] == s.configs[n]
  {
  }

  /** The descriptors in registration order after registering a list: the old ones,
      then `NewApps` in list order.  Earlier registrations therefore keep priority in
      route matching, and new ones are matched in list order. */
  lemma RegisteredAppsAfterRegisterAll(s: State, apps: seq<MicroApp>, env: Env)
    requires WellFormed(s)
    ensures RegisteredApps(RegisterAll(s, apps, env)) == RegisteredApps(s) + NewApps(s.configs.Keys, apps)
  {
    RegisterAllAppends(s, apps, env);
    RegisterAllFiles(s, apps, env);
    RegisteredAppsExtend(s, RegisterAll(s, apps, env), NewApps(s.configs.Keys, apps));
  }

  /** A state whose order extends another's by the names of `added`, keeping the
      old descriptors and filing the added ones, lists the old descriptors and
      then `added`. */
  lemma RegisteredAppsExtend(s: State, t: State, added: seq<MicroApp>)
    requires Filed(s) && Filed(t)
    requires t.order == s.order + Names(added)
    requires forall k :: k in s.configs ==> k in t.configs && t.configs[k] == s.configs[k]
    requires forall a :: a in added ==> a.name in t.configs && t.configs[a.name] == a
    ensures RegisteredApps(t) == RegisteredApps(s) + added
  {
    var rs, rt := RegisteredApps(s), RegisteredApps(t);
    var names := Names(added);
    assert |rt| == |rs + added|;
    forall i | 0 <= i < |rt|
      ensures rt[i] == (rs + added)[i]
    {
      if i < |s.order| {
        assert t.order[i] == s.order[i] && s.order[i] in s.configs;
      } else {
        var k := i - |s.order|;
        assert t.order[i] == names[k] == added[k].name && added[k] in added;
      }
    }
  }

  /** The first match over a concatenation: the first list decides when it has a
      match, the second list otherwise. */
  lemma {:induction false} FirstMatchAppend(a: seq<MicroApp>, b: seq<MicroApp>, loc: Location, holds: set<nat>)
    ensures FirstMatch(a + b, loc, holds) == if FirstMatch(a, loc, holds).Some? then FirstMatch(a, loc, holds) else FirstMatch(b, loc, holds)
    decreases |a|
  {
    if a != [] {
      assert (a + b)[0] == a[0];
      assert (a + b)[1..] == a[1..] + b;
      FirstMatchAppend(a[1..], b, loc, holds);
    } else {
      assert a + b == b;
    }
  }

  /** After registering a list, route matching first consults the applications
      registered before, and only then the new descriptors in list order. */
  lemma RegistrationPriority(s: State, apps: seq<MicroApp>, env: Env, loc: Location, holds: set<nat>)
    requires WellFormed(s)
    ensures var before := FirstMatch(RegisteredApps(s), loc, holds);
      FirstMatch(RegisteredApps(RegisterAll(s, apps, env)), loc, holds)
        == if before.Some? then before else FirstMatch(NewApps(s.configs.Keys, apps), loc, holds)
  {
    RegisteredAppsAfterRegisterAll(s, apps, env);
    FirstMatchAppend(RegisteredApps(s), NewApps(s.configs.Keys, apps), loc, holds);
  }

  /** `registerMicroApps` replaces the global hooks exactly when a record is given,
      registers every name of the list, and adds one listener. */
  lemma RegistrationEffects(s: State, apps: seq<MicroApp>, lifeCycles: Option<LifeCycles>, env: Env)
    requires WellFormed(s)
    ensures var t := Registration(s, apps, lifeCycles, env);
      && t.globalHooks == (if lifeCycles.Some? then lifeCycles.value else s.globalHooks)
      && t.listeners == s.listeners + 1
      && t.current == s.current
      && forall i :: 0 <= i < |apps| ==> IsRegistered(t, apps[i].name)
  {
  }

  /** With one listener, `start` runs exactly one `handleRouteChange` pass. */
  lemma StartWithOneListener(s: State, loc: Location, holds: set<nat>, env: Env)
    requires WellFormed(s) && s.listeners == 1
    ensures var first := RouteChange(s, loc, holds, env);
      Started(s, loc, holds, env) == Step(first.state, first.calls, Done)
  {
    var first := RouteChange(s, loc, holds, env);
    assert Dispatch(first.state, loc, holds, env, 0) == Step(first.state, [], Done);
    assert first.calls + [] == first.calls;
  }

  /** A host that calls `registerMicroApps` once and then `start` gets exactly one
      activation pass over the registered applications. */
  lemma RegisterOnceThenStart(apps: seq<MicroApp>, lifeCycles: Option<LifeCycles>, env: Env, loc: Location, holds: set<nat>)
    ensures var t := Registration(Initial, apps, lifeCycles, env);
      var first := RouteChange(t, loc, holds, env);
      Started(t, loc, holds, env) == Step(first.state, first.calls, Done)
  {
    RegistrationEffects(Initial, apps, lifeCycles, env);
    StartWithOneListener(Registration(Initial, apps, lifeCycles, env), loc, holds, env);
  }
}

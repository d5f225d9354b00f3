/** Data shapes shared by the loader, the application manager and the public API
    (packages/mini-qiankun/src/types.ts). */
module Types {

  datatype Option<+T> = None | Some(value: T)

  /** The six-value status union of a micro-application instance. */
  datatype Status = NotLoaded | Loading | NotBootstrapped | NotMounted | Mounted | Unmounting

  /** An activation rule: a path prefix, or an opaque predicate over the location.
      A predicate is named by an id; whether it holds at a location is an input
      (the set of ids whose predicate returns true there). */
  datatype ActiveRule = PathPrefix(prefix: string) | Predicate(id: nat)

  /** The registration record `MicroApp`: name, entry URL, container selector, rule. */
  datatype MicroApp = MicroApp(name: string, entry: string, container: string, activeRule: ActiveRule)

  /** A lifecycle record: which of the four optional hooks are present (truthy). */
  datatype LifeCycles = LifeCycles(bootstrap: bool, mount: bool, unmount: bool, update: bool)

  /** The empty record `{}`. */
  const NoHooks := LifeCycles(false, false, false, false)

  /** A host-document element, identified by the selector that resolved to it. */
  datatype Element = Element(selector: string)

  /** The per-application runtime record `MicroAppInstance`. */
  datatype AppInstance = AppInstance(name: string, status: Status, app: Option<LifeCycles>, container: Option<Element>)

  /** The browser location handed to a route change. */
  datatype Location = Location(pathname: string, search: string, hash: string)

  /** The object passed to an application's mount/unmount hook: the descriptor's fields
      with `container` replaced by the bound element. */
  datatype Props = Props(name: string, entry: string, activeRule: ActiveRule, container: Option<Element>)

  function MergeProps(config: MicroApp, container: Option<Element>): (p: Props)
    ensures p.name == config.name && p.entry == config.entry && p.activeRule == config.activeRule
    ensures p.container == container
  {
    Props(config.name, config.entry, config.activeRule, container)
  }

  datatype HookKind = GlobalBootstrap | AppBootstrap | GlobalMount | AppMount | AppUnmount | GlobalUnmount

  /** One awaited hook call, made while processing application `app`.  Global hooks
      receive no argument; application mount/unmount hooks receive `props`. */
  datatype Invocation = Invocation(kind: HookKind, app: string, props: Option<Props>)

  /** What a manager operation throws. */
  datatype Error = AppNotFound(name: string) | ContainerNotFound(selector: string) | HookFailed(kind: HookKind)

  datatype Outcome = Done | Threw(error: Error)

  /** The outside world, as seen by one operation:
      - `resolvable`: selectors for which `document.querySelector` finds an element;
      - `entries`: entry URL -> lifecycle object that fetching the entry and running its
        scripts discovers; an entry absent from the map is one whose fetch or script
        execution rejects;
      - `failing`: (hook kind, application) pairs whose hook rejects when awaited. */
  datatype Env = Env(resolvable: set<string>, entries: map<string, LifeCycles>, failing: set<(HookKind, string)>)

  predicate Fails(env: Env, call: Invocation) {
    (call.kind, call.app) in env.failing
  }

  /** `document.querySelector(selector)`: the element, or null. */
  function Resolve(selector: string, env: Env): (e: Option<Element>)
    ensures e.Some? <==> selector in env.resolvable
    ensures e.Some? ==> e.value.selector == selector
  {
    if selector in env.resolvable then Some(Element(selector)) else None
  }

  /** JavaScript truthiness of a `string | null` value: null and "" are falsy. */
  predicate Truthy(s: Option<string>) {
    s.Some? && s.value != ""
  }
}

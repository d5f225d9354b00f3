# mini-qiankun core in Dafny

This project models the core of mini-qiankun, a small micro-frontend host.
A host page registers *micro-applications*, each with:

- a name;
- an entry URL;
- a container selector;
- an activation rule.

On each `route-change` event the host mounts the first registered application whose rule matches the location. The model covers three parts of the host.

**The application manager** (`ApplicationManager`, packages/mini-qiankun/src/application.ts).

- Each registered application has:
  - a descriptor;
  - an instance, whose status is one of `NOT_LOADED`, `LOADING`, `NOT_BOOTSTRAPPED`, `NOT_MOUNTED`, `MOUNTED` or `UNMOUNTING`.
- The manager also holds:
  - one replaceable record of global hooks;
  - a `currentApp` pointer.
- `Lifecycle` (lifecycle.dfy) states what every manager operation does, as functions from a `State` to a `Step`. A `Step` has three parts:
  - the new state;
  - the hooks awaited, in order;
  - whether the operation returned or threw.
- `Application.ApplicationManager` (application.dfy) is a class with the manager's fields. Every method is proved to leave exactly the state its `Lifecycle` function computes, and to append that function's hook calls to a ghost trace.
- `LifecycleFacts` (lifecycle_facts.dfy) proves what those functions promise:
  - status transitions;
  - hook order;
  - error cases;
  - first-match routing.

**The host API** (packages/mini-qiankun/src/qiankun.ts). `Qiankun` (qiankun.dfy) models two operations and proves:

- `registerMicroApps` installs the global hooks when given and registers each descriptor. The first descriptor of a name wins, and new names take list order, which is their route-matching priority.
- `start` dispatches one `route-change` event, which each installed listener answers with a `handleRouteChange` pass.

**The entry loader** (packages/mini-qiankun/src/loader.ts).

- `Scan` (scan.dfy) writes the loader's case-insensitive, global regular expressions out as matchers. It proves their matches are genuine, ordered and non-overlapping, and that `replace` shortens the text by exactly the number of characters the matches span.
- `Text` (text.dfy) models three operations:
  - `String.prototype.trim`, over ECMAScript white space and line terminators;
  - the `/^\/+/` replacement;
  - the join of a `src`/`href` value onto the public path.
- `Loader` (loader.dfy) models:
  - `extractScripts` and `extractStyles`, as `while (regex.exec(...))` loops proved against list functions;
  - `processTemplate`;
  - `importEntry`, once the entry's HTML is fetched;
  - the loop of `execScripts` and its choice of lifecycle object;
  - `loadMicroApp`.

Everything the manager cannot compute itself is an input, the `Env` of types.dfy:

- which container selectors `document.querySelector` resolves;
- which lifecycle object fetching an entry and running its scripts yields, or that this rejects;
- which hooks reject when awaited.

A function activation rule is an opaque predicate, named by an id. The caller passes the set of ids whose predicate holds at the location.

Several behaviours of the code are modelled as written and stated as lemmas:

- Mounting does not unmount the previously current application, so several applications can be `MOUNTED` at once (`LifecycleFacts.MountKeepsOthersMounted`).
- Mounting with no current application first unmounts the application itself (`LifecycleFacts.MountWithoutCurrentUnmountsItself`).
- The external-script pattern wants `</script>` right after the attribute, so an ordinary `<script src="x"></script>` yields no script at all, for every address `x` without quotes or angle brackets (`Loader.ExternalScriptElementIsLost`).
- A void `<link>` is never collected (`Loader.StylesheetLinksNeedClosingTag`).
- Inline styles are injected as `<link>` addresses (`Loader.InlineStylesInjectedAsLinks`).
- A root-relative address loses its `/` separator after the default public path (`Loader.DefaultPathGluesRootRelative`).
- A `http:` value counts as relative (`Text.JoinUrlPlainHttp`).

## Model

| member | source | states |
|---|---|---|
| Types.MergeProps | packages/mini-qiankun/src/application.ts:196-199 | The props passed to a hook are the descriptor's fields with `container` replaced by the bound element. |
| Types.Resolve | packages/mini-qiankun/src/application.ts:183 | `querySelector` returns an element exactly when the selector resolves, and then the element for that selector. |
| Application.ApplicationManager.constructor | packages/mini-qiankun/src/application.ts:23-47 | The manager starts with no application, an empty global-hook record, no current application and an empty trace. |
| Application.ApplicationManager.SetGlobalLifeCycles | packages/mini-qiankun/src/application.ts:56-58 | The global-hook record is replaced wholesale and nothing else changes. |
| Application.ApplicationManager.RegisterApp | packages/mini-qiankun/src/application.ts:70-81 | The new state is `Lifecycle.Register` of the old one, and no hook runs. |
| Application.ApplicationManager.LoadApp | packages/mini-qiankun/src/application.ts:93-133 | The new state, the hooks awaited and the outcome are those of `Lifecycle.Load`. |
| Application.ApplicationManager.AwaitHooks | packages/mini-qiankun/src/application.ts:141-148 | The present hooks of a plan are awaited in order and recorded. The first rejection stops the run and is returned. |
| Application.ApplicationManager.BootstrapApp | packages/mini-qiankun/src/application.ts:135-156 | The new state, the hooks awaited and the outcome are those of `Lifecycle.Bootstrap`. |
| Application.ApplicationManager.MountApp | packages/mini-qiankun/src/application.ts:158-212 | The new state, the hooks awaited and the outcome are those of `Lifecycle.Mount`, the self-unmount prelude included. |
| Application.ApplicationManager.MountRestApp | packages/mini-qiankun/src/application.ts:163-212 | The new state, the hooks awaited and the outcome are those of `Lifecycle.MountRest`. This covers the throw on an unknown name, and loading then mounting again from `NOT_LOADED`. |
| Application.ApplicationManager.MountLoadedApp | packages/mini-qiankun/src/application.ts:174-211 | The new state, the hooks awaited and the outcome are those of `Lifecycle.MountLoaded`. |
| Application.ApplicationManager.UnmountApp | packages/mini-qiankun/src/application.ts:214-247 | The new state, the hooks awaited and the outcome are those of `Lifecycle.Unmount`. |
| Application.ApplicationManager.GetCurrentApp | packages/mini-qiankun/src/application.ts:249-254 | Returns `Lifecycle.CurrentApp` of the manager's state. |
| Application.ApplicationManager.GetAppInstance | packages/mini-qiankun/src/application.ts:260-262 | Returns the instance filed under the name, if any. |
| Application.ApplicationManager.IsAppRegistered | packages/mini-qiankun/src/application.ts:276-278 | True exactly when a descriptor is filed under the name. |
| Application.ApplicationManager.UnregisterApp | packages/mini-qiankun/src/application.ts:280-287 | The new state and the hooks awaited are those of `Lifecycle.Unregister`. |
| Application.ApplicationManager.StartRouteListener | packages/mini-qiankun/src/application.ts:289-291 | Each call adds one more `route-change` listener and changes nothing else. |
| Application.ApplicationManager.FindMatchedApp | packages/mini-qiankun/src/application.ts:310-320 | The loop returns `Lifecycle.FirstMatch` over the descriptors in registration order. |
| Application.ApplicationManager.HandleRouteChange | packages/mini-qiankun/src/application.ts:293-308 | The new state, the hooks awaited and the outcome are those of `Lifecycle.RouteChange`. |
| Lifecycle.Register | packages/mini-qiankun/src/application.ts:70-81 | A known name leaves the state unchanged. A new name is appended to the registration order, its descriptor is filed, and its instance is `NOT_LOADED` with no lifecycle object. Other instances, the global hooks and the current application are unchanged. |
| Lifecycle.Bootstrap | packages/mini-qiankun/src/application.ts:135-156 | Acts only from `NOT_BOOTSTRAPPED`, and otherwise returns with nothing changed. Success makes the status `NOT_MOUNTED`. A rejected hook is rethrown with the state unchanged. Only the named application is touched. |
| Lifecycle.Load | packages/mini-qiankun/src/application.ts:93-133 | Throws exactly when the name is unknown. A status other than `NOT_LOADED` makes it do nothing. From `NOT_LOADED` the status ends in `LOADING`, `NOT_BOOTSTRAPPED` or `NOT_MOUNTED`, never `NOT_LOADED`. |
| Lifecycle.Unmount | packages/mini-qiankun/src/application.ts:214-247 | Acts only from `MOUNTED`. Success gives `NOT_MOUNTED` and clears the current pointer only when it named this application. A throw leaves the state as it was. |
| Lifecycle.MountLoaded | packages/mini-qiankun/src/application.ts:174-211 | A `MOUNTED` application is left as it is. Success gives `MOUNTED` and makes the application current. A throw keeps the application's status and the current pointer. Only the named application is touched. |
| Lifecycle.Mount | packages/mini-qiankun/src/application.ts:158-212 | Touches no application other than the named one. Success leaves it registered and `MOUNTED`. A throw keeps the current pointer. |
| Lifecycle.MountRest | packages/mini-qiankun/src/application.ts:163-172 | The same guarantees as `Mount`, for the part after the self-unmount. This part throws on an unknown name, and loads and mounts again from `NOT_LOADED`. |
| Lifecycle.Without | packages/mini-qiankun/src/application.ts:285 | Deleting a key from the insertion-ordered map keeps every other name and no other, without duplicates, and changes nothing when the key is absent. |
| Lifecycle.WithoutConcat | packages/mini-qiankun/src/application.ts:285 | Removal distributes over concatenation, so the remaining names keep their relative order. |
| Lifecycle.Unregister | packages/mini-qiankun/src/application.ts:280-287 | Descriptor and instance are deleted together and the name leaves the registration order. Every other name keeps its descriptor and instance. Global hooks and listeners are unchanged. `current` is cleared exactly when it named the application and its unmount ran and succeeded. Otherwise it is unchanged, so it can go on naming the removed application. The operation never throws. |
| Lifecycle.SetGlobal | packages/mini-qiankun/src/application.ts:56-58 | The global hooks become the given record. Nothing else changes. |
| Lifecycle.RunHooks | packages/mini-qiankun/src/application.ts:190-201 | Awaits the planned hooks in order and stops at the first that rejects. Its properties are stated by `LifecycleFacts.RunHooksSpec`. |
| Lifecycle.IsRegistered | packages/mini-qiankun/src/application.ts:276-278 | A name is registered exactly when its descriptor is filed. |
| Lifecycle.GetInstance | packages/mini-qiankun/src/application.ts:260-262 | Some exactly when the name has an instance, and then that instance. |
| Lifecycle.IsAppActive | packages/mini-qiankun/src/application.ts:322-334 | A string rule is active when it is a prefix of the pathname. A function rule is active when it returns true for the location. |
| Lifecycle.FirstMatch | packages/mini-qiankun/src/application.ts:310-320 | The first descriptor in list order whose rule is active. Its properties are stated by `LifecycleFacts.FirstMatchIsFirst`. |
| Lifecycle.CurrentApp | packages/mini-qiankun/src/application.ts:249-254 | Some exactly when the pointer is a non-empty string naming a registered application. The result is that application's instance. |
| Lifecycle.RegisteredApps | packages/mini-qiankun/src/application.ts:272-274 | The descriptors, one per registered name, in registration order. |
| Lifecycle.RouteChange | packages/mini-qiankun/src/application.ts:293-308 | Handling a route change never alters the registration order, the descriptors, the global hooks or the listener count. |
| LifecycleFacts.RegistryAgrees | packages/mini-qiankun/src/application.ts:276-278 | `isAppRegistered` is true exactly when `getAppInstance` finds an instance, and that instance carries the name. |
| LifecycleFacts.UnregisterForgets | packages/mini-qiankun/src/application.ts:280-287 | After unregistering, the name is unknown to both maps and every other name is as registered as before. If the name was current, `getCurrentApp` then returns null. |
| LifecycleFacts.RunHooksSpec | packages/mini-qiankun/src/application.ts:141-148 | The hooks awaited are a prefix of the plan. The run succeeds exactly when it awaits the whole plan and no hook rejects. Otherwise the last hook awaited is the first to reject, and its error is the one reported. |
| LifecycleFacts.BootstrapSteps | packages/mini-qiankun/src/application.ts:135-156 | The global bootstrap is awaited before the application's. Success happens exactly when both resolve, and gives `NOT_MOUNTED`. Failure rethrows with the state unchanged. |
| LifecycleFacts.LoadEndStates | packages/mini-qiankun/src/application.ts:104-132 | From `NOT_LOADED`, loading never throws. The status is `LOADING` exactly when fetching or running the entry fails, and `NOT_BOOTSTRAPPED` exactly when a bootstrap hook rejects. Otherwise it is `NOT_MOUNTED`, with the entry's lifecycle object stored. The container is rebound only when its selector resolves. |
| LifecycleFacts.LoadGuards | packages/mini-qiankun/src/application.ts:94-102 | An unknown name throws with nothing changed. A status other than `NOT_LOADED` returns with nothing changed. |
| LifecycleFacts.LoadFresh | packages/mini-qiankun/src/application.ts:104-129 | When fetching succeeds and no hook rejects, both bootstrap hooks run and the application ends `NOT_MOUNTED` with the entry's lifecycle object. |
| LifecycleFacts.MountLoadedNoContainer | packages/mini-qiankun/src/application.ts:183-186 | An unresolvable container throws before any hook runs, with nothing changed. |
| LifecycleFacts.MountLoadedSteps | packages/mini-qiankun/src/application.ts:183-211 | The global mount is awaited before the application's. The application's mount receives the descriptor with its container overridden. Success happens exactly when both resolve, and makes the application `MOUNTED` and current. Failure keeps its status and the current pointer. |
| LifecycleFacts.MountUnregistered | packages/mini-qiankun/src/application.ts:163-166 | Mounting an unknown name throws from `loadApp` with nothing changed. |
| LifecycleFacts.MountMountedIsNoop | packages/mini-qiankun/src/application.ts:174-176 | With a current application, mounting an application that is already `MOUNTED` changes nothing. |
| LifecycleFacts.MountWithoutCurrentUnmountsItself | packages/mini-qiankun/src/application.ts:159-161 | With no current application, mounting a `MOUNTED` application first runs its own unmount. If that unmount rejects, the mount rethrows with nothing changed. |
| LifecycleFacts.MountKeepsOthersMounted | packages/mini-qiankun/src/application.ts:158-212 | A successful mount of another application leaves a `MOUNTED` application `MOUNTED`, so two can be mounted at once. |
| LifecycleFacts.MountWhenLoaded | packages/mini-qiankun/src/application.ts:169-177 | From any status other than `NOT_LOADED` and `MOUNTED`, mounting goes straight to the binding and hook part. |
| LifecycleFacts.MountWhenNotLoaded | packages/mini-qiankun/src/application.ts:169-172 | A `NOT_LOADED` application is loaded, then mounted again from the state loading left. The hook calls of both happen in order. |
| LifecycleFacts.MountFresh | packages/mini-qiankun/src/application.ts:158-212 | With a fetchable entry, a resolvable container and no rejecting hook, mounting a `NOT_LOADED` application awaits the two bootstrap hooks and then the two mount hooks. It ends `MOUNTED` and current. |
| LifecycleFacts.MountLoadedFresh | packages/mini-qiankun/src/application.ts:188-205 | From `NOT_MOUNTED` with no rejecting hook, both mount hooks run and the application ends `MOUNTED` and current. |
| LifecycleFacts.UnmountSteps | packages/mini-qiankun/src/application.ts:220-246 | The application's unmount is awaited before the global one. Success happens exactly when both resolve, giving `NOT_MOUNTED` and clearing the pointer only when it named this application. Failure restores `MOUNTED` and keeps the pointer. No application is left `UNMOUNTING`. |
| LifecycleFacts.FirstMatchIsFirst | packages/mini-qiankun/src/application.ts:310-320 | The result is a descriptor whose rule is active and which no earlier descriptor precedes with an active rule. There is no result exactly when no rule is active. |
| LifecycleFacts.PathPrefixActive | packages/mini-qiankun/src/application.ts:329-331 | A string rule is active exactly when the pathname starts with it. |
| LifecycleFacts.RouteChangeMountsFirstActive | packages/mini-qiankun/src/application.ts:299-301 | A route change mounts the earliest-registered application whose rule is active. |
| LifecycleFacts.RouteChangeNoMatch | packages/mini-qiankun/src/application.ts:302-307 | With no active rule, a route change unmounts the application `getCurrentApp` returns. When there is none, it does nothing. |
| Qiankun.NewApps | packages/mini-qiankun/src/qiankun.ts:54-56 | The descriptors that registration files, in list order. Its properties are stated by `Qiankun.NewAppsAreFirstOccurrences`. |
| Qiankun.RegisterAll | packages/mini-qiankun/src/qiankun.ts:54-56 | Every name of the list ends up registered. Earlier descriptors, the global hooks and the current pointer are kept. |
| Qiankun.Registration | packages/mini-qiankun/src/qiankun.ts:46-60 | The state `registerMicroApps` leaves is well formed. |
| Qiankun.Dispatch | packages/mini-qiankun/src/application.ts:289-308 | Listeners answering one event never throw to the dispatcher. They keep the registration order, the descriptors and the listener count. |
| Qiankun.Started | packages/mini-qiankun/src/qiankun.ts:76-84 | `start` never throws and leaves a well-formed state. |
| Qiankun.RegisterMicroApps | packages/mini-qiankun/src/qiankun.ts:46-60 | The manager's new state is `Registration` of the old one. No hook runs. |
| Qiankun.Start | packages/mini-qiankun/src/qiankun.ts:76-84 | The manager's new state and the hooks awaited are those of `Started`. |
| Qiankun.NewAppsAreFirstOccurrences | packages/mini-qiankun/src/qiankun.ts:54-56 | A descriptor of the list gets filed exactly when it is the first of its name in the list and its name was not registered before. |
| Qiankun.RegisterAllAppends | packages/mini-qiankun/src/qiankun.ts:54-56 | Registering a list appends the names of the filed descriptors to the registration order, in list order. |
| Qiankun.RegisterAllFiles | packages/mini-qiankun/src/qiankun.ts:54-56 | Each filed descriptor is stored under its name. |
| Qiankun.RegisterAllKeepsDescriptors | packages/mini-qiankun/src/application.ts:71 | A registered name keeps its descriptor through further registrations. |
| Qiankun.RegisteredAppsAfterRegisterAll | packages/mini-qiankun/src/application.ts:272-274 | After registering a list, `getRegisteredApps` lists the old descriptors and then the filed ones in list order. |
| Qiankun.RegisteredAppsExtend | packages/mini-qiankun/src/application.ts:272-274 | Take a state whose order extends another's by new names, keeps the old descriptors and files the new ones. It lists the old descriptors, then the new. |
| Qiankun.FirstMatchAppend | packages/mini-qiankun/src/application.ts:313-319 | Over a concatenation, the first list decides when it has a match, and the second list otherwise. |
| Qiankun.RegistrationPriority | packages/mini-qiankun/src/application.ts:310-320 | After registering a list, route matching consults the applications registered before, and only then the filed descriptors in list order. |
| Qiankun.RegistrationEffects | packages/mini-qiankun/src/qiankun.ts:50-59 | The global hooks are replaced exactly when a record is given. Every name of the list is registered. One listener is added and the current pointer is kept. |
| Qiankun.StartWithOneListener | packages/mini-qiankun/src/qiankun.ts:76-84 | With one listener, `start` is exactly one `handleRouteChange` pass whose error is not seen. |
| Qiankun.RegisterOnceThenStart | packages/mini-qiankun/src/qiankun.ts:76-84 | A host that calls `registerMicroApps` once and then `start` gets exactly one activation pass. |
| Scan.RunEnd | packages/mini-qiankun/src/loader.ts:48 | The end of a `[^>]*`-style run: every character before it lies outside the stop set, and the character at it lies inside. |
| Scan.Find | packages/mini-qiankun/src/loader.ts:106 | The first index at or after a position where a literal stands, ignoring ASCII case, or none. |
| Scan.AttrRest | packages/mini-qiankun/src/loader.ts:48 | What follows `attr=` makes a match inside the text. Its capture is non-empty and quote-free. |
| Scan.AttrFrom | packages/mini-qiankun/src/loader.ts:48 | The greedy candidate scan yields a match inside the text. Its capture is non-empty and quote-free. |
| Scan.AttrFromFinds | packages/mini-qiankun/src/loader.ts:48 | A match of the greedy scan comes from some candidate start within range. |
| Scan.MatchAt | packages/mini-qiankun/src/loader.ts:48-49 | A match at a position lies inside the text. An inline body holds no `<`. An attribute value is non-empty and holds no quote. |
| Scan.HasStylesheetRel | packages/mini-qiankun/src/loader.ts:107 | True exactly when a `rel="stylesheet"` lies wholly within the tag. |
| Scan.AllMatches | packages/mini-qiankun/src/loader.ts:53 | The matches the `exec` loop sees from `lastIndex` on, each scan resuming at the end of the previous match. Their properties are stated by `Scan.AllMatchesGenuine` and `Scan.AllMatchesOrdered`. |
| Scan.Exec | packages/mini-qiankun/src/loader.ts:53 | `exec` returns a match at the earliest position at or after `lastIndex` where the pattern matches, and none when there is none. |
| Scan.AllMatchesGenuine | packages/mini-qiankun/src/loader.ts:53 | Every match an `exec` loop sees is a genuine match of the pattern, at or after where the scan began. |
| Scan.InlineCaptureHasNoTag | packages/mini-qiankun/src/loader.ts:49 | A body captured by an inline pattern holds no `<`. |
| Scan.AllMatchesOrdered | packages/mini-qiankun/src/loader.ts:53 | The matches of an `exec` loop come in document order and do not overlap. |
| Scan.Opening | packages/mini-qiankun/src/loader.ts:106-108 | Every pattern opens with a literal starting with `<`. |
| Scan.MatchAtOpens | packages/mini-qiankun/src/loader.ts:106-108 | A match starts with its pattern's opening literal, and so with a `<`. |
| Scan.ExecWithoutOpening | packages/mini-qiankun/src/loader.ts:53 | Text in which the opening literal stands nowhere holds no match. |
| Scan.ExecOnlyAtStart | packages/mini-qiankun/src/loader.ts:53 | When the opening literal stands only at the start, the first match is the one there, if any. |
| Scan.RemoveAll | packages/mini-qiankun/src/loader.ts:106 | `replace(regex, '')` never lengthens the text, and it returns the text unchanged when nothing matches. |
| Scan.RemoveAllDropsMatches | packages/mini-qiankun/src/loader.ts:106-108 | `replace` removes exactly as many characters as the matches of the scan span. |
| Scan.RemoveAllPlainText | packages/mini-qiankun/src/loader.ts:106-108 | `replace` returns text without `<` unchanged. |
| Scan.AttrMatchNeedsClose | packages/mini-qiankun/src/loader.ts:48 | A match of a `src`/`href` pattern needs the closing `</tag` after its start. |
| Scan.NoCloseNoAttrMatches | packages/mini-qiankun/src/loader.ts:68 | Text without the closing `</tag` holds no `src`/`href` match. |
| Text.SkipWhiteSpace | packages/mini-qiankun/src/loader.ts:59 | The first index at or after a position that does not hold white space. |
| Text.BackWhiteSpace | packages/mini-qiankun/src/loader.ts:59 | The start of the white-space run that ends the text. |
| Text.Trim | packages/mini-qiankun/src/loader.ts:59 | The result is the input with white space padding removed. It has no white space at either end, and is empty exactly when the input is all white space. |
| Text.TrimWithin | packages/mini-qiankun/src/loader.ts:59 | Trimming keeps characters of the input only. |
| Text.TrimKeepsTrimmed | packages/mini-qiankun/src/loader.ts:59 | A string with no white space at its ends is its own trim. |
| Text.TrimIdempotent | packages/mini-qiankun/src/loader.ts:59 | Trimming twice is trimming once. |
| Text.TrimmedUnique | packages/mini-qiankun/src/loader.ts:59 | A string has one trim only. |
| Text.TrimIgnoresPadding | packages/mini-qiankun/src/loader.ts:81 | Padding a string with white space on either side does not change its trim. |
| Text.StripLeadingSlashes | packages/mini-qiankun/src/loader.ts:55 | `replace(/^\/+/, '')` drops a prefix made only of `/`. Its result does not start with `/`. |
| Text.JoinUrl | packages/mini-qiankun/src/loader.ts:55 | A value starting with `https` is kept verbatim. Any other value has its leading `/` dropped and is appended to the public path with no separator added. |
| Text.JoinUrlPlainHttp | packages/mini-qiankun/src/loader.ts:76 | An absolute `http:` address is appended to the public path like a relative one. |
| Text.JoinUrlDropsSeparator | packages/mini-qiankun/src/loader.ts:55 | A root-relative value is glued to the public path without its `/`. |
| Loader.Urls | packages/mini-qiankun/src/loader.ts:53-57 | One joined address per match, in match order. |
| Loader.ScriptsOf | packages/mini-qiankun/src/loader.ts:47-65 | The `src` addresses followed by the inline bodies. Its shape is stated by `Loader.ScriptsOfLayout`. |
| Loader.StylesOf | packages/mini-qiankun/src/loader.ts:67-87 | The `href` addresses followed by the inline style bodies. Its shape is stated by `Loader.StylesOfLayout`. |
| Loader.Bodies | packages/mini-qiankun/src/loader.ts:58-63 | Each element is the trim of some captured body and is non-empty with no white space at its ends. Every body that is not all white space contributes its trim. |
| Loader.BodiesOne | packages/mini-qiankun/src/loader.ts:59-62 | One match contributes its trimmed body, or nothing when that is empty. |
| Loader.BodiesConcat | packages/mini-qiankun/src/loader.ts:58-63 | Bodies of a concatenation are the bodies of each part, in order, so bodies come in match order. |
| Loader.CollectUrls | packages/mini-qiankun/src/loader.ts:52-57 | The `exec` loop appends exactly the joined addresses of all matches, in order. |
| Loader.CollectBodies | packages/mini-qiankun/src/loader.ts:58-63 | The `exec` loop appends exactly the non-empty trimmed bodies of all matches, in order. |
| Loader.UrlsStep | packages/mini-qiankun/src/loader.ts:53-56 | One `exec` step contributes the match's joined address ahead of the rest of the scan. |
| Loader.BodiesStep | packages/mini-qiankun/src/loader.ts:58-62 | One `exec` step contributes the match's trimmed body, unless empty, ahead of the rest of the scan. |
| Loader.ExtractScripts | packages/mini-qiankun/src/loader.ts:47-65 | The script list is the addresses of the `src` matches followed by the inline bodies. |
| Loader.ExtractStyles | packages/mini-qiankun/src/loader.ts:67-87 | The style list is the addresses of the `href` matches followed by the inline style bodies. |
| Loader.StylesOfLayout | packages/mini-qiankun/src/loader.ts:67-87 | Every `href` address comes first, in document order. Every later entry is a trimmed non-empty inline style body. |
| Loader.ScriptsOfLayout | packages/mini-qiankun/src/loader.ts:47-65 | Every `src` address comes first, in document order. Every later entry is a trimmed non-empty inline body. |
| Loader.InlineScriptsKept | packages/mini-qiankun/src/loader.ts:58-63 | An inline script contributes its trimmed body exactly when that body is not all white space. |
| Loader.InlineBodiesHaveNoTag | packages/mini-qiankun/src/loader.ts:49 | No collected inline body holds a `<`. |
| Loader.NoScriptElementNoScripts | packages/mini-qiankun/src/loader.ts:47-65 | HTML without `<script`, in any case, yields no scripts. |
| Loader.ExternalScriptElementIsLost | packages/mini-qiankun/src/loader.ts:48-63 | For every address `x` with no quote and no `<` or `>`, `<script src="x"></script>` yields an empty script list. |
| Loader.StylesheetLinksNeedClosingTag | packages/mini-qiankun/src/loader.ts:68-78 | HTML without `</link` yields only the inline style bodies, and no stylesheet address. |
| Loader.ProcessTemplate | packages/mini-qiankun/src/loader.ts:104-109 | The processed template is never longer than its input. |
| Loader.ProcessTemplateRemovesMatches | packages/mini-qiankun/src/loader.ts:104-109 | The output length is the input length minus the text of the script-block matches, the stylesheet-link matches and the style-block matches of the three passes. |
| Loader.ProcessTemplateWithoutMatches | packages/mini-qiankun/src/loader.ts:104-109 | A template in which none of the three patterns matches comes back unchanged. |
| Loader.ProcessTemplateKeepsPlainText | packages/mini-qiankun/src/loader.ts:104-109 | A template without `<` comes back unchanged. |
| Loader.InjectedAs | packages/mini-qiankun/src/loader.ts:89-102 | A style entry is appended as the text node of a `<style>` element (its `firstChild`) exactly when it starts with `<style>`, and as a stylesheet `<link>` otherwise. |
| Loader.InlineStylesInjectedAsLinks | packages/mini-qiankun/src/loader.ts:80-102 | Every inline style body in the styles list is injected as a `<link>` whose address is the body. |
| Loader.ActionOf | packages/mini-qiankun/src/loader.ts:115-121 | A script is fetched and run exactly when it starts with `http`, and is run inline otherwise. |
| Loader.ExecScripts | packages/mini-qiankun/src/loader.ts:114-122 | One action per script, in list order. Each is a fetch exactly when the script starts with `http`, and carries the script itself. |
| Loader.ExternalScriptsFetched | packages/mini-qiankun/src/loader.ts:55 | A `src` address is fetched exactly when the value starts with `https`, or when the public path joined to it starts with `http`. |
| Loader.DefaultPublicPath | packages/mini-qiankun/src/loader.ts:42-45 | The default public path is two characters longer than protocol and host together, and ends in the host's last character: no trailing `/` is added. |
| Loader.ImportEntry | packages/mini-qiankun/src/loader.ts:16-40 | The asset path is what `getPublicPath` returns for the entry, or the default one without it. Scripts and styles are those extracted from the fetched HTML with that path. The template is the processed HTML (no longer than it) without `getTemplate`, and the processed output of `getTemplate` with it. |
| Loader.ImportEntryAssetsIgnoreTemplateHook | packages/mini-qiankun/src/loader.ts:27-31 | Scripts, styles and asset path do not depend on `getTemplate`. |
| Loader.DefaultPathGluesRootRelative | packages/mini-qiankun/src/loader.ts:44 | With the default public path, `/main.js` is glued to the host with no `/` between. |
| Loader.Lookup | packages/mini-qiankun/src/loader.ts:128-131 | A defined window property is one of the listed (key, value) pairs. An absent key reads `undefined`. A present key reads the value of its first listing. |
| Loader.SelectLifecycles | packages/mini-qiankun/src/loader.ts:126-145 | A truthy `VueApp` wins. Otherwise a truthy `ReactApp` wins. Otherwise the result is the first new property, in `for...in` order, whose value is an object with a truthy `bootstrap`, `mount` or `unmount`. When there is none, the result is `{}`. |
| Loader.LoadMicro | packages/mini-qiankun/src/loader.ts:11-14 | `registerApp` followed by `loadApp` leaves a well-formed state. |
| Loader.LoadMicroApp | packages/mini-qiankun/src/loader.ts:11-14 | The manager's new state and the hooks awaited are those of `LoadMicro`. |
| Loader.LoadMicroNeverThrows | packages/mini-qiankun/src/loader.ts:11-14 | `loadMicroApp` never rejects. Afterwards the name is registered and not `NOT_LOADED`. A name registered before keeps its old descriptor. |

## Left out

- packages/mini-qiankun/src/router.ts is not part of this model. It wraps the History API and dispatches an event the manager does not listen to. Only `start` drives activation.
- DOM writes are not modelled: the `innerHTML` of the container, the elements `injectStyles` appends, and `executeScript`. `Loader.InjectedAs` states only which node each style entry becomes: the text node of a `<style>` element, or a stylesheet `<link>`.
- Fetching, script execution and the window snapshot are not modelled; the `Env` input stands for them. It maps each entry URL to the lifecycle object obtained, or marks the entry as rejecting. `Loader.SelectLifecycles` models the selection over an abstract set of keys before execution and a list of (key, value) pairs after it, in `for...in` order.
- `new URL(entry)` is not modelled. `Loader.DefaultPublicPath` takes the parsed protocol and host as input.
- `getTemplate` and `getPublicPath` are opaque functions. `Loader.ImportEntry` takes the fetched HTML as an input instead of fetching it, and `injectStyles` is left to `Loader.InjectedAs`.
- Asynchrony is not modelled. Each manager method runs to completion as one sequential step, with hook outcomes taken from `Env`.
  - The un-awaited `unmountApp` in `unregisterApp` is taken to complete before the deletions, with its error swallowed.
  - Re-entrant calls while a hook is pending are not modelled.
  - The transient `UNMOUNTING` status appears only inside `Application.ApplicationManager.UnmountApp`.
- Function activation rules are opaque predicates. The caller says which hold at the location.
- Console logging is not modelled. The `update` hook is never called by the code and is only carried in the hook record.
- The "config not found" throws at application.ts:108-110 and :178-181 cannot happen: descriptors and instances are filed and deleted together. The model keeps that as an invariant instead of modelling the dead branches.
- `getAllApps` and `getAllAppConfigs` hand out the manager's maps. The model exposes them as `Application.ApplicationManager.Snapshot`.
- Loader.ProcessTemplate: its own contract gives only the length bound. What is removed is stated by `Loader.ProcessTemplateRemovesMatches`, `Loader.ProcessTemplateWithoutMatches` and `Loader.ProcessTemplateKeepsPlainText`, not as a closed formula for the result.
- `document.querySelector` throws a `SyntaxError` for a selector that is not valid CSS. The model lets every selector either resolve or not, so it leaves these paths out. In `registerApp` (application.ts:78) the throw comes after the descriptor is filed: the application is left without an instance, and the `forEach` of `registerMicroApps` stops. In `loadApp` (application.ts:113) the throw is caught, and the application stays `LOADING`. In `mountApp` (application.ts:183) it propagates.
- The regular expressions fold ASCII case only. Full Unicode case folding does not arise for these non-unicode patterns.

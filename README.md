# Acorn application lifecycle and lazy binding table, in Dafny

This project models two traits of Acorn, the WordPress bootstrap of the
Laravel container:

- **`src/Acorn/Concerns/Application.php`**: the service-provider registry and boot sequencer.
  - `register` is idempotent unless forced. It calls the provider's `register()`, binds its `bindings` and `singletons` keys, appends the provider and marks its class as loaded. If the application has already booted, it boots the new provider at once.
  - `boot` runs once. It fires the booting callbacks, boots every provider in registration order, sets the flag, then fires the booted callbacks.
  - `booting`/`booted` queue callbacks. `booted` also fires its callback at once after boot.
  - Deferred loading removes a service from the deferred map, registers its provider and, before boot, queues a callback that boots it.
  - The trait also holds the path helpers and `registerConfiguredProviders`. As written, that method chains `splice` into the assignment, so it hands the provider repository the empty slice that `splice` returns (see Findings). The model keeps that behaviour and, beside it, the order the method evidently means: framework providers, then package providers, then the rest.
- **`src/Acorn/Concerns/Bindings.php`**: the lazy binding table.
  - `registerContainerBindings` evaluates an array literal of `binder method => abstracts` and points every abstract at its binder.
  - `makeWithBinding` runs the binder of an abstract the first time it is asked for, and never again.

## How it is modelled

- **Modules:**
  - `Paths` holds the pure path helpers.
  - `Providers` holds the provider values, and the functions that say what a boot step, a round of callbacks and a boot pass contribute to the trace.
  - `Lifecycle` holds the class `Application`.
  - `Bindings` holds the table and the class `ContainerBindings`.
- **Providers and callbacks:**
  - A provider instance is a `ServiceProvider` object, so `new $provider($this)` creates a fresh object and identity is kept.
  - A provider class is a `ProviderClass` value. It holds the class name, whether the class has `boot` and `preflight` methods, and the keys of its `bindings` and `singletons` properties.
  - A callback is an opaque `Listener` token, or the closure queued by `registerDeferredProvider`, which boots one instance.
- **The trace:** every call into provider or callback code is recorded in a `trace` of events, together with the point where `booted` flips. Ordering and one-shot properties are stated over it.
- **`Application.Valid()`:**
  - `loadedProviders` is exactly the set of registered class names.
  - The flag flipped at most once.
  - Before boot, only `register()` calls appear in the trace.
  - After boot, every registered provider's boot step is in the trace.
- **The binding table:**
  - Binder methods are the enum `Binder`. Abstracts are a service key, a class, or a class named without a leading backslash and so resolved relative to the file's namespace.
  - PHP keys the table by string. The model keys it by abstract and works on canonical abstracts only: a key is canonical when no class has that name. Every string has a canonical abstract with that name (`Bindings.Parse`). Every abstract in the literal and in the binders is canonical. `makeWithBinding` is asked only for canonical abstracts.
  - The array literal is evaluated as PHP does: a repeated key keeps its first position and its last value. The literal repeats `registerValidatorBindings`, so the `'validator'` key never becomes available. The Validation Factory contract leads to the Validator binder, which binds only `'validator'`.
  - `registerBroadcastingBindings` names its contracts without a leading backslash, so it binds `Roots\Acorn\Concerns\Illuminate\Contracts\Broadcasting\...` and not the contracts that lead to it.
- **Consequences proved for a fresh application:**
  - A deferred provider loaded before `boot()` is booted twice by `boot()`: once by its queued booting callback, and again by the walk over all providers. This holds for any booting list and provider list (`Lifecycle.BootTraceBootsTwice`); `Lifecycle.DeferredProviderBootsTwice` plays it out on a fresh application.
  - Registering a class twice without force keeps one instance; with force there are two.

## Model

| member | source | states |
|---|---|---|
| Paths.BasePath | src/Acorn/Concerns/Application.php:71-74 | an empty suffix gives the base path unchanged; a truthy suffix gives base + separator + suffix; the base is always a prefix |
| Paths.BootstrapPath | src/Acorn/Concerns/Application.php:86-89 | for every suffix, the path is basePath('bootstrap') followed by the optional-suffix expression, so a "0" suffix is appended with no separator; for an empty or truthy suffix, basePath('bootstrap') or basePath of `bootstrap` + separator + suffix |
| Paths.ConfigPath | src/Acorn/Concerns/Application.php:101-104 | for every suffix, the path is basePath('config') followed by the optional-suffix expression, so a "0" suffix is appended with no separator; for an empty or truthy suffix, basePath('config') or basePath of `config` + separator + suffix |
| Paths.ResourcePath | src/Acorn/Concerns/Application.php:146-149 | for every suffix, the path is basePath('resources') followed by the optional-suffix expression, so a "0" suffix is appended with no separator; for an empty or truthy suffix, basePath('resources') or basePath of `resources` + separator + suffix |
| Paths.DatabasePath | src/Acorn/Concerns/Application.php:116-120 | for every suffix, the path is the truthy override or else basePath('database'), followed by the optional-suffix expression; for an empty or truthy suffix the four cases are spelled out |
| Paths.EnvironmentPath | src/Acorn/Concerns/Application.php:131-134 | a truthy override wins; otherwise it is the base path |
| Paths.StoragePath | src/Acorn/Concerns/Application.php:160-163 | a truthy override wins; otherwise basePath('storage') |
| Paths.EnvironmentFile | src/Acorn/Concerns/Application.php:529-532 | a truthy override wins; otherwise `.env`; the result is never falsy |
| Paths.EnvironmentFilePath | src/Acorn/Concerns/Application.php:543-546 | environmentPath + separator + environmentFile; basePath('.env') with no overrides; it starts with the environment override when one is set |
| Paths.CachedConfigPath | src/Acorn/Concerns/Application.php:557-560 | `APP_CONFIG_CACHE` when the environment has it, else bootstrapPath() + `/cache/config.php` |
| Paths.CachedServicesPath | src/Acorn/Concerns/Application.php:571-574 | `APP_SERVICES_CACHE` when present, else bootstrapPath() + `/cache/services.php` |
| Paths.CachedPackagesPath | src/Acorn/Concerns/Application.php:585-588 | `APP_PACKAGES_CACHE` when present, else bootstrapPath() + `/cache/packages.php` |
| Paths.CachedRoutesPath | src/Acorn/Concerns/Application.php:599-602 | `APP_ROUTES_CACHE` when present, else bootstrapPath() + `/cache/routes.php` |
| Paths.BasePathZeroSuffix | src/Acorn/Concerns/Application.php:73 | a suffix of "0" is falsy to PHP, so it is appended with no separator |
| Paths.BasePathSplits | src/Acorn/Concerns/Application.php:73 | with a truthy suffix, the base reads back off the front and the suffix off the back |
| Providers.BootEvents | src/Acorn/Concerns/Application.php:392-401 | a provider is booted iff its class has `boot`, and preflighted iff the setting is on and the class has `preflight`; there are at most two events, and boot comes first; nothing else happens |
| Providers.FireAllIsBootWork | src/Acorn/Concerns/Application.php:461-466 | firing callbacks never registers a provider and never flips the booted flag |
| Providers.BootAllIsBootWork | src/Acorn/Concerns/Application.php:373-375 | the boot walk only boots and preflights providers |
| Providers.BootAllAppend | src/Acorn/Concerns/Application.php:373-375 | booting `a + b` boots all of `a`, then all of `b` |
| Providers.BootAllOrder | src/Acorn/Concerns/Application.php:373-375 | the i-th provider's boot step comes after those of all earlier providers and before those of all later ones |
| Providers.BootAllCovers | src/Acorn/Concerns/Application.php:373-375 | every event of every listed provider's boot step occurs in the boot walk |
| Providers.FireAllCovers | src/Acorn/Concerns/Application.php:461-466 | every event of every listed callback's step occurs when the list is fired |
| Providers.BootedTwiceByBoot | src/Acorn/Concerns/Application.php:314-318 | a provider that is both queued by its booting callback and registered is booted at least twice by the callbacks and the walk together |
| Providers.ProvidersOf | src/Acorn/Concerns/Application.php:675-682 | the result is exactly the registered instances of the class, drawn from the list; it is empty iff no instance of the class is registered |
| Providers.ProvidersOfAppend | src/Acorn/Concerns/Application.php:675-682 | the instances of a class found in `a + b` are those found in `a`, in order, then those found in `b`; with the membership clauses this fixes the result as the filtered list |
| Providers.ProvidersOfHead | src/Acorn/Concerns/Application.php:660-663 | the first match is the earliest registered instance of the class |
| Providers.FirstProvider | src/Acorn/Concerns/Application.php:660-663 | a provider is found iff its class is registered, and it is a registered instance of that class |
| Providers.FirstProviderIsEarliest | src/Acorn/Concerns/Application.php:660-663 | the provider found is the earliest registered instance of that class |
| Providers.Partition | src/Acorn/Concerns/Application.php:228-231 | each half holds only names that pass (or fail) the `Illuminate\` / `Roots\` prefix test |
| Providers.PartitionAppend | src/Acorn/Concerns/Application.php:228-231 | partitioning `a + b` partitions `a`, then `b`: each half keeps the configured order |
| Providers.PartitionSplits | src/Acorn/Concerns/Application.php:228-231 | the two halves together are a permutation of the configured providers |
| Providers.SpliceKeepsEverything | src/Acorn/Concerns/Application.php:232-234 | `splice` loses nothing: the slice it returns and the items it keeps together hold the old items and the replacement |
| Providers.SpliceBetween | src/Acorn/Concerns/Application.php:232-234 | `splice(1, 0, [x])` on the pair of halves returns an empty slice and keeps the halves with `x` between them |
| Providers.CollapseThree | src/Acorn/Concerns/Application.php:237 | collapsing three lists concatenates them in order |
| Providers.AsWrittenLoadsNothing | src/Acorn/Concerns/Application.php:228-237 | as written, the list handed to the provider repository is empty for every configuration |
| Providers.AsWrittenDropsProviders | src/Acorn/Concerns/Application.php:228-237 | whenever any provider is configured or discovered, the list as written differs from the intended order |
| Providers.AsWrittenExample | src/Acorn/Concerns/Application.php:228-237 | with one framework provider and one package provider, the list as written is empty while the intended list holds both, framework first |
| Providers.ConfiguredProviderOrder | src/Acorn/Concerns/Application.php:228-237 | the intended list, collapsed from the collection `splice` keeps, is a permutation of the configured and package providers |
| Providers.ConfiguredProviderOrderGroups | src/Acorn/Concerns/Application.php:228-237 | the intended list is exactly the framework half of the partition, then the package providers in manifest order, then the other half; each half keeps the configured order (`Providers.PartitionAppend`) |
| Lifecycle.RegisterKeeps | src/Acorn/Concerns/Application.php:251-291 | a fresh registration keeps the lifecycle invariant, and after boot the new provider's boot step is in the trace |
| Lifecycle.BootTraceBootsTwice | src/Acorn/Concerns/Application.php:314-380 | in the trace boot() appends, a provider both queued by a booting callback and registered is booted at least twice |
| Lifecycle.BootEstablishes | src/Acorn/Concerns/Application.php:362-380 | the trace of a first boot sets the flag exactly once, and every registered provider's boot step is in it |
| Lifecycle.NamesAppend | src/Acorn/Concerns/Application.php:347-351 | marking a provider as registered adds its class name and nothing else |
| Lifecycle.Application.constructor | src/Acorn/Concerns/Application.php:19-44 | not booted, not bootstrapped, no callbacks, no providers, nothing loaded, nothing bound; the deferred services and paths are as given |
| Lifecycle.Application.IsBooted | src/Acorn/Concerns/Application.php:446-449 | the flag is true iff the booted point is in the trace; before boot only `register()` calls have run |
| Lifecycle.Application.BootstrapWith | src/Acorn/Concerns/Application.php:478-489 | sets `hasBeenBootstrapped` |
| Lifecycle.Application.LoadEnvironmentFrom | src/Acorn/Concerns/Application.php:755-760 | records the file name; a truthy one becomes the last segment of environmentFilePath() |
| Lifecycle.Application.BindKeys | src/Acorn/Concerns/Application.php:269-279 | the bound keys grow by exactly the keys of the property |
| Lifecycle.Application.MarkAsRegistered | src/Acorn/Concerns/Application.php:347-351 | appends the provider and marks its class loaded |
| Lifecycle.Application.BootProvider | src/Acorn/Concerns/Application.php:392-401 | the trace grows by the provider's boot step |
| Lifecycle.Application.FireAppCallbacks | src/Acorn/Concerns/Application.php:461-466 | the trace grows by every callback's effect, in list order |
| Lifecycle.Application.FireCallback | src/Acorn/Concerns/Application.php:464 | the trace grows by one callback's effect |
| Lifecycle.Application.Register | src/Acorn/Concerns/Application.php:251-291 | without force, an already registered class returns its earliest instance and nothing changes; otherwise exactly one provider is appended, its class marked loaded, its keys bound, its `register()` called, and it is booted iff the application has booted; the invariant holds |
| Lifecycle.Application.RegisterInstance | src/Acorn/Concerns/Application.php:264-288 | the instance's `register()` runs, its keys are bound, it is appended, and it is booted iff the application has booted; the invariant holds |
| Lifecycle.Application.Booting | src/Acorn/Concerns/Application.php:413-416 | only appends the callback |
| Lifecycle.Application.Booted | src/Acorn/Concerns/Application.php:428-435 | appends the callback, and fires it iff the application has booted |
| Lifecycle.Application.BootProviders | src/Acorn/Concerns/Application.php:373-375 | the trace grows by every provider's boot step, in registration order |
| Lifecycle.Application.Boot | src/Acorn/Concerns/Application.php:362-380 | a second call changes nothing; a first call fires the booting callbacks, boots every provider in order, sets the flag, then fires the booted callbacks; afterwards the invariant holds with the flag set |
| Lifecycle.Application.RegisterDeferredProvider | src/Acorn/Concerns/Application.php:304-320 | a truthy service is removed from the deferred map; a fresh instance is registered unless its class is loaded; before boot a callback that boots that instance is queued |
| Lifecycle.Application.LoadDeferredProvider | src/Acorn/Concerns/Application.php:729-743 | it registers nothing and changes nothing exactly when the service is not deferred or its class is already loaded; otherwise a truthy service is removed and one fresh provider of the service's class is registered; in both cases the service's class ends loaded and the providers, loaded classes, trace, booting callbacks and bound keys grow by exactly what registering the returned providers adds; paths, flags and booted callbacks are kept |
| Lifecycle.Application.LoadDeferredProviders | src/Acorn/Concerns/Application.php:707-717 | the loaded classes grow by exactly the deferred classes; the new providers are fresh instances of deferred classes, appended after the old ones; their class names are exactly the deferred classes that were not loaded before, one provider per class (no two share a class); the trace, the booting callbacks and the bound keys grow by exactly what registering those providers adds; the deferred map ends empty; paths, flags and booted callbacks are kept |
| Lifecycle.Application.LoadAll | src/Acorn/Concerns/Application.php:712-714 | after the foreach over every deferred service, `LoadingFrom` holds with no service left to visit, and the added providers are fresh |
| Lifecycle.Application.LoadNext | src/Acorn/Concerns/Application.php:712-714 | one iteration of the walk keeps the walk invariant `LoadingFrom`, with one more service visited and any provider it registers (fresh) added at the end |
| Lifecycle.NewClassesStep | src/Acorn/Concerns/Application.php:739-741 | a provider loadDeferredProvider registers is of a class loaded neither at the start nor by any earlier step, so the walk never registers a class twice |
| Lifecycle.WalkDone | src/Acorn/Concerns/Application.php:707-717 | once every service is visited, the loaded classes are the old ones plus every deferred class, and the registered providers' classes are exactly the deferred classes not loaded at the start |
| Lifecycle.OnlyNewNames | src/Acorn/Concerns/Application.php:739-741 | if the walk's registrations and the deferred classes both account for the newly loaded names, and no registered class was loaded before, the registered classes are the deferred ones minus the old ones |
| Lifecycle.RegisteredOne | src/Acorn/Concerns/Application.php:304-320 | registering one provider adds its register step to the trace, one boot callback, its binding and singleton keys, and its class name |
| Lifecycle.LoadingStep | src/Acorn/Concerns/Application.php:712-714 | loading one unvisited service, as loadDeferredProvider does it, keeps `LoadingFrom` with that service visited and its provider appended |
| Lifecycle.VisitedStep | src/Acorn/Concerns/Application.php:712-714 | after loading an unvisited service the other unvisited services are still deferred with their classes, its class is loaded, and only deferred classes were loaded |
| Lifecycle.AccountedStep | src/Acorn/Concerns/Application.php:712-714 | after loading an unvisited service the providers, trace, booting callbacks and bound keys are accounted for by the registered providers with the new one appended, all of deferred classes |
| Lifecycle.RegisterTraceAppend | src/Acorn/Concerns/Application.php:264-288 | registering `a` then `b` produces the trace of registering `a + b` |
| Lifecycle.BootCallbacksAppend | src/Acorn/Concerns/Application.php:313-317 | queueing the boot callbacks of `a` then of `b` queues those of `a + b` |
| Lifecycle.ProviderKeysAppend | src/Acorn/Concerns/Application.php:269-279 | the keys bound by registering `a + b` are those of `a` together with those of `b` |
| Lifecycle.AppendedAfter | src/Acorn/Concerns/Application.php:712-714 | the two append laws hold after an existing trace and callback queue |
| Lifecycle.BootedTwiceCount | src/Acorn/Concerns/Application.php:316-318 | registering one deferred provider before boot traces its `register()` and queues its boot; the trace boot() then produces holds its boot twice |
| Lifecycle.DeferredProviderBootsTwice | src/Acorn/Concerns/Application.php:304-320 | a deferred provider loaded before boot() is booted twice by boot() |
| Lifecycle.RegisterTwice | src/Acorn/Concerns/Application.php:253-255 | registering a class twice without force gives back the same instance and registers it once |
| Lifecycle.RegisterForced | src/Acorn/Concerns/Application.php:253-262 | with force, a second distinct instance is registered |
| Bindings.Parse | src/Acorn/Concerns/Bindings.php:64-68 | every string key has a canonical abstract whose PHP name is that string |
| Bindings.ClassStringHasSeparator | src/Acorn/Concerns/Bindings.php:29-49 | every class name, resolved relative to the namespace or not, holds a namespace separator |
| Bindings.PlainKeyCanonical | src/Acorn/Concerns/Bindings.php:29-49 | a key without a namespace separator names no class, so it is canonical |
| Bindings.TableEntry | src/Acorn/Concerns/Bindings.php:28-49 | the literal's entries as written; exactly entries 18 and 19 name the Validator binder |
| Bindings.TableIsCanonical | src/Acorn/Concerns/Bindings.php:28-49 | every abstract the literal lists is canonical |
| Bindings.SingletonKeysCanonical | src/Acorn/Concerns/Bindings.php:79-333 | every key a binder registers is canonical |
| Bindings.RelativeNameDiffers | src/Acorn/Concerns/Bindings.php:105-113 | a class name resolved relative to the namespace is not the class's own name |
| Bindings.GetPutSame | src/Acorn/Concerns/Bindings.php:28-50 | a key written reads back as the value written |
| Bindings.GetPutOther | src/Acorn/Concerns/Bindings.php:28-50 | writing one key leaves every other key's value unchanged |
| Bindings.ArrayLiteralLastWins | src/Acorn/Concerns/Bindings.php:28-50 | a key of the evaluated literal holds the value written last for it, and a key never written is absent |
| Bindings.LiteralEntries | src/Acorn/Concerns/Bindings.php:28-50 | the evaluated literal holds exactly the last-written entries |
| Bindings.AssignAbstractsLookup | src/Acorn/Concerns/Bindings.php:52-54 | the inner loop points every listed abstract at the binder and keeps every other key |
| Bindings.AssignLookup | src/Acorn/Concerns/Bindings.php:51-55 | after the loop, an abstract names the binder of the last entry that lists it; an unlisted abstract keeps its old binding |
| Bindings.LiteralBinding | src/Acorn/Concerns/Bindings.php:28-55 | an abstract listed only by the surviving entry of a binder is bound to that binder |
| Bindings.LiteralUnbound | src/Acorn/Concerns/Bindings.php:28-55 | an abstract listed only by an overwritten entry is left as it was |
| Bindings.ValidatorKeyIsNotAvailable | src/Acorn/Concerns/Bindings.php:47-48 | the table makes `'validator'` available iff it already was: the repeated key drops it |
| Bindings.ValidationFactoryUsesValidatorBinder | src/Acorn/Concerns/Bindings.php:48 | the Validation Factory contract is bound to the Validator binder, which does not bind that contract |
| Bindings.BroadcastFactoryUsesBroadcastingBinder | src/Acorn/Concerns/Bindings.php:30 | the broadcasting Factory contract is bound to the Broadcasting binder |
| Bindings.BroadcasterUsesBroadcastingBinder | src/Acorn/Concerns/Bindings.php:30 | the Broadcaster contract is bound to the Broadcasting binder |
| Bindings.BroadcastingRegistersRelativeNames | src/Acorn/Concerns/Bindings.php:103-120 | the Broadcasting binder binds only names under `Roots\Acorn\Concerns\`, and none of them is the contract it stands for |
| Bindings.AuthKeysUseAuthBinder | src/Acorn/Concerns/Bindings.php:29 | `'auth'` and the Gate contract are bound to the Auth binder, which binds both |
| Bindings.AuthManagerAndGuardUseAuthBinder | src/Acorn/Concerns/Bindings.php:29 | AuthManager and the Guard contract are bound to the Auth binder, which binds neither |
| Bindings.CacheContractsUseCacheBinder | src/Acorn/Concerns/Bindings.php:32 | the Cache Factory and Repository contracts are bound to the Cache binder, which binds neither |
| Bindings.ValidatorBinderKeys | src/Acorn/Concerns/Bindings.php:315-321 | the Validator binder binds `'validator'` and not the Validation Factory contract |
| Bindings.BroadcastingBinderKeys | src/Acorn/Concerns/Bindings.php:103-120 | the Broadcasting binder binds the namespace-relative Factory name and neither contract |
| Bindings.ContainerBindings.constructor | src/Acorn/Concerns/Bindings.php:15-18 | the table and the memo start empty |
| Bindings.ContainerBindings.RegisterContainerBindings | src/Acorn/Concerns/Bindings.php:25-56 | the table becomes the evaluated literal applied to the old table; nothing else changes |
| Bindings.ContainerBindings.PointAll | src/Acorn/Concerns/Bindings.php:51-55 | the outer loop leaves the table equal to the specification of the loop |
| Bindings.ContainerBindings.PointAt | src/Acorn/Concerns/Bindings.php:52-54 | the inner loop leaves the table equal to the specification of the loop |
| Bindings.ContainerBindings.RunBinder | src/Acorn/Concerns/Bindings.php:79-333 | running a binder adds exactly its own singleton keys and touches neither the table nor the memo |
| Bindings.ContainerBindings.MakeWithBinding | src/Acorn/Concerns/Bindings.php:64-72 | for a canonical abstract: one that is available and whose binder has not run runs that binder once and records it; any other abstract changes nothing; the table never changes; no binder runs twice |
| Bindings.ResolveAuthThenGate | src/Acorn/Concerns/Bindings.php:64-96 | asking for `'auth'` and then the Gate contract runs the Auth binder once, which binds both |
| Bindings.ResolveValidator | src/Acorn/Concerns/Bindings.php:47-72 | asking for `'validator'` runs no binder and binds nothing |
| Bindings.ResolveValidationFactory | src/Acorn/Concerns/Bindings.php:48-72 | asking for the Validation Factory contract runs the Validator binder, which binds `'validator'` but not the contract |
| Bindings.ResolveBroadcastFactory | src/Acorn/Concerns/Bindings.php:64-120 | asking for the broadcasting Factory contract runs the Broadcasting binder, which binds neither contract |

## Findings

| source | as written | input that shows it | evidently intended | confidence | as-written member | corrected member |
|---|---|---|---|---|---|---|
| src/Acorn/Concerns/Application.php:228-237 | `->splice(1, 0, [...])` is chained into the assignment. `Collection::splice` returns the removed slice, so `$providers` is that slice, which is empty, and `load` gets `[]` | `app.providers = ['Roots\\Acorn\\X']`, manifest providers `['Vendor\\P']`: as written `[]`, intended `['Roots\\Acorn\\X', 'Vendor\\P']` | splice as a separate statement, then collapse the spliced collection: framework providers, package providers, other providers | not executed | Providers.AsWrittenExample | Providers.ConfiguredProviderOrderGroups |

## Left out

- Environment and host probes are not modelled, because they read SAPI constants, the filesystem or `Str::is`. These are `environment()`, `runningInConsole`, `runningUnitTests`, `isDownForMaintenance`, `configurationIsCached`, `routesAreCached`, `getNamespace`, `shouldSkipMiddleware`, `detectEnvironment`, `getLocale`/`setLocale`, `terminate`, `version` and `resolveProvider`.
- Container calls into code outside these files are not modelled: `make`, `call`, `bind`, `singleton`, `ProviderRepository::load` and the package manifest.
  - `bind` and `singleton` become "key added to a bound set".
  - The manifest's providers are a parameter of `Providers.ConfiguredProviderOrder` and `Providers.ConfiguredProvidersAsWritten`.
  - The repository call of registerConfiguredProviders is not modelled; the list it is handed is.
  - `PackageManifest::class` and `ProviderRepository` at Application.php:232 and 236 have no `use` line, so PHP resolves them under `Roots\Acorn\Concerns\`. The model assumes both resolve to the package manifest and the provider repository.
- The factory closures passed to `singleton` are not modelled; a binder is modelled only by the keys it binds.
- `registerRouterBindings` and `registerPsrRequestBindings` are not part of this model. They are not defined in these files, so those binders bind nothing here.
- `Lifecycle.Application.BootstrapWith`: only sets the flag. The event dispatch and the bootstrapper calls go through the container.
- `Lifecycle.Application.LoadDeferredProviders`: the deferred services are a map, so PHP's insertion order is not kept. The loop takes services in any order, and the contract claims nothing that depends on the order.
- `Providers.FirstProvider`: `instanceof` is modelled as class-name equality; subclasses are not modelled.
- `Lifecycle.Application.RegisterDeferredProvider`: a null service is modelled as the empty string, which PHP also treats as false.
- `Lifecycle.Application.LoadDeferredProvider`: `isset` on a deferred entry is modelled as key presence; a null provider class is not modelled.
- Re-entrancy is not modelled: provider and callback code runs as an opaque event in the trace. A callback that registers providers or queues callbacks is not represented.
- Class names in the binding table are an enumeration of the classes the file names, each with its exact string. That the 22 strings differ from each other, and that none of them is another one resolved under the namespace, holds as written but is not proved.
- `Bindings.ContainerBindings.MakeWithBinding`: requires a canonical abstract. This excludes no PHP call: `Bindings.Parse` gives every string key its canonical abstract.
- `Bindings.ContainerBindings.binderCalls` is a ghost list of the binders in the order they ran, kept only for the proofs; the trait keeps just `ranServiceBinders`.
- `Lifecycle.Application.constructor`: the deferred services are a parameter. The trait starts with none, and it is filled by the provider repository, which is not modelled.
- `app.preflight` is a constant of the application, not a configuration lookup.

/**
 * The provider registry and boot sequencer of the application
 * (src/Acorn/Concerns/Application.php): register, markAsRegistered, boot,
 * bootProvider, booting, booted, fireAppCallbacks, isBooted, the deferred
 * loader and the bootstrapped flag. Calls into provider code and callbacks
 * are recorded in `trace`; what they do inside is not part of this model.
 */
module Lifecycle {
  import opened Wrappers
  import opened Paths
  import opened Providers

  /** The argument of register(): a class name (resolved to its class) or an instance. */
  datatype ProviderArg = ByName(cls: ProviderClass) | ByInstance(instance: ServiceProvider)

  /** `is_string($provider) ? $provider : get_class($provider)` */
  function ArgName(a: ProviderArg): string {
    match a
    case ByName(c) => c.name
    case ByInstance(p) => p.cls.name
  }

  /** The set of keys a list of `bind`/`singleton` calls leaves bound. */
  function BoundKeys(keys: seq<string>): set<string> {
    set k | k in keys
  }

  /** What registering one provider appends to the trace: its register(), then its boot when booted. */
  function RegisterStep(p: ServiceProvider, booted: bool, preflight: bool): seq<Event> {
    [ProviderRegistered(p)] + (if booted then BootEvents(p, preflight) else [])
  }

  /** Register's trace extension, regrouped as one RegisterStep after the earlier trace. */
  lemma StepAfter(t0: seq<Event>, p: ServiceProvider, booted: bool, preflight: bool)
    ensures t0 + [ProviderRegistered(p)] + (if booted then BootEvents(p, preflight) else [])
            == t0 + RegisterStep(p, booted, preflight)
  {
  }

  /** The trace that registering the providers one after another appends. */
  function RegisterTrace(added: seq<ServiceProvider>, booted: bool, preflight: bool): seq<Event> {
    if added == [] then []
    else RegisterTrace(added[..|added| - 1], booted, preflight) + RegisterStep(added[|added| - 1], booted, preflight)
  }

  /** The booting callbacks that registerDeferredProvider queues for the providers, in order. */
  function BootCallbacks(added: seq<ServiceProvider>): seq<Callback> {
    if added == [] then []
    else BootCallbacks(added[..|added| - 1]) + [BootProviderCallback(added[|added| - 1])]
  }

  /** The keys that registering the providers binds from their `bindings` and `singletons`. */
  function ProviderKeys(added: seq<ServiceProvider>): set<string> {
    if added == [] then {}
    else
      var p := added[|added| - 1];
      ProviderKeys(added[..|added| - 1]) + BoundKeys(p.cls.bindings) + BoundKeys(p.cls.singletons)
  }

  /** Registering `a` and then `b` appends the trace of registering `a + b`. */
  lemma {:induction false} RegisterTraceAppend(a: seq<ServiceProvider>, b: seq<ServiceProvider>, booted: bool, preflight: bool)
    ensures RegisterTrace(a + b, booted, preflight) == RegisterTrace(a, booted, preflight) + RegisterTrace(b, booted, preflight)
    decreases |b|
  {
    if b == [] {
      assert a + b == a;
    } else {
      var init, last := b[..|b| - 1], b[|b| - 1];
      assert (a + b)[..|a + b| - 1] == a + init;
      assert (a + b)[|a + b| - 1] == last;
      var step := RegisterStep(last, booted, preflight);
      calc {
        RegisterTrace(a + b, booted, preflight);
        RegisterTrace(a + init, booted, preflight) + step;
        { RegisterTraceAppend(a, init, booted, preflight); }
        RegisterTrace(a, booted, preflight) + RegisterTrace(init, booted, preflight) + step;
        RegisterTrace(a, booted, preflight) + RegisterTrace(b, booted, preflight);
      }
    }
  }

  /** Queueing the callbacks of `a` and then of `b` queues those of `a + b`. */
  lemma {:induction false} BootCallbacksAppend(a: seq<ServiceProvider>, b: seq<ServiceProvider>)
    ensures BootCallbacks(a + b) == BootCallbacks(a) + BootCallbacks(b)
    decreases |b|
  {
    if b == [] {
      assert a + b == a;
    } else {
      assert (a + b)[..|a + b| - 1] == a + b[..|b| - 1];
      BootCallbacksAppend(a, b[..|b| - 1]);
    }
  }

  /** The keys bound by registering `a + b` are those of `a` and those of `b`. */
  lemma {:induction false} ProviderKeysAppend(a: seq<ServiceProvider>, b: seq<ServiceProvider>)
    ensures ProviderKeys(a + b) == ProviderKeys(a) + ProviderKeys(b)
    decreases |b|
  {
    if b == [] {
      assert a + b == a;
    } else {
      assert (a + b)[..|a + b| - 1] == a + b[..|b| - 1];
      ProviderKeysAppend(a, b[..|b| - 1]);
    }
  }

  /** RegisterTraceAppend and BootCallbacksAppend after a trace and a queue that were there before. */
  lemma AppendedAfter(t0: seq<Event>, c0: seq<Callback>, a: seq<ServiceProvider>, b: seq<ServiceProvider>,
                      booted: bool, preflight: bool)
    ensures t0 + RegisterTrace(a, booted, preflight) + RegisterTrace(b, booted, preflight)
            == t0 + RegisterTrace(a + b, booted, preflight)
    ensures c0 + (if booted then [] else BootCallbacks(a)) + (if booted then [] else BootCallbacks(b))
            == c0 + (if booted then [] else BootCallbacks(a + b))
  {
    RegisterTraceAppend(a, b, booted, preflight);
    BootCallbacksAppend(a, b);
  }

  /** What registering a single provider adds to the trace, the booting callbacks, the bound keys and the loaded names. */
  lemma RegisteredOne(p: ServiceProvider, booted: bool, preflight: bool)
    ensures RegisterTrace([p], booted, preflight) == RegisterStep(p, booted, preflight)
    ensures BootCallbacks([p]) == [BootProviderCallback(p)]
    ensures ProviderKeys([p]) == BoundKeys(p.cls.bindings) + BoundKeys(p.cls.singletons)
    ensures Names([p]) == {p.cls.name}
  {
    assert [p][..0] == [];
  }

  /** The provider class names of a deferred-services list. */
  function DeferredNames(deferred: map<string, ProviderClass>): set<string> {
    set s | s in deferred :: deferred[s].name
  }

  /** The provider's whole boot step appears in the trace. */
  ghost predicate BootedIn(p: ServiceProvider, preflight: bool, trace: seq<Event>) {
    forall e | e in BootEvents(p, preflight) :: e in trace
  }

  /**
   * The lifecycle invariant over the application's state: loadedProviders
   * names exactly the registered classes; the booted flag flipped at most
   * once, and exactly when it is set; before boot no provider or callback
   * code but `register` has run; after boot every registered provider has
   * been booted.
   */
  ghost predicate Consistent(ps: seq<ServiceProvider>, loaded: set<string>, booted: bool,
                             trace: seq<Event>, preflight: bool)
  {
    && loaded == Names(ps)
    && (booted <==> BootedFlagSet in trace)
    && Occurrences(trace, BootedFlagSet) <= 1
    && (!booted ==> forall e | e in trace :: e.ProviderRegistered?)
    && (booted ==> forall p | p in ps :: BootedIn(p, preflight, trace))
  }

  /** After boot, calls that do not flip the flag keep the invariant. */
  lemma BootedExtend(ps: seq<ServiceProvider>, loaded: set<string>, trace: seq<Event>,
                     preflight: bool, ext: seq<Event>, t: seq<Event>)
    requires Consistent(ps, loaded, true, trace, preflight)
    requires BootedFlagSet !in ext
    requires t == trace + ext
    ensures Consistent(ps, loaded, true, t, preflight)
  {
    OccurrencesAppend(trace, ext, BootedFlagSet);
  }

  /** A fresh registration keeps the invariant, booting the provider when already booted. */
  lemma RegisterKeeps(ps: seq<ServiceProvider>, loaded: set<string>, booted: bool, trace: seq<Event>,
                      preflight: bool, r: ServiceProvider, ps': seq<ServiceProvider>, t: seq<Event>)
    requires Consistent(ps, loaded, booted, trace, preflight)
    requires ps' == ps + [r]
    requires t == trace + [ProviderRegistered(r)] + (if booted then BootEvents(r, preflight) else [])
    ensures Consistent(ps', loaded + {r.cls.name}, booted, t, preflight)
  {
    var ext := [ProviderRegistered(r)] + (if booted then BootEvents(r, preflight) else []);
    assert t == trace + ext;
    NamesAppend(ps, r);
    assert BootedFlagSet !in ext;
    OccurrencesAppend(trace, ext, BootedFlagSet);
    if booted {
      forall p | p in ps' ensures BootedIn(p, preflight, t) {
        if p != r {
          assert p in ps;
          assert BootedIn(p, preflight, trace);
        } else {
          assert BootEvents(r, preflight) <= ext[1..];
        }
      }
    } else {
      assert forall e | e in ext :: e.ProviderRegistered?;
    }
  }

  /** Registering one more provider adds its class name and nothing else. */
  lemma NamesAppend(ps: seq<ServiceProvider>, r: ServiceProvider)
    ensures Names(ps + [r]) == Names(ps) + {r.cls.name}
  {
    forall n | n in Names(ps + [r]) ensures n in Names(ps) + {r.cls.name} {
      var q :| q in ps + [r] && q.cls.name == n;
    }
  }

  /** A boot pass from an unbooted state establishes the booted invariant. */
  lemma BootEstablishes(ps: seq<ServiceProvider>, loaded: set<string>, trace: seq<Event>, preflight: bool,
                        before: seq<Callback>, after: seq<Callback>, t: seq<Event>)
    requires Consistent(ps, loaded, false, trace, preflight)
    requires t == trace + FireAll(before, preflight) + BootAll(ps, preflight)
                  + [BootedFlagSet] + FireAll(after, preflight)
    ensures Consistent(ps, loaded, true, t, preflight)
  {
    var pre := trace + FireAll(before, preflight) + BootAll(ps, preflight);
    var post := FireAll(after, preflight);
    assert t == pre + [BootedFlagSet] + post;
    FireAllIsBootWork(before, preflight);
    FireAllIsBootWork(after, preflight);
    BootAllIsBootWork(ps, preflight);
    assert BootedFlagSet !in pre;
    assert BootedFlagSet !in post;
    OccurrencesAppend(pre + [BootedFlagSet], post, BootedFlagSet);
    OccurrencesAppend(pre, [BootedFlagSet], BootedFlagSet);
    forall p | p in ps ensures BootedIn(p, preflight, t) {
      BootAllCovers(ps, p, preflight);
    }
  }

  class Application {
    var paths: PathConfig
    var hasBeenBootstrapped: bool
    var booted: bool
    var bootingCallbacks: seq<Callback>
    var bootedCallbacks: seq<Callback>
    var serviceProviders: seq<ServiceProvider>
    var loadedProviders: set<string>
    var deferredServices: map<string, ProviderClass>
    /** The keys bound in the container from providers' `bindings` and `singletons`. */
    var bound: set<string>
    /** Every call into provider and callback code, in order, and where `booted` flipped. */
    var trace: seq<Event>
    /** The `app.preflight` setting that bootProvider reads. */
    const preflight: bool

    /** The lifecycle invariant, Consistent, over this application's fields. */
    ghost predicate Valid()
      reads this
    {
      Consistent(serviceProviders, loadedProviders, booted, trace, preflight)
    }

    constructor (paths: PathConfig, deferredServices: map<string, ProviderClass>, preflight: bool)
      ensures Valid()
      ensures this.paths == paths && this.deferredServices == deferredServices
      ensures this.preflight == preflight
      ensures !booted && !hasBeenBootstrapped
      ensures bootingCallbacks == [] && bootedCallbacks == []
      ensures serviceProviders == [] && bound == {} && trace == []
    {
      this.paths := paths;
      this.deferredServices := deferredServices;
      this.preflight := preflight;
      hasBeenBootstrapped, booted := false, false;
      bootingCallbacks, bootedCallbacks := [], [];
      serviceProviders, loadedProviders := [], {};
      bound, trace := {}, [];
    }

    /** isBooted(): whether boot() has run. */
    function IsBooted(): (r: bool)
      reads this
      requires Valid()
      ensures r <==> BootedFlagSet in trace
      ensures !r ==> forall e | e in trace :: e.ProviderRegistered?
    {
      booted
    }

    /** hasBeenBootstrapped() as set by bootstrapWith(). */
    method BootstrapWith(bootstrappers: seq<string>)
      modifies this`hasBeenBootstrapped
      ensures hasBeenBootstrapped
    {
      hasBeenBootstrapped := true;
    }

    /** loadEnvironmentFrom($file). */
    method LoadEnvironmentFrom(file: string)
      modifies this`paths
      ensures paths == old(paths).(environmentFile := Some(file))
      ensures Truthy(file) ==> EnvironmentFilePath(paths) == EnvironmentPath(old(paths)) + paths.separator + file
    {
      paths := paths.(environmentFile := Some(file));
    }

    /** The `bind`/`singleton` loops of register() over a provider's property. */
    method BindKeys(keys: seq<string>)
      modifies this`bound
      ensures bound == old(bound) + BoundKeys(keys)
    {
      var i := 0;
      while i < |keys|
        invariant 0 <= i <= |keys|
        invariant bound == old(bound) + BoundKeys(keys[..i])
      {
        assert keys[..i + 1] == keys[..i] + [keys[i]];
        bound := bound + {keys[i]};
        i := i + 1;
      }
      assert keys[..i] == keys;
    }

    /** markAsRegistered($provider). */
    method MarkAsRegistered(p: ServiceProvider)
      modifies this`serviceProviders, this`loadedProviders
      ensures serviceProviders == old(serviceProviders) + [p]
      ensures loadedProviders == old(loadedProviders) + {p.cls.name}
    {
      serviceProviders := serviceProviders + [p];
      loadedProviders := loadedProviders + {p.cls.name};
    }

    /** bootProvider($provider). */
    method BootProvider(p: ServiceProvider)
      modifies this`trace
      ensures trace == old(trace) + BootEvents(p, preflight)
    {
      if p.cls.hasBoot {
        trace := trace + [ProviderBooted(p)];
      }
      if preflight && p.cls.hasPreflight {
        trace := trace + [ProviderPreflighted(p)];
      }
    }

    /** fireAppCallbacks($callbacks). */
    method FireAppCallbacks(cbs: seq<Callback>)
      modifies this`trace
      ensures trace == old(trace) + FireAll(cbs, preflight)
    {
      var i := 0;
      while i < |cbs|
        invariant 0 <= i <= |cbs|
        invariant trace == old(trace) + FireAll(cbs[..i], preflight)
      {
        FireAllStep(old(trace), cbs, i, preflight);
        FireCallback(cbs[i]);
        i := i + 1;
      }
      assert cbs[..i] == cbs;
    }

    /** `$callback($this)` for one callback. */
    method FireCallback(cb: Callback)
      modifies this`trace
      ensures trace == old(trace) + FireEvents(cb, preflight)
    {
      match cb {
        case Listener(t) =>
          trace := trace + [CallbackFired(t)];
        case BootProviderCallback(p) =>
          BootProvider(p);
      }
    }

    /**
     * register($provider, $force). Without force, a class that is already
     * registered gives back its first instance and nothing changes.
     * Otherwise the provider's register() runs, its bindings and singletons
     * are bound, it is appended and its class marked loaded, and it is
     * booted at once when the application has already booted.
     */
    method Register(provider: ProviderArg, force: bool) returns (r: ServiceProvider)
      requires Valid()
      modifies this
      ensures Valid()
      ensures paths == old(paths) && hasBeenBootstrapped == old(hasBeenBootstrapped) && booted == old(booted)
      ensures bootingCallbacks == old(bootingCallbacks) && bootedCallbacks == old(bootedCallbacks)
      ensures deferredServices == old(deferredServices)
      ensures ArgName(provider) in old(loadedProviders) && !force ==>
        && r == FirstProvider(old(serviceProviders), ArgName(provider)).value
        && serviceProviders == old(serviceProviders) && loadedProviders == old(loadedProviders)
        && bound == old(bound) && trace == old(trace)
      ensures ArgName(provider) !in old(loadedProviders) || force ==>
        && (provider.ByInstance? ==> r == provider.instance)
        && (provider.ByName? ==> fresh(r) && r.cls == provider.cls)
        && serviceProviders == old(serviceProviders) + [r]
        && loadedProviders == old(loadedProviders) + {r.cls.name}
        && bound == old(bound) + BoundKeys(r.cls.bindings) + BoundKeys(r.cls.singletons)
        && trace == old(trace) + [ProviderRegistered(r)] + (if booted then BootEvents(r, preflight) else [])
    {
      var registered := FirstProvider(serviceProviders, ArgName(provider));
      if registered.Some? && !force {
        return registered.value;
      }
      match provider {
        case ByName(c) =>
          r := new ServiceProvider(c);
        case ByInstance(p) =>
          r := p;
      }
      RegisterInstance(r);
    }

    /**
     * The part of register() after the instance is at hand: its register()
     * runs, its bindings and singletons are bound, it is marked as
     * registered, and it is booted when the application has booted.
     */
    method RegisterInstance(r: ServiceProvider)
      requires Valid()
      modifies this`trace, this`bound, this`serviceProviders, this`loadedProviders
      ensures Valid()
      ensures serviceProviders == old(serviceProviders) + [r]
      ensures loadedProviders == old(loadedProviders) + {r.cls.name}
      ensures bound == old(bound) + BoundKeys(r.cls.bindings) + BoundKeys(r.cls.singletons)
      ensures trace == old(trace) + [ProviderRegistered(r)] + (if booted then BootEvents(r, preflight) else [])
    {
      trace := trace + [ProviderRegistered(r)];
      BindKeys(r.cls.bindings);
      BindKeys(r.cls.singletons);
      MarkAsRegistered(r);
      if booted {
        BootProvider(r);
      }
      RegisterKeeps(old(serviceProviders), old(loadedProviders), booted, old(trace), preflight, r,
                    serviceProviders, trace);
    }

    /** booting($callback): queue a callback for the start of boot(). */
    method Booting(cb: Callback)
      requires Valid()
      modifies this`bootingCallbacks
      ensures Valid()
      ensures bootingCallbacks == old(bootingCallbacks) + [cb]
    {
      bootingCallbacks := bootingCallbacks + [cb];
    }

    /** booted($callback): queue a callback for the end of boot(); fire it now if booted. */
    method Booted(cb: Callback)
      requires Valid()
      modifies this`bootedCallbacks, this`trace
      ensures Valid()
      ensures bootedCallbacks == old(bootedCallbacks) + [cb]
      ensures trace == old(trace) + (if booted then FireEvents(cb, preflight) else [])
    {
      bootedCallbacks := bootedCallbacks + [cb];
      if IsBooted() {
        assert FireAll([cb], preflight) == FireEvents(cb, preflight) by {
          assert [cb][..0] == [];
        }
        FireAppCallbacks([cb]);
        BootedExtend(serviceProviders, loadedProviders, old(trace), preflight, FireEvents(cb, preflight), trace);
      }
    }

    /** The `array_walk` of boot(): bootProvider on every provider in registration order. */
    method BootProviders()
      modifies this`trace
      ensures trace == old(trace) + BootAll(serviceProviders, preflight)
    {
      var i := 0;
      while i < |serviceProviders|
        invariant 0 <= i <= |serviceProviders|
        invariant trace == old(trace) + BootAll(serviceProviders[..i], preflight)
      {
        BootAllStep(old(trace), serviceProviders, i, preflight);
        BootProvider(serviceProviders[i]);
        i := i + 1;
      }
      assert serviceProviders[..i] == serviceProviders;
    }

    /**
     * boot(): a no-op once booted. Otherwise the booting callbacks fire,
     * every provider is booted in registration order, the flag is set, and
     * the booted callbacks fire.
     */
    method Boot()
      requires Valid()
      modifies this`trace, this`booted
      ensures Valid() && booted
      ensures old(booted) ==> trace == old(trace)
      ensures !old(booted) ==>
        trace == old(trace) + FireAll(bootingCallbacks, preflight) + BootAll(serviceProviders, preflight)
                 + [BootedFlagSet] + FireAll(bootedCallbacks, preflight)
    {
      if booted {
        return;
      }
      FireAppCallbacks(bootingCallbacks);
      BootProviders();
      booted := true;
      trace := trace + [BootedFlagSet];
      FireAppCallbacks(bootedCallbacks);
      BootEstablishes(serviceProviders, loadedProviders, old(trace), preflight, bootingCallbacks, bootedCallbacks, trace);
    }

    /**
     * registerDeferredProvider($provider, $service): drop the service from
     * the deferred list (when a service is given), register a new instance,
     * and if not yet booted queue a booting callback that boots that
     * instance. A null service is modelled as "".
     */
    method RegisterDeferredProvider(c: ProviderClass, service: string) returns (ghost instance: ServiceProvider)
      requires Valid()
      modifies this
      ensures Valid()
      ensures fresh(instance) && instance.cls == c
      ensures paths == old(paths) && hasBeenBootstrapped == old(hasBeenBootstrapped) && booted == old(booted)
      ensures bootedCallbacks == old(bootedCallbacks)
      ensures deferredServices == if Truthy(service) then old(deferredServices) - {service} else old(deferredServices)
      ensures bootingCallbacks == old(bootingCallbacks) + (if booted then [] else [BootProviderCallback(instance)])
      ensures c.name in old(loadedProviders) ==>
        && serviceProviders == old(serviceProviders) && loadedProviders == old(loadedProviders)
        && bound == old(bound) && trace == old(trace)
      ensures c.name !in old(loadedProviders) ==>
        && serviceProviders == old(serviceProviders) + [instance]
        && loadedProviders == old(loadedProviders) + {c.name}
        && bound == old(bound) + BoundKeys(c.bindings) + BoundKeys(c.singletons)
        && trace == old(trace) + [ProviderRegistered(instance)] + (if booted then BootEvents(instance, preflight) else [])
    {
      if Truthy(service) {
        deferredServices := deferredServices - {service};
      }
      var p := new ServiceProvider(c);
      var _ := Register(ByInstance(p), false);
      if !booted {
        Booting(BootProviderCallback(p));
      }
      instance := p;
    }

    /**
     * loadDeferredProvider($service): a no-op unless the service is
     * deferred and its provider class is not loaded yet; then the provider
     * is registered as a deferred provider.
     */
    method LoadDeferredProvider(service: string) returns (ghost registered: seq<ServiceProvider>)
      requires Valid()
      modifies this
      ensures Valid()
      ensures booted == old(booted) && bootedCallbacks == old(bootedCallbacks)
      ensures paths == old(paths) && hasBeenBootstrapped == old(hasBeenBootstrapped)
      ensures registered == [] <==>
        service !in old(deferredServices) || old(deferredServices)[service].name in old(loadedProviders)
      ensures registered == [] ==> unchanged(this)
      ensures registered != [] ==>
        && |registered| == 1 && registered[0].cls == old(deferredServices)[service]
        && deferredServices == (if Truthy(service) then old(deferredServices) - {service} else old(deferredServices))
      ensures service in old(deferredServices) ==> old(deferredServices)[service].name in loadedProviders
      ensures forall p | p in registered :: fresh(p)
      ensures serviceProviders == old(serviceProviders) + registered
      ensures loadedProviders == old(loadedProviders) + Names(registered)
      ensures trace == old(trace) + RegisterTrace(registered, booted, preflight)
      ensures bootingCallbacks == old(bootingCallbacks) + (if booted then [] else BootCallbacks(registered))
      ensures bound == old(bound) + ProviderKeys(registered)
    {
      registered := [];
      if service !in deferredServices {
        return;
      }
      var c := deferredServices[service];
      if c.name !in loadedProviders {
        ghost var p := RegisterDeferredProvider(c, service);
        registered := [p];
        RegisteredOne(p, booted, preflight);
        StepAfter(old(trace), p, booted, preflight);
      }
    }

    /**
     * loadDeferredProviders(): load every deferred service's provider, then
     * empty the deferred list. PHP walks the list in insertion order; here
     * the order is left open and nothing below depends on it.
     */
    method LoadDeferredProviders()
      requires Valid()
      modifies this
      ensures Valid()
      ensures deferredServices == map[]
      ensures booted == old(booted) && bootedCallbacks == old(bootedCallbacks)
      ensures paths == old(paths) && hasBeenBootstrapped == old(hasBeenBootstrapped)
      ensures loadedProviders == old(loadedProviders) + DeferredNames(old(deferredServices))
      ensures old(serviceProviders) <= serviceProviders
      ensures var added := serviceProviders[|old(serviceProviders)|..];
        && (forall p | p in added :: fresh(p) && p.cls in old(deferredServices).Values)
        && trace == old(trace) + RegisterTrace(added, booted, preflight)
        && bootingCallbacks == old(bootingCallbacks) + (if booted then [] else BootCallbacks(added))
        && bound == old(bound) + ProviderKeys(added)
        && Names(added) == DeferredNames(old(deferredServices)) - old(loadedProviders)
        && (forall i, j | 0 <= i < j < |added| :: added[i].cls.name != added[j].cls.name)
    {
      ghost var start := Fields();
      ghost var added := LoadAll();
      assert serviceProviders[|old(serviceProviders)|..] == added;
      WalkDone(start, Fields(), added, booted, preflight);
      deferredServices := map[];
    }

    /** The foreach of loadDeferredProviders: loadDeferredProvider on every deferred service. */
    method LoadAll() returns (ghost added: seq<ServiceProvider>)
      requires Valid()
      modifies this
      ensures Valid()
      ensures LoadingFrom(old(Fields()), Fields(), {}, added, booted, preflight)
      ensures forall p | p in added :: fresh(p)
      ensures booted == old(booted) && bootedCallbacks == old(bootedCallbacks)
      ensures paths == old(paths) && hasBeenBootstrapped == old(hasBeenBootstrapped)
    {
      ghost var start := Fields();
      added := [];
      var remaining := deferredServices.Keys;
      while remaining != {}
        invariant Valid()
        invariant booted == old(booted) && bootedCallbacks == old(bootedCallbacks)
        invariant paths == old(paths) && hasBeenBootstrapped == old(hasBeenBootstrapped)
        invariant LoadingFrom(start, Fields(), remaining, added, booted, preflight)
        invariant forall p | p in added :: fresh(p)
        decreases remaining
      {
        var s :| s in remaining;
        added := LoadNext(s, start, remaining, added);
        remaining := remaining - {s};
      }
    }

    /** The fields that loading deferred providers changes, as one value. */
    ghost function Fields(): Registry
      reads this
    {
      Registry(deferredServices, loadedProviders, serviceProviders, trace, bootingCallbacks, bound)
    }

    /** One iteration of loadDeferredProviders: loadDeferredProvider on one unvisited service. */
    method LoadNext(service: string, ghost start: Registry, ghost remaining: set<string>, ghost added: seq<ServiceProvider>)
      returns (ghost added': seq<ServiceProvider>)
      requires Valid() && service in remaining
      requires LoadingFrom(start, Fields(), remaining, added, booted, preflight)
      modifies this
      ensures Valid()
      ensures LoadingFrom(start, Fields(), remaining - {service}, added', booted, preflight)
      ensures booted == old(booted) && bootedCallbacks == old(bootedCallbacks)
      ensures paths == old(paths) && hasBeenBootstrapped == old(hasBeenBootstrapped)
      ensures forall p | p in added' :: p in added || fresh(p)
    {
      ghost var before := Fields();
      var more := LoadDeferredProvider(service);
      LoadingStep(start, before, Fields(), remaining, service, added, more, booted, preflight);
      added' := added + more;
    }
  }

  /** The fields of an application that loading deferred providers changes. */
  datatype Registry = Registry(deferredServices: map<string, ProviderClass>, loadedProviders: set<string>,
                               serviceProviders: seq<ServiceProvider>, trace: seq<Event>,
                               bootingCallbacks: seq<Callback>, bound: set<string>)

  /**
   * Where loadDeferredProviders stands part-way through its walk over the
   * deferred list as it was at the start: what it has visited, and what it
   * has registered so far (`added`).
   */
  ghost predicate LoadingFrom(start: Registry, now: Registry, remaining: set<string>, added: seq<ServiceProvider>,
                              booted: bool, preflight: bool)
  {
    Visited(start, now, remaining) && Accounted(start, now, added, booted, preflight) && NewClasses(start, now, added)
  }

  /** The services not yet visited are still listed, and the classes of visited ones are loaded. */
  ghost predicate Visited(start: Registry, now: Registry, remaining: set<string>)
  {
    var snapshot := start.deferredServices;
    && remaining <= snapshot.Keys
    && (forall s | s in remaining :: s in now.deferredServices && now.deferredServices[s] == snapshot[s])
    && (forall s | s in snapshot && s !in remaining :: snapshot[s].name in now.loadedProviders)
    && start.loadedProviders <= now.loadedProviders <= start.loadedProviders + DeferredNames(snapshot)
  }

  /** The providers registered so far account for every change to the providers, trace, booting callbacks and bound keys. */
  ghost predicate Accounted(start: Registry, now: Registry, added: seq<ServiceProvider>, booted: bool, preflight: bool)
  {
    && now.serviceProviders == start.serviceProviders + added
    && (forall p | p in added :: p.cls in start.deferredServices.Values)
    && now.trace == start.trace + RegisterTrace(added, booted, preflight)
    && now.bootingCallbacks == start.bootingCallbacks + (if booted then [] else BootCallbacks(added))
    && now.bound == start.bound + ProviderKeys(added)
  }

  /**
   * Each provider registered so far is of a class that was not loaded at the
   * start, no two of them share a class, and their classes are exactly the
   * ones loaded since the start.
   */
  ghost predicate NewClasses(start: Registry, now: Registry, added: seq<ServiceProvider>)
  {
    && now.loadedProviders == start.loadedProviders + Names(added)
    && (forall p | p in added :: p.cls.name !in start.loadedProviders)
    && (forall i, j | 0 <= i < j < |added| :: added[i].cls.name != added[j].cls.name)
  }

  /** What one loadDeferredProvider($service) call does to the fields, as LoadDeferredProvider states it. */
  ghost predicate LoadedOne(before: Registry, after: Registry, service: string, registered: seq<ServiceProvider>,
                            booted: bool, preflight: bool)
  {
    && (registered == [] ==> after == before)
    && (registered != [] ==>
          && service in before.deferredServices && |registered| == 1
          && registered[0].cls == before.deferredServices[service]
          && registered[0].cls.name !in before.loadedProviders
          && after.deferredServices == (if Truthy(service) then before.deferredServices - {service}
                                        else before.deferredServices))
    && (service in before.deferredServices ==> before.deferredServices[service].name in after.loadedProviders)
    && after.serviceProviders == before.serviceProviders + registered
    && after.loadedProviders == before.loadedProviders + Names(registered)
    && after.trace == before.trace + RegisterTrace(registered, booted, preflight)
    && after.bootingCallbacks == before.bootingCallbacks + (if booted then [] else BootCallbacks(registered))
    && after.bound == before.bound + ProviderKeys(registered)
  }

  /** Loading one more unvisited service keeps the walk's invariant, with its provider (if any) appended. */
  lemma LoadingStep(start: Registry, before: Registry, after: Registry, remaining: set<string>, service: string,
                    added: seq<ServiceProvider>, registered: seq<ServiceProvider>, booted: bool, preflight: bool)
    requires service in remaining
    requires LoadingFrom(start, before, remaining, added, booted, preflight)
    requires LoadedOne(before, after, service, registered, booted, preflight)
    ensures LoadingFrom(start, after, remaining - {service}, added + registered, booted, preflight)
  {
    VisitedStep(start, before, after, remaining, service, registered, booted, preflight);
    AccountedStep(start, before, after, remaining, service, added, registered, booted, preflight);
    NewClassesStep(start, before, after, service, added, registered, booted, preflight);
  }

  /** Once every service is visited, exactly the deferred classes not loaded at the start were registered. */
  lemma WalkDone(start: Registry, now: Registry, added: seq<ServiceProvider>, booted: bool, preflight: bool)
    requires LoadingFrom(start, now, {}, added, booted, preflight)
    ensures now.loadedProviders == start.loadedProviders + DeferredNames(start.deferredServices)
    ensures Names(added) == DeferredNames(start.deferredServices) - start.loadedProviders
  {
    var snapshot := start.deferredServices;
    forall n | n in DeferredNames(snapshot) ensures n in now.loadedProviders {
      var k :| k in snapshot && snapshot[k].name == n;
    }
    OnlyNewNames(start.loadedProviders, now.loadedProviders, DeferredNames(snapshot), added);
  }

  /** The classes the walk registered are the deferred classes that were not loaded at the start. */
  lemma OnlyNewNames(loaded0: set<string>, loaded: set<string>, deferred: set<string>, added: seq<ServiceProvider>)
    requires loaded == loaded0 + Names(added) && loaded == loaded0 + deferred
    requires forall p | p in added :: p.cls.name !in loaded0
    ensures Names(added) == deferred - loaded0
  {
  }

  /** A provider loadDeferredProvider registers is of a class loaded neither at the start nor since. */
  lemma NewClassesStep(start: Registry, before: Registry, after: Registry, service: string,
                       added: seq<ServiceProvider>, registered: seq<ServiceProvider>, booted: bool, preflight: bool)
    requires NewClasses(start, before, added)
    requires LoadedOne(before, after, service, registered, booted, preflight)
    ensures NewClasses(start, after, added + registered)
  {
    if registered == [] {
      assert added + registered == added;
    } else {
      var p := registered[0];
      assert registered == [p];
      assert Names(added + registered) == Names(added) + {p.cls.name} by {
        NamesAppend(added, p);
      }
      forall i | 0 <= i < |added| ensures added[i].cls.name != p.cls.name {
        assert added[i].cls.name in Names(added);
      }
    }
  }

  /** Loading an unvisited service marks it visited. */
  lemma VisitedStep(start: Registry, before: Registry, after: Registry, remaining: set<string>, service: string,
                    registered: seq<ServiceProvider>, booted: bool, preflight: bool)
    requires service in remaining
    requires Visited(start, before, remaining)
    requires LoadedOne(before, after, service, registered, booted, preflight)
    ensures Visited(start, after, remaining - {service})
  {
    if registered != [] {
      var p := registered[0];
      assert registered == [p];
      assert after.loadedProviders == before.loadedProviders + {p.cls.name};
      assert p.cls.name in DeferredNames(start.deferredServices);
    }
  }

  /** The provider an unvisited service registers, if any, is appended to what the walk accounts for. */
  lemma AccountedStep(start: Registry, before: Registry, after: Registry, remaining: set<string>, service: string,
                      added: seq<ServiceProvider>, registered: seq<ServiceProvider>, booted: bool, preflight: bool)
    requires service in remaining
    requires Visited(start, before, remaining) && Accounted(start, before, added, booted, preflight)
    requires LoadedOne(before, after, service, registered, booted, preflight)
    ensures Accounted(start, after, added + registered, booted, preflight)
  {
    if registered == [] {
      assert added + registered == added;
    } else {
      var p := registered[0];
      assert registered == [p];
      assert p.cls == start.deferredServices[service];
      assert p.cls in start.deferredServices.Values;
      forall q | q in added + registered ensures q.cls in start.deferredServices.Values {
        if q !in added {
          assert q == p;
        }
      }
      AppendedAfter(start.trace, start.bootingCallbacks, added, registered, booted, preflight);
      assert after.bound == start.bound + ProviderKeys(added + registered) by {
        ProviderKeysAppend(added, registered);
      }
    }
  }

  // ---------------------------------------------------------------------
  // Consequences for a fresh application

  /** Counting the boots in the trace of a deferred provider loaded before boot(). */
  lemma BootedTwiceCount(p: ServiceProvider)
    requires p.cls.hasBoot
    ensures RegisterTrace([p], false, false) == [ProviderRegistered(p)]
    ensures BootCallbacks([p]) == [BootProviderCallback(p)]
    ensures Occurrences([ProviderRegistered(p)] + FireAll([BootProviderCallback(p)], false) + BootAll([p], false)
                        + [BootedFlagSet] + FireAll([], false), ProviderBooted(p)) == 2
  {
    RegisteredOne(p, false, false);
    var b := ProviderBooted(p);
    var t1 := [ProviderRegistered(p)];
    assert t1 + FireAll([BootProviderCallback(p)], false) + BootAll([p], false) + [BootedFlagSet] + FireAll([], false)
           == t1 + [b, b] + [BootedFlagSet] by {
      assert FireAll([BootProviderCallback(p)], false) == [b];
      assert BootAll([p], false) == [b];
    }
    OccurrencesAppend(t1 + [b, b], [BootedFlagSet], b);
    OccurrencesAppend(t1 + [b], [b], b);
    OccurrencesAppend(t1, [b], b);
    assert t1 + [b] + [b] == t1 + [b, b];
  }

  /**
   * In the trace that boot() appends, a provider both queued by
   * registerDeferredProvider and registered is booted at least twice.
   */
  lemma BootTraceBootsTwice(t0: seq<Event>, before: seq<Callback>, ps: seq<ServiceProvider>, after: seq<Callback>,
                            p: ServiceProvider, preflight: bool)
    requires BootProviderCallback(p) in before && p in ps && p.cls.hasBoot
    ensures Occurrences(t0 + FireAll(before, preflight) + BootAll(ps, preflight) + [BootedFlagSet]
                        + FireAll(after, preflight), ProviderBooted(p)) >= 2
  {
    var b := ProviderBooted(p);
    var whole := t0 + FireAll(before, preflight) + BootAll(ps, preflight) + [BootedFlagSet] + FireAll(after, preflight);
    var boot := FireAll(before, preflight) + BootAll(ps, preflight);
    var rest := [BootedFlagSet] + FireAll(after, preflight);
    assert whole == t0 + boot + rest;
    assert Occurrences(boot, b) >= 2 by {
      BootedTwiceByBoot(before, ps, p, preflight);
    }
    assert Occurrences(whole, b) >= Occurrences(boot, b) by {
      OccurrencesWithin(t0, boot, rest, b);
    }
  }

  /**
   * A provider whose service is loaded before boot() is booted twice by
   * boot(): once by the booting callback registerDeferredProvider queued,
   * and again by the walk over every registered provider.
   */
  method DeferredProviderBootsTwice(paths: PathConfig, c: ProviderClass, service: string) returns (boots: nat)
    requires c.hasBoot
    ensures boots == 2
  {
    var app := new Application(paths, map[service := c], false);
    ghost var registered := app.LoadDeferredProvider(service);
    var p := app.serviceProviders[0];
    assert registered == [p];
    BootedTwiceCount(p);
    app.Boot();
    boots := Occurrences(app.trace, ProviderBooted(p));
  }

  /** Registering the same class twice without force returns the first instance and registers it once. */
  method RegisterTwice(paths: PathConfig, c: ProviderClass) returns (first: ServiceProvider, second: ServiceProvider, count: nat)
    ensures first == second && count == 1
  {
    var app := new Application(paths, map[], false);
    first := app.Register(ByName(c), false);
    assert app.serviceProviders == [first];
    second := app.Register(ByName(c), false);
    count := |app.serviceProviders|;
  }

  /** With force, the same class is registered again as a second, distinct instance. */
  method RegisterForced(paths: PathConfig, c: ProviderClass) returns (first: ServiceProvider, second: ServiceProvider, count: nat)
    ensures first != second && count == 2
  {
    var app := new Application(paths, map[], false);
    first := app.Register(ByName(c), false);
    second := app.Register(ByName(c), true);
    count := |app.serviceProviders|;
  }
}

/**
 * The values the provider lifecycle of src/Acorn/Concerns/Application.php
 * works with: provider classes and instances, the callbacks queued for boot,
 * and the calls into provider and callback code that the application makes,
 * recorded as a trace of events. The functions here say what one boot step,
 * one round of callbacks and one boot pass over the providers contribute to
 * that trace; the class in module Lifecycle is proved against them.
 */
module Providers {
  import opened Wrappers

  /**
   * What autoloading finds behind a provider class name: the name, whether
   * the class has `boot` and `preflight` methods, and the keys of its
   * `bindings` and `singletons` properties (empty when a property does not
   * exist).
   */
  datatype ProviderClass = ProviderClass(
    name: string,
    hasBoot: bool,
    hasPreflight: bool,
    bindings: seq<string>,
    singletons: seq<string>)

  /** A provider instance: `new $provider($this)`. */
  class ServiceProvider {
    const cls: ProviderClass

    constructor (cls: ProviderClass)
      ensures this.cls == cls
    {
      this.cls := cls;
    }
  }

  /**
   * A callback given to booting() or booted(). Callbacks from outside are
   * opaque tokens; the one that registerDeferredProvider queues boots one
   * provider instance.
   */
  datatype Callback = Listener(token: nat) | BootProviderCallback(provider: ServiceProvider)

  /** One observable step of the lifecycle. */
  datatype Event =
    | ProviderRegistered(provider: ServiceProvider)  // $provider->register()
    | ProviderBooted(provider: ServiceProvider)      // $provider->boot()
    | ProviderPreflighted(provider: ServiceProvider) // $provider->preflight()
    | CallbackFired(token: nat)                      // an opaque callback ran
    | BootedFlagSet                                  // `$this->booted = true`

  /** How many times an event occurs in a trace. */
  function Occurrences(t: seq<Event>, e: Event): (n: nat)
    ensures n == 0 <==> e !in t
    ensures n <= |t|
  {
    if t == [] then 0
    else Occurrences(t[..|t| - 1], e) + (if t[|t| - 1] == e then 1 else 0)
  }

  /** Counting splits over concatenation. */
  lemma {:induction false} OccurrencesAppend(a: seq<Event>, b: seq<Event>, e: Event)
    ensures Occurrences(a + b, e) == Occurrences(a, e) + Occurrences(b, e)
    decreases |b|
  {
    if b != [] {
      var n := |b| - 1;
      assert (a + b)[..|a + b| - 1] == a + b[..n];
      OccurrencesAppend(a, b[..n], e);
    } else {
      assert a + b == a;
    }
  }

  /** A trace holds at least the occurrences of any stretch of it. */
  lemma OccurrencesWithin(a: seq<Event>, m: seq<Event>, c: seq<Event>, e: Event)
    ensures Occurrences(a + m + c, e) >= Occurrences(m, e)
  {
    OccurrencesAppend(a, m, e);
    OccurrencesAppend(a + m, c, e);
  }

  /** The class names of a list of providers. */
  function Names(ps: seq<ServiceProvider>): set<string> {
    set p | p in ps :: p.cls.name
  }

  /**
   * bootProvider($p): `boot` when the class has it, then `preflight` when
   * the `app.preflight` setting is on and the class has it.
   */
  function BootEvents(p: ServiceProvider, preflight: bool): (r: seq<Event>)
    ensures ProviderBooted(p) in r <==> p.cls.hasBoot
    ensures ProviderPreflighted(p) in r <==> preflight && p.cls.hasPreflight
    ensures forall e | e in r :: e == ProviderBooted(p) || e == ProviderPreflighted(p)
    ensures |r| <= 2
    ensures |r| == 2 ==> r == [ProviderBooted(p), ProviderPreflighted(p)]
  {
    (if p.cls.hasBoot then [ProviderBooted(p)] else [])
      + (if preflight && p.cls.hasPreflight then [ProviderPreflighted(p)] else [])
  }

  /** Firing one callback: an opaque one runs; the queued boot of a deferred provider boots it. */
  function FireEvents(cb: Callback, preflight: bool): seq<Event> {
    match cb
    case Listener(t) => [CallbackFired(t)]
    case BootProviderCallback(p) => BootEvents(p, preflight)
  }

  /** An event that only boot work produces: never a registration, never the booted flag. */
  predicate IsBootWork(e: Event) {
    !e.ProviderRegistered? && !e.BootedFlagSet?
  }

  /** fireAppCallbacks($callbacks): every callback, in list order. */
  function FireAll(cbs: seq<Callback>, preflight: bool): seq<Event> {
    if cbs == [] then []
    else FireAll(cbs[..|cbs| - 1], preflight) + FireEvents(cbs[|cbs| - 1], preflight)
  }

  /** The `array_walk` of boot(): bootProvider on every provider, in registration order. */
  function BootAll(ps: seq<ServiceProvider>, preflight: bool): seq<Event> {
    if ps == [] then []
    else BootAll(ps[..|ps| - 1], preflight) + BootEvents(ps[|ps| - 1], preflight)
  }

  /** Firing callbacks only does boot work: it registers nothing and never flips `booted`. */
  lemma {:induction false} FireAllIsBootWork(cbs: seq<Callback>, preflight: bool)
    ensures forall e | e in FireAll(cbs, preflight) :: IsBootWork(e)
  {
    if cbs != [] {
      FireAllIsBootWork(cbs[..|cbs| - 1], preflight);
    }
  }

  /** A boot pass only boots and preflights providers. */
  lemma {:induction false} BootAllIsBootWork(ps: seq<ServiceProvider>, preflight: bool)
    ensures forall e | e in BootAll(ps, preflight) :: e.ProviderBooted? || e.ProviderPreflighted?
  {
    if ps != [] {
      BootAllIsBootWork(ps[..|ps| - 1], preflight);
    }
  }

  /** One more callback fired after a trace that ends with the first `i`: the prefix grows by one step. */
  lemma FireAllStep(t0: seq<Event>, cbs: seq<Callback>, i: nat, preflight: bool)
    requires i < |cbs|
    ensures t0 + FireAll(cbs[..i], preflight) + FireEvents(cbs[i], preflight) == t0 + FireAll(cbs[..i + 1], preflight)
  {
    assert cbs[..i + 1][..i] == cbs[..i];
  }

  /** One more provider booted after a trace that ends with the first `i`: the prefix grows by one step. */
  lemma BootAllStep(t0: seq<Event>, ps: seq<ServiceProvider>, i: nat, preflight: bool)
    requires i < |ps|
    ensures t0 + BootAll(ps[..i], preflight) + BootEvents(ps[i], preflight) == t0 + BootAll(ps[..i + 1], preflight)
  {
    assert ps[..i + 1][..i] == ps[..i];
  }

  /** Booting one more provider appends its boot step. */
  lemma BootAllSnoc(ps: seq<ServiceProvider>, p: ServiceProvider, preflight: bool)
    ensures BootAll(ps + [p], preflight) == BootAll(ps, preflight) + BootEvents(p, preflight)
  {
    assert (ps + [p])[..|ps|] == ps;
  }

  /** Boot passes compose: booting `a + b` boots `a`, then `b`. */
  lemma {:induction false} BootAllAppend(a: seq<ServiceProvider>, b: seq<ServiceProvider>, preflight: bool)
    ensures BootAll(a + b, preflight) == BootAll(a, preflight) + BootAll(b, preflight)
    decreases |b|
  {
    if b == [] {
      assert a + b == a;
    } else {
      var n := |b| - 1;
      var init, last := b[..n], b[n];
      assert b == init + [last];
      assert a + b == (a + init) + [last];
      BootAllAppend(a, init, preflight);
      calc {
        BootAll(a + b, preflight);
        { BootAllSnoc(a + init, last, preflight); }
        BootAll(a + init, preflight) + BootEvents(last, preflight);
        BootAll(a, preflight) + BootAll(init, preflight) + BootEvents(last, preflight);
        { BootAllSnoc(init, last, preflight); }
        BootAll(a, preflight) + BootAll(b, preflight);
      }
    }
  }

  /**
   * Registration order: the boot steps of the i-th provider come after
   * those of every earlier provider and before those of every later one.
   */
  lemma BootAllOrder(ps: seq<ServiceProvider>, i: nat, preflight: bool)
    requires i < |ps|
    ensures BootAll(ps, preflight)
      == BootAll(ps[..i], preflight) + BootEvents(ps[i], preflight) + BootAll(ps[i + 1..], preflight)
  {
    assert ps == ps[..i] + [ps[i]] + ps[i + 1..];
    BootAllAppend(ps[..i] + [ps[i]], ps[i + 1..], preflight);
    BootAllAppend(ps[..i], [ps[i]], preflight);
    assert BootAll([ps[i]], preflight) == BootEvents(ps[i], preflight) by {
      assert [ps[i]][..0] == [];
    }
  }

  /** Every provider in the list gets its full boot step in the pass. */
  lemma BootAllCovers(ps: seq<ServiceProvider>, p: ServiceProvider, preflight: bool)
    requires p in ps
    ensures forall e | e in BootEvents(p, preflight) :: e in BootAll(ps, preflight)
  {
    var i :| 0 <= i < |ps| && ps[i] == p;
    BootAllOrder(ps, i, preflight);
  }

  /** Every callback in the list gets its full step when the list is fired. */
  lemma {:induction false} FireAllCovers(cbs: seq<Callback>, cb: Callback, preflight: bool)
    requires cb in cbs
    ensures forall e | e in FireEvents(cb, preflight) :: e in FireAll(cbs, preflight)
  {
    var n := |cbs| - 1;
    if cbs[n] != cb {
      var i :| 0 <= i < |cbs| && cbs[i] == cb;
      assert cbs[..n][i] == cb;
      FireAllCovers(cbs[..n], cb, preflight);
    }
  }

  /**
   * A provider that is both queued as a booting callback and registered is
   * booted by the callback and again by the walk over the providers.
   */
  lemma BootedTwiceByBoot(cbs: seq<Callback>, ps: seq<ServiceProvider>, p: ServiceProvider, preflight: bool)
    requires BootProviderCallback(p) in cbs && p in ps && p.cls.hasBoot
    ensures Occurrences(FireAll(cbs, preflight) + BootAll(ps, preflight), ProviderBooted(p)) >= 2
  {
    FireAllCovers(cbs, BootProviderCallback(p), preflight);
    BootAllCovers(ps, p, preflight);
    OccurrencesAppend(FireAll(cbs, preflight), BootAll(ps, preflight), ProviderBooted(p));
  }

  /**
   * getProviders($name): the registered instances of the named class, in
   * registration order. `instanceof` is taken as class-name equality.
   */
  function ProvidersOf(ps: seq<ServiceProvider>, name: string): (r: seq<ServiceProvider>)
    ensures forall p | p in r :: p in ps && p.cls.name == name
    ensures forall i | 0 <= i < |ps| && ps[i].cls.name == name :: ps[i] in r
    ensures |r| <= |ps|
    ensures r == [] <==> name !in Names(ps)
  {
    if ps == [] then []
    else (if ps[0].cls.name == name then [ps[0]] else []) + ProvidersOf(ps[1..], name)
  }

  /** getProviders over two registration runs is the matches of the first run, then those of the second. */
  lemma {:induction false} ProvidersOfAppend(a: seq<ServiceProvider>, b: seq<ServiceProvider>, name: string)
    ensures ProvidersOf(a + b, name) == ProvidersOf(a, name) + ProvidersOf(b, name)
  {
    if a != [] {
      assert (a + b)[1..] == a[1..] + b;
      ProvidersOfAppend(a[1..], b, name);
    } else {
      assert a + b == b;
    }
  }

  /** The first instance that getProviders finds is the earliest registered one of that class. */
  lemma {:induction false} ProvidersOfHead(ps: seq<ServiceProvider>, name: string)
    requires ProvidersOf(ps, name) != []
    ensures exists i :: (0 <= i < |ps| && ps[i] == ProvidersOf(ps, name)[0]
                         && forall j | 0 <= j < i :: ps[j].cls.name != name)
  {
    if ps[0].cls.name != name {
      ProvidersOfHead(ps[1..], name);
      var i :| 0 <= i < |ps[1..]| && ps[1..][i] == ProvidersOf(ps[1..], name)[0]
        && (forall j | 0 <= j < i :: ps[1..][j].cls.name != name);
      assert ps[i + 1] == ProvidersOf(ps, name)[0];
      forall j | 0 <= j < i + 1 ensures ps[j].cls.name != name {
        if j > 0 { assert ps[j] == ps[1..][j - 1]; }
      }
    } else {
      assert ps[0] == ProvidersOf(ps, name)[0];
    }
  }

  /** getProvider($name): `array_values(getProviders($name))[0] ?? null`. */
  function FirstProvider(ps: seq<ServiceProvider>, name: string): (r: Option<ServiceProvider>)
    ensures r.Some? <==> name in Names(ps)
    ensures r.Some? ==> r.value in ps && r.value.cls.name == name
  {
    var found := ProvidersOf(ps, name);
    if found == [] then None else Some(found[0])
  }

  /** The instance getProvider finds is the earliest registered one of that class. */
  lemma FirstProviderIsEarliest(ps: seq<ServiceProvider>, name: string)
    requires name in Names(ps)
    ensures exists i :: (0 <= i < |ps| && ps[i] == FirstProvider(ps, name).value
                         && forall j | 0 <= j < i :: ps[j].cls.name != name)
  {
    ProvidersOfHead(ps, name);
  }

  /** `Str::startsWith($provider, ['Illuminate\\', 'Roots\\'])`. */
  predicate IsFrameworkProvider(name: string) {
    "Illuminate\\" <= name || "Roots\\" <= name
  }

  /** The configured providers that pass (`keep`) or fail the framework test, in order. */
  function Partition(names: seq<string>, keep: bool): (r: seq<string>)
    ensures forall x | x in r :: IsFrameworkProvider(x) == keep
    ensures |r| <= |names|
  {
    if names == [] then []
    else
      (if IsFrameworkProvider(names[0]) == keep then [names[0]] else [])
        + Partition(names[1..], keep)
  }

  /** The two halves of the partition together hold exactly the configured providers. */
  lemma {:induction false} PartitionSplits(names: seq<string>)
    ensures multiset(Partition(names, true)) + multiset(Partition(names, false)) == multiset(names)
  {
    if names != [] {
      var h, t := names[0], names[1..];
      PartitionSplits(t);
      assert names == [h] + t;
      if IsFrameworkProvider(h) {
        assert Partition(names, true) == [h] + Partition(t, true);
        assert Partition(names, false) == Partition(t, false);
      } else {
        assert Partition(names, true) == Partition(t, true);
        assert Partition(names, false) == [h] + Partition(t, false);
      }
    }
  }

  /** Partitioning a concatenation partitions each part and keeps their order. */
  lemma {:induction false} PartitionAppend(a: seq<string>, b: seq<string>, keep: bool)
    ensures Partition(a + b, keep) == Partition(a, keep) + Partition(b, keep)
  {
    if a != [] {
      assert (a + b)[1..] == a[1..] + b;
      PartitionAppend(a[1..], b, keep);
    } else {
      assert a + b == b;
    }
  }

  /** What `Collection::splice` leaves behind: the removed slice it returns, and the items it keeps. */
  datatype Spliced<T> = Spliced(removed: seq<T>, kept: seq<T>)

  /**
   * `array_splice($items, $offset, $length, $replacement)` for a
   * non-negative offset and length: the offset is clamped to the end, and
   * the removed slice to what is left after it.
   */
  function Splice<T>(items: seq<T>, offset: nat, length: nat, replacement: seq<T>): Spliced<T> {
    var o := if offset <= |items| then offset else |items|;
    var n := if length <= |items| - o then length else |items| - o;
    Spliced(items[o..o + n], items[..o] + replacement + items[o + n..])
  }

  /** Splicing loses nothing: the removed slice and the kept items hold the old items and the replacement. */
  lemma SpliceKeepsEverything<T>(items: seq<T>, offset: nat, length: nat, replacement: seq<T>)
    ensures var r := Splice(items, offset, length, replacement);
      multiset(r.removed) + multiset(r.kept) == multiset(items) + multiset(replacement)
  {
    var o := if offset <= |items| then offset else |items|;
    var n := if length <= |items| - o then length else |items| - o;
    var pre, mid, post := items[..o], items[o..o + n], items[o + n..];
    assert items == pre + mid + post;
    assert Splice(items, offset, length, replacement) == Spliced(mid, pre + replacement + post);
    assert multiset(items) == multiset(pre) + multiset(mid) + multiset(post);
    assert multiset(pre + replacement + post) == multiset(pre) + multiset(replacement) + multiset(post);
  }

  /** `Collection::collapse` on a collection of lists: their concatenation, in order. */
  function Collapse<T>(groups: seq<seq<T>>): seq<T> {
    if groups == [] then [] else groups[0] + Collapse(groups[1..])
  }

  /** Collapsing three lists concatenates them. */
  lemma CollapseThree<T>(a: seq<T>, b: seq<T>, c: seq<T>)
    ensures Collapse([a, b, c]) == a + b + c
  {
    assert [a, b, c][1..] == [b, c];
    assert [b, c][1..] == [c];
    assert [c][1..] == [];
    assert Collapse([c]) == c + Collapse([]);
    assert Collapse([b, c]) == b + c;
  }

  /** `splice(1, 0, [$x])` on a pair removes nothing and puts `$x` between the two. */
  lemma SpliceBetween<T>(a: T, b: T, x: T)
    ensures Splice([a, b], 1, 0, [x]) == Spliced([], [a, x, b])
  {
    assert [a, b][..1] == [a];
    assert [a, b][1..] == [b];
  }

  /** `partition(...)` on the configured providers: the framework half, then the rest. */
  function ConfiguredGroups(configured: seq<string>): seq<seq<string>> {
    [Partition(configured, true), Partition(configured, false)]
  }

  /**
   * The list registerConfiguredProviders hands to the provider repository
   * as written: `splice` is chained into the assignment, so `$providers` is
   * the slice it removed, and zero items are removed.
   */
  function ConfiguredProvidersAsWritten(configured: seq<string>, packages: seq<string>): seq<string> {
    Collapse(Splice(ConfiguredGroups(configured), 1, 0, [packages]).removed)
  }

  /** As written, the repository is handed no provider at all, whatever is configured. */
  lemma AsWrittenLoadsNothing(configured: seq<string>, packages: seq<string>)
    ensures ConfiguredProvidersAsWritten(configured, packages) == []
  {
    SpliceBetween(Partition(configured, true), Partition(configured, false), packages);
  }

  /** One framework provider and one package provider: as written neither reaches the repository. */
  lemma AsWrittenExample()
    ensures ConfiguredProvidersAsWritten(["Roots\\Acorn\\X"], ["Vendor\\P"]) == []
    ensures ConfiguredProviderOrder(["Roots\\Acorn\\X"], ["Vendor\\P"]) == ["Roots\\Acorn\\X", "Vendor\\P"]
  {
    AsWrittenLoadsNothing(["Roots\\Acorn\\X"], ["Vendor\\P"]);
    assert IsFrameworkProvider("Roots\\Acorn\\X");
    assert Partition(["Roots\\Acorn\\X"], true) == ["Roots\\Acorn\\X"];
    assert Partition(["Roots\\Acorn\\X"], false) == [];
    SpliceBetween(["Roots\\Acorn\\X"], [], ["Vendor\\P"]);
    CollapseThree(["Roots\\Acorn\\X"], ["Vendor\\P"], []);
  }

  /**
   * The order the provider repository is evidently meant to receive:
   * partition the configured list into framework providers and the rest,
   * splice the package-manifest providers in between (keeping the spliced
   * collection), then collapse.
   */
  function ConfiguredProviderOrder(configured: seq<string>, packages: seq<string>): (r: seq<string>)
    ensures multiset(r) == multiset(configured) + multiset(packages)
  {
    var framework, others := Partition(configured, true), Partition(configured, false);
    SpliceBetween(framework, others, packages);
    CollapseThree(framework, packages, others);
    PartitionSplits(configured);
    Collapse(Splice(ConfiguredGroups(configured), 1, 0, [packages]).kept)
  }

  /** Whenever any provider is configured or discovered, the list as written loses it. */
  lemma AsWrittenDropsProviders(configured: seq<string>, packages: seq<string>)
    requires |configured| + |packages| > 0
    ensures ConfiguredProvidersAsWritten(configured, packages) != ConfiguredProviderOrder(configured, packages)
  {
    AsWrittenLoadsNothing(configured, packages);
    var r := ConfiguredProviderOrder(configured, packages);
    assert |multiset(r)| == |configured| + |packages|;
  }

  /**
   * The framework providers come first, then the package providers as the
   * manifest lists them, then every other configured provider; each group
   * keeps its order (with PartitionAppend, the configured order).
   */
  lemma ConfiguredProviderOrderGroups(configured: seq<string>, packages: seq<string>)
    ensures ConfiguredProviderOrder(configured, packages)
            == Partition(configured, true) + packages + Partition(configured, false)
    ensures var r, k := ConfiguredProviderOrder(configured, packages), |Partition(configured, true)|;
      && k + |packages| <= |r|
      && (forall i | 0 <= i < k :: IsFrameworkProvider(r[i]))
      && r[k..k + |packages|] == packages
      && (forall i | k + |packages| <= i < |r| :: !IsFrameworkProvider(r[i]))
  {
    var framework, others := Partition(configured, true), Partition(configured, false);
    var r := ConfiguredProviderOrder(configured, packages);
    var k := |framework|;
    SpliceBetween(framework, others, packages);
    CollapseThree(framework, packages, others);
    assert r == framework + packages + others;
    assert forall i | 0 <= i < k :: r[i] == framework[i];
    assert r[k..k + |packages|] == packages;
    assert forall i | k + |packages| <= i < |r| :: r[i] == others[i - k - |packages|];
  }
}

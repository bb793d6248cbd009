/**
 * The configuration store and its change notifier: one current snapshot,
 * replaced whole by a swap, and per-flag subscriber lists that are told of
 * every flag whose value a replacement changes.
 *
 * A subscriber's `Changed(name, old, new)` handler is code outside this
 * model; each call to it is recorded as an `Event` appended to the store's
 * `delivered` log instead of being run.
 */
module FeatureStore {
  import opened FeatureFlags

  /** The identity of a registered subscriber. */
  datatype Subscriber = Subscriber(id: nat)

  /** One call `sub.Changed(name, oldValue, newValue)`. */
  datatype Event = Changed(sub: Subscriber, name: string, oldValue: string, newValue: string)

  type Subscriptions = map<string, seq<Subscriber>>

  /** The subscribers registered for `f`; none when `f` was never subscribed to. */
  function SubsOf(subs: Subscriptions, f: string): seq<Subscriber> {
    if f in subs then subs[f] else []
  }

  /** The flags whose value differs between `prev` and `next`, over the keys of `next`. */
  function ChangedKeys(prev: Config, next: Config): set<string> {
    set k | k in next && next[k] != Lookup(prev, k)
  }

  /** `order` visits every changed flag exactly once, in some order. */
  ghost predicate SignalOrder(order: seq<string>, prev: Config, next: Config) {
    NoDuplicates(order) && forall k :: k in order <==> k in ChangedKeys(prev, next)
  }

  /** The calls one signal makes: every subscriber in `arr`, in list order. */
  function Notifications(arr: seq<Subscriber>, f: string, o: string, n: string): (r: seq<Event>)
    ensures |r| == |arr|
  {
    seq(|arr|, i requires 0 <= i < |arr| => Changed(arr[i], f, o, n))
  }

  /** The calls made by signalling the flags of `order`, one after the other. */
  function Fanout(order: seq<string>, prev: Config, next: Config, subs: Subscriptions): seq<Event> {
    if order == [] then []
    else
      var k := order[|order| - 1];
      Fanout(order[..|order| - 1], prev, next, subs) + Notifications(SubsOf(subs, k), k, Lookup(prev, k), Lookup(next, k))
  }

  /** Signalling one more flag appends that flag's calls. */
  lemma FanoutAppend(order: seq<string>, k: string, prev: Config, next: Config, subs: Subscriptions)
    ensures Fanout(order + [k], prev, next, subs) ==
      Fanout(order, prev, next, subs) + Notifications(SubsOf(subs, k), k, Lookup(prev, k), Lookup(next, k))
  {
  }

  /** A subscriber list after registering `s`: appended at the end only when absent. */
  function WithSubscriber(arr: seq<Subscriber>, s: Subscriber): (r: seq<Subscriber>)
    ensures forall t :: t in r <==> t in arr || t == s
    ensures |arr| <= |r| <= |arr| + 1 && r[..|arr|] == arr
  {
    if s in arr then arr else arr + [s]
  }

  // ---------------------------------------------------------------------
  // Properties of the notifier

  /** In a list without duplicates, a member occurs exactly once. */
  lemma {:induction false} NoDuplicatesCount<T>(s: seq<T>, x: T)
    requires NoDuplicates(s) && x in s
    ensures multiset(s)[x] == 1
  {
    if s[0] == x {
      assert x !in s[1..];
    } else {
      NoDuplicatesCount(s[1..], x);
    }
    assert s == [s[0]] + s[1..];
  }

  /** A signal reaches each listed subscriber as often as it is listed, and nobody else. */
  lemma {:induction false} NotificationsCount(arr: seq<Subscriber>, f: string, o: string, n: string, e: Event)
    ensures multiset(Notifications(arr, f, o, n))[e] ==
      if e.name == f && e.oldValue == o && e.newValue == n then multiset(arr)[e.sub] else 0
  {
    if arr != [] {
      NotificationsCount(arr[1..], f, o, n, e);
      assert Notifications(arr, f, o, n) == [Changed(arr[0], f, o, n)] + Notifications(arr[1..], f, o, n);
      assert arr == [arr[0]] + arr[1..];
    }
  }

  /** Every call of a fan-out goes to a subscriber of a signalled flag, with that flag's old and new values. */
  lemma {:induction false} FanoutOnlySubscribers(order: seq<string>, prev: Config, next: Config, subs: Subscriptions, e: Event)
    requires e in Fanout(order, prev, next, subs)
    ensures e.name in order && e.sub in SubsOf(subs, e.name)
    ensures e.oldValue == Lookup(prev, e.name) && e.newValue == Lookup(next, e.name)
  {
    var k := order[|order| - 1];
    var front := order[..|order| - 1];
    if e in Fanout(front, prev, next, subs) {
      FanoutOnlySubscribers(front, prev, next, subs, e);
      assert e.name in order;
    } else {
      var arr := SubsOf(subs, k);
      var i :| 0 <= i < |arr| && Notifications(arr, k, Lookup(prev, k), Lookup(next, k))[i] == e;
    }
  }

  /** Over duplicate-free flags, a fan-out calls each subscriber of a signalled flag once per listing. */
  lemma {:induction false} FanoutCount(order: seq<string>, prev: Config, next: Config, subs: Subscriptions, s: Subscriber, f: string)
    requires NoDuplicates(order)
    ensures multiset(Fanout(order, prev, next, subs))[Changed(s, f, Lookup(prev, f), Lookup(next, f))] ==
      if f in order then multiset(SubsOf(subs, f))[s] else 0
  {
    if order != [] {
      var k := order[|order| - 1];
      var front := order[..|order| - 1];
      var e := Changed(s, f, Lookup(prev, f), Lookup(next, f));
      FanoutCount(front, prev, next, subs, s, f);
      NotificationsCount(SubsOf(subs, k), k, Lookup(prev, k), Lookup(next, k), e);
      assert order == front + [k];
      assert k !in front;
    }
  }

  /**
   * Each changed flag reaches each of its subscribers exactly once: for a
   * replacement of `prev` by `next` signalled in `order`, a subscriber registered once for a flag gets exactly one call
   * with that flag's old and new values when the flag changed, and none when
   * it did not.
   */
  lemma ReplacementNotifiesOncePerChange(order: seq<string>, prev: Config, next: Config, subs: Subscriptions, s: Subscriber, f: string)
    requires SignalOrder(order, prev, next)
    requires NoDuplicates(SubsOf(subs, f))
    ensures multiset(Fanout(order, prev, next, subs))[Changed(s, f, Lookup(prev, f), Lookup(next, f))] ==
      if f in ChangedKeys(prev, next) && s in SubsOf(subs, f) then 1 else 0
  {
    FanoutCount(order, prev, next, subs, s, f);
    if f in order && s in SubsOf(subs, f) {
      NoDuplicatesCount(SubsOf(subs, f), s);
    }
  }

  /**
   * Nothing reaches anyone else: no call made by a replacement concerns an
   * unchanged flag or goes to a subscriber not registered for its flag.
   */
  lemma ReplacementNotifiesOnlySubscribersOfChanges(order: seq<string>, prev: Config, next: Config, subs: Subscriptions, e: Event)
    requires SignalOrder(order, prev, next)
    requires e in Fanout(order, prev, next, subs)
    ensures e.name in ChangedKeys(prev, next) && e.sub in SubsOf(subs, e.name)
  {
    FanoutOnlySubscribers(order, prev, next, subs, e);
  }

  /** For snapshots over the same registry, the changed flags are the registry flags whose values differ. */
  lemma ChangedKeysOverRegistry(reg: Registry, prev: Config, next: Config)
    requires prev.Keys == reg.Keys && next.Keys == reg.Keys
    ensures ChangedKeys(prev, next) == set k | k in reg && prev[k] != next[k]
  {
  }

  /** Registering keeps a list duplicate-free, and afterwards `s` is listed exactly once. */
  lemma {:induction false} WithSubscriberOnce(arr: seq<Subscriber>, s: Subscriber)
    requires NoDuplicates(arr)
    ensures NoDuplicates(WithSubscriber(arr, s)) && multiset(WithSubscriber(arr, s))[s] == 1
  {
    NoDuplicatesCount(WithSubscriber(arr, s), s);
  }

  /** A replacement by the same snapshot changes nothing and signals nothing. */
  lemma {:induction false} SameConfigIsSilent(order: seq<string>, c: Config, subs: Subscriptions)
    requires SignalOrder(order, c, c)
    ensures order == [] && Fanout(order, c, c, subs) == []
  {
    forall x ensures multiset(order)[x] == 0 {
      assert x !in ChangedKeys(c, c);
    }
    assert multiset(order) == multiset{};
  }

  /** A duplicate-free enumeration of a single flag is that flag alone. */
  lemma {:induction false} SingleChangeOrder(order: seq<string>, prev: Config, next: Config, f: string)
    requires SignalOrder(order, prev, next) && ChangedKeys(prev, next) == {f}
    ensures order == [f]
  {
    assert f in order;
    NoDuplicatesCount(order, f);
    forall x ensures multiset(order)[x] == multiset{f}[x] {
      assert x in order <==> x == f;
    }
    assert multiset(order) == multiset{f};
    assert order[0] in order;
  }

  /**
   * Old {A: Enabled, B: Disabled}, new {A: Enabled, B: Enabled}: exactly one
   * signal, for B, and a subscriber of A alone hears nothing.
   */
  lemma NotificationExample(order: seq<string>, a: Subscriber, b: Subscriber)
    requires SignalOrder(order, map["A" := Enabled, "B" := Disabled], map["A" := Enabled, "B" := Enabled])
    ensures order == ["B"]
    ensures Fanout(order, map["A" := Enabled, "B" := Disabled], map["A" := Enabled, "B" := Enabled],
                   map["A" := [a], "B" := [b]]) == [Changed(b, "B", Disabled, Enabled)]
  {
    var prev, next := map["A" := Enabled, "B" := Disabled], map["A" := Enabled, "B" := Enabled];
    assert ChangedKeys(prev, next) == {"B"} by {
      assert "B" in ChangedKeys(prev, next);
      assert "A" !in ChangedKeys(prev, next);
    }
    SingleChangeOrder(order, prev, next, "B");
    assert order[..0] == [];
  }

  // ---------------------------------------------------------------------
  // The store

  class Store {
    /** The registry of known flags. */
    const features: Registry
    /** The current snapshot. */
    var current: Config
    /** Subscribers per flag name, in registration order. */
    var subs: Subscriptions
    /** Every call made to a subscriber's handler, in order. */
    var delivered: seq<Event>

    /** The current snapshot covers exactly the registry; no subscriber is listed twice for a flag. */
    ghost predicate Valid()
      reads this
    {
      && current.Keys == features.Keys
      && forall f :: f in subs ==> NoDuplicates(subs[f])
    }

    /** Start-up: the current snapshot holds every flag at its default; nobody is subscribed. */
    constructor (features: Registry)
      ensures Valid()
      ensures this.features == features && current == DefaultsOf(features)
      ensures subs == map[] && delivered == []
    {
      this.features := features;
      var c := NewDefaults(features);
      current := c;
      subs := map[];
      delivered := [];
    }

    /** The current snapshot, which covers exactly the registry. */
    function GetConfig(): (c: Config)
      reads this
      ensures c == current
      ensures Valid() ==> c.Keys == features.Keys
    {
      current
    }

    /** Whether `f` is enabled in the current snapshot; a flag outside the registry never is. */
    function IsEnabled(f: string): (b: bool)
      reads this
      ensures b <==> f in current && current[f] == Enabled
      ensures Valid() && f !in features ==> !b
    {
      FeatureFlags.IsEnabled(GetConfig(), f)
    }

    /** Whether `f` is not enabled in the current snapshot; a flag outside the registry always is. */
    function IsDisabled(f: string): (b: bool)
      reads this
      ensures b == !IsEnabled(f)
      ensures Valid() && f !in features ==> b
    {
      FeatureFlags.IsDisabled(GetConfig(), f)
    }

    /** Installs `c` and hands back the snapshot it replaces. */
    method Swap(c: Config) returns (prev: Config)
      modifies this`current
      ensures prev == old(current) && current == c
    {
      prev := current;
      current := c;
    }

    /** Calls the handler of every subscriber of `f`, in registration order. */
    method Signal(f: string, o: string, n: string)
      modifies this`delivered
      ensures delivered == old(delivered) + Notifications(SubsOf(subs, f), f, o, n)
    {
      var arr := SubsOf(subs, f);
      var i := 0;
      while i < |arr|
        invariant 0 <= i <= |arr|
        invariant delivered == old(delivered) + Notifications(arr[..i], f, o, n)
      {
        delivered := delivered + [Changed(arr[i], f, o, n)];
        i := i + 1;
        assert Notifications(arr[..i], f, o, n) == Notifications(arr[..i - 1], f, o, n) + [Changed(arr[i - 1], f, o, n)];
      }
      assert arr[..i] == arr;
    }

    /**
     * Installs `c`, then signals every flag of `c` whose value differs from
     * the replaced snapshot (a flag missing there reads as ""). The ghost
     * `order` is the order the flags were signalled in.
     */
    method UpdateConfig(c: Config) returns (ghost order: seq<string>)
      modifies this`current, this`delivered
      ensures current == c
      ensures SignalOrder(order, old(current), c)
      ensures delivered == old(delivered) + Fanout(order, old(current), c, subs)
    {
      var prev := Swap(c);
      order := [];
      var todo := c.Keys;
      while todo != {}
        invariant todo <= c.Keys
        invariant current == c
        invariant NoDuplicates(order)
        invariant forall k :: k in order <==> k in ChangedKeys(prev, c) && k !in todo
        invariant delivered == old(delivered) + Fanout(order, prev, c, subs)
        decreases todo
      {
        var k :| k in todo;
        var v := c[k];
        ghost var signalled := order;
        if v != Lookup(prev, k) {
          Signal(k, Lookup(prev, k), v);
          order := order + [k];
          FanoutAppend(signalled, k, prev, c, subs);
        }
        assert forall x :: x in order <==> x in signalled || (x == k && x in ChangedKeys(prev, c));
        todo := todo - {k};
      }
    }

    /** Replaces the configuration by the one built from `m` and notifies subscribers of the changes. */
    method UpdateConfigFromMap(m: map<string, string>) returns (ghost order: seq<string>)
      requires Valid()
      modifies this`current, this`delivered
      ensures Valid()
      ensures current == FromMap(features, m)
      ensures SignalOrder(order, old(current), current)
      ensures delivered == old(delivered) + Fanout(order, old(current), current, subs)
    {
      var config := BuildFromMap(features, m);
      order := UpdateConfig(config);
    }

    /** Replaces the configuration by the one built from the environment `env` and notifies subscribers of the changes. */
    method UpdateConfigFromEnvironment(env: map<string, string>) returns (ghost order: seq<string>)
      requires Valid()
      modifies this`current, this`delivered
      ensures Valid()
      ensures current == FromEnvironment(features, env)
      ensures SignalOrder(order, old(current), current)
      ensures delivered == old(delivered) + Fanout(order, old(current), current, subs)
    {
      var config := BuildFromEnvironment(features, env);
      order := UpdateConfig(config);
    }

    /** Registers `s` for changes of `f`; registering it twice is a no-op. */
    method Subscribe(s: Subscriber, f: string)
      requires Valid()
      modifies this`subs
      ensures Valid()
      ensures subs == old(subs)[f := WithSubscriber(SubsOf(old(subs), f), s)]
    {
      var arr := SubsOf(subs, f);
      if s !in arr {
        arr := arr + [s];
      }
      subs := subs[f := arr];
    }
  }

  /**
   * With the built-in registry: subscribe to "EXAMPLE", then set it to
   * "Disabled" through the map pipeline. The flag reads as disabled right
   * after, and the subscriber was called exactly once, with the old and new
   * values.
   */
  method ExampleScenario(s: Subscriber) returns (enabled: bool, log: seq<Event>)
    ensures !enabled
    ensures log == [Changed(s, "EXAMPLE", Enabled, Disabled)]
  {
    var store := new Store(Features);
    store.Subscribe(s, "EXAMPLE");
    ghost var before := store.current;
    ghost var order := store.UpdateConfigFromMap(map["EXAMPLE" := Disabled]);
    assert store.current == map["EXAMPLE" := Disabled] by {
      assert AcceptedEntries(Features, map["EXAMPLE" := Disabled]) == map["EXAMPLE" := Disabled];
    }
    assert ChangedKeys(before, store.current) == {"EXAMPLE"} by {
      assert "EXAMPLE" in ChangedKeys(before, store.current);
    }
    SingleChangeOrder(order, before, store.current, "EXAMPLE");
    assert order[..0] == [];
    enabled := store.IsEnabled("EXAMPLE");
    log := store.delivered;
  }
}

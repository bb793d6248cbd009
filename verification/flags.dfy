/**
 * Feature flags: the registry of known flags, configuration snapshots built
 * from it, the two ingestion pipelines that build a snapshot (from an
 * environment and from an arbitrary string map) and the read queries.
 *
 * A snapshot (`Config`) is a value: once built it is never changed, and
 * replacing the configuration means building a new one.
 */
module FeatureFlags {

  /** The two values a flag is meant to hold. */
  const Enabled: string := "Enabled"
  const Disabled: string := "Disabled"

  predicate Allowed(v: string) {
    v == Enabled || v == Disabled
  }

  /** A registry entry: the default value and lifecycle metadata of one flag. */
  datatype FeatureSpec = FeatureSpec(defaultValue: string, since: string, stage: string)

  /** The catalog of known flags, keyed by flag name. */
  type Registry = map<string, FeatureSpec>

  /** The registry the package is built with. */
  const Features: Registry := map["EXAMPLE" := FeatureSpec(Enabled, "2.0", "alpha")]

  /** A configuration snapshot: flag name to flag value. */
  type Config = map<string, string>

  /** Reading a missing key of a string map yields the empty string. */
  function Lookup(m: map<string, string>, k: string): string {
    if k in m then m[k] else ""
  }

  predicate NoDuplicates<T(==)>(s: seq<T>) {
    forall i, j :: 0 <= i < j < |s| ==> s[i] != s[j]
  }

  // ---------------------------------------------------------------------
  // Specification of the snapshot builders

  /** Every known flag at its default. */
  function DefaultsOf(reg: Registry): Config {
    map k | k in reg :: reg[k].defaultValue
  }

  /** The entries of `m` the map pipeline accepts: known flag, allowed value. */
  function AcceptedEntries(reg: Registry, m: map<string, string>): map<string, string> {
    map k | k in m && k in reg && Allowed(m[k]) :: m[k]
  }

  /** The map pipeline: the defaults, overwritten by the accepted entries of `m`. */
  function FromMap(reg: Registry, m: map<string, string>): Config {
    DefaultsOf(reg) + AcceptedEntries(reg, m)
  }

  /** The known flags the environment sets to a non-empty value, verbatim. */
  function EnvironmentOverrides(reg: Registry, env: map<string, string>): map<string, string> {
    map k | k in reg && Lookup(env, k) != "" :: Lookup(env, k)
  }

  /** The environment pipeline: the defaults, overwritten by non-empty environment values. */
  function FromEnvironment(reg: Registry, env: map<string, string>): Config {
    DefaultsOf(reg) + EnvironmentOverrides(reg, env)
  }

  // ---------------------------------------------------------------------
  // The snapshot builders, as the source runs them: a loop that fills a
  // fresh map. Go visits map entries in an unspecified order; each loop here
  // takes its next key by an arbitrary choice.

  /** Builds the all-defaults snapshot. */
  method NewDefaults(reg: Registry) returns (c: Config)
    ensures c.Keys == reg.Keys
    ensures forall k :: k in reg ==> c[k] == reg[k].defaultValue
    ensures c == DefaultsOf(reg)
  {
    c := map[];
    var todo := reg.Keys;
    while todo != {}
      invariant todo <= reg.Keys
      invariant c.Keys == reg.Keys - todo
      invariant forall k :: k in c ==> c[k] == reg[k].defaultValue
      decreases todo
    {
      var k :| k in todo;
      c := c[k := reg[k].defaultValue];
      todo := todo - {k};
    }
  }

  /**
   * Builds a snapshot from an arbitrary string map: unknown flags and values
   * other than "Enabled"/"Disabled" are dropped, every other known flag keeps
   * its default. The result does not depend on the order the entries are
   * visited in.
   */
  method BuildFromMap(reg: Registry, m: map<string, string>) returns (c: Config)
    ensures c == FromMap(reg, m)
  {
    c := NewDefaults(reg);
    var todo := m.Keys;
    while todo != {}
      invariant todo <= m.Keys
      invariant c == DefaultsOf(reg) + map k | k in m.Keys - todo && k in reg && Allowed(m[k]) :: m[k]
      decreases todo
    {
      var k :| k in todo;
      var v := m[k];
      ghost var done := m.Keys - todo;
      if k in reg && Allowed(v) {
        c := c[k := v];
      }
      todo := todo - {k};
      assert m.Keys - todo == done + {k};
    }
    assert m.Keys - todo == m.Keys;
  }

  /**
   * Builds a snapshot from an environment: every known flag takes its
   * environment value when that value is non-empty, unchecked, and its
   * default otherwise. An absent variable reads as the empty string.
   */
  method BuildFromEnvironment(reg: Registry, env: map<string, string>) returns (c: Config)
    ensures c == FromEnvironment(reg, env)
  {
    c := NewDefaults(reg);
    var todo := reg.Keys;
    while todo != {}
      invariant todo <= reg.Keys
      invariant c == DefaultsOf(reg) + map k | k in reg.Keys - todo && Lookup(env, k) != "" :: Lookup(env, k)
      decreases todo
    {
      var k :| k in todo;
      var envV := Lookup(env, k);
      ghost var done := reg.Keys - todo;
      if envV != "" {
        c := c[k := envV];
      }
      todo := todo - {k};
      assert reg.Keys - todo == done + {k};
    }
    assert reg.Keys - todo == reg.Keys;
  }

  // ---------------------------------------------------------------------
  // Properties of the builders

  /** The map pipeline yields exactly the known flags, each at its accepted value or its default. */
  lemma FromMapAt(reg: Registry, m: map<string, string>, k: string)
    ensures k in FromMap(reg, m) <==> k in reg
    ensures k in reg ==>
      FromMap(reg, m)[k] == if k in m && Allowed(m[k]) then m[k] else reg[k].defaultValue
  {
  }

  /** An entry for an unknown flag changes nothing. */
  lemma FromMapIgnoresUnknown(reg: Registry, m: map<string, string>, k: string, v: string)
    requires k !in reg
    ensures FromMap(reg, m[k := v]) == FromMap(reg, m)
  {
  }

  /** An entry with a value other than "Enabled"/"Disabled" is as good as absent. */
  lemma FromMapIgnoresInvalid(reg: Registry, m: map<string, string>, k: string, v: string)
    requires !Allowed(v)
    ensures FromMap(reg, m[k := v]) == FromMap(reg, m - {k})
  {
  }

  /** Only the entries for known flags matter: the input may be restricted to the registry. */
  lemma FromMapOnlyKnownKeys(reg: Registry, m: map<string, string>)
    ensures FromMap(reg, m) == FromMap(reg, map k | k in m && k in reg :: m[k])
  {
  }

  /** With allowed defaults, every value the map pipeline produces is allowed. */
  lemma FromMapValuesAllowed(reg: Registry, m: map<string, string>)
    requires forall k :: k in reg ==> Allowed(reg[k].defaultValue)
    ensures forall k :: k in FromMap(reg, m) ==> Allowed(FromMap(reg, m)[k])
  {
  }

  /** The environment pipeline yields exactly the known flags, each at its non-empty environment value or its default. */
  lemma FromEnvironmentAt(reg: Registry, env: map<string, string>, k: string)
    ensures k in FromEnvironment(reg, env) <==> k in reg
    ensures k in reg ==>
      FromEnvironment(reg, env)[k] == if Lookup(env, k) != "" then Lookup(env, k) else reg[k].defaultValue
  {
  }

  /** The environment pipeline does not validate: any non-empty value reaches the snapshot. */
  lemma EnvironmentValueUnchecked()
    ensures FromEnvironment(Features, map["EXAMPLE" := "yes"]) == map["EXAMPLE" := "yes"]
    ensures !Allowed(FromEnvironment(Features, map["EXAMPLE" := "yes"])["EXAMPLE"])
  {
  }

  /** An entry for an unknown flag leaves the all-defaults snapshot. */
  lemma UnknownKeyImmunity()
    ensures FromMap(Features, map["NOT_A_FLAG" := Enabled]) == DefaultsOf(Features)
  {
  }

  /** A known flag given an invalid value keeps its default. */
  lemma InvalidValueImmunity()
    ensures FromMap(Features, map["EXAMPLE" := "Maybe"]) == map["EXAMPLE" := Enabled]
  {
  }

  // ---------------------------------------------------------------------
  // Read queries on a snapshot

  /** True exactly when the snapshot holds `f` with the value "Enabled". */
  function IsEnabled(c: Config, f: string): (r: bool)
    ensures r <==> f in c && c[f] == Enabled
  {
    Lookup(c, f) == Enabled
  }

  /** The negation of IsEnabled, so an absent flag reads as disabled. */
  function IsDisabled(c: Config, f: string): (r: bool)
    ensures r == !IsEnabled(c, f)
    ensures f !in c ==> r
  {
    Lookup(c, f) != Enabled
  }

  /** A flag outside the registry reads as disabled in any snapshot either pipeline builds. */
  lemma UnknownFlagReadsDisabled(reg: Registry, m: map<string, string>, env: map<string, string>, f: string)
    requires f !in reg
    ensures !IsEnabled(FromMap(reg, m), f) && IsDisabled(FromMap(reg, m), f)
    ensures !IsEnabled(FromEnvironment(reg, env), f) && IsDisabled(FromEnvironment(reg, env), f)
  {
  }
}

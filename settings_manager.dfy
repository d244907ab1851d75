/**
 * The bot's settings store: defaults overlaid with local overrides, read by
 * key and overridable at run time for keys that already have a value.
 */
module SettingsManager {
  import opened Common

  /** A setting's value: the settings hold flags, numbers and `null`. */
  datatype Value = Flag(b: bool) | Number(n: real) | Null

  /** The object spread `{...defaults, ...local}`: every key of either, local winning. */
  function Overlay(defaults: map<string, Value>, local: map<string, Value>): (r: map<string, Value>)
    ensures r.Keys == defaults.Keys + local.Keys
    ensures forall k :: k in local ==> r[k] == local[k]
    ensures forall k :: k in defaults && k !in local ==> r[k] == defaults[k]
  {
    map k | k in defaults.Keys + local.Keys :: if k in local then local[k] else defaults[k]
  }

  /** `values[key]`, with `None` for `undefined`. */
  function Read(values: map<string, Value>, key: string): (r: Option<Value>)
    ensures r.None? <==> key !in values
    ensures r.Some? ==> r.value == values[key]
  {
    if key in values then Some(values[key]) else None
  }

  /**
   * The values after `set(key, value)`: unchanged when the key has no value
   * yet or the new value is `undefined`, otherwise the key overwritten.
   */
  function Assign(values: map<string, Value>, key: string, value: Option<Value>): (r: map<string, Value>)
    ensures r.Keys == values.Keys
    ensures key !in values || value.None? ==> r == values
    ensures forall k :: k in values && k != key ==> r[k] == values[k]
  {
    if key in values && value.Some? then values[key := value.value] else values
  }

  /** Reading back a key that was set with a defined value gives that value; a key without a value stays without one. */
  lemma ReadAfterAssign(values: map<string, Value>, key: string, value: Option<Value>, other: string)
    ensures key in values && value.Some? ==> Read(Assign(values, key, value), key) == value
    ensures key !in values ==> Read(Assign(values, key, value), key).None?
    ensures other != key ==> Read(Assign(values, key, value), other) == Read(values, other)
  {
  }

  /** Overlaying local settings makes every local key read back as its local value, and every other key as its default. */
  lemma ReadOverlay(defaults: map<string, Value>, local: map<string, Value>, key: string)
    ensures Read(Overlay(defaults, local), key) == if key in local then Some(local[key]) else Read(defaults, key)
  {
  }

  class SettingsManager {
    var values: map<string, Value>

    /** Loads the defaults overlaid with the local settings. */
    constructor(defaults: map<string, Value>, local: map<string, Value>)
      ensures values == Overlay(defaults, local)
    {
      values := Overlay(defaults, local);
    }

    /** `get`: the stored value of a setting. */
    function Get(key: string): (r: Option<Value>)
      reads this
      ensures r.None? <==> key !in values
      ensures r.Some? ==> r.value == values[key]
    {
      Read(values, key)
    }

    /** `set`: overrides a setting that already has a value with a defined one. */
    method Set(key: string, value: Option<Value>)
      modifies this
      ensures values == Assign(old(values), key, value)
      ensures key in old(values) && value.Some? ==> Get(key) == value
    {
      if key !in values {
        return;
      }
      if value.None? {
        return;
      }
      values := values[key := value.value];
    }
  }
}

/**
  The options dictionary the optimizer wrappers and the least-squares driver
  share: one mutable dictionary that the wrapper fills with defaults and the
  driver empties by popping each key it knows. Option values are numbers
  (a Python bool is the number 0 or 1).
 */
module OptionsDicts {

  /** `d.pop(key, default)` on a dictionary value: the value found (or the default) and the dictionary without the key. */
  function Popped(d: map<string, real>, key: string, default: real): (r: (real, map<string, real>))
    ensures r.1.Keys == d.Keys - {key}
    ensures forall k :: k in r.1 ==> r.1[k] == d[k]
    ensures key in d ==> r.0 == d[key]
    ensures key !in d ==> r.0 == default
  {
    (if key in d then d[key] else default, d - {key})
  }

  /** `d.setdefault(key, value)` on a dictionary value: the key is added only when absent. */
  function WithDefault(d: map<string, real>, key: string, value: real): (r: map<string, real>)
    ensures r.Keys == d.Keys + {key}
    ensures key in d ==> r == d
    ensures key !in d ==> r[key] == value && forall k :: k in d ==> r[k] == d[k]
  {
    if key in d then d else d[key := value]
  }

  /** A value the caller supplied survives any number of defaults for the same key. */
  lemma DefaultNeverOverwrites(d: map<string, real>, key: string, v1: real, v2: real)
    requires key in d
    ensures WithDefault(WithDefault(d, key, v1), key, v2)[key] == d[key]
  {
  }

  /** Popping a key that was given a default yields the caller's value if there was one, else the default. */
  lemma PopAfterDefault(d: map<string, real>, key: string, v: real, fallback: real)
    ensures Popped(WithDefault(d, key, v), key, fallback).0 == (if key in d then d[key] else v)
    ensures Popped(WithDefault(d, key, v), key, fallback).1 == d - {key}
  {
  }

  class OptionsDict {
    var entries: map<string, real>

    constructor (entries: map<string, real>)
      ensures this.entries == entries
    {
      this.entries := entries;
    }

    /** `len(options)`. */
    function Size(): nat
      reads this
    {
      |entries.Keys|
    }

    /** `options.pop(key, default)`: remove the key in place and return its value, or the default. */
    method Pop(key: string, default: real) returns (v: real)
      modifies this
      ensures (v, entries) == Popped(old(entries), key, default)
    {
      v := if key in entries then entries[key] else default;
      entries := entries - {key};
    }

    /** `options.setdefault(key, value)`: add the key in place only when absent; return the value now stored. */
    method SetDefault(key: string, value: real) returns (v: real)
      modifies this
      ensures entries == WithDefault(old(entries), key, value)
      ensures v == entries[key]
    {
      if key !in entries {
        entries := entries[key := value];
      }
      v := entries[key];
    }
  }
}

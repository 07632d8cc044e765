/** The durable key-value area of the Capacitor `Preferences` plugin, as
    the two services use it: `get`, `set` and `remove` on string keys.
    Whether a call fails is decided by its environment and is passed in as
    a `fault` parameter; a failed call changes nothing. */
module Preferences {
  import opened Wrappers

  /** What a key holds. `Text(s)` is a string written as it is (the
      credential); `Encoded(x)` is the JSON text `JSON.stringify(x)`
      produced, kept abstract: parsing it yields `x` again. A `Text` value
      found where an encoded value is expected stands for a string that is
      empty or that `JSON.parse` cannot read back as a list. */
  datatype Value<T> = Text(s: string) | Encoded(data: T)

  /** The value under `key`, if any. */
  function Lookup<T>(entries: map<string, Value<T>>, key: string): (v: Option<Value<T>>)
    ensures v.Some? <==> key in entries
    ensures v.Some? ==> v.value == entries[key]
  {
    if key in entries then Some(entries[key]) else None
  }

  class Store<T> {
    var entries: map<string, Value<T>>

    constructor ()
      ensures entries == map[]
    {
      entries := map[];
    }

    /** `Preferences.get({ key })`. */
    method Get(key: string, fault: Option<Fault>) returns (r: Result<Option<Value<T>>, Fault>)
      ensures fault.Some? ==> r == Err(fault.value)
      ensures fault.None? ==> r.Ok? && (r.value.Some? <==> key in entries)
      ensures fault.None? && key in entries ==> r.value == Some(entries[key])
    {
      if fault.Some? {
        return Err(fault.value);
      }
      r := Ok(Lookup(entries, key));
    }

    /** `Preferences.set({ key, value })`. */
    method Set(key: string, value: Value<T>, fault: Option<Fault>) returns (r: Outcome<Fault>)
      modifies this
      ensures fault.Some? ==> r == Fail(fault.value) && entries == old(entries)
      ensures fault.None? ==> r == Pass && entries == old(entries)[key := value]
    {
      if fault.Some? {
        return Fail(fault.value);
      }
      entries := entries[key := value];
      r := Pass;
    }

    /** `Preferences.remove({ key })`. */
    method Remove(key: string, fault: Option<Fault>) returns (r: Outcome<Fault>)
      modifies this
      ensures fault.Some? ==> r == Fail(fault.value) && entries == old(entries)
      ensures fault.None? ==> r == Pass && entries == old(entries) - {key}
    {
      if fault.Some? {
        return Fail(fault.value);
      }
      entries := entries - {key};
      r := Pass;
    }
  }
}

/**
 * The shared context carrier: one key/value store threaded by reference
 * through every section and override of a build (the ContextHandler of
 * tests/unit/test_ystruct.py:443-451).
 */
module ContextCarrier {
  import opened Wrappers
  import opened Document

  /** What a read of a stored `v` hands back: a stored null reads as nothing. */
  function Read(v: Value): (r: Option<Value>)
    ensures r.None? <==> v.Null?
    ensures r.Some? ==> r.value == v
  {
    if v.Null? then None else Some(v)
  }

  /**
   * What `get(key)` returns on `store`: nothing when `key` was never set or
   * was set to null, otherwise the value last set under it.
   */
  function Stored(store: map<string, Value>, key: string): (r: Option<Value>)
    ensures r.None? <==> key !in store || store[key].Null?
    ensures r.Some? ==> key in store && r.value == store[key]
  {
    if key in store then Read(store[key]) else None
  }

  class Context {
    var store: map<string, Value>

    /** A carrier starts empty. */
    constructor ()
      ensures store == map[]
    {
      store := map[];
    }

    /**
     * `get(key)`: the value last set under `key`, or None if it was never
     * set or was set to null.
     */
    method Get(key: string) returns (r: Option<Value>)
      ensures r == Stored(store, key)
    {
      if key in store && !store[key].Null? {
        r := Some(store[key]);
      } else {
        r := None;
      }
    }

    /** `set(key, value)`: records `value` under `key`, leaving every other key alone. */
    method Set(key: string, value: Value)
      modifies this
      ensures store == old(store)[key := value]
      ensures key in store && store[key] == value
      ensures forall k :: k != key ==> (k in store <==> k in old(store))
    {
      store := store[key := value];
    }
  }
}

/**
 * IGenericCache: the key-value store each registered method keeps its results in. The
 * contract is that of a map: `put` inserts or overwrites, `get` returns what was put for the
 * key (or nothing), and `containsKey` says whether something was put for it. The store here
 * is backed by a plain map that never loses entries.
 */
module GenericCache {
  import opened Wrappers

  class MapStore<K(==), V> {
    /** What has been put, by key. */
    var contents: map<K, V>

    /** A new, empty store. */
    constructor ()
      ensures contents == map[]
    {
      contents := map[];
    }

    /** Puts `value` under `key`, replacing what was there; no other key changes. */
    method Put(key: K, value: V)
      modifies this
      ensures contents == old(contents)[key := value]
    {
      contents := contents[key := value];
    }

    /** The value last put under `key`, or None if nothing was. Changes nothing. */
    method Get(key: K) returns (r: Option<V>)
      ensures r.Some? <==> key in contents
      ensures r.Some? ==> r.value == contents[key]
    {
      r := if key in contents then Some(contents[key]) else None;
    }

    /** Whether something was put under `key`. Changes nothing. */
    method ContainsKey(key: K) returns (b: bool)
      ensures b <==> key in contents
    {
      b := key in contents;
    }
  }

  /**
   * The store's contract used together: after `put(k, v)`, `get(k)` returns `v`,
   * `containsKey(k)` holds, and every other key reads as before.
   */
  method PutThenRead<K(==), V>(store: MapStore<K, V>, key: K, value: V, other: K)
    returns (got: Option<V>, present: bool, otherBefore: Option<V>, otherAfter: Option<V>)
    modifies store
    ensures got == Some(value) && present
    ensures other != key ==> otherAfter == otherBefore
  {
    otherBefore := store.Get(other);
    store.Put(key, value);
    got := store.Get(key);
    present := store.ContainsKey(key);
    otherAfter := store.Get(other);
  }
}

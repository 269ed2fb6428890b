/** locked/map.h: an unordered map behind a mutex. */
module LockedMap {
  import opened Options

  class Map<K(==), V> {
    var entries: map<K, V>

    constructor ()
      ensures entries == map[]
    {
      entries := map[];
    }

    method Insert(key: K, value: V)
      modifies this
      ensures entries == old(entries)[key := value]
    {
      entries := entries[key := value];
    }

    /** Hands the value out and erases it in the same critical section. */
    method Fetch(key: K) returns (r: Option<V>)
      modifies this
      ensures r.Some? <==> key in old(entries)
      ensures r.Some? ==> r.value == old(entries)[key]
      ensures entries == old(entries) - {key}
    {
      if key !in entries {
        assert entries == entries - {key};
        return None;
      }
      r := Some(entries[key]);
      entries := entries - {key};
    }
  }
}

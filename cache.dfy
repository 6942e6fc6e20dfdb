/** The pluggable key -> string cache the client consults.  One class stands
    for the adapters: the default DevNull adapter, which keeps nothing and so
    never hits, and an adapter that keeps what it is given. */
module Cache {

  class CacheAdapter {
    /** False for the DevNull adapter. */
    const retains: bool
    var entries: map<string, string>

    ghost predicate Valid()
      reads this
    {
      !retains ==> entries == map[]
    }

    /** The default adapter: `has` is always false and `store` does nothing. */
    constructor DevNull()
      ensures Valid() && !retains && entries == map[]
    {
      retains := false;
      entries := map[];
    }

    /** An adapter that remembers what is stored, starting from `initial`. */
    constructor Retaining(initial: map<string, string>)
      ensures Valid() && retains && entries == initial
    {
      retains := true;
      entries := initial;
    }

    predicate Has(key: string)
      reads this
    {
      key in entries
    }

    /** The stored string; "" for a key that was never stored. */
    function Fetch(key: string): string
      reads this
    {
      if key in entries then entries[key] else ""
    }

    method Store(key: string, value: string)
      requires Valid()
      modifies this
      ensures Valid()
      ensures entries == if retains then old(entries)[key := value] else old(entries)
    {
      if retains {
        entries := entries[key := value];
      }
    }
  }

  /** A DevNull adapter never reports a hit. */
  lemma DevNullNeverHits(cache: CacheAdapter, key: string)
    requires cache.Valid() && !cache.retains
    ensures !cache.Has(key)
  {
  }
}

/** The process-wide executable cache: a map from compilation key to a
    possibly-null executable, with lookup, insert-if-absent and clear. The
    mutex that guards it is not modelled; every operation here runs under it. */
module ExecutableCaches {
  import opened StatusTypes
  import opened XlaTypes
  import opened CompilationKeys

  type Entries = map<KeyIdentity, CachedExecutable>

  /** `find`: Some(entry) on a hit, None on a miss. */
  function Lookup(m: Entries, id: KeyIdentity): (hit: Option<CachedExecutable>)
    ensures hit.Some? <==> id in m
    ensures hit.Some? ==> hit.value == m[id]
  {
    if id in m then Some(m[id]) else None
  }

  /** The outcome of `emplace`: the new map, the entry now stored for the
      key, and whether an insertion happened. */
  datatype Emplaced = Emplaced(entries: Entries, stored: CachedExecutable, inserted: bool)

  /** `emplace` on a hash map: insert only if the key is absent; either way
      the returned entry is the one the map holds afterwards, and no other
      key's entry changes. */
  function InsertIfAbsent(m: Entries, id: KeyIdentity, e: CachedExecutable): (r: Emplaced)
    ensures r.inserted <==> id !in m
    ensures id in r.entries && r.stored == r.entries[id]
    ensures id in m ==> r.stored == m[id] && r.entries == m
    ensures id !in m ==> r.stored == e
    ensures r.entries.Keys == m.Keys + {id}
    ensures forall k | k in m && k != id :: r.entries[k] == m[k]
  {
    if id in m then Emplaced(m, m[id], false) else Emplaced(m[id := e], e, true)
  }

  /** The shared cache object. `serialize` is the protocol buffer encoder
      used to compare keys. */
  class ExecutableCache {
    const serialize: AutotuneResult -> seq<byte>
    var entries: Entries

    constructor (serialize: AutotuneResult -> seq<byte>)
      ensures this.serialize == serialize && entries == map[]
    {
      this.serialize := serialize;
      entries := map[];
    }

    /** `executable_cache.find(key)`. */
    method Find(key: CompilationKey) returns (hit: Option<CachedExecutable>)
      ensures hit == Lookup(entries, Identity(serialize, key))
      ensures hit.Some? <==> Identity(serialize, key) in entries
      ensures hit.Some? ==> hit.value == entries[Identity(serialize, key)]
    {
      var id := Identity(serialize, key);
      if id in entries {
        hit := Some(entries[id]);
      } else {
        hit := None;
      }
    }

    /** `executable_cache.emplace(key, executable)`. */
    method Emplace(key: CompilationKey, e: CachedExecutable) returns (stored: CachedExecutable, inserted: bool)
      modifies this
      ensures var r := InsertIfAbsent(old(entries), Identity(serialize, key), e);
              entries == r.entries && stored == r.stored && inserted == r.inserted
    {
      var id := Identity(serialize, key);
      if id in entries {
        stored, inserted := entries[id], false;
      } else {
        entries := entries[id := e];
        stored, inserted := e, true;
      }
    }

    /** `ClearCompilationCache`: drop every entry, so every later lookup misses. */
    method Clear()
      modifies this
      ensures entries == map[]
      ensures forall id :: Lookup(entries, id) == None
    {
      entries := map[];
    }
  }
}

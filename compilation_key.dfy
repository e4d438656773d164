/** `CompilationKey`: the key of the executable cache, a pair of an
    `AutotuneCacheKey` and an `AutotuneResult` whose equality and hash look at
    the result only through its serialization. The serializer is a parameter:
    any deterministic function from messages to bytes. */
module CompilationKeys {
  import opened StatusTypes
  import opened XlaTypes

  datatype CompilationKey = CompilationKey(autotuneKey: AutotuneCacheKey, res: AutotuneResult)

  /** What equality and hashing of a key depend on: the cache key and the
      serialized bytes of the result. The cache map is keyed by this. */
  datatype KeyIdentity = KeyIdentity(autotuneKey: AutotuneCacheKey, serializedRes: seq<byte>)

  function Identity(serialize: AutotuneResult -> seq<byte>, k: CompilationKey): KeyIdentity {
    KeyIdentity(k.autotuneKey, serialize(k.res))
  }

  /** `CompilationKey::operator==`: same serialization of the result and the
      same cache key. Two keys are equal exactly when they have the same
      identity, so a map keyed by identity behaves as the hash map does. */
  function KeyEquals(serialize: AutotuneResult -> seq<byte>, a: CompilationKey, b: CompilationKey): (equal: bool)
    ensures equal <==> Identity(serialize, a) == Identity(serialize, b)
  {
    serialize(a.res) == serialize(b.res) && a.autotuneKey == b.autotuneKey
  }

  /** `AbslHashValue`: the hash combines the cache key with the serialized
      result; `combine` stands for `H::combine`. */
  function Hash(serialize: AutotuneResult -> seq<byte>, combine: (AutotuneCacheKey, seq<byte>) -> int, k: CompilationKey): (h: int)
    ensures h == combine(Identity(serialize, k).autotuneKey, Identity(serialize, k).serializedRes)
  {
    combine(k.autotuneKey, serialize(k.res))
  }

  /** Hashing is consistent with equality, whatever the combiner. */
  lemma EqualKeysHashEqually(serialize: AutotuneResult -> seq<byte>, combine: (AutotuneCacheKey, seq<byte>) -> int, a: CompilationKey, b: CompilationKey)
    requires KeyEquals(serialize, a, b)
    ensures Hash(serialize, combine, a) == Hash(serialize, combine, b)
  {
  }

  /** Key equality is an equivalence relation, as a hash map key needs. */
  lemma KeyEqualsIsEquivalence(serialize: AutotuneResult -> seq<byte>, a: CompilationKey, b: CompilationKey, c: CompilationKey)
    ensures KeyEquals(serialize, a, a)
    ensures KeyEquals(serialize, a, b) ==> KeyEquals(serialize, b, a)
    ensures KeyEquals(serialize, a, b) && KeyEquals(serialize, b, c) ==> KeyEquals(serialize, a, c)
  {
  }

  /** Keys whose cache keys agree and whose results serialize alike are
      equal, for any serializer: the result messages themselves may differ. */
  lemma EqualityIsBySerialization(serialize: AutotuneResult -> seq<byte>, a: CompilationKey, b: CompilationKey)
    requires a.autotuneKey == b.autotuneKey && serialize(a.res) == serialize(b.res)
    ensures KeyEquals(serialize, a, b)
    ensures Identity(serialize, a) == Identity(serialize, b)
  {
  }

  /** Key equality is coarser than equality of the key values: a serializer
      that drops `scratchBytes` makes results that differ only there address
      the same cache entry. */
  lemma EqualityIsCoarserThanStructural(k: AutotuneCacheKey)
    ensures var serialize := (r: AutotuneResult) => r.candidate;
            var a := CompilationKey(k, AutotuneResult(0, 5, []));
            var b := CompilationKey(k, AutotuneResult(64, 5, []));
            a != b && KeyEquals(serialize, a, b)
  {
  }
}

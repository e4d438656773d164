# Autotuner compile-and-profile cache, in Dafny

This project models the core of XLA's GPU autotuner compile utility
(`AutotunerCompileUtil`). The utility compiles one candidate configuration of a
fusion. It caches the resulting executable in a process-wide map keyed by a
`CompilationKey`, runs the executable once to warm up and once under a GPU timer,
and returns the measured duration. Two expected failures are outcomes, not
errors: an extractor failure tagged as an uncompilable fusion, and a backend that
runs out of resources. Both become "no executable". That null entry is cached, and
the measurement then returns "no measurement".

Modules, leaf first:

- `StatusTypes` (status.dfy): `Status` and `StatusOr<T>` with the canonical codes and payloads, and `Option`.
- `XlaTypes` (xla_types.dfy): modules, computations, executables, device buffers, execution inputs and outputs, and the `Event` log.
- `CompilationKeys` (compilation_key.dfy): the cache key, its equality, and its hash.
- `ExecutableCaches` (executable_cache.dfy): lookup and insert-if-absent as functions, and the shared cache class `ExecutableCache`.
- `Backend` (backend.dfy):
  - the debug-option overrides of the nested compile;
  - how extractor and backend outcomes are classified;
  - `CompileNoCache` as a function.
- `CompileUtilSpec` (compile_util_spec.dfy): `Compile` and the measurement protocol as functions, plus lemmas that relate several calls.
- `CompileUtil` (compile_util.dfy): the class `AutotunerCompileUtil`, whose methods are proved to behave as those functions say, and `ExecutionInputsFromBuffers`.

Collaborators whose code is not part of this model are handled as follows:

- **Compiler backend.** A function `compiler` from the configured module to an executable or an error status. It is fixed when the utility is constructed.
- **Extractor callback.** Its outcome is a parameter, `extracted`.
- **Device steps.** The outcomes of the warm-up run, `BlockHostUntilDone`, `GpuTimer::Create`, the timed run and `GetElapsedDuration` are a `DeviceOutcomes` parameter.
- **Protocol buffer serializer.** A function value, `serialize`, held by the cache. Every property is proved for any serializer.
- **The call log.** The ghost field `trace` records, in order, every call into these collaborators: the extractor, the backend, each execute, the drain, the timer's creation, the timer read, and the copy. A call is logged when it is made, whether or not it fails.

The cache map is keyed by `KeyIdentity`, the pair (autotune cache key, serialized
result). `KeyEquals` is proved to hold exactly when the identities agree, so such a
map behaves as the source's hash map does under its `operator==`.

The race between two workers compiling the same key is not modelled as
interleavings. Instead, the parameter `concurrent` of `Compile` holds the entry
another worker published for an equal key while this call was compiling, or
nothing if there was none. At publish time the key is then already present.

## Model

| member | source | states |
|---|---|---|
| CompilationKeys.KeyEquals | tensorflow/compiler/xla/service/gpu/autotuner_compile_util.cc:66-69 | keys are equal iff their autotune cache keys are equal and their results serialize to identical bytes, i.e. iff their identities agree |
| CompilationKeys.EqualKeysHashEqually | tensorflow/compiler/xla/service/gpu/autotuner_compile_util.cc:61-69 | equal keys hash equally for any combiner, since the hash combines exactly the cache key and the serialized result |
| CompilationKeys.KeyEqualsIsEquivalence | tensorflow/compiler/xla/service/gpu/autotuner_compile_util.cc:66-69 | key equality is reflexive, symmetric and transitive |
| CompilationKeys.Hash | tensorflow/compiler/xla/service/gpu/autotuner_compile_util.cc:61-64 | the hash is the combiner applied to the key's identity, i.e. to the cache key and the serialized result only |
| CompilationKeys.EqualityIsBySerialization | tensorflow/compiler/xla/service/gpu/autotuner_compile_util.cc:66-69 | for any serializer, keys with equal cache keys whose results serialize to the same bytes are equal and have the same identity |
| CompilationKeys.EqualityIsCoarserThanStructural | tensorflow/compiler/xla/service/gpu/autotuner_compile_util.cc:66-69 | a witness: two different key values with the same serialization are equal keys |
| ExecutableCaches.Lookup | tensorflow/compiler/xla/service/gpu/autotuner_compile_util.cc:151-152 | a lookup hits exactly when the key is present, and then yields the stored entry, which may be null |
| ExecutableCaches.InsertIfAbsent | tensorflow/compiler/xla/service/gpu/autotuner_compile_util.cc:161-162 | emplace inserts only when the key is absent; the returned entry is the one the map holds afterwards; an existing entry is kept; no other key changes |
| ExecutableCaches.ExecutableCache.constructor | tensorflow/compiler/xla/service/gpu/autotuner_compile_util.cc:85-86 | the process-wide cache starts empty |
| ExecutableCaches.ExecutableCache.Find | tensorflow/compiler/xla/service/gpu/autotuner_compile_util.cc:151-152 | find is the lookup of the key's identity: a hit exactly when an equal key is cached, returning its entry |
| ExecutableCaches.ExecutableCache.Emplace | tensorflow/compiler/xla/service/gpu/autotuner_compile_util.cc:161 | the map after emplace, the stored entry and the inserted flag are those of insert-if-absent |
| ExecutableCaches.ExecutableCache.Clear | tensorflow/compiler/xla/service/gpu/autotuner_compile_util.cc:228-231 | clearing leaves the cache empty, so every later lookup misses |
| Backend.AutotuningOptions | tensorflow/compiler/xla/service/gpu/autotuner_compile_util.cc:208-217 | the nested compile's options have empty dump, dump-results and load-results paths, no LLVM IR dump, compilation parallelism 1 and the runtime executable off; every other field is the original's |
| Backend.OverriddenFieldsAreErased | tensorflow/compiler/xla/service/gpu/autotuner_compile_util.cc:208-217 | what the caller set for the six overridden fields never reaches the nested compile |
| Backend.ConfiguredModule | tensorflow/compiler/xla/service/gpu/autotuner_compile_util.cc:205-218 | the module handed to the backend keeps the extracted module's name and parameters and carries the overridden options, whose other fields are the original computation's |
| Backend.ClassifyExtraction | tensorflow/compiler/xla/service/gpu/autotuner_compile_util.cc:168-174 | an extractor status carrying the uncompilable-fusion payload is "uncompilable"; any other error is propagated unchanged; a module proceeds to the backend |
| Backend.ClassifyBackend | tensorflow/compiler/xla/service/gpu/autotuner_compile_util.cc:219-225 | a resource-exhausted backend status is exactly the case that yields "no executable"; other errors are returned unchanged; an executable is returned |
| Backend.CompileNoCacheSpec | tensorflow/compiler/xla/service/gpu/autotuner_compile_util.cc:165-176 | the extractor is always called; the backend runs only when a module was extracted, and then on the module carrying the overridden options; an uncompilable fusion gives null, and other extractor errors propagate |
| CompileUtilSpec.CompileSpec | tensorflow/compiler/xla/service/gpu/autotuner_compile_util.cc:145-163 | see the Compile properties below this table |
| CompileUtilSpec.ProfileSpec | tensorflow/compiler/xla/service/gpu/autotuner_compile_util.cc:112-142 | see the measurement properties below this table |
| CompileUtilSpec.ProfileOrdering | tensorflow/compiler/xla/service/gpu/autotuner_compile_util.cc:119-142 | in every outcome, a copy happens iff a duration is returned; every run holds the exclusive GPU lock; two runs are the warm-up and the timed run, with the drain and the timer creation between them and the timer read after the second |
| CompileUtilSpec.SecondCompileHits | tensorflow/compiler/xla/service/gpu/autotuner_compile_util.cc:148-162 | after a successful compile, the next compile of an equal key returns the same entry, calls nothing and leaves the cache unchanged, whatever its own extractor outcome |
| CompileUtilSpec.UncompilableIsCachedAsNull | tensorflow/compiler/xla/service/gpu/autotuner_compile_util.cc:158-171 | on a miss, an uncompilable-fusion extractor failure returns null with no error, caches null for the key, and does not run the backend |
| CompileUtilSpec.ResourceExhaustedIsCachedAsNull | tensorflow/compiler/xla/service/gpu/autotuner_compile_util.cc:219-225 | on a miss, a resource-exhausted backend returns null with no error, and null is cached for the key |
| CompileUtilSpec.ClearedCacheMisses | tensorflow/compiler/xla/service/gpu/autotuner_compile_util.cc:148-159 | on an empty (cleared) cache, a compile misses and calls the extractor again |
| CompileUtilSpec.UncompilableAlwaysYieldsNull | tensorflow/compiler/xla/service/gpu/autotuner_compile_util.cc:145-176 | repeated compiles of a candidate that always extracts as uncompilable return null every time and never an error (by induction over the calls) |
| CompileUtil.ExecutionInputsFromBuffers | tensorflow/compiler/xla/service/gpu/autotuner_compile_util.cc:88-102 | requires as many buffers as entry parameters; yields one input per parameter, where input `i` has parameter `i`'s shape and the unowned buffer `i` at its root; the result is the bound-inputs specification |
| CompileUtil.AutotunerCompileUtil.RunBackend | tensorflow/compiler/xla/service/gpu/autotuner_compile_util.cc:205-226 | the field-by-field override produces the overridden options; the backend is called once, on the module carrying them, and its outcome is classified |
| CompileUtil.AutotunerCompileUtil.CompileNoCache | tensorflow/compiler/xla/service/gpu/autotuner_compile_util.cc:165-176 | result and calls made are those of the CompileNoCache specification |
| CompileUtil.AutotunerCompileUtil.Compile | tensorflow/compiler/xla/service/gpu/autotuner_compile_util.cc:145-163 | result, cache afterwards and calls made are those of the Compile specification |
| CompileUtil.AutotunerCompileUtil.Execute | tensorflow/compiler/xla/service/gpu/autotuner_compile_util.cc:186-203 | every run it issues sets the exclusive-GPU-lock flag; the run's outcome is returned as is |
| CompileUtil.AutotunerCompileUtil.GenerateAndProfileExecutable | tensorflow/compiler/xla/service/gpu/autotuner_compile_util.cc:106-143 | the cache afterwards, the result and the calls made are the Compile specification followed by the measurement specification |

`CompileUtilSpec.CompileSpec` states these properties of `Compile`:

- On a hit, it returns the stored entry (possibly null), calls nothing, and leaves the cache unchanged.
- On a miss, it makes exactly the calls of `CompileNoCache`.
- A failed compile returns that error. It inserts nothing of its own; the cache then holds only what another worker published, if anything.
- A successful compile, with no concurrent publisher, inserts its result.
- When another worker published first, that entry is kept and returned.
- The returned entry is always the cache's entry for the key afterwards.
- No other key's entry changes.

`CompileUtilSpec.ProfileSpec` states these properties of the measurement protocol:

- A compile error propagates, and nothing runs.
- A null executable gives "no measurement", and nothing runs.
- A duration is returned iff every device step succeeds and the output sizes match.
- When a duration is returned, it is the timer's reading, and the calls are exactly: warm-up run, drain, timer creation, timed run, timer read, then a copy of the root buffer's size.
- When no duration is returned, the calls are a prefix of that sequence without the copy.
- The first device step that fails decides the error, which is returned unchanged, and the calls end with that step: a failed warm-up after one call, a failed drain after two, a failed timer creation after three, a failed timed run after four, a failed timer read after five.
- A size mismatch returns an internal error and performs no copy.

## Left out

- Mutex and concurrency: the mutex and thread interleavings are not modelled. The race between two workers compiling one key appears only as the `concurrent` parameter of `Compile`. A `ClearCompilationCache` racing with a compile is not modelled.
- `Create` (lines 178-184): it only looks a compiler up by platform. The constructor takes the compiler instead.
- Device ordinal, stream and allocator wiring in `Execute` (lines 192-197): not modelled. Only the exclusive-lock flag is recorded; the run itself is an abstract outcome.
- `ToString` (lines 71-74) and the `VLOG` call: formatting and logging only.
- The GPU timer's value: the duration is an opaque value taken from the device outcomes.
- `BlockHostUntilDone`, `GpuTimer` and `ThenMemcpy`: these are stream operations. They appear only as logged events; the bytes the copy moves are not modelled.
- Ownership of executables: the `unique_ptr` transfer is not modelled, nor the destruction of a loser's executable when another worker published first.
- `AutotuneResult` and `AutotuneCacheKey`: defined outside this model. Their fields are reduced to a few representative ones, and the result is only ever looked at through the serializer.
- Status messages: statuses carry a code and payloads but no message text. The failed `TF_RET_CHECK` is modelled as a plain internal error.
- Execution inputs: only the root index of each input's buffer tree is modelled, which is the only index the source sets.
- CHECK failures: the size `CHECK_EQ` in `ExecutionInputsFromBuffers` aborts the process. It is modelled as a precondition, and `GenerateAndProfileExecutable` requires that an executable the compile step yields has as many parameters as there are input buffers.
- Streams: in `GenerateAndProfileExecutable` the `BlockHostUntilDone` and timer calls are logged on the `profileStream` parameter and the runs on the utility's own stream. Whether the two are the same stream is not modelled.
- tensorflow/compiler/xla/python/pjrt_ifrt/xla_sharding_test.cc: test cases only, for an implementation that is not part of this model.

/** `AutotunerCompileUtil`: compiles a candidate through the shared cache,
    binds device buffers to an executable's parameters, runs it under the
    exclusive GPU lock, and measures a timed run after a warm-up run.

    The compiler backend is the function `compiler`; the outcomes of the
    extractor callback and of the device steps are parameters; `trace` logs,
    in order, every call the utility makes into them. */
module CompileUtil {
  import opened StatusTypes
  import opened XlaTypes
  import opened CompilationKeys
  import opened ExecutableCaches
  import opened Backend
  import opened CompileUtilSpec

  /** `ExecutionInputsFromBuffers`: one input per entry parameter, in order,
      pairing parameter `i`'s shape with the unowned buffer `i`. The counts
      must agree (a `CHECK`). */
  method ExecutionInputsFromBuffers(executable: Executable, buffers: seq<DeviceMemory>)
    returns (inputs: seq<ExecutionInput>)
    requires |executable.hloModule.entryParameters| == |buffers|
    ensures |inputs| == |executable.hloModule.entryParameters|
    ensures forall i | 0 <= i < |inputs| ::
              inputs[i] == ExecutionInput(executable.hloModule.entryParameters[i], Some(Unowned(buffers[i])))
    ensures inputs == BoundInputs(executable, buffers)
  {
    var params := executable.hloModule.entryParameters;
    inputs := [];
    var i := 0;
    while i < |params|
      invariant 0 <= i <= |params|
      invariant |inputs| == i
      invariant forall j | 0 <= j < i :: inputs[j] == ExecutionInput(params[j], Some(Unowned(buffers[j])))
    {
      // emplace_back(shape), then set the root buffer of the new input
      inputs := inputs + [ExecutionInput(params[i], None)];
      inputs := inputs[..i] + [inputs[i].(rootBuffer := Some(Unowned(buffers[i])))];
      i := i + 1;
    }
  }

  class AutotunerCompileUtil {
    const compiler: HloModule -> StatusOr<Executable>
    const cache: ExecutableCache
    const stream: StreamId
    ghost var trace: seq<Event>

    constructor (compiler: HloModule -> StatusOr<Executable>, cache: ExecutableCache, stream: StreamId)
      ensures this.compiler == compiler && this.cache == cache && this.stream == stream
      ensures trace == []
    {
      this.compiler := compiler;
      this.cache := cache;
      this.stream := stream;
      trace := [];
    }

    /** `RunBackend`: copy the original computation's debug options, override
        the six fields, and hand the module to the backend; an exhausted
        resource becomes "no executable". */
    method RunBackend(original: HloComputation, hloModule: HloModule) returns (r: StatusOr<CachedExecutable>)
      modifies this
      ensures var m := ConfiguredModule(original, hloModule);
              r == ClassifyBackend(compiler(m)) && trace == old(trace) + [BackendRun(m)]
    {
      var options := original.parent.debugOptions;
      options := options.(xlaDumpTo := "");
      options := options.(xlaGpuDumpAutotuneResultsTo := "");
      options := options.(xlaGpuLoadAutotuneResultsFrom := "");
      options := options.(xlaGpuDumpLlvmir := false);
      options := options.(xlaGpuForceCompilationParallelism := 1);
      options := options.(xlaGpuEnableXlaRuntimeExecutable := false);
      var configured := hloModule.(debugOptions := options);
      trace := trace + [BackendRun(configured)];
      var out := compiler(configured);
      if StatusOf(out).code == ResourceExhausted {
        r := Value(None);
        return;
      }
      match out
      case Value(e) => r := Value(Some(e));
      case Error(s) => r := Error(s);
    }

    /** `CompileNoCache`: an extractor failure carrying the uncompilable-fusion
        payload becomes "no executable", any other failure is returned, and a
        module goes to `RunBackend`. */
    method CompileNoCache(original: HloComputation, extracted: StatusOr<HloModule>)
      returns (r: StatusOr<CachedExecutable>)
      modifies this
      ensures var s := CompileNoCacheSpec(compiler, original, extracted);
              r == s.result && trace == old(trace) + s.events
    {
      trace := trace + [ExtractModuleCalled];
      var newHloModule := extracted;
      if HasPayload(StatusOf(newHloModule), UncompilableFusion) {
        r := Value(None);
      } else if !IsOk(StatusOf(newHloModule)) {
        r := Error(newHloModule.status);
      } else {
        r := RunBackend(original, newHloModule.value);
      }
    }

    /** `Compile`: look the key up; on a miss compile without the lock, then
        insert if absent and return what the map holds. `concurrent` is the
        entry another worker published for an equal key in between, if any. */
    method Compile(hloComputation: HloComputation, res: AutotuneResult, cacheKey: AutotuneCacheKey,
                   extracted: StatusOr<HloModule>, concurrent: Option<CachedExecutable>)
      returns (r: StatusOr<CachedExecutable>)
      modifies this, cache
      ensures var s := CompileSpec(old(cache.entries), Identity(cache.serialize, CompilationKey(cacheKey, res)),
                                   compiler, hloComputation, extracted, concurrent);
              r == s.result && cache.entries == s.entries && trace == old(trace) + s.events
    {
      var key := CompilationKey(cacheKey, res);
      var hit := cache.Find(key);
      if hit.Some? {
        r := Value(hit.value);
        return;
      }
      var compiled := CompileNoCache(hloComputation, extracted);
      if concurrent.Some? {
        var _, _ := cache.Emplace(key, concurrent.value);
      }
      if compiled.Error? {
        r := compiled;
        return;
      }
      var stored, inserted := cache.Emplace(key, compiled.value);
      r := Value(stored);
    }

    /** `Execute`: always asks for the exclusive GPU lock; the outcome of the
        run itself is `outcome`. */
    method Execute(executable: Executable, arguments: seq<ExecutionInput>, outcome: StatusOr<ExecutionOutput>)
      returns (r: StatusOr<ExecutionOutput>)
      modifies this
      ensures r == outcome
      ensures trace == old(trace) + [Executed(stream, executable, arguments, GpuExecutableRunOptions(true))]
    {
      var gpuOptions := GpuExecutableRunOptions(false);
      gpuOptions := gpuOptions.(requiresExclusiveLockOnGpu := true);
      trace := trace + [Executed(stream, executable, arguments, gpuOptions)];
      r := outcome;
    }

    /** `GenerateAndProfileExecutable`: compile (or fetch), then a warm-up run,
        a drain of `profileStream`, and a timed run; check the output size,
        copy the output and return the duration. */
    method GenerateAndProfileExecutable(hloComputation: HloComputation, config: AutotuneResult,
                                        cacheKey: AutotuneCacheKey, profileStream: StreamId,
                                        inputBuffers: seq<DeviceMemory>, outputBuffer: DeviceMemory,
                                        extracted: StatusOr<HloModule>, concurrent: Option<CachedExecutable>,
                                        dev: DeviceOutcomes)
      returns (r: StatusOr<Option<Duration>>)
      requires ArityFits(CompileSpec(cache.entries, Identity(cache.serialize, CompilationKey(cacheKey, config)),
                                     compiler, hloComputation, extracted, concurrent).result, |inputBuffers|)
      modifies this, cache
      ensures var c := CompileSpec(old(cache.entries), Identity(cache.serialize, CompilationKey(cacheKey, config)),
                                   compiler, hloComputation, extracted, concurrent);
              var p := ProfileSpec(c.result, stream, profileStream, inputBuffers, outputBuffer, dev);
              cache.entries == c.entries && r == p.result && trace == old(trace) + c.events + p.events
    {
      var compiled := Compile(hloComputation, config, cacheKey, extracted, concurrent);
      if compiled.Error? {
        r := Error(compiled.status);
        return;
      }
      if compiled.value.None? {
        r := Value(None);
        return;
      }
      var executable := compiled.value.value;
      ghost var start := trace;
      ghost var args := BoundInputs(executable, inputBuffers);
      ghost var all := TimedRun(stream, profileStream, executable, args);

      // warm-up run, then wait for the device to drain
      var warmupInputs := ExecutionInputsFromBuffers(executable, inputBuffers);
      var warmupOutput := Execute(executable, warmupInputs, dev.warmup);
      if warmupOutput.Error? {
        r := Error(warmupOutput.status);
        assert trace == start + all[..1];
        return;
      }
      trace := trace + [HostBlocked(profileStream)];
      if !IsOk(dev.drain) {
        r := Error(dev.drain);
        assert trace == start + all[..2];
        return;
      }

      // timed run
      var timedInputs := ExecutionInputsFromBuffers(executable, inputBuffers);
      trace := trace + [TimerCreated(profileStream)];
      if !IsOk(dev.timerCreate) {
        r := Error(dev.timerCreate);
        assert trace == start + all[..3];
        return;
      }
      var timedOutput := Execute(executable, timedInputs, dev.timed);
      if timedOutput.Error? {
        r := Error(timedOutput.status);
        assert trace == start + all[..4];
        return;
      }
      trace := trace + [ElapsedRead(profileStream)];
      assert trace == start + all;
      if dev.elapsed.Error? {
        r := Error(dev.elapsed.status);
        return;
      }
      var timerDuration := dev.elapsed.value;
      var root := timedOutput.value.rootBuffer;
      if outputBuffer.size != root.size {
        r := Error(InternalError);
        return;
      }
      trace := trace + [Copied(profileStream, outputBuffer, root, root.size)];
      r := Value(Some(timerDuration));
    }
  }
}

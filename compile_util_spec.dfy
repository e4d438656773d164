/** The specification of the compile utility's two public operations as
    functions of their inputs: `Compile` (cache lookup, compile on a miss,
    insert-if-absent) and the measurement protocol of
    `GenerateAndProfileExecutable`. The class in CompileUtil is proved to
    behave as these functions say; the lemmas here relate several calls. */
module CompileUtilSpec {
  import opened StatusTypes
  import opened XlaTypes
  import opened CompilationKeys
  import opened ExecutableCaches
  import opened Backend

  /** One `Compile` call: its result, the cache afterwards, and the calls it
      made into the extractor and the backend. */
  datatype CacheStep = CacheStep(result: StatusOr<CachedExecutable>, entries: Entries, events: seq<Event>)

  /** `Compile`. On a hit the stored entry is returned and nothing is called.
      On a miss the candidate is compiled outside the lock; `concurrent` is
      the entry another worker published for an equal key meanwhile, if any.
      A failed compile is returned as is and inserts nothing; a successful
      one is inserted if absent and the entry now in the map is returned. */
  function CompileSpec(entries: Entries, id: KeyIdentity, compiler: HloModule -> StatusOr<Executable>,
                       original: HloComputation, extracted: StatusOr<HloModule>,
                       concurrent: Option<CachedExecutable>): (s: CacheStep)
    ensures id in entries ==> s == CacheStep(Value(entries[id]), entries, [])
    ensures id !in entries ==> s.events == CompileNoCacheSpec(compiler, original, extracted).events
    ensures s.result.Value? ==> id in s.entries && s.entries[id] == s.result.value
    ensures forall k | k != id :: (k in s.entries <==> k in entries)
    ensures forall k | k in entries && k != id :: s.entries[k] == entries[k]
    ensures s.result.Error? ==> s.result == CompileNoCacheSpec(compiler, original, extracted).result
    ensures s.result.Error? && concurrent.None? ==> s.entries == entries
    ensures id !in entries && concurrent.Some? ==> id in s.entries && s.entries[id] == concurrent.value
    ensures id !in entries && concurrent.Some? && s.result.Value? ==> s.result == Value(concurrent.value)
    ensures id !in entries && concurrent.None? && CompileNoCacheSpec(compiler, original, extracted).result.Value? ==>
              s.result == CompileNoCacheSpec(compiler, original, extracted).result &&
              s.entries == entries[id := s.result.value]
    ensures id !in entries && CompileNoCacheSpec(compiler, original, extracted).result.Error? ==>
              s.result == CompileNoCacheSpec(compiler, original, extracted).result &&
              s.entries == (if concurrent.Some? then entries[id := concurrent.value] else entries)
  {
    match Lookup(entries, id)
    case Some(e) => CacheStep(Value(e), entries, [])
    case None =>
      var compiled := CompileNoCacheSpec(compiler, original, extracted);
      var atPublish := if concurrent.Some? then InsertIfAbsent(entries, id, concurrent.value).entries else entries;
      match compiled.result
      case Error(st) => CacheStep(Error(st), atPublish, compiled.events)
      case Value(e) =>
        var p := InsertIfAbsent(atPublish, id, e);
        CacheStep(Value(p.stored), p.entries, compiled.events)
  }

  /** The outcomes of the device steps that `GenerateAndProfileExecutable`
      takes, in order: warm-up run, host drain, timer creation, timed run,
      reading the timer. */
  datatype DeviceOutcomes = DeviceOutcomes(
    warmup: StatusOr<ExecutionOutput>,
    drain: Status,
    timerCreate: Status,
    timed: StatusOr<ExecutionOutput>,
    elapsed: StatusOr<Duration>)

  predicate AllSucceedUntilTimerRead(dev: DeviceOutcomes) {
    dev.warmup.Value? && IsOk(dev.drain) && IsOk(dev.timerCreate) && dev.timed.Value?
  }

  predicate AllSucceed(dev: DeviceOutcomes) {
    AllSucceedUntilTimerRead(dev) && dev.elapsed.Value?
  }

  /** A compile result that is an executable takes exactly `n` input buffers. */
  predicate ArityFits(c: StatusOr<CachedExecutable>, n: nat) {
    c.Value? && c.value.Some? ==> |c.value.value.hloModule.entryParameters| == n
  }

  /** The inputs bound to an executable: parameter `i`'s shape with the
      unowned buffer `i`. */
  function BoundInputs(executable: Executable, buffers: seq<DeviceMemory>): seq<ExecutionInput>
    requires |executable.hloModule.entryParameters| == |buffers|
  {
    seq(|buffers|, i requires 0 <= i < |buffers| =>
      ExecutionInput(executable.hloModule.entryParameters[i], Some(Unowned(buffers[i]))))
  }

  const ExclusiveLock := GpuExecutableRunOptions(true)

  /** The device events of a measurement up to reading the timer: warm-up
      run, drain, timer creation, timed run, timer read. */
  function TimedRun(execStream: StreamId, stream: StreamId, executable: Executable, args: seq<ExecutionInput>): seq<Event> {
    [Executed(execStream, executable, args, ExclusiveLock), HostBlocked(stream), TimerCreated(stream),
     Executed(execStream, executable, args, ExclusiveLock), ElapsedRead(stream)]
  }

  predicate Measured(r: StatusOr<Option<Duration>>) {
    r.Value? && r.value.Some?
  }

  /** The measurement protocol given the compile result. */
  function ProfileSpec(c: StatusOr<CachedExecutable>, execStream: StreamId, stream: StreamId,
                       inputBuffers: seq<DeviceMemory>, outputBuffer: DeviceMemory,
                       dev: DeviceOutcomes): (r: Run<StatusOr<Option<Duration>>>)
    requires ArityFits(c, |inputBuffers|)
    ensures c.Error? ==> r == Run(Error(c.status), [])
    ensures c == Value(None) ==> r == Run(Value(None), [])
    ensures Measured(r.result) <==>
              c.Value? && c.value.Some? && AllSucceed(dev) && outputBuffer.size == dev.timed.value.rootBuffer.size
    ensures Measured(r.result) ==>
              var root := dev.timed.value.rootBuffer;
              r.result.value.value == dev.elapsed.value &&
              r.events == TimedRun(execStream, stream, c.value.value, BoundInputs(c.value.value, inputBuffers))
                          + [Copied(stream, outputBuffer, root, root.size)]
    ensures c.Value? && c.value.Some? && !Measured(r.result) ==>
              r.result.Error? &&
              r.events <= TimedRun(execStream, stream, c.value.value, BoundInputs(c.value.value, inputBuffers))
    ensures c.Value? && c.value.Some? && AllSucceed(dev) && outputBuffer.size != dev.timed.value.rootBuffer.size ==>
              r.result == Error(InternalError) &&
              r.events == TimedRun(execStream, stream, c.value.value, BoundInputs(c.value.value, inputBuffers))
    // the first failing device step decides the error, and the calls stop right after it
    ensures c.Value? && c.value.Some? ==>
              var all := TimedRun(execStream, stream, c.value.value, BoundInputs(c.value.value, inputBuffers));
              && (dev.warmup.Error? ==> r == Run(Error(dev.warmup.status), all[..1]))
              && (dev.warmup.Value? && !IsOk(dev.drain) ==> r == Run(Error(dev.drain), all[..2]))
              && (dev.warmup.Value? && IsOk(dev.drain) && !IsOk(dev.timerCreate) ==>
                    r == Run(Error(dev.timerCreate), all[..3]))
              && (dev.warmup.Value? && IsOk(dev.drain) && IsOk(dev.timerCreate) && dev.timed.Error? ==>
                    r == Run(Error(dev.timed.status), all[..4]))
              && (AllSucceedUntilTimerRead(dev) && dev.elapsed.Error? ==>
                    r == Run(Error(dev.elapsed.status), all))
  {
    match c
    case Error(s) => Run(Error(s), [])
    case Value(None) => Run(Value(None), [])
    case Value(Some(executable)) =>
      var args := BoundInputs(executable, inputBuffers);
      var all := TimedRun(execStream, stream, executable, args);
      if dev.warmup.Error? then Run(Error(dev.warmup.status), all[..1])
      else if !IsOk(dev.drain) then Run(Error(dev.drain), all[..2])
      else if !IsOk(dev.timerCreate) then Run(Error(dev.timerCreate), all[..3])
      else if dev.timed.Error? then Run(Error(dev.timed.status), all[..4])
      else if dev.elapsed.Error? then Run(Error(dev.elapsed.status), all)
      else
        var root := dev.timed.value.rootBuffer;
        if outputBuffer.size != root.size then Run(Error(InternalError), all)
        else Run(Value(Some(dev.elapsed.value)), all + [Copied(stream, outputBuffer, root, root.size)])
  }

  /** In every outcome, a copy into the output buffer happens exactly when a
      duration is returned, every run holds the exclusive GPU lock, and any
      second run comes after the drain and within the timer. */
  lemma ProfileOrdering(c: StatusOr<CachedExecutable>, execStream: StreamId, stream: StreamId,
                        inputBuffers: seq<DeviceMemory>, outputBuffer: DeviceMemory, dev: DeviceOutcomes)
    requires ArityFits(c, |inputBuffers|)
    ensures var r := ProfileSpec(c, execStream, stream, inputBuffers, outputBuffer, dev);
            && ((exists i :: 0 <= i < |r.events| && r.events[i].Copied?) <==> Measured(r.result))
            && (forall i | 0 <= i < |r.events| && r.events[i].Executed? :: r.events[i].gpuOptions.requiresExclusiveLockOnGpu)
            && (forall i, j | 0 <= i < j < |r.events| && r.events[i].Executed? && r.events[j].Executed? ::
                  i == 0 && j == 3 && r.events[1] == HostBlocked(stream) &&
                  r.events[2] == TimerCreated(stream) && (|r.events| > 4 ==> r.events[4] == ElapsedRead(stream)))
  {
    var r := ProfileSpec(c, execStream, stream, inputBuffers, outputBuffer, dev);
    if c.Value? && c.value.Some? {
      var all := TimedRun(execStream, stream, c.value.value, BoundInputs(c.value.value, inputBuffers));
      if Measured(r.result) {
        assert r.events[5].Copied?;
      } else {
        assert r.events <= all;
      }
    }
  }

  /** A successful compile is published, so the next compile with an equal
      key is a hit: it returns the same entry, calls neither the extractor
      nor the backend, and leaves the cache as it was. */
  lemma SecondCompileHits(entries: Entries, id: KeyIdentity, compiler: HloModule -> StatusOr<Executable>,
                          original: HloComputation, extracted: StatusOr<HloModule>, concurrent: Option<CachedExecutable>,
                          original2: HloComputation, extracted2: StatusOr<HloModule>, concurrent2: Option<CachedExecutable>)
    requires CompileSpec(entries, id, compiler, original, extracted, concurrent).result.Value?
    ensures var first := CompileSpec(entries, id, compiler, original, extracted, concurrent);
            CompileSpec(first.entries, id, compiler, original2, extracted2, concurrent2)
              == CacheStep(first.result, first.entries, [])
  {
  }

  /** An extractor failure tagged as an uncompilable fusion is a result, not
      an error: on a miss it yields and caches "no executable" without
      running the backend. */
  lemma UncompilableIsCachedAsNull(entries: Entries, id: KeyIdentity, compiler: HloModule -> StatusOr<Executable>,
                                   original: HloComputation, status: ErrorStatus)
    requires id !in entries
    requires UncompilableFusion in status.payloads
    ensures CompileSpec(entries, id, compiler, original, Error(status), None)
              == CacheStep(Value(None), entries[id := None], [ExtractModuleCalled])
  {
  }

  /** A backend out of resources on a miss yields and caches "no executable". */
  lemma ResourceExhaustedIsCachedAsNull(entries: Entries, id: KeyIdentity, compiler: HloModule -> StatusOr<Executable>,
                                        original: HloComputation, hloModule: HloModule)
    requires id !in entries
    requires var out := compiler(ConfiguredModule(original, hloModule));
             out.Error? && out.status.code == ResourceExhausted
    ensures var s := CompileSpec(entries, id, compiler, original, Value(hloModule), None);
            s.result == Value(None) && s.entries == entries[id := None]
  {
  }

  /** After the cache is cleared, a compile misses and compiles again. */
  lemma ClearedCacheMisses(id: KeyIdentity, compiler: HloModule -> StatusOr<Executable>,
                           original: HloComputation, extracted: StatusOr<HloModule>, concurrent: Option<CachedExecutable>)
    ensures CompileSpec(map[], id, compiler, original, extracted, concurrent).events[0] == ExtractModuleCalled
  {
  }

  /** Compiling the same key once per extractor outcome in `attempts`, with
      no concurrent publisher; the results in order. */
  function CompileRepeatedly(entries: Entries, id: KeyIdentity, compiler: HloModule -> StatusOr<Executable>,
                             original: HloComputation, attempts: seq<StatusOr<HloModule>>): seq<StatusOr<CachedExecutable>>
    decreases |attempts|
  {
    if attempts == [] then []
    else
      var s := CompileSpec(entries, id, compiler, original, attempts[0], None);
      [s.result] + CompileRepeatedly(s.entries, id, compiler, original, attempts[1..])
  }

  /** A candidate whose extraction always fails as an uncompilable fusion
      yields "no executable" on every call and never an error, provided the
      cache holds nothing else for its key. */
  lemma {:induction false} UncompilableAlwaysYieldsNull(entries: Entries, id: KeyIdentity,
                                                         compiler: HloModule -> StatusOr<Executable>,
                                                         original: HloComputation, attempts: seq<StatusOr<HloModule>>)
    requires id !in entries || entries[id] == None
    requires forall i | 0 <= i < |attempts| :: attempts[i].Error? && UncompilableFusion in attempts[i].status.payloads
    ensures var results := CompileRepeatedly(entries, id, compiler, original, attempts);
            |results| == |attempts| && forall i | 0 <= i < |results| :: results[i] == Value(None)
    decreases |attempts|
  {
    if attempts != [] {
      var s := CompileSpec(entries, id, compiler, original, attempts[0], None);
      assert s.result == Value(None) && s.entries[id] == None;
      UncompilableAlwaysYieldsNull(s.entries, id, compiler, original, attempts[1..]);
      var rest := CompileRepeatedly(s.entries, id, compiler, original, attempts[1..]);
      assert CompileRepeatedly(entries, id, compiler, original, attempts) == [s.result] + rest;
    }
  }
}

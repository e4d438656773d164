/** The values the autotuner's compile utility handles: HLO modules and
    computations reduced to what the utility reads, compiled executables,
    device buffers, execution inputs and outputs, and the event log of the
    calls the utility makes into the compiler, the executable and the stream. */
module XlaTypes {
  import opened StatusTypes

  /** An array shape: element type and dimension sizes. */
  datatype Shape = Shape(elementType: string, dimensions: seq<nat>)

  /** `DebugOptions`: the six fields the nested compile overrides, and every
      other field by name. */
  datatype DebugOptions = DebugOptions(
    xlaDumpTo: string,
    xlaGpuDumpAutotuneResultsTo: string,
    xlaGpuLoadAutotuneResultsFrom: string,
    xlaGpuDumpLlvmir: bool,
    xlaGpuForceCompilationParallelism: int,
    xlaGpuEnableXlaRuntimeExecutable: bool,
    others: map<string, string>)

  /** An HLO module: its name, the shapes of its entry computation's
      parameters in order, and the debug options of its config. */
  datatype HloModule = HloModule(name: string, entryParameters: seq<Shape>, debugOptions: DebugOptions)

  /** An HLO computation together with its parent module. */
  datatype HloComputation = HloComputation(name: string, parent: HloModule)

  /** A compiled executable and the module it was compiled from. */
  datatype Executable = Executable(id: nat, hloModule: HloModule)

  /** What the cache stores for a key: an executable, or None for the
      null pointer that stands for "no executable for this candidate". */
  type CachedExecutable = Option<Executable>

  /** `se::DeviceMemoryBase`: an opaque device address and a size in bytes. */
  datatype DeviceMemory = DeviceMemory(address: nat, size: nat)

  /** `MaybeOwningDeviceMemory`. */
  datatype MaybeOwningDeviceMemory = Unowned(memory: DeviceMemory) | Owned(memory: DeviceMemory)

  /** `ExecutionInput`: a parameter shape and the buffer at the root index of
      its buffer tree (None until one is set). */
  datatype ExecutionInput = ExecutionInput(shape: Shape, rootBuffer: Option<MaybeOwningDeviceMemory>)

  /** `ExecutionOutput`, by the root buffer of the result it holds. */
  datatype ExecutionOutput = ExecutionOutput(rootBuffer: DeviceMemory)

  /** `absl::Duration`, as an opaque count of nanoseconds. */
  datatype Duration = Duration(nanos: int)

  /** `AutotuneCacheKey`: the device model and the canonical text of the HLO. */
  datatype AutotuneCacheKey = AutotuneCacheKey(model: string, hlo: string)

  /** `AutotuneResult`, a protocol buffer message. Only its serialization is
      ever looked at; the candidate configuration is kept as opaque bytes. */
  datatype AutotuneResult = AutotuneResult(scratchBytes: int, runTimeNanos: int, candidate: seq<byte>)

  /** An opaque identity for a `se::Stream`. */
  datatype StreamId = StreamId(id: nat)

  /** `GpuExecutableRunOptions`, by the one flag the utility sets. */
  datatype GpuExecutableRunOptions = GpuExecutableRunOptions(requiresExclusiveLockOnGpu: bool)

  /** One call the utility makes into a collaborator, in the order made.
      Each is logged when the call is made, whether or not it then fails. */
  datatype Event =
    | ExtractModuleCalled                   // the extractor callback
    | BackendRun(hloModule: HloModule)      // `Compiler::RunBackend`
    | Executed(stream: StreamId, executable: Executable, arguments: seq<ExecutionInput>, gpuOptions: GpuExecutableRunOptions)
    | HostBlocked(stream: StreamId)         // `BlockHostUntilDone`
    | TimerCreated(stream: StreamId)        // `GpuTimer::Create`, which starts the timer
    | ElapsedRead(stream: StreamId)         // `GetElapsedDuration`, which stops it
    | Copied(stream: StreamId, destination: DeviceMemory, source: DeviceMemory, size: nat)   // `ThenMemcpy`

  /** A result together with the events that produced it. */
  datatype Run<T> = Run(result: T, events: seq<Event>)
}

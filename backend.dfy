/** Compiling one candidate without the cache: the outcome of the module
    extractor is classified, the nested compile gets sanitized debug options,
    and the outcome of the compiler backend is classified. Expected failures
    (an uncompilable fusion, an exhausted resource) become "no executable". */
module Backend {
  import opened StatusTypes
  import opened XlaTypes

  /** The payload type URL that marks an extractor failure as an expected,
      uncompilable candidate (`kUncompilableFusion`). */
  const UncompilableFusion: string := "kUncompilableFusion"

  /** The debug options of the nested compile: those of the original
      computation's module, with dumping, loading and writing of autotune
      results, LLVM IR dumps, parallel compilation and the runtime executable
      turned off, and every other field inherited. */
  function AutotuningOptions(original: DebugOptions): (options: DebugOptions)
    ensures options.xlaDumpTo == ""
    ensures options.xlaGpuDumpAutotuneResultsTo == ""
    ensures options.xlaGpuLoadAutotuneResultsFrom == ""
    ensures !options.xlaGpuDumpLlvmir
    ensures options.xlaGpuForceCompilationParallelism == 1
    ensures !options.xlaGpuEnableXlaRuntimeExecutable
    ensures options.others == original.others
  {
    original.(xlaDumpTo := "", xlaGpuDumpAutotuneResultsTo := "", xlaGpuLoadAutotuneResultsFrom := "",
              xlaGpuDumpLlvmir := false, xlaGpuForceCompilationParallelism := 1,
              xlaGpuEnableXlaRuntimeExecutable := false)
  }

  /** The nested compile's options depend only on the inherited fields:
      whatever the caller set for the overridden ones is erased. */
  lemma OverriddenFieldsAreErased(a: DebugOptions, b: DebugOptions)
    requires a.others == b.others
    ensures AutotuningOptions(a) == AutotuningOptions(b)
  {
  }

  /** The module handed to the backend: the extracted module with its
      config's debug options replaced. */
  function ConfiguredModule(original: HloComputation, hloModule: HloModule): (m: HloModule)
    ensures m.name == hloModule.name && m.entryParameters == hloModule.entryParameters
    ensures m.debugOptions == AutotuningOptions(original.parent.debugOptions)
    ensures m.debugOptions.others == original.parent.debugOptions.others
  {
    hloModule.(debugOptions := AutotuningOptions(original.parent.debugOptions))
  }

  /** How `CompileNoCache` treats the extractor's outcome. */
  datatype Extraction = Uncompilable | Failed(status: ErrorStatus) | Extracted(hloModule: HloModule)

  function ClassifyExtraction(extracted: StatusOr<HloModule>): (d: Extraction)
    ensures d.Uncompilable? <==> extracted.Error? && UncompilableFusion in extracted.status.payloads
    ensures d.Failed? <==> extracted.Error? && UncompilableFusion !in extracted.status.payloads
    ensures d.Failed? ==> d.status == extracted.status
    ensures d.Extracted? <==> extracted.Value?
    ensures d.Extracted? ==> d.hloModule == extracted.value
  {
    var s := StatusOf(extracted);
    if HasPayload(s, UncompilableFusion) then Uncompilable
    else if !IsOk(s) then Failed(extracted.status)
    else Extracted(extracted.value)
  }

  /** How `RunBackend` treats the backend's outcome: an exhausted resource
      is "no executable", anything else is passed on. */
  function ClassifyBackend(out: StatusOr<Executable>): (r: StatusOr<CachedExecutable>)
    ensures r == Value(None) <==> out.Error? && out.status.code == ResourceExhausted
    ensures r.Error? <==> out.Error? && out.status.code != ResourceExhausted
    ensures r.Error? ==> r.status == out.status
    ensures out.Value? ==> r == Value(Some(out.value))
  {
    if StatusOf(out).code == ResourceExhausted then Value(None)
    else match out
      case Value(e) => Value(Some(e))
      case Error(s) => Error(s)
  }

  /** `CompileNoCache`: call the extractor, then (only when it yields a
      module) the backend on the reconfigured module. */
  function CompileNoCacheSpec(compiler: HloModule -> StatusOr<Executable>, original: HloComputation,
                              extracted: StatusOr<HloModule>): (r: Run<StatusOr<CachedExecutable>>)
    ensures |r.events| >= 1 && r.events[0] == ExtractModuleCalled
    ensures extracted.Error? ==> r.events == [ExtractModuleCalled]
    ensures extracted.Error? && UncompilableFusion in extracted.status.payloads ==> r.result == Value(None)
    ensures extracted.Error? && UncompilableFusion !in extracted.status.payloads ==> r.result == Error(extracted.status)
    ensures extracted.Value? ==>
              var m := ConfiguredModule(original, extracted.value);
              r.events == [ExtractModuleCalled, BackendRun(m)] && r.result == ClassifyBackend(compiler(m))
    ensures forall i | 0 <= i < |r.events| && r.events[i].BackendRun? ::
              r.events[i].hloModule.debugOptions == AutotuningOptions(original.parent.debugOptions)
  {
    match ClassifyExtraction(extracted)
    case Uncompilable => Run(Value(None), [ExtractModuleCalled])
    case Failed(s) => Run(Error(s), [ExtractModuleCalled])
    case Extracted(extractedModule) =>
      var m := ConfiguredModule(original, extractedModule);
      Run(ClassifyBackend(compiler(m)), [ExtractModuleCalled, BackendRun(m)])
  }
}

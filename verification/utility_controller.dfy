/** The two control-panel utility actions: queueing transform generation for a selection of
    volumes, and clearing the transform cache and the runtime (remote image) cache. */
module UtilityController {
  import opened Php
  import opened Wrappers

  const NoVolumesSelected: string := "No volumes selected."
  const NoTransformsSelected: string := "No transforms selected."
  const UnknownCacheClearType: string := "Unknown cache clear type."

  // ---------------------------------------------------------------------------
  // Generating transforms
  // ---------------------------------------------------------------------------

  /** The request parameters `volumes`, `useConfiguredTransforms` and `namedTransforms`
      as the request hands them over; a parameter that is absent reads as `Null`. */
  datatype GenerateRequest = GenerateRequest(volumes: Value, useConfiguredTransforms: Value, namedTransforms: Value)

  /** The arguments of one call of the transform generator. */
  datatype GeneratorCall = GeneratorCall(volumes: Value, useConfiguredTransforms: bool, namedTransforms: Value)

  /** How a generator call ended: it returned, or it threw with a message. */
  datatype GeneratorOutcome = Returned | Threw(message: string)

  /** The JSON reply: `success`, and the `errors` list (absent, so empty, on success). */
  datatype GenerateResponse = GenerateResponse(success: bool, errors: seq<string>)

  /** The reply together with the generator calls the action made, in order. */
  datatype GenerateRun = GenerateRun(response: GenerateResponse, calls: seq<GeneratorCall>)

  /** The flag is set only by the exact string '1' (a strict `===` comparison). */
  predicate UseConfiguredTransforms(raw: Value)
  {
    raw == Str("1")
  }

  /** The pre-flight checks, in the order the action makes them. */
  function ValidationErrors(volumes: Value, useConfigured: bool, namedTransforms: Value): (errors: seq<string>)
    ensures NoVolumesSelected in errors <==> !(volumes.Arr? && |volumes.elems| > 0)
    ensures NoTransformsSelected in errors <==> !useConfigured && Empty(namedTransforms)
    ensures forall e :: e in errors ==> e == NoVolumesSelected || e == NoTransformsSelected
    ensures |errors| <= 2
    ensures |errors| == 2 ==> errors == [NoVolumesSelected, NoTransformsSelected]
  {
    (if Empty(volumes) || !volumes.Arr? then [NoVolumesSelected] else [])
    + (if !useConfigured && Empty(namedTransforms) then [NoTransformsSelected] else [])
  }

  /** The generate action. `generator` stands for the plugin's generate service: what a call
      with given arguments ends in. */
  function GenerateTransforms(request: GenerateRequest, generator: GeneratorCall -> GeneratorOutcome): (run: GenerateRun)
    ensures |run.calls| <= 1
    ensures var errors := ValidationErrors(request.volumes, UseConfiguredTransforms(request.useConfiguredTransforms), request.namedTransforms);
            (run.calls == [] <==> errors != [])
            && (errors != [] ==> run.response == GenerateResponse(false, errors))
    ensures run.calls != [] ==>
              && run.calls[0].volumes == request.volumes
              && (run.calls[0].useConfiguredTransforms <==> request.useConfiguredTransforms == Str("1"))
              && run.calls[0].namedTransforms
                 == (if run.calls[0].useConfiguredTransforms then Arr([]) else request.namedTransforms)
    ensures run.calls != [] ==> (run.response.success <==> generator(run.calls[0]) == Returned)
    ensures run.calls != [] && generator(run.calls[0]).Threw? ==>
              run.response.errors == [generator(run.calls[0]).message]
    ensures run.response.success <==> run.response.errors == []
    ensures |run.response.errors| <= 2
  {
    var useConfigured := UseConfiguredTransforms(request.useConfiguredTransforms);
    var errors := ValidationErrors(request.volumes, useConfigured, request.namedTransforms);
    if errors != [] then
      GenerateRun(GenerateResponse(false, errors), [])
    else
      var call := GeneratorCall(request.volumes, useConfigured, if useConfigured then Arr([]) else request.namedTransforms);
      match generator(call)
      case Returned => GenerateRun(GenerateResponse(true, []), [call])
      case Threw(message) => GenerateRun(GenerateResponse(false, [message]), [call])
  }

  /** A rejected request never reaches the generator: its reply is the same whatever the generator does. */
  lemma RejectionIgnoresGenerator(request: GenerateRequest, g1: GeneratorCall -> GeneratorOutcome, g2: GeneratorCall -> GeneratorOutcome)
    requires !(request.volumes.Arr? && |request.volumes.elems| > 0)
    ensures GenerateTransforms(request, g1) == GenerateTransforms(request, g2)
    ensures !GenerateTransforms(request, g1).response.success
    ensures NoVolumesSelected in GenerateTransforms(request, g1).response.errors
  {
  }

  /** Both checks can fail together, the volume error first; an integer 1 or `true` is not the flag '1'. */
  lemma BothErrorsInOrder(g: GeneratorCall -> GeneratorOutcome, flag: Value)
    requires flag != Str("1")
    ensures GenerateTransforms(GenerateRequest(Null, flag, Arr([])), g).response
            == GenerateResponse(false, [NoVolumesSelected, NoTransformsSelected])
  {
  }

  // ---------------------------------------------------------------------------
  // Clearing caches
  // ---------------------------------------------------------------------------

  type Path = string

  /** The two cache stores, each the set of files found under its directory. */
  datatype CacheStores = CacheStores(transforms: set<Path>, runtime: set<Path>)

  /** The accepted values of `cacheClearType`. */
  datatype ClearKind = All | Transforms | Runtime

  /** One entry of the reply's `counts` list. */
  datatype FileCount = FileCount(handle: string, fileCount: nat)

  /** The JSON reply of the clear action. */
  datatype ClearResponse = ClearRejected(errors: seq<string>) | ClearDone(counts: seq<FileCount>)

  /** The reply together with the stores as the action leaves them. */
  datatype ClearRun = ClearRun(response: ClearResponse, after: CacheStores)

  /** The clear kind a parameter names, compared strictly. */
  function ClearKindOf(v: Value): Option<ClearKind>
  {
    if v == Str("all") then Some(All)
    else if v == Str("transforms") then Some(Transforms)
    else if v == Str("runtime") then Some(Runtime)
    else None
  }

  predicate ClearsTransforms(k: ClearKind)
  {
    k == All || k == Transforms
  }

  predicate ClearsRuntime(k: ClearKind)
  {
    k == All || k == Runtime
  }

  /** The store transition: each selected store is emptied, the other keeps every file. */
  function Clear(k: ClearKind, stores: CacheStores): (after: CacheStores)
    ensures after.transforms <= stores.transforms && after.runtime <= stores.runtime
    ensures ClearsTransforms(k) ==> after.transforms == {}
    ensures !ClearsTransforms(k) ==> after.transforms == stores.transforms
    ensures ClearsRuntime(k) ==> after.runtime == {}
    ensures !ClearsRuntime(k) ==> after.runtime == stores.runtime
    ensures after.transforms == {} || after.runtime == {}
  {
    CacheStores(if ClearsTransforms(k) then {} else stores.transforms,
                if ClearsRuntime(k) then {} else stores.runtime)
  }

  /** The counts the action reports: the transforms store first, then the runtime store. */
  function Counts(stores: CacheStores): seq<FileCount>
  {
    [FileCount("transforms", |stores.transforms|), FileCount("runtime", |stores.runtime|)]
  }

  /** The clear action, with the kind compared strictly against the three accepted strings. */
  function ClearCache(kind: Value, stores: CacheStores): (run: ClearRun)
    ensures run.response.ClearRejected? <==> kind !in {Str("all"), Str("transforms"), Str("runtime")}
    ensures run.response.ClearRejected? ==>
              run.response.errors == [UnknownCacheClearType] && run.after == stores
    ensures run.after.transforms
            == (if kind == Str("all") || kind == Str("transforms") then {} else stores.transforms)
    ensures run.after.runtime
            == (if kind == Str("all") || kind == Str("runtime") then {} else stores.runtime)
    ensures run.response.ClearDone? ==>
              && |run.response.counts| == 2
              && run.response.counts[0] == FileCount("transforms", |run.after.transforms|)
              && run.response.counts[1] == FileCount("runtime", |run.after.runtime|)
    ensures run.response.ClearDone? ==> run.after.transforms == {} || run.after.runtime == {}
  {
    match ClearKindOf(kind)
    case None => ClearRun(ClearRejected([UnknownCacheClearType]), stores)
    case Some(k) =>
      var after := Clear(k, stores);
      ClearRun(ClearDone(Counts(after)), after)
  }

  /** Clearing twice gives the same reply and the same stores as clearing once. */
  lemma ClearCacheIdempotent(kind: Value, stores: CacheStores)
    ensures ClearCache(kind, ClearCache(kind, stores).after) == ClearCache(kind, stores)
  {
  }

  /** Clearing everything reports two empty stores, whatever they held. */
  lemma ClearAllReportsZero(stores: CacheStores)
    ensures ClearCache(Str("all"), stores)
            == ClearRun(ClearDone([FileCount("transforms", 0), FileCount("runtime", 0)]), CacheStores({}, {}))
  {
  }

  /** Clearing everything is clearing the transforms store and then the runtime store. */
  lemma ClearAllIsBoth(stores: CacheStores)
    ensures ClearCache(Str("all"), stores).after
            == ClearCache(Str("runtime"), ClearCache(Str("transforms"), stores).after).after
  {
  }

  // ---------------------------------------------------------------------------
  // The clear action as written: the kind check is a loose `in_array`
  // ---------------------------------------------------------------------------

  /** `in_array` without its strict flag: PHP 8 loose `==` against each accepted string. */
  predicate KindAcceptedAsWritten(v: Value)
  {
    LooseEqualsWord(v, "all") || LooseEqualsWord(v, "transforms") || LooseEqualsWord(v, "runtime")
  }

  /** The clear action exactly as written: a loose membership check, then strict `===` tests
      choosing the stores to clear. */
  function ClearCacheAsWritten(kind: Value, stores: CacheStores): (run: ClearRun)
    ensures run.response.ClearRejected? <==> kind !in {Str("all"), Str("transforms"), Str("runtime"), Bool(true)}
    ensures run.after.transforms <= stores.transforms && run.after.runtime <= stores.runtime
  {
    if !KindAcceptedAsWritten(kind) then
      ClearRun(ClearRejected([UnknownCacheClearType]), stores)
    else
      var after := CacheStores(
        if kind == Str("all") || kind == Str("transforms") then {} else stores.transforms,
        if kind == Str("all") || kind == Str("runtime") then {} else stores.runtime);
      ClearRun(ClearDone(Counts(after)), after)
  }

  /** A `true` kind (a JSON request body can carry one) passes the loose check, matches none of
      the strict tests, and is answered with success while both stores keep every file. */
  lemma AsWrittenTrueClearsNothing(stores: CacheStores)
    requires stores.transforms != {} && stores.runtime != {}
    ensures var run := ClearCacheAsWritten(Bool(true), stores);
            && run.response == ClearDone(Counts(stores))
            && run.after == stores
            && run.after.transforms != {} && run.after.runtime != {}
    ensures ClearCache(Bool(true), stores).response == ClearRejected([UnknownCacheClearType])
  {
  }

  /** `true` is the only value on which the loose check and the strict one disagree. */
  lemma AsWrittenAgreesElsewhere(kind: Value, stores: CacheStores)
    requires kind != Bool(true)
    ensures ClearCacheAsWritten(kind, stores) == ClearCache(kind, stores)
  {
  }
}

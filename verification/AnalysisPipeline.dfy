/** The analysis stage: one provider call, at most one repair call, then the safety gate (analysis_pipeline.py). */
module AnalysisPipeline {
  import opened Prelude
  import opened Domain
  import opened Contracts

  datatype ProviderResult = ProviderResult(
    detectedLocale: Locale,
    hypotheses: seq<Hypothesis>,
    warnings: seq<string>,
    instructionLike: bool,
    prohibited: bool
  )

  /** What one provider call gives: an exception, something that fails schema validation, or a result. */
  datatype Reply = Raised | Malformed | Structured(result: ProviderResult)

  datatype AnalysisError =
    | InvalidInput
    | UnsupportedScope
    | AssetClosed
    | ProviderFailed
    | ProviderOutputInvalid
    | InstructionLikeContent
    | ProhibitedContent
    | UnsafeHypothesis

  datatype AnalysisOutcome = AnalysisOutcome(analysis: Analysis, repairAttempted: bool)

  function TargetMarket(direction: Direction): Market {
    match direction
    case ChinaToUk => UnitedKingdom
    case UkToChina => China
  }

  /** Every hypothesis is still pending and aimed at the market of the run. */
  predicate PendingForTarget(direction: Direction, hypotheses: seq<Hypothesis>) {
    forall i :: 0 <= i < |hypotheses| ==>
      hypotheses[i].reviewStatus.PendingReview? && hypotheses[i].targetMarket == TargetMarket(direction)
  }

  function ValidateResult(direction: Direction, result: ProviderResult): Option<AnalysisError> {
    if result.instructionLike then Some(InstructionLikeContent)
    else if result.prohibited then Some(ProhibitedContent)
    else if !PendingForTarget(direction, result.hypotheses) then Some(UnsafeHypothesis)
    else None
  }

  /** The analysis that a run may carry: it repeats the request and has passed the gate. */
  ghost predicate Admissible(request: RunCreate, analysis: Analysis) {
    && analysis.sourceAsset == request.sourceAsset
    && analysis.brandLock == request.brandLock
    && PendingForTarget(request.direction, analysis.hypotheses)
  }

  function Structure(reply: Reply): Result<ProviderResult, AnalysisError> {
    match reply
    case Raised => Err(ProviderFailed)
    case Malformed => Err(ProviderOutputInvalid)
    case Structured(result) => Ok(result)
  }

  /** The answer of the stage when the provider would reply with `initial`, and to a repair with `repair`. */
  function AnalysisResult(request: RunCreate, requestError: Option<AnalysisError>, initial: Reply, repair: Reply):
    Result<AnalysisOutcome, AnalysisError>
  {
    if requestError.Some? then Err(requestError.value)
    else
      var structured := Structure(if initial.Malformed? then repair else initial);
      if structured.Err? then Err(structured.error)
      else
        var result := structured.value;
        var refused := ValidateResult(request.direction, result);
        if refused.Some? then Err(refused.value)
        else
          var analysis := Analysis(request.sourceAsset, result.detectedLocale, request.brandLock, result.hypotheses,
                                   result.warnings);
          Ok(AnalysisOutcome(analysis, initial.Malformed?))
  }

  /** AnalysisPipeline.analyze. A second call is made exactly when the first reply does not fit the schema. */
  method Analyze(request: RunCreate, requestError: Option<AnalysisError>, initial: Reply, repair: Reply)
    returns (r: Result<AnalysisOutcome, AnalysisError>, calls: nat)
    ensures r == AnalysisResult(request, requestError, initial, repair)
    ensures calls == if requestError.Some? then 0 else if initial.Malformed? then 2 else 1
  {
    calls := 0;
    if requestError.Some? {
      return Err(requestError.value), calls;
    }
    var repairAttempted := false;
    var result := Structure(initial);
    calls := calls + 1;
    if result.Err? {
      if result.error != ProviderOutputInvalid {
        return Err(result.error), calls;
      }
      repairAttempted := true;
      result := Structure(repair);
      calls := calls + 1;
      if result.Err? {
        return Err(result.error), calls;
      }
    }
    var refused := ValidateResult(request.direction, result.value);
    if refused.Some? {
      return Err(refused.value), calls;
    }
    var analysis := Analysis(request.sourceAsset, result.value.detectedLocale, request.brandLock,
                             result.value.hypotheses, result.value.warnings);
    r := Ok(AnalysisOutcome(analysis, repairAttempted));
  }

  /**
   * An analysis is produced exactly when the reply that counts is structured, unflagged, and has only
   * pending hypotheses for the target market; it then repeats the request.
   */
  lemma AnalysisExactly(request: RunCreate, requestError: Option<AnalysisError>, initial: Reply, repair: Reply)
    ensures
      var r := AnalysisResult(request, requestError, initial, repair);
      var used := if initial.Malformed? then repair else initial;
      && (r.Ok? <==>
            && requestError.None? && used.Structured? && !used.result.instructionLike && !used.result.prohibited
            && PendingForTarget(request.direction, used.result.hypotheses))
      && (r.Ok? ==> Admissible(request, r.value.analysis) && r.value.repairAttempted == initial.Malformed?)
  {
  }
}

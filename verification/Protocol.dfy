/**
 * The service as a system of concurrent calls (app.py, composition_service.py, revision_service.py).
 * One action is one transaction, one artifact-store operation, or one decision of one call; actions of
 * different calls interleave freely, any call may raise at any point, and any call may stop for ever.
 */
module Protocol {
  import opened Prelude
  import opened Domain
  import opened Contracts
  import opened AnalysisPipeline
  import opened Drafts
  import opened Revising
  import opened Critic
  import opened Compositor
  import opened Tables
  import opened Lifecycle

  type CallId = nat

  /** What a call has read of a nullable part of its run. */
  datatype Reading<+T> = Unread | Read(value: Option<T>)

  /** The rows that a call has read so far, each in a transaction of its own. */
  datatype Snapshot = Snapshot(
    run: Option<ProjectRun>,
    request: Option<RunCreate>,
    analysis: Reading<Analysis>,
    confirmation: Reading<ConfirmationRecord>,
    draft: Reading<Draft>,
    composition: Reading<Composition>,
    critique: Reading<CritiqueReport>
  )

  const NOTHING_READ := Snapshot(None, None, Unread, Unread, Unread, Unread, Unread)

  /** Unhandled is an exception that leaves the service. */
  datatype Refusal =
    | Unhandled
    | Store(error: RepoError)
    | InvalidState
    | OutputRefused
    | PersistenceFailed
    | RevisionFailed
    | RetryFailed

  datatype Answer =
    | Refused(reason: Refusal)
    | FailureRecorded
    | AnalysisAnswer(analysis: Analysis)
    | ConfirmationAnswer(confirmation: ConfirmationRecord)
    | DraftAnswer(draft: Draft)
    | CompositionAnswer(composition: Composition)
    | CritiqueAnswer(critique: CritiqueReport)
    | RevisionAnswer(response: RevisionCompleted)

  /**
   * Where a call is. Jobs that carry an operation belong to submit_feedback or, for a retry, to retry. A call that is
   * Stored or Committed has made its last transaction and has not returned yet; one that is Undoing has got an
   * exception there, and its handler is about to delete an artifact that is named by now.
   */
  datatype Job =
    | Analyzing
    | Won
    | FailureDecided(status: Status, code: string)
    | FailureRead(failed: ProjectRun)
    | Analyzed(analysis: Analysis, repaired: bool)
    | AnalysisChecked(analysis: Analysis, repaired: bool, updated: ProjectRun)
    | Drafting
    | Composing
    | Rendered(composition: Composition)
    | Stored(composition: Composition)
    | Dropping(artifact: ArtifactId, replay: bool)
    | Replaying
    | Reviewing
    | Rechecking(op: Operation)
    | Revising(op: Operation)
    | Revised(op: Operation, record: RevisionRecord)
    | Counted(op: Operation, record: RevisionRecord, response: RevisionCompleted)
    | Committed(op: Operation, record: RevisionRecord, response: RevisionCompleted)
    | Cleaning(op: Operation, artifact: ArtifactId, technical: bool)
    | Failing(op: Operation)
    | Undoing(artifact: ArtifactId, late: Option<Operation>, technical: bool)
    | LateFailing(op: Operation)
    | Finished(answer: Answer)

  datatype Call = Call(run: RunId, job: Job, seen: Snapshot)

  /** Bookkeeping only: which call or row accounts for an artifact. */
  datatype Holder = HeldBy(call: CallId) | FirstVersionOf(run: RunId) | SecondVersionOf(run: RunId) | Lost

  /** holders and retracted are bookkeeping: retracted are the named artifacts that a handler has deleted. */
  datatype Sys = Sys(
    db: Db,
    artifacts: map<ArtifactId, string>,
    calls: map<CallId, Call>,
    issued: set<ArtifactId>,
    holders: map<ArtifactId, Holder>,
    retracted: set<ArtifactId>
  )

  datatype Field =
    RunField | RequestField | AnalysisField | ConfirmationField | DraftField | CompositionField | CritiqueField

  datatype Endpoint = AnalyzeEndpoint | DraftEndpoint | CompositionEndpoint | CriticEndpoint

  /** What the environment adds to one rendering: kinds in the registry, thumbnail sizes, the digest, the time. */
  datatype Rendering = Rendering(
    artifact: ArtifactId,
    logoKind: AssetKind,
    productUiKind: AssetKind,
    logoSize: Size,
    productUiSize: Size,
    sha256: string,
    at: int
  ) {
    predicate Possible() {
      FitsBox(logoSize, LOGO_BOX) && FitsBox(productUiSize, PRODUCT_UI_BOX)
    }
  }

  datatype Action =
    | CreateRun(run: RunId, request: RunCreate, at: int)
    | Start(call: CallId, run: RunId, endpoint: Endpoint)
    | ReadField(call: CallId, field: Field)
    | AnswerStored(call: CallId)
    | ClaimRun(call: CallId)
    | AssetRefused(call: CallId, closed: bool)
    | Analyse(call: CallId, requestError: Option<AnalysisError>, initial: Reply, repair: Reply)
    | ReadForFailure(call: CallId)
    | WriteFailure(call: CallId)
    | ReadForAnalysis(call: CallId)
    | WriteAnalysis(call: CallId)
    | Confirm(call: CallId, run: RunId, proposed: BrandLock, at: int)
    | WriteDraft(call: CallId, at: int)
    | RenderFirst(call: CallId, rendering: Rendering)
    | WriteComposition(call: CallId)
    | Conclude(call: CallId)
    | DropArtifact(call: CallId)
    | DropFails(call: CallId)
    | ReplayComposition(call: CallId)
    | WriteCritique(call: CallId, at: int)
    | SubmitFeedback(call: CallId, run: RunId, key: string, fingerprint: string, changes: seq<RevisionChange>,
                     digest: string)
    | SubmitRetry(call: CallId, run: RunId, key: string, fingerprint: string)
    | Recheck(call: CallId)
    | RenderSecond(call: CallId, rendering: Rendering, reviewedAt: int)
    | CountAttempts(call: CallId)
    | WriteRevision(call: CallId)
    | Fault(call: CallId, technical: bool)
    | WriteFault(call: CallId, lost: bool)
    | Crash(call: CallId)

  /** The artifact that a call has saved and not yet handed over or deleted. */
  function Holding(job: Job): Option<ArtifactId> {
    match job
    case Rendered(composition) => Some(composition.artifactId)
    case Dropping(artifact, _) => Some(artifact)
    case Revised(_, record) => Some(record.composition.artifactId)
    case Counted(_, record, _) => Some(record.composition.artifactId)
    case Cleaning(_, artifact, _) => Some(artifact)
    case _ => None
  }

  // Building blocks of Next

  predicate Mine(s: Sys, c: CallId) {
    c in s.calls && s.calls[c].run in s.db.runs && s.calls[c].run in s.db.contexts
  }

  function At(s: Sys, c: CallId, job: Job): Sys
    requires c in s.calls
  {
    s.(calls := s.calls[c := s.calls[c].(job := job)])
  }

  function Refuse(s: Sys, c: CallId, reason: Refusal): Sys
    requires c in s.calls
  {
    At(s, c, Finished(Refused(reason)))
  }

  /** A call that begins with a claim or a confirmation. */
  function Begin(s: Sys, c: CallId, r: RunId, job: Job): Sys {
    s.(calls := s.calls[c := Call(r, job, NOTHING_READ)])
  }

  function FailureCode(retrying: bool): Refusal {
    if retrying then RetryFailed else RevisionFailed
  }

  function Optional<T>(d: Decoded<T>): Option<T> {
    if d.Present? then Some(d.value) else None
  }

  /** One read. None models a decoder that raises. */
  function Observe(db: Db, r: RunId, field: Field, seen: Snapshot): Option<Snapshot>
    requires r in db.runs && r in db.contexts
  {
    var context := db.contexts[r];
    match field
    case RunField => Some(seen.(run := Some(db.runs[r])))
    case RequestField => Some(seen.(request := Some(context.request)))
    case AnalysisField => Some(seen.(analysis := Read(context.analysis)))
    case ConfirmationField =>
      if DecodeConfirmation(context).Corrupt? then None
      else Some(seen.(confirmation := Read(Optional(DecodeConfirmation(context)))))
    case DraftField =>
      if DecodeDraft(context).Corrupt? then None
      else Some(seen.(draft := Read(Optional(DecodeDraft(context)))))
    case CompositionField => Some(seen.(composition := Read(context.composition)))
    case CritiqueField =>
      if DecodeCritique(context).Corrupt? then None
      else Some(seen.(critique := Read(Optional(DecodeCritique(context)))))
  }

  /** What an endpoint answers when the artifact it makes is already stored. */
  function StoredAnswer(job: Job, seen: Snapshot): Option<Answer> {
    match job
    case Drafting =>
      if seen.draft.Read? && seen.draft.value.Some? then Some(DraftAnswer(seen.draft.value.value)) else None
    case Composing =>
      if seen.composition.Read? && seen.composition.value.Some?
      then Some(CompositionAnswer(seen.composition.value.value)) else None
    case Reviewing =>
      if seen.critique.Read? && seen.critique.value.Some? then Some(CritiqueAnswer(seen.critique.value.value)) else None
    case _ => None
  }

  function AnalysisFailureStatus(error: AnalysisError): Status {
    if error.ProviderFailed? || error.ProviderOutputInvalid? then Failed else Blocked
  }

  function AnalysisFailureCode(error: AnalysisError): string {
    match error
    case InvalidInput => "invalid_analysis_input"
    case UnsupportedScope => "unsupported_analysis_scope"
    case AssetClosed => "asset_lifecycle_closed"
    case ProviderFailed => "provider_failed"
    case ProviderOutputInvalid => "provider_output_invalid"
    case InstructionLikeContent => "instruction_like_content"
    case ProhibitedContent => "prohibited_content"
    case UnsafeHypothesis => "unsafe_hypothesis"
  }

  function Found<T>(reading: Reading<T>): Option<T> {
    if reading.Read? then reading.value else None
  }

  /** All the reads of generate, of draft and critic requests, and of _execute. */
  predicate ReadAll(seen: Snapshot) {
    && seen.run.Some? && seen.request.Some? && seen.analysis.Read? && seen.confirmation.Read? && seen.draft.Read?
    && seen.composition.Read? && seen.critique.Read?
  }

  /** The evidence of a rendering for this lock, or the error that composing raises. */
  function RenderLayers(lock: BrandLock, adCopy: AdCopy, rendering: Rendering): Result<seq<Layer>, CompositionError> {
    if |lock.productUiAssetIds| == 0 then Err(InvalidOutput)
    else
      ComposeLayers(lock, adCopy, RegisteredAsset(lock.logoAssetId, rendering.logoKind),
                    RegisteredAsset(lock.productUiAssetIds[0], rendering.productUiKind),
                    rendering.logoSize, rendering.productUiSize)
  }

  function CompositionOf(r: RunId, rendering: Rendering, layers: seq<Layer>): Composition {
    Composition(r, rendering.artifact, rendering.sha256, layers, rendering.at)
  }

  /** A saved artifact together with the call that must hand it over or delete it. */
  function Saved(s: Sys, rendering: Rendering, holder: Holder): Sys {
    s.(artifacts := s.artifacts[rendering.artifact := rendering.sha256],
       issued := s.issued + {rendering.artifact},
       holders := s.holders[rendering.artifact := holder])
  }

  function Deleted(s: Sys, artifact: ArtifactId): Sys {
    s.(artifacts := s.artifacts - {artifact}, holders := s.holders - {artifact})
  }

  /** The same deletion when a row names the artifact. */
  function Retracted(s: Sys, artifact: ArtifactId): Sys {
    s.(artifacts := s.artifacts - {artifact}, retracted := s.retracted + {artifact})
  }

  function CreateRunStep(s: Sys, r: RunId, request: RunCreate, at: int): Sys {
    s.(db := Create(s.db, r, ProjectRun(request.direction, Pending, [], at), Some(request)).db)
  }

  function ReadFieldStep(s: Sys, c: CallId, field: Field): Sys
    requires Mine(s, c)
  {
    var call := s.calls[c];
    var seen := Observe(s.db, call.run, field, call.seen);
    if seen.None? then Refuse(s, c, Store(InvalidValue))
    else s.(calls := s.calls[c := call.(seen := seen.value)])
  }

  function AnswerStoredStep(s: Sys, c: CallId): Sys
    requires c in s.calls && StoredAnswer(s.calls[c].job, s.calls[c].seen).Some?
  {
    At(s, c, Finished(StoredAnswer(s.calls[c].job, s.calls[c].seen).value))
  }

  // The analysis and the confirmation

  function ClaimRunStep(s: Sys, c: CallId): Sys
    requires c in s.calls
  {
    var out := ClaimAnalysis(s.db, s.calls[c].run);
    if out.result.Ok? && out.result.value.Some? then At(s.(db := out.db), c, Won)
    else Refuse(s, c, InvalidState)
  }

  function AssetRefusedStep(s: Sys, c: CallId, closed: bool): Sys
    requires c in s.calls
  {
    At(s, c, FailureDecided(Blocked, if closed then "asset_lifecycle_closed" else "asset_validation_failed"))
  }

  function AnalyseStep(s: Sys, c: CallId, requestError: Option<AnalysisError>, initial: Reply, repair: Reply): Sys
    requires c in s.calls && s.calls[c].seen.request.Some?
  {
    match AnalysisResult(s.calls[c].seen.request.value, requestError, initial, repair)
    case Ok(done) => At(s, c, Analyzed(done.analysis, done.repairAttempted))
    case Err(error) => At(s, c, FailureDecided(AnalysisFailureStatus(error), AnalysisFailureCode(error)))
  }

  function ReadForFailureStep(s: Sys, c: CallId): Sys
    requires Mine(s, c) && s.calls[c].job.FailureDecided?
  {
    var call := s.calls[c];
    var updated := CheckFailure(s.db.runs[call.run], call.job.status, call.job.code);
    if updated.Err? then Refuse(s, c, Store(updated.error)) else At(s, c, FailureRead(updated.value))
  }

  function WriteFailureStep(s: Sys, c: CallId): Sys
    requires c in s.calls && s.calls[c].job.FailureRead?
  {
    At(s.(db := StoreFailure(s.db, s.calls[c].run, s.calls[c].job.failed).db), c, Finished(FailureRecorded))
  }

  function ReadForAnalysisStep(s: Sys, c: CallId): Sys
    requires Mine(s, c) && s.calls[c].job.Analyzed?
  {
    var call := s.calls[c];
    var updated := CheckAnalysis(s.db.runs[call.run], s.db.contexts[call.run].request, call.job.analysis);
    if updated.Err? then Refuse(s, c, Store(updated.error))
    else At(s, c, AnalysisChecked(call.job.analysis, call.job.repaired, updated.value))
  }

  function WriteAnalysisStep(s: Sys, c: CallId): Sys
    requires c in s.calls && s.calls[c].job.AnalysisChecked?
  {
    var job := s.calls[c].job;
    var out := StoreAnalysis(s.db, s.calls[c].run, job.updated, job.analysis, job.repaired);
    match out.result
    case Ok(_) => At(s.(db := out.db), c, Finished(AnalysisAnswer(job.analysis)))
    case Err(error) => Refuse(s, c, Store(error))
  }

  function ConfirmStep(s: Sys, c: CallId, r: RunId, proposed: BrandLock, at: int): Sys {
    var out := ConfirmBrandLock(s.db, r, proposed, at);
    match out.result
    case Ok(record) => Begin(s.(db := out.db), c, r, Finished(ConfirmationAnswer(record)))
    case Err(error) => Begin(s, c, r, Finished(Refused(Store(error))))
  }

  // Draft and critic requests

  function WriteDraftStep(s: Sys, c: CallId, at: int): Sys
    requires c in s.calls && s.calls[c].seen.run.Some?
  {
    var seen := s.calls[c].seen;
    if Found(seen.analysis).None? || Found(seen.confirmation).None? || seen.run.value.status != InProgress
    then Refuse(s, c, InvalidState)
    else
      var art :=
        Generate(Found(seen.analysis).value, Found(seen.confirmation).value.brandLock, seen.run.value.direction);
      if art.Err? then Refuse(s, c, OutputRefused)
      else
        var draft := Draft(art.value.brief, art.value.adCopy, art.value.factReferences, art.value.ruleIds, at);
        var out := SaveDraft(s.db, s.calls[c].run, draft);
        match out.result
        case Ok(saved) => At(s.(db := out.db), c, Finished(DraftAnswer(saved)))
        case Err(error) => Refuse(s, c, Store(error))
  }

  function WriteCritiqueStep(s: Sys, c: CallId, at: int): Sys
    requires c in s.calls && s.calls[c].seen.run.Some?
  {
    var seen := s.calls[c].seen;
    if Found(seen.analysis).None? || Found(seen.confirmation).None? || Found(seen.draft).None?
       || Found(seen.composition).None?
    then Refuse(s, c, InvalidState)
    else
      var report := Review(CriticRequest(Found(seen.analysis).value, Found(seen.confirmation).value.brandLock,
                                         Found(seen.draft).value, Found(seen.composition).value,
                                         seen.run.value.warningCodes), at);
      if report.None? then Refuse(s, c, OutputRefused)
      else
        var out := SaveCritique(s.db, s.calls[c].run, report.value);
        match out.result
        case Ok(saved) => At(s.(db := out.db), c, Finished(CritiqueAnswer(saved)))
        case Err(error) => Refuse(s, c, Store(error))
  }

  // The composition service, between its reads and its write

  function RenderFirstStep(s: Sys, c: CallId, rendering: Rendering): Sys
    requires c in s.calls
  {
    var call := s.calls[c];
    var seen := call.seen;
    if seen.run.None? || seen.run.value.status != InProgress || Found(seen.analysis).None?
       || seen.request.None? || !seen.request.value.executionMode.Fixture?
       || Found(seen.confirmation).None? || Found(seen.draft).None?
    then Refuse(s, c, InvalidState)
    else
      var layers := RenderLayers(Found(seen.confirmation).value.brandLock, Found(seen.draft).value.adCopy, rendering);
      if layers.Err? then Refuse(s, c, OutputRefused)
      else
        var composition := CompositionOf(call.run, rendering, layers.value);
        if composition.Valid() then At(Saved(s, rendering, HeldBy(c)), c, Rendered(composition))
        else Refuse(Saved(s, rendering, Lost), c, OutputRefused)
  }

  function WriteCompositionStep(s: Sys, c: CallId): Sys
    requires c in s.calls && s.calls[c].job.Rendered?
  {
    var call := s.calls[c];
    var composition := call.job.composition;
    var out := SaveComposition(s.db, call.run, composition);
    match out.result
    case Ok(saved) =>
      At(s.(db := out.db, holders := s.holders[composition.artifactId := FirstVersionOf(call.run)]), c, Stored(saved))
    case Err(error) => At(s, c, Dropping(composition.artifactId, error.CompositionImmutable?))
  }

  function ReplayCompositionStep(s: Sys, c: CallId): Sys
    requires Mine(s, c)
  {
    var stored := s.db.contexts[s.calls[c].run].composition;
    if stored.Some? then At(s, c, Finished(CompositionAnswer(stored.value))) else Refuse(s, c, PersistenceFailed)
  }

  // The revision service, between its claim and its last write

  predicate Retrying(job: Job)
    requires job.Rechecking? || job.Revising? || job.Revised? || job.Counted? || job.Cleaning? || job.Failing?
  {
    job.op.kind.Retry?
  }

  function ClaimJob(op: Operation): Job {
    if op.state.OpSucceeded? && op.publicResponse.Some? then Finished(RevisionAnswer(op.publicResponse.value))
    else if op.kind.Retry? then Rechecking(op)
    else Revising(op)
  }

  /** A call that begins with the claim of an operation. */
  function ClaimStep(s: Sys, c: CallId, r: RunId, out: Outcome<Operation>): Sys {
    match out.result
    case Ok(op) => Begin(s.(db := out.db), c, r, ClaimJob(op))
    case Err(error) => Begin(s, c, r, Finished(Refused(Store(error))))
  }

  /** The check that retry makes of the stored decision, after its claim. */
  predicate RecheckPasses(db: Db, r: RunId, op: Operation)
    requires r in db.contexts
  {
    && op.retryCondition.Some? && op.retryAction.Some?
    && var decision := DecideRetry(op.retryCondition.value, db.contexts[r].technicalAttemptCount - 1, None);
       decision.Some? && decision.value.action == op.retryAction.value && decision.value.action in RETRYING_ACTIONS
  }

  function RecheckStep(s: Sys, c: CallId): Sys
    requires Mine(s, c) && s.calls[c].job.Rechecking?
  {
    var op := s.calls[c].job.op;
    if RecheckPasses(s.db, s.calls[c].run, op) then At(s, c, Revising(op)) else Refuse(s, c, InvalidState)
  }

  const EMPTY_DIGEST := "e3b0c44298fc1c149afbf4c8996fb92427ae41e4649b934ca495991b7852b855"

  /** The guard of _execute on what it has read. */
  predicate Revisable(seen: Snapshot) {
    && ReadAll(seen)
    && seen.request.value.executionMode.Fixture?
    && Found(seen.analysis).Some? && Found(seen.confirmation).Some? && Found(seen.draft).Some?
    && Found(seen.composition).Some? && Found(seen.critique).Some?
    && !Found(seen.critique).value.status.Reject?
  }

  function RevisionRecordOf(r: RunId, op: Operation, draft: Draft, composition: Composition, report: CritiqueReport):
    RevisionRecord
  {
    RevisionRecord(r, op.requestedChanges, if op.feedbackDigest.Some? then op.feedbackDigest.value else EMPTY_DIGEST,
                   draft, composition, report, report.reviewedAt)
  }

  function SecondReview(seen: Snapshot, draft: Draft, composition: Composition, at: int): Option<CritiqueReport>
    requires Revisable(seen)
  {
    Review(CriticRequest(Found(seen.analysis).value, Found(seen.confirmation).value.brandLock, draft, composition,
                         seen.run.value.warningCodes), at)
  }

  function RenderSecondStep(s: Sys, c: CallId, rendering: Rendering, reviewedAt: int): Sys
    requires c in s.calls && s.calls[c].job.Revising?
  {
    var call := s.calls[c];
    var seen, op := call.seen, call.job.op;
    if !Revisable(seen) then Refuse(s, c, InvalidState)
    else
      var revised := ReviseDraft(seen.run.value.direction, Found(seen.draft).value, op.requestedChanges);
      if revised.None? then Refuse(s, c, FailureCode(Retrying(call.job)))
      else
        var art := revised.value;
        var layers := RenderLayers(Found(seen.confirmation).value.brandLock, art.adCopy, rendering);
        if layers.Err? then At(s, c, Failing(op))
        else
          var saved := Saved(s, rendering, HeldBy(c));
          var composition := CompositionOf(call.run, rendering, layers.value);
          var draft := Draft(art.brief, art.adCopy, art.factReferences, art.ruleIds, rendering.at);
          var report := SecondReview(seen, draft, composition, reviewedAt);
          if !composition.Valid() || report.None? then At(saved, c, Cleaning(op, rendering.artifact, true))
          else At(saved, c, Revised(op, RevisionRecordOf(call.run, op, draft, composition, report.value)))
  }

  function CountAttemptsStep(s: Sys, c: CallId): Sys
    requires c in s.calls && s.calls[c].job.Revised? && s.calls[c].run in s.db.contexts
    requires Found(s.calls[c].seen.composition).Some?
  {
    var call := s.calls[c];
    var record := call.job.record;
    var response := RevisionCompleted(
      call.run,
      if record.critique.status.Reject? then FailedFinal else Ready,
      Found(call.seen.composition).value,
      record.draft.brief,
      record.draft.adCopy,
      record.composition,
      record.critique,
      s.db.contexts[call.run].technicalAttemptCount,
      record.critique.reviewedAt);
    if response.Valid() then At(s, c, Counted(call.job.op, record, response))
    else At(s, c, Cleaning(call.job.op, record.composition.artifactId, true))
  }

  function WriteRevisionStep(s: Sys, c: CallId): Sys
    requires c in s.calls && s.calls[c].job.Counted?
  {
    var call := s.calls[c];
    var job := call.job;
    var artifact := job.record.composition.artifactId;
    var out := CompleteRevision(s.db, call.run, job.op.id, job.record, job.response);
    match out.result
    case Ok(_) =>
      At(s.(db := out.db, holders := s.holders[artifact := SecondVersionOf(call.run)]), c,
         Committed(job.op, job.record, job.response))
    case Err(_) => At(s, c, Cleaning(job.op, artifact, false))
  }

  /** The call returns what its last transaction has stored. */
  function ConcludeStep(s: Sys, c: CallId): Sys
    requires c in s.calls && (s.calls[c].job.Stored? || s.calls[c].job.Committed?)
  {
    match s.calls[c].job
    case Stored(composition) => At(s, c, Finished(CompositionAnswer(composition)))
    case Committed(_, _, response) => At(s, c, Finished(RevisionAnswer(response)))
  }

  function DropArtifactStep(s: Sys, c: CallId): Sys
    requires c in s.calls && Deleting(s.calls[c].job)
  {
    match s.calls[c].job
    case Dropping(artifact, replay) =>
      if replay then At(Deleted(s, artifact), c, Replaying) else Refuse(Deleted(s, artifact), c, PersistenceFailed)
    case Cleaning(op, artifact, technical) =>
      if technical then At(Deleted(s, artifact), c, Failing(op))
      else Refuse(Deleted(s, artifact), c, FailureCode(op.kind.Retry?))
    case Undoing(artifact, late, technical) =>
      if late.None? then Refuse(Retracted(s, artifact), c, PersistenceFailed)
      else if technical then At(Retracted(s, artifact), c, LateFailing(late.value))
      else Refuse(Retracted(s, artifact), c, FailureCode(late.value.kind.Retry?))
  }

  predicate Deleting(job: Job) {
    job.Dropping? || job.Cleaning? || job.Undoing?
  }

  /** The deletion itself raises: the artifact stays, and unless a row names it nothing accounts for it any more. */
  function DropFailsStep(s: Sys, c: CallId): Sys
    requires c in s.calls && Deleting(s.calls[c].job)
  {
    var held := Holding(s.calls[c].job);
    Refuse(if held.Some? && held.value in s.holders then s.(holders := s.holders[held.value := Lost]) else s,
           c, Unhandled)
  }

  /** An exception at any point but a deletion; technical ones are those that may be retried. */
  function AfterFault(job: Job, technical: bool): Job {
    match job
    case Composing => Finished(Refused(if technical then OutputRefused else PersistenceFailed))
    case Rendered(composition) => Dropping(composition.artifactId, false)
    case Stored(composition) => Undoing(composition.artifactId, None, technical)
    case Revising(op) => if technical then Failing(op) else Finished(Refused(FailureCode(op.kind.Retry?)))
    case Revised(op, record) => Cleaning(op, record.composition.artifactId, technical)
    case Counted(op, record, _) => Cleaning(op, record.composition.artifactId, technical)
    case Committed(op, record, _) => Undoing(record.composition.artifactId, Some(op), technical)
    case _ => Finished(Refused(Unhandled))
  }

  /** Deletions have an action of their own, and so has the suppressed failure write. */
  predicate Faultable(job: Job) {
    !job.Finished? && !Deleting(job) && !job.Failing? && !job.LateFailing?
  }

  // The system

  function WriteFaultStep(s: Sys, c: CallId, lost: bool): Sys
    requires c in s.calls && (s.calls[c].job.Failing? || s.calls[c].job.LateFailing?)
  {
    var op := s.calls[c].job.op;
    var retrying := op.kind.Retry?;
    var out := FailOperation(s.db, s.calls[c].run, op.id, ConnectionBeforeAcceptance,
                             if retrying then DoNotRetry else RetryOnce);
    Refuse(if lost then s else s.(db := out.db), c, FailureCode(retrying))
  }

  function CrashStep(s: Sys, c: CallId): Sys
    requires c in s.calls
  {
    var held := Holding(s.calls[c].job);
    s.(calls := s.calls - {c},
       holders := if held.Some? && held.value in s.holders then s.holders[held.value := Lost] else s.holders)
  }

  predicate Enabled(s: Sys, a: Action) {
    match a
    case CreateRun(r, request, _) => request.Valid()
    case Start(c, r, _) => c !in s.calls && r in s.db.runs
    case ReadField(c, _) =>
      && Mine(s, c)
      && var job := s.calls[c].job;
         job.Analyzing? || job.Drafting? || job.Composing? || job.Reviewing? || job.Revising?
    case AnswerStored(c) => Mine(s, c) && StoredAnswer(s.calls[c].job, s.calls[c].seen).Some?
    case ClaimRun(c) =>
      && Mine(s, c) && s.calls[c].job.Analyzing? && s.calls[c].seen.request.Some?
      && s.calls[c].seen.run.Some? && s.calls[c].seen.run.value.status.Pending?
    case AssetRefused(c, _) => Mine(s, c) && s.calls[c].job.Won?
    case Analyse(c, _, _, _) => Mine(s, c) && s.calls[c].job.Won? && s.calls[c].seen.request.Some?
    case ReadForFailure(c) => Mine(s, c) && s.calls[c].job.FailureDecided?
    case WriteFailure(c) => Mine(s, c) && s.calls[c].job.FailureRead?
    case ReadForAnalysis(c) => Mine(s, c) && s.calls[c].job.Analyzed?
    case WriteAnalysis(c) => Mine(s, c) && s.calls[c].job.AnalysisChecked?
    case Confirm(c, r, proposed, _) => c !in s.calls && r in s.db.runs && proposed.Valid()
    case WriteDraft(c, _) =>
      && Mine(s, c) && s.calls[c].job.Drafting?
      && var seen := s.calls[c].seen;
         && seen.run.Some? && seen.analysis.Read? && seen.confirmation.Read? && seen.draft == Read(None)
    case RenderFirst(c, rendering) =>
      && Mine(s, c) && s.calls[c].job.Composing? && rendering.Possible() && rendering.artifact !in s.issued
      && var seen := s.calls[c].seen;
         && seen.run.Some? && seen.request.Some? && seen.analysis.Read? && seen.confirmation.Read? && seen.draft.Read?
         && seen.composition == Read(None)
    case WriteComposition(c) => Mine(s, c) && s.calls[c].job.Rendered?
    case Conclude(c) => Mine(s, c) && (s.calls[c].job.Stored? || s.calls[c].job.Committed?)
    case DropArtifact(c) => Mine(s, c) && Deleting(s.calls[c].job)
    case DropFails(c) => Mine(s, c) && Deleting(s.calls[c].job)
    case ReplayComposition(c) => Mine(s, c) && s.calls[c].job.Replaying?
    case WriteCritique(c, _) =>
      && Mine(s, c) && s.calls[c].job.Reviewing?
      && var seen := s.calls[c].seen;
         && seen.run.Some? && seen.analysis.Read? && seen.confirmation.Read? && seen.draft.Read?
         && seen.composition.Read? && seen.critique == Read(None)
    case SubmitFeedback(c, r, _, _, _, _) => c !in s.calls && r in s.db.runs
    case SubmitRetry(c, r, _, _) => c !in s.calls && r in s.db.runs
    case Recheck(c) => Mine(s, c) && s.calls[c].job.Rechecking?
    case RenderSecond(c, rendering, _) =>
      && Mine(s, c) && s.calls[c].job.Revising? && rendering.Possible() && rendering.artifact !in s.issued
      && ReadAll(s.calls[c].seen)
    case CountAttempts(c) => Mine(s, c) && s.calls[c].job.Revised? && Found(s.calls[c].seen.composition).Some?
    case WriteRevision(c) => Mine(s, c) && s.calls[c].job.Counted?
    case Fault(c, _) => Mine(s, c) && Faultable(s.calls[c].job)
    case WriteFault(c, _) => Mine(s, c) && (s.calls[c].job.Failing? || s.calls[c].job.LateFailing?)
    case Crash(c) => Mine(s, c) && !s.calls[c].job.Finished?
  }

  function EndpointJob(endpoint: Endpoint): Job {
    match endpoint
    case AnalyzeEndpoint => Analyzing
    case DraftEndpoint => Drafting
    case CompositionEndpoint => Composing
    case CriticEndpoint => Reviewing
  }

  function Next(s: Sys, a: Action): Sys
    requires Enabled(s, a)
  {
    match a
    case CreateRun(r, request, at) => CreateRunStep(s, r, request, at)
    case Start(c, r, endpoint) => Begin(s, c, r, EndpointJob(endpoint))
    case ReadField(c, field) => ReadFieldStep(s, c, field)
    case AnswerStored(c) => AnswerStoredStep(s, c)
    case ClaimRun(c) => ClaimRunStep(s, c)
    case AssetRefused(c, closed) => AssetRefusedStep(s, c, closed)
    case Analyse(c, requestError, initial, repair) => AnalyseStep(s, c, requestError, initial, repair)
    case ReadForFailure(c) => ReadForFailureStep(s, c)
    case WriteFailure(c) => WriteFailureStep(s, c)
    case ReadForAnalysis(c) => ReadForAnalysisStep(s, c)
    case WriteAnalysis(c) => WriteAnalysisStep(s, c)
    case Confirm(c, r, proposed, at) => ConfirmStep(s, c, r, proposed, at)
    case WriteDraft(c, at) => WriteDraftStep(s, c, at)
    case RenderFirst(c, rendering) => RenderFirstStep(s, c, rendering)
    case WriteComposition(c) => WriteCompositionStep(s, c)
    case Conclude(c) => ConcludeStep(s, c)
    case DropArtifact(c) => DropArtifactStep(s, c)
    case DropFails(c) => DropFailsStep(s, c)
    case ReplayComposition(c) => ReplayCompositionStep(s, c)
    case WriteCritique(c, at) => WriteCritiqueStep(s, c, at)
    case SubmitFeedback(c, r, key, fingerprint, changes, digest) =>
      ClaimStep(s, c, r, ClaimFeedback(s.db, r, key, fingerprint, changes, digest))
    case SubmitRetry(c, r, key, fingerprint) => ClaimStep(s, c, r, ClaimRetry(s.db, r, key, fingerprint))
    case Recheck(c) => RecheckStep(s, c)
    case RenderSecond(c, rendering, reviewedAt) => RenderSecondStep(s, c, rendering, reviewedAt)
    case CountAttempts(c) => CountAttemptsStep(s, c)
    case WriteRevision(c) => WriteRevisionStep(s, c)
    case Fault(c, technical) => At(s, c, AfterFault(s.calls[c].job, technical))
    case WriteFault(c, lost) => WriteFaultStep(s, c, lost)
    case Crash(c) => CrashStep(s, c)
  }

  const INITIAL := Sys(Db(map[], map[], map[], []), map[], map[], {}, map[], {})

  /** The state after a sequence of actions, or None where one of them is not enabled. */
  function Run(actions: seq<Action>): Option<Sys> {
    if |actions| == 0 then Some(INITIAL)
    else
      var before := Run(actions[..|actions| - 1]);
      var a := actions[|actions| - 1];
      if before.Some? && Enabled(before.value, a) then Some(Next(before.value, a)) else None
  }
}

/**
 * The four tables of the run store and one function per transaction: what it answers and what it
 * leaves in the tables (repository.py). A transaction that raises answers Err and is rolled back.
 */
module Tables {
  import opened Prelude
  import opened Domain
  import opened Contracts
  import opened Confirmation

  datatype OperationKind = Feedback | Retry
  datatype OperationState = OpInProgress | OpSucceeded | OpFailedRetryable | OpFailedFinal

  datatype Operation = Operation(
    id: nat,
    runId: RunId,
    kind: OperationKind,
    keyDigest: string,
    fingerprint: string,
    state: OperationState,
    requestedChanges: seq<RevisionChange>,
    feedbackDigest: Option<string>,
    retryCondition: Option<RetryCondition>,
    retryAction: Option<RetryAction>,
    publicResponse: Option<RevisionCompleted>
  )

  datatype RevisionRecord = RevisionRecord(
    runId: RunId,
    requestedChanges: seq<RevisionChange>,
    feedbackDigest: string,
    draft: Draft,
    composition: Composition,
    critique: CritiqueReport,
    revisedAt: int
  )

  /** A context row. Every nullable column is an Option of its own. */
  datatype Context = Context(
    request: RunCreate,
    analysis: Option<Analysis>,
    repairAttempted: bool,
    confirmedLock: Option<BrandLock>,
    confirmedAt: Option<int>,
    brief: Option<CreativeBrief>,
    adCopy: Option<AdCopy>,
    factReferences: Option<seq<string>>,
    ruleIds: Option<seq<string>>,
    draftGeneratedAt: Option<int>,
    composition: Option<Composition>,
    critique: Option<CritiqueReport>,
    reviewedAt: Option<int>,
    initialGenerationCount: nat,
    humanRevisionCount: nat,
    technicalAttemptCount: nat
  )

  function NewContext(request: RunCreate): Context {
    Context(request, None, false, None, None, None, None, None, None, None, None, None, None, 0, 0, 0)
  }

  datatype Db = Db(
    runs: map<RunId, ProjectRun>,
    contexts: map<RunId, Context>,
    revisions: map<RunId, RevisionRecord>,
    operations: seq<Operation>
  )

  /** Interrupted is a database exception that comes after the transaction of a call has been committed. */
  datatype RepoError =
    | ProjectRunNotFound
    | DuplicateProjectRun
    | InvalidRunState
    | BrandLockImmutable
    | DraftImmutable
    | CompositionImmutable
    | CritiqueImmutable
    | IdempotencyConflict
    | OperationInProgress
    | RevisionLimitReached
    | Unconfirmable(reason: ConfirmationError)
    | Interrupted
    | InvalidValue

  datatype Outcome<+T> = Outcome(db: Db, result: Result<T, RepoError>)

  // Row decoders

  /** What a group of columns that are written together says. */
  datatype Decoded<+T> = Absent | Present(value: T) | Corrupt

  datatype ConfirmationRecord = ConfirmationRecord(brandLock: BrandLock, confirmedAt: int)

  function DecodeConfirmation(c: Context): Decoded<ConfirmationRecord> {
    if c.confirmedLock.None? && c.confirmedAt.None? then Absent
    else if c.confirmedLock.None? || c.confirmedAt.None? then Corrupt
    else Present(ConfirmationRecord(c.confirmedLock.value, c.confirmedAt.value))
  }

  function DecodeDraft(c: Context): Decoded<Draft> {
    if c.brief.None? && c.adCopy.None? && c.factReferences.None? && c.ruleIds.None? && c.draftGeneratedAt.None?
    then Absent
    else if c.brief.None? || c.adCopy.None? || c.factReferences.None? || c.ruleIds.None? || c.draftGeneratedAt.None?
    then Corrupt
    else
      Present(Draft(c.brief.value, c.adCopy.value, c.factReferences.value, c.ruleIds.value, c.draftGeneratedAt.value))
  }

  function DecodeCritique(c: Context): Decoded<CritiqueReport> {
    if c.critique.None? && c.reviewedAt.None? then Absent
    else if c.critique.None? || c.reviewedAt.None? || c.reviewedAt.value != c.critique.value.reviewedAt then Corrupt
    else Present(c.critique.value)
  }

  // Selecting operations

  /** The first operation of a run with this kind. */
  function OpAt(ops: seq<Operation>, r: RunId, kind: OperationKind): (found: Option<nat>)
    ensures found.Some? ==>
      found.value < |ops| && ops[found.value].runId == r && ops[found.value].kind == kind
    ensures forall j :: 0 <= j < |ops| && ops[j].runId == r && ops[j].kind == kind ==>
      found.Some? && found.value <= j
  {
    if |ops| == 0 then None
    else
      var earlier := OpAt(ops[..|ops| - 1], r, kind);
      if earlier.Some? then earlier
      else if ops[|ops| - 1].runId == r && ops[|ops| - 1].kind == kind then Some(|ops| - 1)
      else None
  }

  /** SELECT by the unique key (run, kind, key digest). */
  function ByKey(ops: seq<Operation>, r: RunId, kind: OperationKind, key: string): (found: Option<nat>)
    ensures found.Some? ==>
      var i := found.value;
      i < |ops| && ops[i].runId == r && ops[i].kind == kind && ops[i].keyDigest == key
    ensures found.None? ==>
      forall j :: 0 <= j < |ops| ==> !(ops[j].runId == r && ops[j].kind == kind && ops[j].keyDigest == key)
  {
    if |ops| == 0 then None
    else
      var last := ops[|ops| - 1];
      if last.runId == r && last.kind == kind && last.keyDigest == key then Some(|ops| - 1)
      else ByKey(ops[..|ops| - 1], r, kind, key)
  }

  /** SELECT ... ORDER BY id DESC LIMIT 1 over the retryable feedback operations of a run. */
  function LatestRetryable(ops: seq<Operation>, r: RunId): (found: Option<nat>)
    ensures found.Some? ==>
      var i := found.value;
      i < |ops| && ops[i].runId == r && ops[i].kind.Feedback? && ops[i].state.OpFailedRetryable?
    ensures found.None? ==>
      forall j :: 0 <= j < |ops| ==> !(ops[j].runId == r && ops[j].kind.Feedback? && ops[j].state.OpFailedRetryable?)
  {
    if |ops| == 0 then None
    else
      var last := ops[|ops| - 1];
      if last.runId == r && last.kind.Feedback? && last.state.OpFailedRetryable? then Some(|ops| - 1)
      else LatestRetryable(ops[..|ops| - 1], r)
  }

  predicate ActiveFeedback(ops: seq<Operation>, r: RunId) {
    exists i :: 0 <= i < |ops| && ops[i].runId == r && ops[i].kind.Feedback? && ops[i].state.OpInProgress?
  }

  // Updating single rows

  function WithStatusOf(db: Db, r: RunId, status: Status): Db {
    if r in db.runs then db.(runs := db.runs[r := db.runs[r].(status := status)]) else db
  }

  // Transactions of the first version

  function Create(db: Db, r: RunId, run: ProjectRun, request: Option<RunCreate>): Outcome<ProjectRun> {
    if r in db.runs then Outcome(db, Err(DuplicateProjectRun))
    else if request.None? then Outcome(db.(runs := db.runs[r := run]), Ok(run))
    else if request.value.direction != run.direction then Outcome(db, Err(InvalidValue))
    else if r in db.contexts then Outcome(db, Err(DuplicateProjectRun))
    else Outcome(db.(runs := db.runs[r := run], contexts := db.contexts[r := NewContext(request.value)]), Ok(run))
  }

  /** Ok(None) says that another caller has claimed the analysis. */
  function ClaimAnalysis(db: Db, r: RunId): Outcome<Option<ProjectRun>> {
    if r !in db.runs then Outcome(db, Err(ProjectRunNotFound))
    else if db.runs[r].status != Pending then Outcome(db, Ok(None))
    else
      var next := WithStatusOf(db, r, InProgress);
      Outcome(next, Ok(Some(next.runs[r])))
  }

  /** The checks of complete_analysis, made on rows read before its transaction. */
  function CheckAnalysis(current: ProjectRun, request: RunCreate, analysis: Analysis): Result<ProjectRun, RepoError> {
    if analysis.sourceAsset != request.sourceAsset || analysis.brandLock != request.brandLock then Err(InvalidValue)
    else
      var updated := current.WithStatus(AwaitingBrandLock);
      if updated.None? then Err(InvalidValue) else Ok(updated.value)
  }

  /** The transaction of complete_analysis. */
  function StoreAnalysis(db: Db, r: RunId, updated: ProjectRun, analysis: Analysis, repaired: bool):
    Outcome<ProjectRun>
  {
    if r !in db.contexts then Outcome(db, Err(ProjectRunNotFound))
    else if r !in db.runs || db.runs[r].status != InProgress then Outcome(db, Err(ProjectRunNotFound))
    else
      var context := db.contexts[r].(analysis := Some(analysis), repairAttempted := repaired);
      Outcome(WithStatusOf(db.(contexts := db.contexts[r := context]), r, updated.status), Ok(updated))
  }

  /** The checks of record_failure, made on a row read before its transaction. */
  function CheckFailure(current: ProjectRun, status: Status, code: string): Result<ProjectRun, RepoError> {
    if status !in {Blocked, Failed} then Err(InvalidValue)
    else
      var transitioned := current.WithStatus(status);
      if transitioned.None? then Err(InvalidValue)
      else
        var updated := transitioned.value.(warningCodes := current.warningCodes + [code]);
        if updated.Valid() then Ok(updated) else Err(InvalidValue)
  }

  /** The transaction of record_failure: the write has no condition on the stored status. */
  function StoreFailure(db: Db, r: RunId, updated: ProjectRun): Outcome<ProjectRun> {
    if r !in db.runs then Outcome(db, Err(ProjectRunNotFound))
    else
      var row := db.runs[r].(status := updated.status, warningCodes := updated.warningCodes);
      Outcome(db.(runs := db.runs[r := row]), Ok(updated))
  }

  function ConfirmBrandLock(db: Db, r: RunId, proposed: BrandLock, at: int): Outcome<ConfirmationRecord> {
    if r !in db.runs then Outcome(db, Err(ProjectRunNotFound))
    else
      var existing := if r in db.contexts then DecodeConfirmation(db.contexts[r]) else Absent;
      if existing.Corrupt? then Outcome(db, Err(InvalidValue))
      else if existing.Present? then
        Outcome(db, if existing.value.brandLock == proposed then Ok(existing.value) else Err(BrandLockImmutable))
      else if at < db.runs[r].createdAt then Outcome(db, Err(InvalidValue))
      else if db.runs[r].status != AwaitingBrandLock then Outcome(db, Err(InvalidRunState))
      else if r !in db.contexts || db.contexts[r].analysis.None? then Outcome(db, Err(InvalidRunState))
      else
        var validated := ValidateConfirmation(proposed, db.contexts[r].analysis.value.brandLock);
        if validated.Err? then Outcome(db, Err(Unconfirmable(validated.error)))
        else
          var context := db.contexts[r].(confirmedLock := Some(validated.value), confirmedAt := Some(at));
          Outcome(WithStatusOf(db.(contexts := db.contexts[r := context]), r, InProgress),
                  Ok(ConfirmationRecord(validated.value, at)))
  }

  function SaveDraft(db: Db, r: RunId, draft: Draft): Outcome<Draft> {
    if r !in db.runs then Outcome(db, Err(ProjectRunNotFound))
    else if r !in db.contexts then Outcome(db, Err(InvalidRunState))
    else
      var c := db.contexts[r];
      var existing := DecodeDraft(c);
      if existing.Corrupt? then Outcome(db, Err(InvalidValue))
      else if existing.Present? then
        Outcome(db, if existing.value.(generatedAt := draft.generatedAt) == draft then Ok(existing.value)
                    else Err(DraftImmutable))
      else if db.runs[r].status != InProgress || c.confirmedLock.None? then Outcome(db, Err(InvalidRunState))
      else if draft.brief.brandLock != c.confirmedLock.value then Outcome(db, Err(InvalidRunState))
      else if |draft.factReferences| == 0
              || !(Elements(draft.factReferences) <= Elements(c.confirmedLock.value.verifiedProductFacts))
      then Outcome(db, Err(InvalidRunState))
      else
        var context := c.(brief := Some(draft.brief), adCopy := Some(draft.adCopy),
                          factReferences := Some(draft.factReferences), ruleIds := Some(draft.ruleIds),
                          draftGeneratedAt := Some(draft.generatedAt));
        Outcome(db.(contexts := db.contexts[r := context]), Ok(draft))
  }

  function SaveComposition(db: Db, r: RunId, composition: Composition): Outcome<Composition> {
    if composition.runId != r then Outcome(db, Err(InvalidRunState))
    else if r !in db.runs then Outcome(db, Err(ProjectRunNotFound))
    else if r !in db.contexts then Outcome(db, Err(InvalidRunState))
    else
      var c := db.contexts[r];
      if c.composition.Some? then
        Outcome(db, if c.composition.value == composition then Ok(composition) else Err(CompositionImmutable))
      else if db.runs[r].status != InProgress || c.confirmedLock.None? || c.draftGeneratedAt.None?
      then Outcome(db, Err(InvalidRunState))
      else
        var lock := c.confirmedLock.value;
        var productUi := SourceOf(composition.layers, ProductUi);
        if SourceOf(composition.layers, Logo) != Some(lock.logoAssetId)
           || productUi.None? || productUi.value !in lock.productUiAssetIds
        then Outcome(db, Err(InvalidRunState))
        else if c.initialGenerationCount != 0 then Outcome(db, Err(CompositionImmutable))
        else
          var context := c.(composition := Some(composition), initialGenerationCount := 1);
          Outcome(db.(contexts := db.contexts[r := context]), Ok(composition))
  }

  function SaveCritique(db: Db, r: RunId, report: CritiqueReport): Outcome<CritiqueReport> {
    if r !in db.runs then Outcome(db, Err(ProjectRunNotFound))
    else if report.reviewedAt < db.runs[r].createdAt then Outcome(db, Err(InvalidRunState))
    else
      var existing := if r in db.contexts then DecodeCritique(db.contexts[r]) else Absent;
      if existing.Corrupt? then Outcome(db, Err(InvalidValue))
      else if existing.Present? then
        Outcome(db, if existing.value == report then Ok(report) else Err(CritiqueImmutable))
      else if r !in db.contexts then Outcome(db, Err(InvalidRunState))
      else
        var c := db.contexts[r];
        if db.runs[r].status != InProgress || c.confirmedLock.None? || c.draftGeneratedAt.None?
           || c.composition.None? || c.initialGenerationCount != 1
        then Outcome(db, Err(InvalidRunState))
        else
          var context := c.(critique := Some(report), reviewedAt := Some(report.reviewedAt));
          var target := if report.status.Reject? then FailedFinal else Ready;
          Outcome(WithStatusOf(db.(contexts := db.contexts[r := context]), r, target), Ok(report))
  }

  // Transactions of the revision

  /** The answer is the row of the operation: succeeded for a replay, in progress for a new claim. */
  function ClaimFeedback(db: Db, r: RunId, key: string, fingerprint: string, changes: seq<RevisionChange>,
                         digest: string):
    Outcome<Operation>
  {
    var existing := ByKey(db.operations, r, Feedback, key);
    if existing.Some? then
      var record := db.operations[existing.value];
      if record.fingerprint != fingerprint then Outcome(db, Err(IdempotencyConflict))
      else if record.state.OpSucceeded? then Outcome(db, Ok(record))
      else Outcome(db, Err(OperationInProgress))
    else if r in db.revisions then Outcome(db, Err(RevisionLimitReached))
    else if ActiveFeedback(db.operations, r) then Outcome(db, Err(OperationInProgress))
    else if r !in db.runs then Outcome(db, Err(ProjectRunNotFound))
    else if db.runs[r].status != Ready then Outcome(db, Err(InvalidRunState))
    else
      var record := Operation(|db.operations|, r, Feedback, key, fingerprint, OpInProgress, changes, Some(digest),
                              None, None, None);
      Outcome(WithStatusOf(db.(operations := db.operations + [record]), r, InProgress), Ok(record))
  }

  function FailOperation(db: Db, r: RunId, id: nat, condition: RetryCondition, action: RetryAction):
    Outcome<Operation>
  {
    if id >= |db.operations| || db.operations[id].runId != r || !db.operations[id].state.OpInProgress?
    then Outcome(db, Err(InvalidRunState))
    else
      var retryable := action in RETRYING_ACTIONS;
      var record := db.operations[id].(
        state := if retryable then OpFailedRetryable else OpFailedFinal,
        retryCondition := Some(condition),
        retryAction := Some(action));
      var target := if retryable then FailedRetryable else FailedFinal;
      Outcome(WithStatusOf(db.(operations := db.operations[id := record]), r, target), Ok(record))
  }

  function ClaimRetry(db: Db, r: RunId, key: string, fingerprint: string): Outcome<Operation> {
    var existing := ByKey(db.operations, r, Retry, key);
    if existing.Some? then
      var record := db.operations[existing.value];
      if record.fingerprint != fingerprint then Outcome(db, Err(IdempotencyConflict))
      else if record.state.OpSucceeded? then Outcome(db, Ok(record))
      else Outcome(db, Err(OperationInProgress))
    else if r !in db.runs then Outcome(db, Err(ProjectRunNotFound))
    else if db.runs[r].status != FailedRetryable then Outcome(db, Err(InvalidRunState))
    else
      var found := LatestRetryable(db.operations, r);
      if found.None? then Outcome(db, Err(InvalidRunState))
      else
        var source := db.operations[found.value];
        var record := Operation(|db.operations|, r, Retry, key, fingerprint, OpInProgress, source.requestedChanges,
                                source.feedbackDigest, source.retryCondition, source.retryAction, None);
        var counted :=
          if r in db.contexts then
            db.contexts[r := db.contexts[r].(technicalAttemptCount := db.contexts[r].technicalAttemptCount + 1)]
          else db.contexts;
        Outcome(WithStatusOf(db.(operations := db.operations + [record], contexts := counted), r, InProgress),
                Ok(record))
  }

  /** The operation rows after operation id of run r has succeeded with this response. */
  function Succeeded(ops: seq<Operation>, r: RunId, id: nat, response: RevisionCompleted): (marked: seq<Operation>)
    requires id < |ops|
    ensures |marked| == |ops|
  {
    seq(|ops|, i requires 0 <= i < |ops| =>
      if i == id
         || (ops[id].kind.Retry? && ops[i].runId == r && ops[i].kind.Feedback? && ops[i].state.OpFailedRetryable?)
      then ops[i].(state := OpSucceeded, publicResponse := Some(response))
      else ops[i])
  }

  function CompleteRevision(db: Db, r: RunId, id: nat, revision: RevisionRecord, response: RevisionCompleted):
    Outcome<RevisionRecord>
  {
    if id >= |db.operations| || db.operations[id].runId != r || !db.operations[id].state.OpInProgress?
    then Outcome(db, Err(InvalidRunState))
    else if r in db.revisions then Outcome(db, Err(RevisionLimitReached))
    else if r !in db.contexts || db.contexts[r].humanRevisionCount != 0 then Outcome(db, Err(RevisionLimitReached))
    else
      var target := if revision.critique.status.Reject? then FailedFinal else Ready;
      Outcome(
        WithStatusOf(
          db.(revisions := db.revisions[r := revision],
              contexts := db.contexts[r := db.contexts[r].(humanRevisionCount := 1)],
              operations := Succeeded(db.operations, r, id, response)),
          r, target),
        Ok(revision))
  }
}

/**
 * The run store as an object whose tables its methods update statement by statement. Each method is one
 * call on SQLiteProjectRunRepository; a transaction that raises puts back the tables it started from.
 */
module Repository {
  import opened Prelude
  import opened Domain
  import opened Contracts
  import opened Confirmation
  import opened T = Tables

  class ProjectRunRepository {
    var runs: map<RunId, ProjectRun>
    var contexts: map<RunId, Context>
    var revisions: map<RunId, RevisionRecord>
    var operations: seq<Operation>

    function State(): Db
      reads this
    {
      Db(runs, contexts, revisions, operations)
    }

    constructor ()
      ensures State() == Db(map[], map[], map[], [])
    {
      runs, contexts, revisions, operations := map[], map[], map[], [];
    }

    /** The exception path of _connect. */
    method Rollback(before: Db)
      modifies this
      ensures State() == before
    {
      runs, contexts, revisions, operations := before.runs, before.contexts, before.revisions, before.operations;
    }

    /** UPDATE project_runs SET status WHERE id. */
    method SetStatus(r: RunId, status: Status)
      modifies this`runs
      ensures State() == WithStatusOf(old(State()), r, status)
    {
      if r in runs {
        runs := runs[r := runs[r].(status := status)];
      }
    }

    /** UPDATE project_runs SET status WHERE id AND status. */
    method MoveStatus(r: RunId, from: Status, to: Status) returns (rowcount: nat)
      modifies this`runs
      ensures rowcount == if r in old(runs) && old(runs)[r].status == from then 1 else 0
      ensures State() == if rowcount == 1 then WithStatusOf(old(State()), r, to) else old(State())
    {
      rowcount := 0;
      if r in runs && runs[r].status == from {
        runs := runs[r := runs[r].(status := to)];
        rowcount := 1;
      }
    }

    method Create(r: RunId, run: ProjectRun, request: Option<RunCreate>) returns (res: Result<ProjectRun, RepoError>)
      modifies this
      ensures Outcome(State(), res) == T.Create(old(State()), r, run, request)
    {
      var before := State();
      if r in runs {
        return Err(DuplicateProjectRun);
      }
      runs := runs[r := run];
      if request.Some? {
        if request.value.direction != run.direction {
          Rollback(before);
          return Err(InvalidValue);
        }
        if r in contexts {
          Rollback(before);
          return Err(DuplicateProjectRun);
        }
        contexts := contexts[r := NewContext(request.value)];
      }
      res := Ok(run);
    }

    method Get(r: RunId) returns (res: Result<ProjectRun, RepoError>)
      ensures res == if r in runs then Ok(runs[r]) else Err(ProjectRunNotFound)
    {
      res := if r in runs then Ok(runs[r]) else Err(ProjectRunNotFound);
    }

    method ClaimAnalysis(r: RunId) returns (res: Result<Option<ProjectRun>, RepoError>)
      modifies this
      ensures Outcome(State(), res) == T.ClaimAnalysis(old(State()), r)
    {
      var rowcount := MoveStatus(r, Pending, InProgress);
      var run := Get(r);
      if run.Err? {
        return Err(run.error);
      }
      if rowcount != 1 {
        return Ok(None);
      }
      res := Ok(Some(run.value));
    }

    /** The three transactions of complete_analysis, uninterrupted. */
    method CompleteAnalysis(r: RunId, analysis: Analysis, repaired: bool) returns (res: Result<ProjectRun, RepoError>)
      modifies this
      ensures
        var db := old(State());
        if r !in db.runs || r !in db.contexts then State() == db && res == Err(ProjectRunNotFound)
        else
          var updated := CheckAnalysis(db.runs[r], db.contexts[r].request, analysis);
          if updated.Err? then State() == db && res == updated
          else Outcome(State(), res) == T.StoreAnalysis(db, r, updated.value, analysis, repaired)
    {
      var current := Get(r);
      if current.Err? || r !in contexts {
        return Err(ProjectRunNotFound);
      }
      var request := contexts[r].request;
      var updated := CheckAnalysis(current.value, request, analysis);
      if updated.Err? {
        return updated;
      }
      var before := State();
      contexts := contexts[r := contexts[r].(analysis := Some(analysis), repairAttempted := repaired)];
      var rowcount := MoveStatus(r, InProgress, updated.value.status);
      if rowcount != 1 {
        Rollback(before);
        return Err(ProjectRunNotFound);
      }
      res := updated;
    }

    /** The two transactions of record_failure, uninterrupted. */
    method RecordFailure(r: RunId, status: Status, code: string) returns (res: Result<ProjectRun, RepoError>)
      modifies this
      ensures
        var db := old(State());
        if status !in {Blocked, Failed} then State() == db && res == Err(InvalidValue)
        else if r !in db.runs then State() == db && res == Err(ProjectRunNotFound)
        else
          var updated := CheckFailure(db.runs[r], status, code);
          if updated.Err? then State() == db && res == updated
          else Outcome(State(), res) == T.StoreFailure(db, r, updated.value)
    {
      if status != Blocked && status != Failed {
        return Err(InvalidValue);
      }
      var current := Get(r);
      if current.Err? {
        return Err(current.error);
      }
      var updated := CheckFailure(current.value, status, code);
      if updated.Err? {
        return updated;
      }
      runs := runs[r := runs[r].(status := updated.value.status, warningCodes := updated.value.warningCodes)];
      res := updated;
    }

    method ConfirmBrandLock(r: RunId, proposed: BrandLock, at: int) returns (res: Result<ConfirmationRecord, RepoError>)
      modifies this
      ensures Outcome(State(), res) == T.ConfirmBrandLock(old(State()), r, proposed, at)
    {
      if r !in runs {
        return Err(ProjectRunNotFound);
      }
      var existing := if r in contexts then DecodeConfirmation(contexts[r]) else Absent;
      match existing {
        case Corrupt => return Err(InvalidValue);
        case Present(record) =>
          if record.brandLock == proposed {
            return Ok(record);
          }
          return Err(BrandLockImmutable);
        case Absent =>
      }
      if at < runs[r].createdAt {
        return Err(InvalidValue);
      }
      if runs[r].status != AwaitingBrandLock {
        return Err(InvalidRunState);
      }
      if r !in contexts || contexts[r].analysis.None? {
        return Err(InvalidRunState);
      }
      var validated := ValidateConfirmation(proposed, contexts[r].analysis.value.brandLock);
      if validated.Err? {
        return Err(Unconfirmable(validated.error));
      }
      contexts := contexts[r := contexts[r].(confirmedLock := Some(validated.value), confirmedAt := Some(at))];
      var rowcount := MoveStatus(r, AwaitingBrandLock, InProgress);
      assert rowcount == 1;  // the status was read in this transaction, so the update cannot miss
      res := Ok(ConfirmationRecord(validated.value, at));
    }

    method SaveDraft(r: RunId, draft: Draft) returns (res: Result<Draft, RepoError>)
      modifies this
      ensures Outcome(State(), res) == T.SaveDraft(old(State()), r, draft)
    {
      if r !in runs {
        return Err(ProjectRunNotFound);
      }
      if r !in contexts {
        return Err(InvalidRunState);
      }
      var c := contexts[r];
      match DecodeDraft(c) {
        case Corrupt => return Err(InvalidValue);
        case Present(stored) =>
          if stored.brief == draft.brief && stored.adCopy == draft.adCopy
             && stored.factReferences == draft.factReferences && stored.ruleIds == draft.ruleIds {
            return Ok(stored);
          }
          return Err(DraftImmutable);
        case Absent =>
      }
      if runs[r].status != InProgress || c.confirmedLock.None? {
        return Err(InvalidRunState);
      }
      if draft.brief.brandLock != c.confirmedLock.value {
        return Err(InvalidRunState);
      }
      if |draft.factReferences| == 0
         || !(Elements(draft.factReferences) <= Elements(c.confirmedLock.value.verifiedProductFacts)) {
        return Err(InvalidRunState);
      }
      contexts := contexts[r := c.(
        brief := Some(draft.brief), adCopy := Some(draft.adCopy), factReferences := Some(draft.factReferences),
        ruleIds := Some(draft.ruleIds), draftGeneratedAt := Some(draft.generatedAt))];
      res := Ok(draft);
    }

    /** The commit can be acknowledged too late: then the call raises although its write has been made. */
    method SaveComposition(r: RunId, composition: Composition, interrupted: bool)
      returns (res: Result<Composition, RepoError>)
      modifies this
      ensures
        var out := T.SaveComposition(old(State()), r, composition);
        State() == out.db && res == if out.result.Ok? && interrupted then Err(Interrupted) else out.result
    {
      res := SaveCompositionRow(r, composition);
      if res.Ok? && interrupted {
        return Err(Interrupted);
      }
    }

    method SaveCompositionRow(r: RunId, composition: Composition) returns (res: Result<Composition, RepoError>)
      modifies this
      ensures Outcome(State(), res) == T.SaveComposition(old(State()), r, composition)
    {
      if composition.runId != r {
        return Err(InvalidRunState);
      }
      if r !in runs {
        return Err(ProjectRunNotFound);
      }
      if r !in contexts {
        return Err(InvalidRunState);
      }
      var c := contexts[r];
      if c.composition.Some? {
        if c.composition.value == composition {
          return Ok(c.composition.value);
        }
        return Err(CompositionImmutable);
      }
      if runs[r].status != InProgress || c.confirmedLock.None? || c.draftGeneratedAt.None? {
        return Err(InvalidRunState);
      }
      var confirmed := c.confirmedLock.value;
      var logo := SourceOf(composition.layers, Logo);
      var productUi := SourceOf(composition.layers, ProductUi);
      if logo != Some(confirmed.logoAssetId)
         || productUi.None? || productUi.value !in confirmed.productUiAssetIds {
        return Err(InvalidRunState);
      }
      if c.initialGenerationCount != 0 {
        return Err(CompositionImmutable);
      }
      contexts := contexts[r := c.(composition := Some(composition), initialGenerationCount := 1)];
      res := Ok(composition);
    }

    method SaveCritique(r: RunId, report: CritiqueReport) returns (res: Result<CritiqueReport, RepoError>)
      modifies this
      ensures Outcome(State(), res) == T.SaveCritique(old(State()), r, report)
    {
      var target := if report.status.Reject? then FailedFinal else Ready;
      if r !in runs {
        return Err(ProjectRunNotFound);
      }
      if report.reviewedAt < runs[r].createdAt {
        return Err(InvalidRunState);
      }
      match if r in contexts then DecodeCritique(contexts[r]) else Absent {
        case Corrupt => return Err(InvalidValue);
        case Present(stored) =>
          if stored == report {
            return Ok(stored);
          }
          return Err(CritiqueImmutable);
        case Absent =>
      }
      if r !in contexts {
        return Err(InvalidRunState);
      }
      var c := contexts[r];
      if runs[r].status != InProgress || c.confirmedLock.None? || c.draftGeneratedAt.None?
         || c.composition.None? || c.initialGenerationCount != 1 {
        return Err(InvalidRunState);
      }
      contexts := contexts[r := c.(critique := Some(report), reviewedAt := Some(report.reviewedAt))];
      var rowcount := MoveStatus(r, InProgress, target);
      assert rowcount == 1;  // the status was read in this transaction, so the update cannot miss
      res := Ok(report);
    }

    method ClaimFeedback(r: RunId, key: string, fingerprint: string, changes: seq<RevisionChange>, digest: string)
      returns (res: Result<Operation, RepoError>)
      modifies this
      ensures Outcome(State(), res) == T.ClaimFeedback(old(State()), r, key, fingerprint, changes, digest)
    {
      var existing := ByKey(operations, r, Feedback, key);
      if existing.Some? {
        var record := operations[existing.value];
        if record.fingerprint != fingerprint {
          return Err(IdempotencyConflict);
        }
        if record.state.OpSucceeded? {
          return Ok(record);
        }
        return Err(OperationInProgress);
      }
      if r in revisions {
        return Err(RevisionLimitReached);
      }
      if ActiveFeedback(operations, r) {
        return Err(OperationInProgress);
      }
      if r !in runs {
        return Err(ProjectRunNotFound);
      }
      if runs[r].status != Ready {
        return Err(InvalidRunState);
      }
      var id := |operations|;
      operations := operations + [
        Operation(id, r, Feedback, key, fingerprint, OpInProgress, changes, Some(digest), None, None, None)];
      var rowcount := MoveStatus(r, Ready, InProgress);
      assert rowcount == 1;  // the status was read in this transaction, so the update cannot miss
      res := Ok(operations[id]);
    }

    method FailOperation(r: RunId, id: nat, condition: RetryCondition, action: RetryAction)
      returns (res: Result<Operation, RepoError>)
      modifies this
      ensures Outcome(State(), res) == T.FailOperation(old(State()), r, id, condition, action)
    {
      var target := if action in RETRYING_ACTIONS then FailedRetryable else FailedFinal;
      var state := if target == FailedRetryable then OpFailedRetryable else OpFailedFinal;
      if id >= |operations| || operations[id].runId != r || !operations[id].state.OpInProgress? {
        return Err(InvalidRunState);
      }
      operations := operations[id := operations[id].(
        state := state, retryCondition := Some(condition), retryAction := Some(action))];
      SetStatus(r, target);
      res := Ok(operations[id]);
    }

    method ClaimRetry(r: RunId, key: string, fingerprint: string) returns (res: Result<Operation, RepoError>)
      modifies this
      ensures Outcome(State(), res) == T.ClaimRetry(old(State()), r, key, fingerprint)
    {
      var existing := ByKey(operations, r, Retry, key);
      if existing.Some? {
        var record := operations[existing.value];
        if record.fingerprint != fingerprint {
          return Err(IdempotencyConflict);
        }
        if record.state.OpSucceeded? {
          return Ok(record);
        }
        return Err(OperationInProgress);
      }
      if r !in runs {
        return Err(ProjectRunNotFound);
      }
      if runs[r].status != FailedRetryable {
        return Err(InvalidRunState);
      }
      var found := LatestRetryable(operations, r);
      if found.None? {
        return Err(InvalidRunState);
      }
      var source := operations[found.value];
      var id := |operations|;
      operations := operations + [
        Operation(id, r, Retry, key, fingerprint, OpInProgress, source.requestedChanges, source.feedbackDigest,
                  source.retryCondition, source.retryAction, None)];
      if r in contexts {
        contexts := contexts[r := contexts[r].(technicalAttemptCount := contexts[r].technicalAttemptCount + 1)];
      }
      SetStatus(r, InProgress);
      res := Ok(operations[id]);
    }

    method GetRevision(r: RunId) returns (found: Option<RevisionRecord>)
      ensures found == if r in revisions then Some(revisions[r]) else None
    {
      found := if r in revisions then Some(revisions[r]) else None;
    }

    /** The row is read back on a connection of its own after the transaction, and that read can raise. */
    method CompleteRevision(r: RunId, id: nat, revision: RevisionRecord, response: RevisionCompleted, interrupted: bool)
      returns (res: Result<RevisionRecord, RepoError>)
      modifies this
      ensures
        var out := T.CompleteRevision(old(State()), r, id, revision, response);
        State() == out.db && res == if out.result.Ok? && interrupted then Err(Interrupted) else out.result
    {
      res := CompleteRevisionRows(r, id, revision, response);
      if res.Err? {
        return;
      }
      if interrupted {
        return Err(Interrupted);
      }
      var stored := GetRevision(r);
      assert stored == Some(revision);
      return Ok(stored.value);
    }

    /** The transaction of complete_revision. */
    method CompleteRevisionRows(r: RunId, id: nat, revision: RevisionRecord, response: RevisionCompleted)
      returns (res: Result<RevisionRecord, RepoError>)
      modifies this
      ensures Outcome(State(), res) == T.CompleteRevision(old(State()), r, id, revision, response)
    {
      var target := if revision.critique.status.Reject? then FailedFinal else Ready;
      var before := State();
      if id >= |operations| || operations[id].runId != r || !operations[id].state.OpInProgress? {
        return Err(InvalidRunState);
      }
      if r in revisions {
        return Err(RevisionLimitReached);
      }
      revisions := revisions[r := revision];
      if r !in contexts || contexts[r].humanRevisionCount != 0 {
        Rollback(before);
        return Err(RevisionLimitReached);
      }
      contexts := contexts[r := contexts[r].(humanRevisionCount := 1)];
      var kind := operations[id].kind;
      operations := operations[id := operations[id].(state := OpSucceeded, publicResponse := Some(response))];
      if kind.Retry? {
        MarkRetriedFeedback(r, response);
      }
      assert operations == T.Succeeded(before.operations, r, id, response);
      SetStatus(r, target);
      res := Ok(revisions[r]);
    }

    /** UPDATE project_run_operations SET state = 'succeeded' for the feedback that the retry repeated. */
    method MarkRetriedFeedback(r: RunId, response: RevisionCompleted)
      modifies this`operations
      ensures |operations| == |old(operations)|
      ensures forall i :: 0 <= i < |operations| ==>
        operations[i] ==
          if old(operations)[i].runId == r && old(operations)[i].kind.Feedback?
             && old(operations)[i].state.OpFailedRetryable?
          then old(operations)[i].(state := OpSucceeded, publicResponse := Some(response))
          else old(operations)[i]
    {
      var before := operations;
      operations := seq(|before|, i requires 0 <= i < |before| =>
        if before[i].runId == r && before[i].kind.Feedback? && before[i].state.OpFailedRetryable?
        then before[i].(state := OpSucceeded, publicResponse := Some(response))
        else before[i]);
    }
  }
}

/** Every transaction keeps the store consistent and moves the run it works on along its lifecycle. */
module Transactions {
  import opened Prelude
  import opened Domain
  import opened Contracts
  import opened AnalysisPipeline
  import opened Confirmation
  import opened Drafts
  import opened Revising
  import opened Critic
  import opened Tables
  import opened Lifecycle

  lemma NoRowsYet(db: Db, r: RunId)
    requires DbInv(db) && r !in db.runs
    ensures r !in db.contexts && r !in db.revisions
    ensures Find(db.operations, r, Feedback).None? && Find(db.operations, r, Retry).None?
  {
    hide Consistent, OpAt;
  }

  lemma MoreRuns(ops: seq<Operation>, runs: set<RunId>, more: set<RunId>)
    requires OpsInv(ops, runs) && runs <= more
    ensures OpsInv(ops, more)
  {
    hide OpAt;
  }

  lemma CreateKeeps(db: Db, r: RunId, run: ProjectRun, request: RunCreate)
    requires DbInv(db)
    requires run.status == Pending && run.warningCodes == [] && request.Valid()
    ensures
      var out := Create(db, r, run, Some(request));
      && DbInv(out.db)
      && (forall q :: q in db.runs ==> q in out.db.runs && q in out.db.contexts && View(out.db, q) == View(db, q))
  {
    hide Consistent, OpsInv, Find, RunCreate.Valid;
    var next := Create(db, r, run, Some(request)).db;
    if r !in db.runs && request.direction == run.direction {
      NoRowsYet(db, r);
      MoreRuns(db.operations, db.runs.Keys, next.runs.Keys);
      NewRunConsistent(r, run, request);
      assert View(next, r) == RunView(run, NewContext(request), None, None, None);
      forall q | q in db.runs
        ensures View(next, q) == View(db, q) {}
    }
  }

  lemma NewRunConsistent(r: RunId, run: ProjectRun, request: RunCreate)
    requires run.status == Pending && run.warningCodes == [] && request.Valid() && request.direction == run.direction
    ensures Consistent(r, RunView(run, NewContext(request), None, None, None))
  {
  }

  // On one run

  /** Chain looks at the direction and the artifact columns only. */
  lemma SameArtifacts(r: RunId, v: RunView, w: RunView)
    requires Paired(v.ctx) && Layered(v.ctx) && Chain(r, v)
    requires w.run.direction == v.run.direction
    requires w.ctx == v.ctx.(humanRevisionCount := w.ctx.humanRevisionCount,
                             technicalAttemptCount := w.ctx.technicalAttemptCount)
    ensures Paired(w.ctx) && Layered(w.ctx) && Chain(r, w)
  {
    hide Admissible, DraftedFrom, ComposedUnder, ReviewedAs, ValidateConfirmation;
  }

  lemma ClaimedAnalysis(r: RunId, v: RunView)
    requires Consistent(r, v) && v.run.status.Pending?
    ensures
      var w := v.(run := v.run.(status := InProgress));
      Consistent(r, w) && Evolves(v, w) && !Locked(v) && w.ctx.analysis.None?
  {
    hide Chain, VersionTwo;
    SameArtifacts(r, v, v.(run := v.run.(status := InProgress)));
  }

  lemma StoredAnalysis(r: RunId, v: RunView, analysis: Analysis, repaired: bool)
    requires Consistent(r, v) && v.run.status.InProgress? && v.ctx.analysis.None?
    requires Admissible(v.ctx.request, analysis)
    ensures
      var w := v.(run := v.run.(status := AwaitingBrandLock),
                  ctx := v.ctx.(analysis := Some(analysis), repairAttempted := repaired));
      Consistent(r, w) && Evolves(v, w)
  {
    hide Admissible, DraftedFrom, ComposedUnder, ReviewedAs, ValidateConfirmation, VersionTwo;
  }

  lemma StoredFailure(r: RunId, v: RunView, status: Status, codes: seq<string>)
    requires Consistent(r, v) && v.run.status.InProgress? && v.ctx.analysis.None?
    requires status in {Blocked, Failed} && v.run.warningCodes <= codes
    ensures
      var w := v.(run := v.run.(status := status, warningCodes := codes));
      Consistent(r, w) && Evolves(v, w)
  {
    hide Chain, VersionTwo;
    SameArtifacts(r, v, v.(run := v.run.(status := status, warningCodes := codes)));
  }

  lemma Confirmed(r: RunId, v: RunView, lock: BrandLock, at: int)
    requires Consistent(r, v) && v.run.status.AwaitingBrandLock?
    requires lock.Valid() && v.ctx.analysis.Some? && ValidateConfirmation(lock, v.ctx.analysis.value.brandLock).Ok?
    ensures
      var w := v.(run := v.run.(status := InProgress),
                  ctx := v.ctx.(confirmedLock := Some(lock), confirmedAt := Some(at)));
      Consistent(r, w) && Evolves(v, w) && !Locked(v)
  {
    hide Admissible, DraftedFrom, ComposedUnder, ReviewedAs, ValidateConfirmation, VersionTwo;
  }

  lemma Drafted(r: RunId, v: RunView, draft: Draft)
    requires Consistent(r, v) && v.run.status.InProgress?
    requires v.ctx.confirmedLock.Some? && v.ctx.analysis.Some? && DecodeDraft(v.ctx).Absent?
    requires DraftedFrom(v.ctx.analysis.value, v.ctx.confirmedLock.value, v.run.direction, draft)
    ensures
      var w := v.(ctx := v.ctx.(brief := Some(draft.brief), adCopy := Some(draft.adCopy),
                                factReferences := Some(draft.factReferences), ruleIds := Some(draft.ruleIds),
                                draftGeneratedAt := Some(draft.generatedAt)));
      Consistent(r, w) && Evolves(v, w) && !Locked(v)
  {
    hide Admissible, DraftedFrom, ComposedUnder, ReviewedAs, ValidateConfirmation, VersionTwo;
  }

  lemma Composed(r: RunId, v: RunView, composition: Composition)
    requires Consistent(r, v) && v.run.status.InProgress?
    requires v.ctx.confirmedLock.Some? && v.ctx.draftGeneratedAt.Some? && v.ctx.composition.None?
    requires ComposedUnder(r, v.ctx.confirmedLock.value, composition)
    ensures
      var w := v.(ctx := v.ctx.(composition := Some(composition), initialGenerationCount := 1));
      Consistent(r, w) && Evolves(v, w) && !Locked(v)
  {
    hide Admissible, DraftedFrom, ComposedUnder, ReviewedAs, ValidateConfirmation, VersionTwo;
  }

  lemma Criticised(r: RunId, v: RunView, report: CritiqueReport)
    requires Consistent(r, v) && v.run.status.InProgress?
    requires v.ctx.composition.Some? && v.ctx.critique.None?
    requires ReviewedAs(v.ctx.analysis.value, v.ctx.confirmedLock.value, DecodeDraft(v.ctx).value,
                        v.ctx.composition.value, report)
    ensures
      var w := v.(run := v.run.(status := if report.status.Reject? then FailedFinal else Ready),
                  ctx := v.ctx.(critique := Some(report), reviewedAt := Some(report.reviewedAt)));
      Consistent(r, w) && Evolves(v, w) && !Locked(v)
  {
    hide Admissible, DraftedFrom, ComposedUnder, ReviewedAs, ValidateConfirmation, VersionTwo;
  }

  lemma ClaimedFeedback(r: RunId, v: RunView, op: Operation)
    requires Consistent(r, v) && v.run.status.Ready? && v.revision.None?
    requires op.state.OpInProgress? && op.feedbackDigest.Some? && op.publicResponse.None?
    ensures
      var w := v.(run := v.run.(status := InProgress), feedback := Some(op));
      v.feedback.None? && v.retry.None? && Consistent(r, w) && Evolves(v, w) && !Locked(v) && Locked(w)
  {
    hide Chain, VersionTwo;
    SameArtifacts(r, v, v.(run := v.run.(status := InProgress), feedback := Some(op)));
  }

  /** A failed feedback may be retried; a failed retry may not. */
  lemma FailedFeedback(r: RunId, v: RunView, op: Operation)
    requires Consistent(r, v) && v.feedback.Some? && v.feedback.value.state.OpInProgress?
    requires op == v.feedback.value.(state := OpFailedRetryable, retryCondition := op.retryCondition,
                                     retryAction := op.retryAction)
    requires Retryable(op)
    ensures
      var w := v.(run := v.run.(status := FailedRetryable), feedback := Some(op));
      Consistent(r, w) && Evolves(v, w)
  {
    hide Chain, VersionTwo;
    SameArtifacts(r, v, v.(run := v.run.(status := FailedRetryable), feedback := Some(op)));
  }

  lemma ClaimedRetry(r: RunId, v: RunView, op: Operation)
    requires Consistent(r, v) && v.run.status.FailedRetryable?
    requires op.state.OpInProgress? && op.publicResponse.None?
    requires v.feedback.Some? && op.feedbackDigest == v.feedback.value.feedbackDigest
    requires op.requestedChanges == v.feedback.value.requestedChanges
    requires op.retryCondition == v.feedback.value.retryCondition && op.retryAction == v.feedback.value.retryAction
    ensures
      var w := v.(run := v.run.(status := InProgress), retry := Some(op),
                  ctx := v.ctx.(technicalAttemptCount := v.ctx.technicalAttemptCount + 1));
      v.retry.None? && Consistent(r, w) && Evolves(v, w) && !Locked(v) && Locked(w) && Retryable(op)
  {
    hide Chain, VersionTwo;
    SameArtifacts(r, v, v.(run := v.run.(status := InProgress), retry := Some(op),
                           ctx := v.ctx.(technicalAttemptCount := v.ctx.technicalAttemptCount + 1)));
  }

  lemma FailedRetry(r: RunId, v: RunView, op: Operation)
    requires Consistent(r, v) && v.retry.Some? && v.retry.value.state.OpInProgress?
    requires op == v.retry.value.(state := OpFailedFinal, retryCondition := op.retryCondition,
                                  retryAction := op.retryAction)
    ensures
      var w := v.(run := v.run.(status := FailedFinal), retry := Some(op));
      Consistent(r, w) && Evolves(v, w)
  {
    hide Chain, VersionTwo;
    SameArtifacts(r, v, v.(run := v.run.(status := FailedFinal), retry := Some(op)));
  }

  lemma ReviewedVerdict(request: CriticRequest, report: CritiqueReport)
    requires Review(request, report.reviewedAt) == Some(report)
    ensures report.status == Verdict(Issues(request)) && report.issues == Issues(request)
    ensures report.brandLockPreserved == LockPreserved(request)
  {
    hide Issues, Verdict, Warnings, LockPreserved, NeedsHuman;
  }

  /** The second version of an accepted first version is accepted, and its issues are among those of the first. */
  lemma VersionTwoAccepted(r: RunId, v: RunView, revision: RevisionRecord)
    requires Paired(v.ctx) && Layered(v.ctx) && Chain(r, v) && Complete(v.ctx)
    requires VersionTwo(r, v, revision)
    ensures Subsequence(revision.critique.issues, v.ctx.critique.value.issues)
    ensures VerdictRank(revision.critique.status) <= VerdictRank(v.ctx.critique.value.status)
  {
    hide Issues, Verdict, Review, ReviseDraft, Warnings, LockPreserved, FactsSupported, SourceOf, Generate;
    hide ValidateConfirmation, Admissible;
    var c := v.ctx;
    var draft := DecodeDraft(c).value;
    var first := CriticRequest(c.analysis.value, c.confirmedLock.value, draft, c.composition.value, []);
    var second := first.(draft := revision.draft, composition := revision.composition);
    RevisionNeverWorsens(first, v.run.direction, revision.requestedChanges, revision.draft, revision.composition, 0);
    ReviewedVerdict(first, c.critique.value);
    ReviewedVerdict(second, revision.critique);
  }

  lemma SameVersionTwo(r: RunId, v: RunView, w: RunView, revision: RevisionRecord)
    requires Complete(v.ctx) && VersionTwo(r, v, revision)
    requires w.run.direction == v.run.direction
    requires w.ctx == v.ctx.(humanRevisionCount := w.ctx.humanRevisionCount,
                             technicalAttemptCount := w.ctx.technicalAttemptCount)
    ensures Complete(w.ctx) && VersionTwo(r, w, revision)
  {
    hide RevisedFrom, ComposedUnder, ReviewedAs;
  }

  /** The row of an operation that has succeeded with a response. */
  function Done(op: Operation, response: RevisionCompleted): Operation {
    op.(state := OpSucceeded, publicResponse := Some(response))
  }

  /** The run after its open operation has delivered a revision. */
  function AfterRevision(v: RunView, revision: RevisionRecord, response: RevisionCompleted): RunView
    requires v.feedback.Some?
  {
    v.(run := v.run.(status := Ready),
       ctx := v.ctx.(humanRevisionCount := 1),
       feedback := Some(Done(v.feedback.value, response)),
       retry := if v.retry.Some? then Some(Done(v.retry.value, response)) else None,
       revision := Some(revision))
  }

  predicate OpenOp(v: RunView, op: Operation) {
    && op.state.OpInProgress?
    && ((op.kind.Feedback? && v.feedback == Some(op)) || (op.kind.Retry? && v.retry == Some(op)))
  }

  lemma CompletedRevision(r: RunId, v: RunView, op: Operation, revision: RevisionRecord)
    requires Consistent(r, v) && OpenOp(v, op)
    requires Complete(v.ctx) && VersionTwo(r, v, revision)
    requires revision.requestedChanges == op.requestedChanges && Some(revision.feedbackDigest) == op.feedbackDigest
    ensures
      && v.feedback.Some? && !revision.critique.status.Reject?
      && v.revision.None? && v.ctx.humanRevisionCount == 0
      && (op.kind.Retry? ==> v.feedback.value.state.OpFailedRetryable?)
      && (op.kind.Feedback? ==> v.retry.None?)
      && var w := AfterRevision(v, revision, Answer(r, v, revision));
         Consistent(r, w) && Evolves(v, w)
  {
    hide Chain, VersionTwo;
    var w := AfterRevision(v, revision, Answer(r, v, revision));
    VersionTwoAccepted(r, v, revision);
    SameArtifacts(r, v, w);
    SameVersionTwo(r, v, w, revision);
  }

  // On the tables

  lemma ClaimAnalysisKeeps(db: Db, r: RunId)
    requires DbInv(db)
    ensures
      var out := ClaimAnalysis(db, r);
      && DbInv(out.db) && DbStep(db, out.db, r)
      && (out.result.Err? || out.result.value.None? ==> out.db == db)
      && (out.result.Ok? && out.result.value.Some? ==>
            && r in db.runs
            && View(out.db, r) == View(db, r).(run := db.runs[r].(status := InProgress))
            && !Locked(View(db, r))
            && View(out.db, r).ctx.analysis.None?)
  {
    hide Consistent, Evolves, Locked;
    var next := ClaimAnalysis(db, r).db;
    Unchanged(db, r);
    if r in db.runs && db.runs[r].status == Pending {
      ClaimedAnalysis(r, View(db, r));
      assert View(next, r) == View(db, r).(run := db.runs[r].(status := InProgress));
      StepPreserves(db, next, r);
    }
  }

  lemma StoreAnalysisKeeps(db: Db, r: RunId, updated: ProjectRun, analysis: Analysis, repaired: bool)
    requires DbInv(db) && r in db.runs
    requires updated.status == AwaitingBrandLock
    requires db.runs[r].status.InProgress? && db.contexts[r].analysis.None?
    requires Admissible(db.contexts[r].request, analysis)
    ensures
      var out := StoreAnalysis(db, r, updated, analysis, repaired);
      && DbInv(out.db) && DbStep(db, out.db, r)
      && out.result.Ok? && View(out.db, r).ctx.analysis == Some(analysis)
  {
    hide Consistent, Evolves, Admissible;
    var out := StoreAnalysis(db, r, updated, analysis, repaired);
    var v, w := View(db, r), View(out.db, r);
    StoredAnalysis(r, v, analysis, repaired);
    assert w == v.(run := v.run.(status := AwaitingBrandLock),
                   ctx := v.ctx.(analysis := Some(analysis), repairAttempted := repaired));
    StepPreserves(db, out.db, r);
  }

  lemma StoreFailureKeeps(db: Db, r: RunId, updated: ProjectRun)
    requires DbInv(db) && r in db.runs
    requires db.runs[r].status.InProgress? && db.contexts[r].analysis.None?
    requires updated.status in {Blocked, Failed} && db.runs[r].warningCodes <= updated.warningCodes
    ensures
      var out := StoreFailure(db, r, updated);
      DbInv(out.db) && DbStep(db, out.db, r)
  {
    hide Consistent, Evolves;
    var out := StoreFailure(db, r, updated);
    var v, w := View(db, r), View(out.db, r);
    StoredFailure(r, v, updated.status, updated.warningCodes);
    assert w == v.(run := v.run.(status := updated.status, warningCodes := updated.warningCodes));
    StepPreserves(db, out.db, r);
  }

  lemma ConfirmKeeps(db: Db, r: RunId, proposed: BrandLock, at: int)
    requires DbInv(db) && proposed.Valid()
    ensures
      var out := ConfirmBrandLock(db, r, proposed, at);
      && DbInv(out.db) && DbStep(db, out.db, r)
      && (out.result.Err? ==> out.db == db)
      && (r in db.runs && Locked(View(db, r)) ==> out.db == db)
      && (out.result.Ok? ==> r in db.runs && DecodeConfirmation(out.db.contexts[r]) == Present(out.result.value))
      && out.db.revisions == db.revisions && out.db.contexts.Keys == db.contexts.Keys
      && (forall q :: q in db.contexts ==> out.db.contexts[q].composition == db.contexts[q].composition)
  {
    hide Consistent, Evolves, Locked, ValidateConfirmation, BrandLock.Valid;
    var out := ConfirmBrandLock(db, r, proposed, at);
    Unchanged(db, r);
    if out.db != db {
      var v, w := View(db, r), View(out.db, r);
      ValidatedIsProposed(proposed, v.ctx.analysis.value.brandLock);
      Confirmed(r, v, proposed, at);
      assert w == v.(run := v.run.(status := InProgress),
                     ctx := v.ctx.(confirmedLock := Some(proposed), confirmedAt := Some(at)));
      StepPreserves(db, out.db, r);
    }
  }

  lemma ValidatedIsProposed(proposed: BrandLock, analyzed: BrandLock)
    ensures ValidateConfirmation(proposed, analyzed).Ok? ==> ValidateConfirmation(proposed, analyzed).value == proposed
  {
  }

  /** The layers of a consistent run: what is stored comes after what it is made from. */
  lemma Layers(r: RunId, v: RunView)
    requires Consistent(r, v)
    ensures Paired(v.ctx) && Layered(v.ctx) && Counters(v) && Chain(r, v)
    ensures v.run.status !in {Blocked, Failed} ==> v.run.warningCodes == []
  {
  }

  lemma SaveDraftKeeps(db: Db, r: RunId, draft: Draft)
    requires DbInv(db)
    requires r in db.runs && DecodeDraft(db.contexts[r]).Absent? ==>
      && db.contexts[r].analysis.Some? && db.contexts[r].confirmedLock.Some?
      && DraftedFrom(db.contexts[r].analysis.value, db.contexts[r].confirmedLock.value, db.runs[r].direction, draft)
    ensures
      var out := SaveDraft(db, r, draft);
      && DbInv(out.db) && DbStep(db, out.db, r)
      && (out.result.Err? ==> out.db == db)
      && (out.result.Ok? ==> r in db.runs && DecodeDraft(out.db.contexts[r]) == Present(out.result.value))
      && (r in db.runs && Locked(View(db, r)) ==> out.db == db)
  {
    hide Consistent, Evolves, Locked, DraftedFrom;
    var out := SaveDraft(db, r, draft);
    Unchanged(db, r);
    if out.db != db {
      var v, w := View(db, r), View(out.db, r);
      Drafted(r, v, draft);
      assert w == v.(ctx := v.ctx.(brief := Some(draft.brief), adCopy := Some(draft.adCopy),
                                   factReferences := Some(draft.factReferences), ruleIds := Some(draft.ruleIds),
                                   draftGeneratedAt := Some(draft.generatedAt)));
      StepPreserves(db, out.db, r);
    }
  }

  lemma SaveCompositionKeeps(db: Db, r: RunId, composition: Composition)
    requires DbInv(db) && r in db.runs && db.contexts[r].confirmedLock.Some?
    requires ComposedUnder(r, db.contexts[r].confirmedLock.value, composition)
    ensures
      var out := SaveComposition(db, r, composition);
      && DbInv(out.db) && DbStep(db, out.db, r)
      && (out.result.Err? ==> out.db == db)
      && (out.result.Ok? ==> out.result.value == composition && out.db.contexts[r].composition == Some(composition))
      && (out.result == Err(CompositionImmutable) ==> db.contexts[r].composition.Some?)
      && (out.db != db ==> db.contexts[r].composition.None?)
      && (Locked(View(db, r)) ==> out.db == db)
      && out.db.revisions == db.revisions
      && (forall q :: q in db.runs && q != r ==> out.db.contexts[q] == db.contexts[q])
  {
    hide Consistent, Evolves, Locked, SourceOf, ComposedUnder;
    var out := SaveComposition(db, r, composition);
    var v := View(db, r);
    Unchanged(db, r);
    Layers(r, v);
    if out.db != db {
      var w := View(out.db, r);
      Composed(r, v, composition);
      assert w == v.(ctx := v.ctx.(composition := Some(composition), initialGenerationCount := 1));
      StepPreserves(db, out.db, r);
    }
  }

  lemma SaveCritiqueKeeps(db: Db, r: RunId, report: CritiqueReport)
    requires DbInv(db)
    requires r in db.runs && DecodeCritique(db.contexts[r]).Absent? ==>
      && Complete(db.contexts[r].(critique := Some(report), reviewedAt := Some(report.reviewedAt)))
      && ReviewedAs(db.contexts[r].analysis.value, db.contexts[r].confirmedLock.value,
                    DecodeDraft(db.contexts[r]).value, db.contexts[r].composition.value, report)
    ensures
      var out := SaveCritique(db, r, report);
      && DbInv(out.db) && DbStep(db, out.db, r)
      && (out.result.Err? ==> out.db == db)
      && (out.result.Ok? ==> r in db.runs && DecodeCritique(out.db.contexts[r]) == Present(report))
      && (r in db.runs && Locked(View(db, r)) ==> out.db == db)
  {
    hide Consistent, Evolves, Locked, ReviewedAs;
    var out := SaveCritique(db, r, report);
    Unchanged(db, r);
    if out.db != db {
      var v, w := View(db, r), View(out.db, r);
      Criticised(r, v, report);
      assert w == v.(run := v.run.(status := if report.status.Reject? then FailedFinal else Ready),
                     ctx := v.ctx.(critique := Some(report), reviewedAt := Some(report.reviewedAt)));
      StepPreserves(db, out.db, r);
    }
  }

  /** A claim is refused, replays the stored answer, or opens the only operation of its kind. */
  lemma ClaimFeedbackKeeps(db: Db, r: RunId, key: string, fingerprint: string, changes: seq<RevisionChange>,
                           digest: string)
    requires DbInv(db)
    ensures
      var out := ClaimFeedback(db, r, key, fingerprint, changes, digest);
      && DbInv(out.db) && DbStep(db, out.db, r)
      && (out.result.Err? ==> out.db == db)
      && (out.result.Ok? ==>
            var op := out.result.value;
            && r in db.runs && View(out.db, r).feedback == Some(op)
            && op.keyDigest == key && op.fingerprint == fingerprint && op.kind.Feedback?
            && (op.state.OpSucceeded? ==> out.db == db)
            && (!op.state.OpSucceeded? ==>
                  && OpenOp(View(out.db, r), op) && op.requestedChanges == changes && op.feedbackDigest == Some(digest)
                  && !Locked(View(db, r)) && Locked(View(out.db, r))))
      && (r in db.runs && Locked(View(db, r)) ==> out.db == db)
      && out.db.revisions == db.revisions && out.db.contexts.Keys == db.contexts.Keys
      && (forall q :: q in db.contexts ==> out.db.contexts[q].composition == db.contexts[q].composition)
  {
    hide Consistent, Evolves, Locked, OpAt, ByKey, OpsInv;
    var out := ClaimFeedback(db, r, key, fingerprint, changes, digest);
    Unchanged(db, r);
    if out.db != db {
      var op := out.result.value;
      var v := View(db, r);
      ClaimedFeedback(r, v, op);
      AppendOp(db.operations, op, db.runs.Keys);
      assert View(out.db, r) == v.(run := v.run.(status := InProgress), feedback := Some(op));
      StepPreserves(db, out.db, r);
    } else if out.result.Ok? {
      FoundByKind(db, ByKey(db.operations, r, Feedback, key).value);
    }
  }

  lemma ClaimRetryKeeps(db: Db, r: RunId, key: string, fingerprint: string)
    requires DbInv(db)
    ensures
      var out := ClaimRetry(db, r, key, fingerprint);
      && DbInv(out.db) && DbStep(db, out.db, r)
      && (out.result.Err? ==> out.db == db)
      && (out.result.Ok? ==>
            var op := out.result.value;
            && r in db.runs && View(out.db, r).retry == Some(op)
            && op.keyDigest == key && op.fingerprint == fingerprint && op.kind.Retry?
            && (op.state.OpSucceeded? ==> out.db == db)
            && (!op.state.OpSucceeded? ==>
                  OpenOp(View(out.db, r), op) && Retryable(op) && !Locked(View(db, r)) && Locked(View(out.db, r))))
      && (r in db.runs && Locked(View(db, r)) ==> out.db == db)
      && out.db.revisions == db.revisions && out.db.contexts.Keys == db.contexts.Keys
      && (forall q :: q in db.contexts ==> out.db.contexts[q].composition == db.contexts[q].composition)
  {
    hide Consistent, Evolves, Locked, OpAt, ByKey, LatestRetryable, OpsInv;
    var out := ClaimRetry(db, r, key, fingerprint);
    Unchanged(db, r);
    if out.db != db {
      var op := out.result.value;
      var v := View(db, r);
      FoundByKind(db, LatestRetryable(db.operations, r).value);
      ClaimedRetry(r, v, op);
      AppendOp(db.operations, op, db.runs.Keys);
      assert View(out.db, r) == v.(run := v.run.(status := InProgress), retry := Some(op),
                                   ctx := v.ctx.(technicalAttemptCount := v.ctx.technicalAttemptCount + 1));
      StepPreserves(db, out.db, r);
    } else if out.result.Ok? {
      FoundByKind(db, ByKey(db.operations, r, Retry, key).value);
    }
  }

  /** The open operation of a run is the row that its id names. */
  lemma OpenRow(db: Db, r: RunId, op: Operation)
    requires DbInv(db) && r in db.runs && OpenOp(View(db, r), op)
    ensures op.id < |db.operations| && db.operations[op.id] == op && op.runId == r
  {
    hide Consistent;
  }

  /** The open operation and its run after the failure that the service records. */
  function AfterFailure(v: RunView, op: Operation): RunView {
    if op.kind.Retry? then v.(run := v.run.(status := FailedFinal), retry := Some(FailedOp(op)))
    else v.(run := v.run.(status := FailedRetryable), feedback := Some(FailedOp(op)))
  }

  function FailedOp(op: Operation): Operation {
    op.(state := if op.kind.Retry? then OpFailedFinal else OpFailedRetryable,
        retryCondition := Some(ConnectionBeforeAcceptance),
        retryAction := Some(if op.kind.Retry? then DoNotRetry else RetryOnce))
  }

  lemma FailedRows(db: Db, r: RunId, op: Operation)
    requires db.contexts.Keys == db.runs.Keys && r in db.runs && OpsInv(db.operations, db.runs.Keys)
    requires op.id < |db.operations| && db.operations[op.id] == op && op.runId == r && OpenOp(View(db, r), op)
    ensures
      var action := if op.kind.Retry? then DoNotRetry else RetryOnce;
      var out := FailOperation(db, r, op.id, ConnectionBeforeAcceptance, action);
      && out.result == Ok(FailedOp(op))
      && out.db == db.(runs := out.db.runs, operations := out.db.operations)
      && out.db.runs.Keys == db.runs.Keys && (forall q :: q in db.runs && q != r ==> out.db.runs[q] == db.runs[q])
      && View(out.db, r) == AfterFailure(View(db, r), op)
      && OpsInv(out.db.operations, db.runs.Keys)
      && (forall q, kind :: q != r ==> Find(out.db.operations, q, kind) == Find(db.operations, q, kind))
  {
    hide Find, OpsInv;
    var action := if op.kind.Retry? then DoNotRetry else RetryOnce;
    var out := FailOperation(db, r, op.id, ConnectionBeforeAcceptance, action);
    MarkOps(db.operations, out.db.operations, db.runs.Keys);
  }

  /** The failure that the service records: retryable for a feedback, final for a retry. */
  lemma FailOperationKeeps(db: Db, r: RunId, op: Operation)
    requires DbInv(db) && r in db.runs && OpenOp(View(db, r), op)
    ensures
      var action := if op.kind.Retry? then DoNotRetry else RetryOnce;
      var out := FailOperation(db, r, op.id, ConnectionBeforeAcceptance, action);
      && DbInv(out.db) && DbStep(db, out.db, r) && out.result.Ok?
      && out.db.contexts == db.contexts && out.db.revisions == db.revisions
  {
    hide Consistent, Evolves, Find, OpsInv, FailOperation;
    var action := if op.kind.Retry? then DoNotRetry else RetryOnce;
    var out := FailOperation(db, r, op.id, ConnectionBeforeAcceptance, action);
    OpenRow(db, r, op);
    FailedRows(db, r, op);
    if op.kind.Retry? {
      FailedRetry(r, View(db, r), FailedOp(op));
    } else {
      FailedFeedback(r, View(db, r), FailedOp(op));
    }
    StepPreserves(db, out.db, r);
  }

  /** Where complete_revision writes: the rows of run r that AfterRevision names, and no others. */
  lemma CompletedRows(db: Db, r: RunId, op: Operation, revision: RevisionRecord, response: RevisionCompleted)
    requires db.contexts.Keys == db.runs.Keys && r in db.runs && OpsInv(db.operations, db.runs.Keys)
    requires op.id < |db.operations| && db.operations[op.id] == op && op.runId == r && OpenOp(View(db, r), op)
    requires View(db, r).feedback.Some?
    requires op.kind.Retry? ==> View(db, r).feedback.value.state.OpFailedRetryable?
    requires op.kind.Feedback? ==> View(db, r).retry.None?
    requires r !in db.revisions && db.contexts[r].humanRevisionCount == 0 && !revision.critique.status.Reject?
    ensures
      var out := CompleteRevision(db, r, op.id, revision, response);
      && out.result == Ok(revision)
      && View(out.db, r) == AfterRevision(View(db, r), revision, response)
      && OpsInv(out.db.operations, db.runs.Keys)
      && (forall q, kind :: q != r ==> Find(out.db.operations, q, kind) == Find(db.operations, q, kind))
  {
    hide Find, OpsInv;
    var ops := db.operations;
    var out := CompleteRevision(db, r, op.id, revision, response);
    MarkOps(ops, out.db.operations, db.runs.Keys);
    assert out.db.operations == Succeeded(ops, r, op.id, response);
  }

  lemma CompleteRevisionKeeps(db: Db, r: RunId, op: Operation, revision: RevisionRecord)
    requires DbInv(db) && r in db.runs && OpenOp(View(db, r), op)
    requires Complete(db.contexts[r]) && VersionTwo(r, View(db, r), revision)
    requires revision.requestedChanges == op.requestedChanges && Some(revision.feedbackDigest) == op.feedbackDigest
    ensures
      var response := Answer(r, View(db, r), revision);
      var out := CompleteRevision(db, r, op.id, revision, response);
      && DbInv(out.db) && DbStep(db, out.db, r) && out.result == Ok(revision)
      && View(db, r).feedback.Some?
      && View(out.db, r) == AfterRevision(View(db, r), revision, response)
      && Answer(r, View(out.db, r), revision) == response
      && r !in db.revisions && out.db.revisions == db.revisions[r := revision]
      && out.db.contexts[r].composition == db.contexts[r].composition
      && (forall q :: q in db.runs && q != r ==> out.db.contexts[q] == db.contexts[q])
  {
    hide Consistent, Evolves, VersionTwo, Find, OpsInv, OpenOp;
    var v := View(db, r);
    var response := Answer(r, v, revision);
    var out := CompleteRevision(db, r, op.id, revision, response);
    OpenRow(db, r, op);
    CompletedRevision(r, v, op, revision);
    CompletedRows(db, r, op, revision, response);
    StepPreserves(db, out.db, r);
  }
}

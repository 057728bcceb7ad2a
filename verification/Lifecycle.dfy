/**
 * What every reachable store looks like, run by run. The rows that belong to one run are gathered in a
 * RunView; Consistent says which combinations of rows can occur and what the stored artifacts say.
 */
module Lifecycle {
  import opened Prelude
  import opened Domain
  import opened Contracts
  import opened AnalysisPipeline
  import opened Confirmation
  import opened Drafts
  import opened Revising
  import opened Critic
  import opened Tables

  datatype RunView = RunView(
    run: ProjectRun,
    ctx: Context,
    feedback: Option<Operation>,
    retry: Option<Operation>,
    revision: Option<RevisionRecord>
  )

  function Find(ops: seq<Operation>, r: RunId, kind: OperationKind): Option<Operation> {
    var at := OpAt(ops, r, kind);
    if at.Some? then Some(ops[at.value]) else None
  }

  function Lookup(m: map<RunId, RevisionRecord>, r: RunId): Option<RevisionRecord> {
    if r in m then Some(m[r]) else None
  }

  function View(db: Db, r: RunId): RunView
    requires r in db.runs && r in db.contexts
  {
    RunView(db.runs[r], db.contexts[r], Find(db.operations, r, Feedback), Find(db.operations, r, Retry),
            Lookup(db.revisions, r))
  }

  // The artifacts

  /** A composition of run r that shows the protected assets of the lock. */
  ghost predicate ComposedUnder(r: RunId, lock: BrandLock, composition: Composition) {
    && composition.runId == r
    && composition.Valid()
    && Kinds(composition.layers) == FULL_ORDER
    && |lock.productUiAssetIds| > 0
    && SourceOf(composition.layers, Logo) == Some(lock.logoAssetId)
    && SourceOf(composition.layers, ProductUi) == Some(lock.productUiAssetIds[0])
  }

  ghost predicate DraftedFrom(analysis: Analysis, lock: BrandLock, direction: Direction, draft: Draft) {
    Generate(analysis, lock, direction)
      == Ok(DraftArtifacts(draft.brief, draft.adCopy, draft.factReferences, draft.ruleIds))
  }

  ghost predicate RevisedFrom(direction: Direction, draft: Draft, changes: seq<RevisionChange>, revised: Draft) {
    ReviseDraft(direction, draft, changes)
      == Some(DraftArtifacts(revised.brief, revised.adCopy, revised.factReferences, revised.ruleIds))
  }

  ghost predicate ReviewedAs(analysis: Analysis, lock: BrandLock, draft: Draft, composition: Composition,
                             report: CritiqueReport)
  {
    Review(CriticRequest(analysis, lock, draft, composition, []), report.reviewedAt) == Some(report)
  }

  /** A second version of the run that v shows, made from its stored first version. */
  ghost predicate VersionTwo(r: RunId, v: RunView, revision: RevisionRecord)
    requires Complete(v.ctx)
  {
    var c := v.ctx;
    && revision.runId == r
    && RevisedFrom(v.run.direction, DecodeDraft(c).value, revision.requestedChanges, revision.draft)
    && ComposedUnder(r, c.confirmedLock.value, revision.composition)
    && revision.composition.artifactId != c.composition.value.artifactId
    && ReviewedAs(c.analysis.value, c.confirmedLock.value, revision.draft, revision.composition, revision.critique)
    && revision.revisedAt == revision.critique.reviewedAt
  }

  /** All the artifacts of version 1 are stored. */
  predicate Complete(c: Context) {
    && c.analysis.Some? && DecodeConfirmation(c).Present? && DecodeDraft(c).Present?
    && c.composition.Some? && DecodeCritique(c).Present?
  }

  /** Columns that are written together are null together. */
  predicate Paired(c: Context) {
    !DecodeConfirmation(c).Corrupt? && !DecodeDraft(c).Corrupt? && !DecodeCritique(c).Corrupt?
  }

  /** Every artifact comes after the ones it is made from. */
  predicate Layered(c: Context) {
    && (c.confirmedLock.Some? ==> c.analysis.Some?)
    && (c.draftGeneratedAt.Some? ==> c.confirmedLock.Some?)
    && (c.composition.Some? ==> c.draftGeneratedAt.Some?)
    && (c.critique.Some? ==> c.composition.Some?)
  }

  ghost predicate Chain(r: RunId, v: RunView)
    requires Paired(v.ctx) && Layered(v.ctx)
  {
    var c := v.ctx;
    && c.request.Valid()
    && c.request.direction == v.run.direction
    && (c.analysis.Some? ==> Admissible(c.request, c.analysis.value))
    && (c.confirmedLock.Some? ==>
          c.confirmedLock.value.Valid() && ValidateConfirmation(c.confirmedLock.value, c.analysis.value.brandLock).Ok?)
    && (c.draftGeneratedAt.Some? ==>
          DraftedFrom(c.analysis.value, c.confirmedLock.value, v.run.direction, DecodeDraft(c).value))
    && (c.composition.Some? ==> ComposedUnder(r, c.confirmedLock.value, c.composition.value))
    && (c.critique.Some? ==>
          ReviewedAs(c.analysis.value, c.confirmedLock.value, DecodeDraft(c).value, c.composition.value,
                     c.critique.value))
  }

  // The rows

  /** What the client of a finished revision is told. */
  function Answer(r: RunId, v: RunView, revision: RevisionRecord): RevisionCompleted
    requires v.ctx.composition.Some?
  {
    RevisionCompleted(
      r,
      if revision.critique.status.Reject? then FailedFinal else Ready,
      v.ctx.composition.value,
      revision.draft.brief,
      revision.draft.adCopy,
      revision.composition,
      revision.critique,
      v.ctx.technicalAttemptCount,
      revision.revisedAt)
  }

  predicate FirstVersion(status: Status, c: Context) {
    match status
    case Pending => c.analysis.None?
    case InProgress => c.analysis.None? || (c.confirmedLock.Some? && c.critique.None?)
    case AwaitingBrandLock => c.analysis.Some? && c.confirmedLock.None?
    case Blocked => c.analysis.None?
    case Failed => c.analysis.None?
    case Ready => c.critique.Some? && !c.critique.value.status.Reject?
    case FailedFinal => c.critique.Some? && c.critique.value.status.Reject?
    case FailedRetryable => false
    case Completed => false
  }

  predicate OpShape(op: Operation) {
    && op.feedbackDigest.Some?
    && (op.publicResponse.Some? <==> op.state.OpSucceeded?)
  }

  predicate Retryable(op: Operation) {
    op.retryCondition == Some(ConnectionBeforeAcceptance) && op.retryAction == Some(RetryOnce)
  }

  /** The revision row agrees with the operation that produced it. */
  ghost predicate Delivered(r: RunId, v: RunView, op: Operation)
    requires Complete(v.ctx)
  {
    && v.revision.Some?
    && VersionTwo(r, v, v.revision.value)
    && v.revision.value.requestedChanges == op.requestedChanges
    && Some(v.revision.value.feedbackDigest) == op.feedbackDigest
    && op.publicResponse == Some(Answer(r, v, v.revision.value))
  }

  /** The operations of a run, its revision row and its status. There are seven cases. */
  ghost predicate Ledger(r: RunId, v: RunView) {
    match (v.feedback, v.retry)
    case (None, None) => v.revision.None? && FirstVersion(v.run.status, v.ctx)
    case (None, Some(_)) => false
    case (Some(f), None) =>
      && Complete(v.ctx) && OpShape(f)
      && !v.ctx.critique.value.status.Reject?
      && (match f.state
          case OpInProgress => v.run.status.InProgress? && v.revision.None?
          case OpFailedRetryable => v.run.status.FailedRetryable? && v.revision.None? && Retryable(f)
          case OpSucceeded => v.run.status.Ready? && Delivered(r, v, f)
          case OpFailedFinal => false)
    case (Some(f), Some(t)) =>
      && Complete(v.ctx) && OpShape(f) && OpShape(t) && Retryable(f)
      && !v.ctx.critique.value.status.Reject?
      && t.requestedChanges == f.requestedChanges && t.feedbackDigest == f.feedbackDigest
      && (match t.state
          case OpInProgress =>
            f.state.OpFailedRetryable? && v.run.status.InProgress? && v.revision.None? && Retryable(t)
          case OpFailedFinal => f.state.OpFailedRetryable? && v.run.status.FailedFinal? && v.revision.None?
          case OpSucceeded =>
            f.state.OpSucceeded? && v.run.status.Ready? && Delivered(r, v, t) && f.publicResponse == t.publicResponse
          case OpFailedRetryable => false)
  }

  predicate Counters(v: RunView) {
    && v.ctx.initialGenerationCount == (if v.ctx.composition.Some? then 1 else 0)
    && v.ctx.humanRevisionCount == (if v.revision.Some? then 1 else 0)
    && v.ctx.technicalAttemptCount == (if v.retry.Some? then 1 else 0)
  }

  ghost predicate Consistent(r: RunId, v: RunView) {
    && Paired(v.ctx) && Layered(v.ctx)
    && Counters(v)
    && (v.run.status in {Blocked, Failed} || v.run.warningCodes == [])
    && Ledger(r, v)
    && Chain(r, v)
  }

  ghost predicate OpsInv(ops: seq<Operation>, runs: set<RunId>) {
    forall i :: 0 <= i < |ops| ==>
      ops[i].id == i && ops[i].runId in runs && OpAt(ops, ops[i].runId, ops[i].kind) == Some(i)
  }

  ghost predicate DbInv(db: Db) {
    && db.contexts.Keys == db.runs.Keys
    && db.revisions.Keys <= db.runs.Keys
    && OpsInv(db.operations, db.runs.Keys)
    && forall r :: r in db.runs ==> Consistent(r, View(db, r))
  }

  // How rows may change

  /** The number of status changes that a run can still make. */
  function MovesLeft(v: RunView): nat {
    match v.run.status
    case Pending => 8
    case InProgress =>
      if v.retry.Some? then 1 else if v.feedback.Some? then 3 else if v.ctx.analysis.Some? then 5 else 7
    case AwaitingBrandLock => 6
    case Ready => if v.feedback.Some? then 0 else 4
    case FailedRetryable => 2
    case _ => 0
  }

  predicate WriteOnce(c: Context, d: Context) {
    && d.request == c.request
    && (c.analysis.Some? ==> d.analysis == c.analysis && d.repairAttempted == c.repairAttempted)
    && (DecodeConfirmation(c).Present? ==> DecodeConfirmation(d) == DecodeConfirmation(c))
    && (DecodeDraft(c).Present? ==> DecodeDraft(d) == DecodeDraft(c))
    && (c.composition.Some? ==> d.composition == c.composition)
    && (DecodeCritique(c).Present? ==> DecodeCritique(d) == DecodeCritique(c))
  }

  predicate OpEvolves(o: Option<Operation>, p: Option<Operation>) {
    o.Some? ==>
      && p.Some?
      && p.value.id == o.value.id && p.value.kind == o.value.kind && p.value.runId == o.value.runId
      && p.value.keyDigest == o.value.keyDigest && p.value.fingerprint == o.value.fingerprint
      && p.value.requestedChanges == o.value.requestedChanges && p.value.feedbackDigest == o.value.feedbackDigest
      && (o.value.state.OpSucceeded? ==> p == o)
  }

  predicate StatusMoves(v: RunView, w: RunView) {
    && MovesLeft(w) <= MovesLeft(v)
    && (w.run.status != v.run.status ==>
          w.run.status in AllowedTransitions(v.run.status) && MovesLeft(w) < MovesLeft(v))
  }

  /** One transaction may change v to w. */
  predicate Evolves(v: RunView, w: RunView) {
    && w.run.direction == v.run.direction && w.run.createdAt == v.run.createdAt
    && v.run.warningCodes <= w.run.warningCodes
    && WriteOnce(v.ctx, w.ctx)
    && OpEvolves(v.feedback, w.feedback) && OpEvolves(v.retry, w.retry)
    && (v.revision.Some? ==> w == v)
    && StatusMoves(v, w)
  }

  /** One caller owns the next write to this run: the winner of the analysis or of the latest operation. */
  predicate Locked(v: RunView) {
    v.run.status.InProgress?
    && (v.ctx.analysis.None? || (v.feedback.Some? && v.ctx.critique.Some?))
  }

  ghost predicate DbStep(db: Db, next: Db, r: RunId) {
    && next.runs.Keys == db.runs.Keys && next.contexts.Keys == next.runs.Keys && db.contexts.Keys == db.runs.Keys
    && (forall q :: q in db.runs && q != r ==> View(next, q) == View(db, q))
    && (r in db.runs ==> Evolves(View(db, r), View(next, r)))
  }

  lemma EvolvesReflexive(r: RunId, v: RunView)
    ensures Evolves(v, v)
  {
  }

  lemma Unchanged(db: Db, r: RunId)
    requires DbInv(db)
    ensures DbStep(db, db, r)
  {
  }

  /** A transaction on run r that leaves the rows of the other runs alone. */
  lemma StepPreserves(db: Db, next: Db, r: RunId)
    requires DbInv(db) && r in db.runs
    requires next.runs.Keys == db.runs.Keys && next.contexts.Keys == db.runs.Keys
    requires next.revisions.Keys <= db.runs.Keys
    requires forall q :: q in db.runs && q != r ==>
      && next.runs[q] == db.runs[q] && next.contexts[q] == db.contexts[q]
      && Lookup(next.revisions, q) == Lookup(db.revisions, q)
      && Find(next.operations, q, Feedback) == Find(db.operations, q, Feedback)
      && Find(next.operations, q, Retry) == Find(db.operations, q, Retry)
    requires OpsInv(next.operations, db.runs.Keys)
    requires Consistent(r, View(next, r)) && Evolves(View(db, r), View(next, r))
    ensures DbInv(next) && DbStep(db, next, r)
  {
    hide Consistent, Evolves;
    forall q | q in next.runs
      ensures Consistent(q, View(next, q))
    {
      if q != r {
        assert View(next, q) == View(db, q);
      }
    }
  }

  lemma {:induction false} OpAtAppend(ops: seq<Operation>, op: Operation, r: RunId, kind: OperationKind)
    ensures OpAt(ops + [op], r, kind) ==
      if OpAt(ops, r, kind).Some? then OpAt(ops, r, kind)
      else if op.runId == r && op.kind == kind then Some(|ops|) else None
  {
    assert (ops + [op])[..|ops|] == ops;
  }

  lemma OpAtSameKeys(ops: seq<Operation>, marked: seq<Operation>, r: RunId, kind: OperationKind)
    requires |marked| == |ops|
    requires forall i :: 0 <= i < |ops| ==> marked[i].runId == ops[i].runId && marked[i].kind == ops[i].kind
    ensures OpAt(marked, r, kind) == OpAt(ops, r, kind)
  {
    var a, b := OpAt(ops, r, kind), OpAt(marked, r, kind);
    if a.Some? {
      assert marked[a.value].runId == r && marked[a.value].kind == kind;
    }
    if b.Some? {
      assert ops[b.value].runId == r && ops[b.value].kind == kind;
    }
  }

  lemma AppendOp(ops: seq<Operation>, op: Operation, runs: set<RunId>)
    requires OpsInv(ops, runs) && op.id == |ops| && op.runId in runs
    requires OpAt(ops, op.runId, op.kind).None?
    ensures OpsInv(ops + [op], runs)
    ensures forall q, kind :: (
      Find(ops + [op], q, kind) == if op.runId == q && op.kind == kind then Some(op) else Find(ops, q, kind))
  {
    var longer := ops + [op];
    forall i | 0 <= i < |longer|
      ensures longer[i].id == i && longer[i].runId in runs && OpAt(longer, longer[i].runId, longer[i].kind) == Some(i)
    {
      OpAtAppend(ops, op, longer[i].runId, longer[i].kind);
    }
    forall q, kind
      ensures Find(longer, q, kind) == if op.runId == q && op.kind == kind then Some(op) else Find(ops, q, kind)
    {
      OpAtAppend(ops, op, q, kind);
    }
  }

  /** Rewriting rows without touching their keys leaves every operation where it was. */
  lemma MarkOps(ops: seq<Operation>, marked: seq<Operation>, runs: set<RunId>)
    requires OpsInv(ops, runs)
    requires |marked| == |ops|
    requires forall i :: 0 <= i < |ops| ==>
      marked[i].runId == ops[i].runId && marked[i].kind == ops[i].kind && marked[i].id == ops[i].id
    ensures OpsInv(marked, runs)
    ensures forall q, kind :: Find(ops, q, kind).None? ==> Find(marked, q, kind).None?
    ensures forall q, kind :: Find(ops, q, kind).Some? ==>
      var op := Find(ops, q, kind).value;
      && op.id < |ops| && ops[op.id] == op && op.runId == q && op.kind == kind
      && Find(marked, q, kind) == Some(marked[op.id])
  {
    hide OpAt;
    forall q, kind
      ensures OpAt(marked, q, kind) == OpAt(ops, q, kind)
    {
      OpAtSameKeys(ops, marked, q, kind);
    }
  }

  /** Each run has at most one operation of each kind, so an operation is found by its run and kind. */
  lemma FoundByKind(db: Db, i: nat)
    requires DbInv(db) && i < |db.operations|
    ensures Find(db.operations, db.operations[i].runId, db.operations[i].kind) == Some(db.operations[i])
    ensures db.operations[i].id == i && db.operations[i].runId in db.runs
  {
  }
}

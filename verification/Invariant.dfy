/** The inductive invariant of the concurrent service. */
module Invariant {
  import opened Prelude
  import opened Domain
  import opened Contracts
  import opened AnalysisPipeline
  import opened Confirmation
  import opened Drafts
  import opened Revising
  import opened Critic
  import opened Compositor
  import opened Tables
  import opened Lifecycle
  import opened Transactions
  import opened Protocol

  /** The jobs of the one call that owns the next write to its run. */
  predicate Exclusive(job: Job) {
    job.Won? || job.FailureDecided? || job.FailureRead? || job.Analyzed? || job.AnalysisChecked?
    || job.Rechecking? || job.Revising? || job.Revised? || job.Counted? || job.Cleaning? || job.Failing?
  }

  /** Everything a call has found stored is still stored. */
  ghost predicate SeenOk(seen: Snapshot, v: RunView) {
    && (seen.run.Some? ==>
          && seen.run.value.direction == v.run.direction && seen.run.value.createdAt == v.run.createdAt
          && seen.run.value.warningCodes <= v.run.warningCodes)
    && (seen.request.Some? ==> seen.request.value == v.ctx.request)
    && (Found(seen.analysis).Some? ==> v.ctx.analysis == Found(seen.analysis))
    && (Found(seen.confirmation).Some? ==> DecodeConfirmation(v.ctx) == Present(Found(seen.confirmation).value))
    && (Found(seen.draft).Some? ==> DecodeDraft(v.ctx) == Present(Found(seen.draft).value))
    && (Found(seen.composition).Some? ==> v.ctx.composition == Found(seen.composition))
    && (Found(seen.critique).Some? ==> DecodeCritique(v.ctx) == Present(Found(seen.critique).value))
  }

  /** Once version 1 is complete no read comes back empty. */
  ghost predicate SeenComplete(seen: Snapshot) {
    && (seen.analysis.Read? ==> seen.analysis.value.Some?)
    && (seen.confirmation.Read? ==> seen.confirmation.value.Some?)
    && (seen.draft.Read? ==> seen.draft.value.Some?)
    && (seen.composition.Read? ==> seen.composition.value.Some?)
    && (seen.critique.Read? ==> seen.critique.value.Some?)
  }

  ghost predicate AnswerOk(r: RunId, answer: Answer, v: RunView) {
    match answer
    case Refused(_) => true
    case FailureRecorded => true
    case AnalysisAnswer(analysis) => v.ctx.analysis == Some(analysis)
    case ConfirmationAnswer(record) => DecodeConfirmation(v.ctx) == Present(record)
    case DraftAnswer(draft) => DecodeDraft(v.ctx) == Present(draft)
    case CompositionAnswer(composition) => v.ctx.composition == Some(composition)
    case CritiqueAnswer(critique) => DecodeCritique(v.ctx) == Present(critique)
    case RevisionAnswer(response) =>
      v.revision.Some? && v.ctx.composition.Some? && response == Lifecycle.Answer(r, v, v.revision.value)
  }

  /** The run is being analysed and has nothing stored yet. */
  predicate UnderAnalysis(v: RunView) {
    v.run.status.InProgress? && v.ctx.analysis.None?
  }

  ghost predicate Deliverable(r: RunId, v: RunView, op: Operation, record: RevisionRecord) {
    && OpenOp(v, op)
    && Complete(v.ctx) && VersionTwo(r, v, record)
    && record.requestedChanges == op.requestedChanges && Some(record.feedbackDigest) == op.feedbackDigest
  }

  /** The operation of a call that has completed its revision. */
  predicate Closed(v: RunView, op: Operation) {
    && v.revision.Some?
    && var found := if op.kind.Retry? then v.retry else v.feedback;
       found.Some? && found.value.id == op.id
  }

  ghost predicate JobOk(r: RunId, job: Job, seen: Snapshot, v: RunView) {
    match job
    case Analyzing => true
    case Won => UnderAnalysis(v) && seen.request.Some?
    case FailureDecided(status, _) => UnderAnalysis(v) && status in {Blocked, Failed}
    case FailureRead(failed) =>
      UnderAnalysis(v) && failed.status in {Blocked, Failed} && v.run.warningCodes <= failed.warningCodes
    case Analyzed(analysis, _) => UnderAnalysis(v) && Admissible(v.ctx.request, analysis)
    case AnalysisChecked(analysis, _, updated) =>
      UnderAnalysis(v) && Admissible(v.ctx.request, analysis) && updated.status.AwaitingBrandLock?
    case Drafting => true
    case Composing => true
    case Rendered(composition) =>
      v.ctx.confirmedLock.Some? && ComposedUnder(r, v.ctx.confirmedLock.value, composition)
    case Dropping(_, replay) => replay ==> v.ctx.composition.Some?
    case Replaying => v.ctx.composition.Some?
    case Reviewing => true
    case Rechecking(op) => OpenOp(v, op) && Retryable(op) && op.kind.Retry? && SeenComplete(seen)
    case Revising(op) => OpenOp(v, op) && Complete(v.ctx) && SeenComplete(seen)
    case Revised(op, record) => Deliverable(r, v, op, record) && SeenComplete(seen) && Found(seen.composition).Some?
    case Counted(op, record, response) =>
      Deliverable(r, v, op, record) && response == Lifecycle.Answer(r, v, record)
    case Cleaning(op, _, _) => OpenOp(v, op)
    case Failing(op) => OpenOp(v, op)
    case Stored(composition) => v.ctx.composition == Some(composition)
    case Committed(op, record, response) =>
      Closed(v, op) && v.revision == Some(record) && AnswerOk(r, RevisionAnswer(response), v)
    case Undoing(artifact, late, _) =>
      if late.None? then v.ctx.composition.Some? && v.ctx.composition.value.artifactId == artifact
      else Closed(v, late.value) && v.revision.value.composition.artifactId == artifact
    case LateFailing(op) => Closed(v, op)
    case Finished(answer) => AnswerOk(r, answer, v)
  }

  ghost predicate CallOk(call: Call, db: Db) {
    && call.run in db.runs && call.run in db.contexts
    && SeenOk(call.seen, View(db, call.run))
    && JobOk(call.run, call.job, call.seen, View(db, call.run))
  }

  ghost predicate CallsInv(s: Sys) {
    && (forall c :: c in s.calls ==> CallOk(s.calls[c], s.db))
    && (forall c, d :: c in s.calls && d in s.calls && c != d && Exclusive(s.calls[c].job) && Exclusive(s.calls[d].job)
          ==> s.calls[c].run != s.calls[d].run)
  }

  /**
   * Every stored artifact is accounted for by exactly one call or row, or was lost by a call that stopped; the rows
   * also account for the retracted ones.
   */
  ghost predicate ArtifactsInv(s: Sys) {
    && s.artifacts.Keys == s.holders.Keys - s.retracted
    && s.retracted <= s.holders.Keys
    && (forall a :: a in s.retracted ==> s.holders[a].FirstVersionOf? || s.holders[a].SecondVersionOf?)
    && s.holders.Keys <= s.issued
    && (forall a :: a in s.holders && s.holders[a].HeldBy? ==>
          s.holders[a].call in s.calls && Holding(s.calls[s.holders[a].call].job) == Some(a))
    && (forall a :: a in s.holders && s.holders[a].FirstVersionOf? ==>
          var r := s.holders[a].run;
          && r in s.db.contexts && s.db.contexts[r].composition.Some?
          && s.db.contexts[r].composition.value.artifactId == a)
    && (forall a :: a in s.holders && s.holders[a].SecondVersionOf? ==>
          var r := s.holders[a].run; r in s.db.revisions && s.db.revisions[r].composition.artifactId == a)
    && (forall c :: c in s.calls && Holding(s.calls[c].job).Some? ==>
          var a := Holding(s.calls[c].job).value; a in s.holders && s.holders[a] == HeldBy(c))
    && (forall r :: r in s.db.contexts && s.db.contexts[r].composition.Some? ==>
          var a := s.db.contexts[r].composition.value.artifactId; a in s.holders && s.holders[a] == FirstVersionOf(r))
    && (forall r :: r in s.db.revisions ==>
          var a := s.db.revisions[r].composition.artifactId; a in s.holders && s.holders[a] == SecondVersionOf(r))
  }

  ghost predicate Inv(s: Sys) {
    DbInv(s.db) && CallsInv(s) && ArtifactsInv(s)
  }

  // Calls against the changes of others

  lemma SeenStable(seen: Snapshot, v: RunView, w: RunView)
    requires SeenOk(seen, v) && Evolves(v, w)
    ensures SeenOk(seen, w)
  {
    hide DecodeDraft, DecodeConfirmation, DecodeCritique, StatusMoves, OpEvolves;
  }

  lemma AnswerStable(r: RunId, answer: Answer, v: RunView, w: RunView)
    requires AnswerOk(r, answer, v) && Evolves(v, w)
    ensures AnswerOk(r, answer, w)
  {
    hide DecodeDraft, DecodeConfirmation, DecodeCritique, StatusMoves, OpEvolves;
  }

  /** What a call relies on survives a transaction of another call, unless it owns the run. */
  lemma JobStable(r: RunId, job: Job, seen: Snapshot, v: RunView, w: RunView)
    requires JobOk(r, job, seen, v) && Evolves(v, w)
    requires Exclusive(job) ==> w == v
    requires Paired(v.ctx) && Layered(v.ctx)
    ensures JobOk(r, job, seen, w)
  {
    if !Exclusive(job) {
      hide ComposedUnder, StatusMoves, OpEvolves, AnswerOk, DecodeDraft, DecodeCritique;
      if job.Finished? {
        AnswerStable(r, job.answer, v, w);
      }
    }
  }

  /** The owner of a run finds it locked. */
  lemma ExclusiveLocks(r: RunId, job: Job, seen: Snapshot, v: RunView)
    requires Consistent(r, v) && JobOk(r, job, seen, v) && Exclusive(job)
    ensures Locked(v)
  {
    hide Chain, VersionTwo, Admissible, ComposedUnder;
  }

  /**
   * One call acts: it starts, moves on or disappears. At most one transaction happens, on its run; a run
   * that is locked changes only under its owner, and nobody else becomes its owner.
   */
  ghost predicate Moves(s: Sys, next: Sys, c: CallId, r: RunId) {
    && r in s.db.runs && DbStep(s.db, next.db, r)
    && next.calls.Keys <= s.calls.Keys + {c} && s.calls.Keys <= next.calls.Keys + {c}
    && (forall d :: d in next.calls && d != c ==> d in s.calls && next.calls[d] == s.calls[d])
    && (c in s.calls ==> s.calls[c].run == r)
    && (c in next.calls ==> next.calls[c].run == r)
    && (Locked(View(s.db, r)) && !(c in s.calls && Exclusive(s.calls[c].job)) ==> View(next.db, r) == View(s.db, r))
    && (c in next.calls && Exclusive(next.calls[c].job) ==>
          (c in s.calls && Exclusive(s.calls[c].job)) || !Locked(View(s.db, r)))
  }

  /** After such a step the calls still agree with the tables and with each other. */
  lemma CallsKept(s: Sys, next: Sys, c: CallId, r: RunId)
    requires DbInv(s.db) && CallsInv(s)
    requires DbInv(next.db) && DbStep(s.db, next.db, r) && r in s.db.runs
    requires next.calls.Keys <= s.calls.Keys + {c} && s.calls.Keys <= next.calls.Keys + {c}
    requires forall d :: d in next.calls && d != c ==> d in s.calls && next.calls[d] == s.calls[d]
    requires c in s.calls ==> s.calls[c].run == r
    requires c in next.calls ==> next.calls[c].run == r && CallOk(next.calls[c], next.db)
    requires Locked(View(s.db, r)) && !(c in s.calls && Exclusive(s.calls[c].job)) ==> View(next.db, r) == View(s.db, r)
    requires c in next.calls && Exclusive(next.calls[c].job) ==>
      (c in s.calls && Exclusive(s.calls[c].job)) || !Locked(View(s.db, r))
    ensures CallsInv(next) && Moves(s, next, c, r)
  {
    hide CallOk, DbInv, DbStep, Exclusive, Locked, View;
    forall d | d in next.calls
      ensures CallOk(next.calls[d], next.db)
    {
      if d != c {
        OtherCallKept(s, next, c, r, d);
      }
    }
    if c in next.calls && Exclusive(next.calls[c].job) {
      forall d | d in next.calls && d != c && Exclusive(next.calls[d].job)
        ensures next.calls[d].run != r
      {
        if next.calls[d].run == r {
          OwnerLocks(s, d);
        }
      }
    }
  }

  lemma OwnerLocks(s: Sys, d: CallId)
    requires DbInv(s.db) && d in s.calls && CallOk(s.calls[d], s.db) && Exclusive(s.calls[d].job)
    ensures s.calls[d].run in s.db.runs && s.calls[d].run in s.db.contexts && Locked(View(s.db, s.calls[d].run))
  {
    hide Consistent, JobOk, Exclusive, Locked;
    ExclusiveLocks(s.calls[d].run, s.calls[d].job, s.calls[d].seen, View(s.db, s.calls[d].run));
  }

  lemma OtherCallKept(s: Sys, next: Sys, c: CallId, r: RunId, d: CallId)
    requires DbInv(s.db) && CallsInv(s)
    requires DbStep(s.db, next.db, r) && r in s.db.runs
    requires d in s.calls && d != c
    requires c in s.calls ==> s.calls[c].run == r
    requires Locked(View(s.db, r)) && !(c in s.calls && Exclusive(s.calls[c].job)) ==> View(next.db, r) == View(s.db, r)
    ensures CallOk(s.calls[d], next.db)
  {
    hide Consistent, Evolves, SeenOk, JobOk, Exclusive, Locked;
    var call := s.calls[d];
    if call.run == r {
      var v, w := View(s.db, r), View(next.db, r);
      if Exclusive(call.job) {
        ExclusiveLocks(r, call.job, call.seen, v);
      }
      Layers(r, v);
      SeenStable(call.seen, v, w);
      JobStable(r, call.job, call.seen, v, w);
    } else {
      assert View(next.db, call.run) == View(s.db, call.run);
    }
  }
}

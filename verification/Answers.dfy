/** What clients can rely on: one answer for each run, replay by key, no artifact too many, one lock throughout. */
module Answers {
  import opened Prelude
  import opened Domain
  import opened Contracts
  import opened AnalysisPipeline
  import opened Confirmation
  import opened Drafts
  import opened Revising
  import opened Critic
  import opened Compositor
  import opened Tables
  import opened Lifecycle
  import opened Transactions
  import opened Protocol
  import opened Invariant
  import opened Preservation
  import opened Guarantees

  // One answer

  lemma FinishedOk(s: Sys, c: CallId)
    requires Inv(s) && c in s.calls && s.calls[c].job.Finished?
    ensures Mine(s, c) && AnswerOk(s.calls[c].run, s.calls[c].job.answer, View(s.db, s.calls[c].run))
  {
    hide DbInv, ArtifactsInv, CallsInv, SeenOk, AnswerOk;
    TheCall(s, c);
  }

  /**
   * All feedback and retry calls that succeed for one run return the same response, and it is the one
   * that the stored revision determines; a stored revision has always left its run ready.
   */
  lemma OneAnswerForEachRun(actions: seq<Action>, c: CallId, d: CallId)
    requires Run(actions).Some?
    requires
      var s := Run(actions).value;
      && c in s.calls && d in s.calls && s.calls[c].run == s.calls[d].run
      && s.calls[c].job.Finished? && s.calls[c].job.answer.RevisionAnswer?
      && s.calls[d].job.Finished? && s.calls[d].job.answer.RevisionAnswer?
    ensures
      var s := Run(actions).value;
      var r := s.calls[c].run;
      && s.calls[c].job.answer == s.calls[d].job.answer
      && r in s.db.runs && r in s.db.contexts && r in s.db.revisions
      && s.db.contexts[r].composition.Some?
      && s.calls[c].job.answer.response == Lifecycle.Answer(r, View(s.db, r), s.db.revisions[r])
      && s.db.runs[r].status.Ready? && s.calls[c].job.answer.response.status.Ready?
  {
    hide DbInv, ArtifactsInv, CallsInv, Next, Enabled, Find;
    var s := Run(actions).value;
    ReachableInv(actions);
    FinishedOk(s, c);
    FinishedOk(s, d);
    RunKnown(s, s.calls[c].run);
    RevisedIsReady(s.calls[c].run, View(s.db, s.calls[c].run));
  }

  /** A run with a revision is ready, and the revision's verdict is no worse than that of version 1. */
  lemma RevisedIsReady(r: RunId, v: RunView)
    requires Consistent(r, v) && v.revision.Some?
    ensures v.run.status.Ready? && Complete(v.ctx) && VersionTwo(r, v, v.revision.value)
    ensures !v.revision.value.critique.status.Reject?
    ensures Subsequence(v.revision.value.critique.issues, v.ctx.critique.value.issues)
    ensures VerdictRank(v.revision.value.critique.status) <= VerdictRank(v.ctx.critique.value.status)
  {
    hide Chain, VersionTwo;
    VersionTwoAccepted(r, v, v.revision.value);
  }

  /** A finished call keeps its answer. */
  lemma FinishedStays(s: Sys, a: Action, c: CallId)
    requires Inv(s) && Enabled(s, a) && c in s.calls && s.calls[c].job.Finished?
    ensures c in Next(s, a).calls && Next(s, a).calls[c] == s.calls[c]
  {
    hide DbInv, ArtifactsInv, CallsInv, Next, DbStep, Locked, View;
    if a.CreateRun? {
      CreateKeepsTheCalls(s, a);
    } else {
      EveryStepKeeps(s, a);
    }
  }

  lemma CreateKeepsTheCalls(s: Sys, a: Action)
    requires Enabled(s, a) && a.CreateRun?
    ensures Next(s, a).calls == s.calls
  {
  }

  // Replay

  /** The keys of a run: only its one feedback and its one retry can be found by a key. */
  lemma FoundByKey(db: Db, r: RunId, kind: OperationKind, key: string)
    requires DbInv(db) && r in db.runs
    ensures
      var op := Find(db.operations, r, kind);
      var found := ByKey(db.operations, r, kind, key);
      if op.Some? && op.value.keyDigest == key then found.Some? && db.operations[found.value] == op.value
      else found.None?
  {
    hide Consistent, ByKey, OpAt;
    var found := ByKey(db.operations, r, kind, key);
    if found.Some? {
      FoundByKind(db, found.value);
    } else if Find(db.operations, r, kind).Some? {
      ViewInOps(db, r, kind);
    }
  }

  lemma ActiveInView(db: Db, r: RunId)
    requires DbInv(db) && r in db.runs
    ensures ActiveFeedback(db.operations, r) <==>
      Find(db.operations, r, Feedback).Some? && Find(db.operations, r, Feedback).value.state.OpInProgress?
  {
    hide Consistent, OpAt, OpsInv;
    if Find(db.operations, r, Feedback).Some? {
      ViewInOps(db, r, Feedback);
    }
    forall i | 0 <= i < |db.operations| && db.operations[i].runId == r && db.operations[i].kind.Feedback?
      ensures Find(db.operations, r, Feedback) == Some(db.operations[i])
    {
      FoundByKind(db, i);
    }
  }

  /**
   * What a feedback call is told, in every reachable state. Its key, if known, decides alone: another
   * fingerprint conflicts, a succeeded operation is replayed with the answer of the stored revision, also
   * when it was a retry that succeeded. Only a ready run without operations accepts a new key. Every
   * refusal leaves the whole store as it was.
   */
  lemma FeedbackOutcome(actions: seq<Action>, r: RunId, key: string, fingerprint: string, changes: seq<RevisionChange>,
                        digest: string)
    requires Run(actions).Some? && r in Run(actions).value.db.runs
    ensures
      var db := Run(actions).value.db;
      && r in db.contexts
      && var v := View(db, r);
         var out := ClaimFeedback(db, r, key, fingerprint, changes, digest);
         && (out.result.Err? ==> out.db == db)
         && (if v.feedback.Some? && v.feedback.value.keyDigest == key then
               if v.feedback.value.fingerprint != fingerprint then out.result == Err(IdempotencyConflict)
               else if v.revision.Some? then
                 && out.result == Ok(v.feedback.value) && out.db == db && v.ctx.composition.Some?
                 && v.feedback.value.publicResponse == Some(Lifecycle.Answer(r, v, v.revision.value))
               else out.result == Err(OperationInProgress)
             else if v.revision.Some? then out.result == Err(RevisionLimitReached)
             else if v.feedback.Some? && v.feedback.value.state.OpInProgress? then
               out.result == Err(OperationInProgress)
             else if v.run.status != Ready then out.result == Err(InvalidRunState)
             else out.result.Ok? && out.result.value.state.OpInProgress? && v.feedback.None?)
  {
    hide DbInv, ArtifactsInv, CallsInv, Next, Enabled, Consistent, ByKey, ActiveFeedback, Find;
    var db := Run(actions).value.db;
    ReachableInv(actions);
    RunKnown(Run(actions).value, r);
    FoundByKey(db, r, Feedback, key);
    ActiveInView(db, r);
    LedgerCases(r, View(db, r));
    DeliveredAnswers(r, View(db, r));
    ReadyFacts(r, View(db, r));
  }

  lemma ReadyFacts(r: RunId, v: RunView)
    requires Consistent(r, v)
    ensures v.run.status.Ready? && v.revision.None? ==> v.feedback.None?
    ensures v.run.status.FailedRetryable? <==>
      v.feedback.Some? && v.feedback.value.state.OpFailedRetryable? && v.retry.None?
  {
    hide Chain, VersionTwo;
  }

  /** Both operations of a revised run carry its answer. */
  lemma DeliveredAnswers(r: RunId, v: RunView)
    requires Consistent(r, v)
    ensures v.revision.Some? ==>
      && v.ctx.composition.Some?
      && v.feedback.Some? && v.feedback.value.state.OpSucceeded?
      && v.feedback.value.publicResponse == Some(Lifecycle.Answer(r, v, v.revision.value))
      && (v.retry.Some? ==>
            && v.retry.value.state.OpSucceeded?
            && v.retry.value.publicResponse == Some(Lifecycle.Answer(r, v, v.revision.value)))
  {
    hide Chain, VersionTwo;
  }

  lemma LatestRetryableInView(db: Db, r: RunId)
    requires DbInv(db) && r in db.runs
    ensures
      var f := Find(db.operations, r, Feedback);
      if f.Some? && f.value.state.OpFailedRetryable?
      then LatestRetryable(db.operations, r).Some? && db.operations[LatestRetryable(db.operations, r).value] == f.value
      else LatestRetryable(db.operations, r).None?
  {
    hide Consistent, OpAt, LatestRetryable, OpsInv;
    if Find(db.operations, r, Feedback).Some? {
      ViewInOps(db, r, Feedback);
    }
    var found := LatestRetryable(db.operations, r);
    if found.Some? {
      FoundByKind(db, found.value);
    }
  }

  /** What a retry call is told, in every reachable state: one retry is accepted, after a failed feedback. */
  lemma RetryOutcome(actions: seq<Action>, r: RunId, key: string, fingerprint: string)
    requires Run(actions).Some? && r in Run(actions).value.db.runs
    ensures
      var db := Run(actions).value.db;
      && r in db.contexts
      && var v := View(db, r);
         var out := ClaimRetry(db, r, key, fingerprint);
         && (out.result.Err? ==> out.db == db)
         && (if v.retry.Some? && v.retry.value.keyDigest == key then
               if v.retry.value.fingerprint != fingerprint then out.result == Err(IdempotencyConflict)
               else if v.revision.Some? then
                 && out.result == Ok(v.retry.value) && out.db == db && v.ctx.composition.Some?
                 && v.retry.value.publicResponse == Some(Lifecycle.Answer(r, v, v.revision.value))
               else out.result == Err(OperationInProgress)
             else if v.feedback.Some? && v.feedback.value.state.OpFailedRetryable? && v.retry.None? then
               && out.result.Ok? && out.result.value.state.OpInProgress?
               && out.result.value.requestedChanges == v.feedback.value.requestedChanges
             else out.result == Err(InvalidRunState))
  {
    hide DbInv, ArtifactsInv, CallsInv, Next, Enabled, Consistent, ByKey, LatestRetryable, Find;
    var db := Run(actions).value.db;
    ReachableInv(actions);
    RunKnown(Run(actions).value, r);
    FoundByKey(db, r, Retry, key);
    LatestRetryableInView(db, r);
    LedgerCases(r, View(db, r));
    DeliveredAnswers(r, View(db, r));
    ReadyFacts(r, View(db, r));
  }

  // Artifacts

  ghost predicate NamedFirst(db: Db, a: ArtifactId, r: RunId) {
    r in db.contexts && db.contexts[r].composition.Some? && db.contexts[r].composition.value.artifactId == a
  }

  ghost predicate NamedSecond(db: Db, a: ArtifactId, r: RunId) {
    r in db.revisions && db.revisions[r].composition.artifactId == a
  }

  ghost predicate Named(db: Db, a: ArtifactId) {
    exists r :: NamedFirst(db, a, r) || NamedSecond(db, a, r)
  }

  predicate Quiet(s: Sys) {
    forall c :: c in s.calls ==> Holding(s.calls[c].job).None?
  }

  predicate NoneLost(s: Sys) {
    forall a :: a in s.holders ==> !s.holders[a].Lost?
  }

  /** The call stops for ever, or the store fails to delete an artifact. */
  predicate LosesArtifacts(a: Action) {
    a.Crash? || a.DropFails?
  }

  /** An artifact becomes unaccounted for only when a call that holds it stops, or fails to delete it. */
  lemma LostOnlyByCrash(s: Sys, a: Action)
    requires Enabled(s, a) && NoneLost(s) && !LosesArtifacts(a)
    ensures NoneLost(Next(s, a))
  {
    hide RenderLayers, ComposeLayers, Generate, Review, ReviseDraft, RevisionCompleted.Valid, ValidateConfirmation;
    hide SaveComposition, CompleteRevision, ClaimFeedback, ClaimRetry, FailOperation, ConfirmBrandLock, SaveDraft;
    hide SaveCritique, AnalysisResult, AnalysisFailureCode, Holding, AfterFault;
    if a.RenderFirst? {
      var seen := s.calls[a.call].seen;
      if Found(seen.confirmation).Some? && Found(seen.draft).Some? {
        RenderedUnder(s.calls[a.call].run, Found(seen.confirmation).value.brandLock, Found(seen.draft).value.adCopy,
                      a.rendering);
      }
    }
  }

  lemma {:induction false} NoCrashNoneLost(actions: seq<Action>)
    requires Run(actions).Some? && forall i :: 0 <= i < |actions| ==> !LosesArtifacts(actions[i])
    ensures NoneLost(Run(actions).value)
  {
    hide Next, Enabled;
    if |actions| > 0 {
      var front := actions[..|actions| - 1];
      NoCrashNoneLost(front);
      LostOnlyByCrash(Run(front).value, actions[|actions| - 1]);
    }
  }

  // Exceptions after the last transaction

  /** The job of a call before the i-th of these actions. */
  function JobBefore(actions: seq<Action>, i: nat, c: CallId): Option<Job>
    requires i <= |actions|
  {
    var before := Run(actions[..i]);
    if before.Some? && c in before.value.calls then Some(before.value.calls[c].job) else None
  }

  /** The call has stored a version that names this artifact, and has not returned yet. */
  predicate HasNamed(job: Option<Job>, artifact: ArtifactId) {
    && job.Some?
    && ((job.value.Stored? && job.value.composition.artifactId == artifact)
        || (job.value.Committed? && job.value.record.composition.artifactId == artifact))
  }

  predicate IsUndoing(job: Option<Job>, artifact: ArtifactId) {
    job.Some? && job.value.Undoing? && job.value.artifact == artifact
  }

  /** Call c got an exception after the transaction that named the artifact (i), and its handler deleted it (j). */
  predicate Undone(actions: seq<Action>, i: nat, j: nat, c: CallId, artifact: ArtifactId) {
    && i < j < |actions|
    && actions[i].Fault? && actions[i].call == c && HasNamed(JobBefore(actions, i, c), artifact)
    && actions[j] == DropArtifact(c) && IsUndoing(JobBefore(actions, j, c), artifact)
  }

  ghost predicate WasUndone(actions: seq<Action>, artifact: ArtifactId) {
    exists i: nat, j: nat, c: CallId :: Undone(actions, i, j, c, artifact)
  }

  /** One step: an artifact is retracted exactly by a handler that is undoing, and only an exception leads there. */
  lemma RetractedStep(s: Sys, a: Action, artifact: ArtifactId)
    requires Enabled(s, a)
    ensures artifact in Next(s, a).retracted <==>
      artifact in s.retracted || (a.DropArtifact? && IsUndoing(Some(s.calls[a.call].job), artifact))
  {
    hide RenderLayers, ComposeLayers, Generate, Review, ReviseDraft, RevisionCompleted.Valid, Composition.Valid;
    hide SaveComposition, CompleteRevision, ClaimFeedback, ClaimRetry, FailOperation, ConfirmBrandLock, SaveDraft;
    hide SaveCritique, AnalysisResult, AnalysisFailureCode, Holding, AfterFault;
    hide ValidateConfirmation, Observe;
  }

  lemma OnlyFaultsUndo(s: Sys, a: Action)
    requires Enabled(s, a) && !a.CreateRun? && !a.Fault? && a.call in Next(s, a).calls
    ensures !Next(s, a).calls[a.call].job.Undoing?
  {
    hide RenderLayers, Generate, Review, ReviseDraft, RevisionCompleted.Valid, Composition.Valid, RecheckPasses;
    hide SaveComposition, CompleteRevision, ClaimFeedback, ClaimRetry, FailOperation, ConfirmBrandLock, SaveDraft;
    hide SaveCritique, AnalysisResult, AnalysisFailureCode, AfterFault, Observe, StoreFailure, StoreAnalysis;
  }

  lemma UndoingStep(s: Sys, a: Action, c: CallId, artifact: ArtifactId)
    requires Inv(s) && Enabled(s, a) && c in Next(s, a).calls && IsUndoing(Some(Next(s, a).calls[c].job), artifact)
    ensures c in s.calls
    ensures s.calls[c].job == Next(s, a).calls[c].job
      || (a.Fault? && a.call == c && HasNamed(Some(s.calls[c].job), artifact))
  {
    hide Inv, Next, DbStep, Locked, View, Exclusive;
    if a.CreateRun? {
      CreateKeepsTheCalls(s, a);
    } else {
      EveryStepKeeps(s, a);
      if a.call == c && !a.Fault? {
        OnlyFaultsUndo(s, a);
      }
      if a.call == c && a.Fault? {
        FaultUndoes(s, c, a.technical, artifact);
      }
    }
  }

  lemma FaultUndoes(s: Sys, c: CallId, technical: bool, artifact: ArtifactId)
    requires Enabled(s, Fault(c, technical))
    requires IsUndoing(Some(Next(s, Fault(c, technical)).calls[c].job), artifact)
    ensures HasNamed(Some(s.calls[c].job), artifact)
  {
  }

  lemma PrefixOf(actions: seq<Action>, i: nat)
    requires i < |actions|
    ensures actions[..|actions| - 1][..i] == actions[..i]
  {
  }

  /** A handler that undoes got there by an exception after the transaction of its call. */
  lemma {:induction false} UndoingHasFaulted(actions: seq<Action>, c: CallId, artifact: ArtifactId) returns (i: nat)
    requires Run(actions).Some? && c in Run(actions).value.calls
    requires IsUndoing(Some(Run(actions).value.calls[c].job), artifact)
    ensures i < |actions| && actions[i].Fault? && actions[i].call == c && HasNamed(JobBefore(actions, i, c), artifact)
  {
    hide Inv, Next, Enabled, IsUndoing, HasNamed;
    assert |actions| > 0 by {
      assert INITIAL.calls == map[];
    }
    var front, a := actions[..|actions| - 1], actions[|actions| - 1];
    ReachableInv(front);
    UndoingStep(Run(front).value, a, c, artifact);
    if Run(front).value.calls[c].job == Run(actions).value.calls[c].job {
      i := UndoingHasFaulted(front, c, artifact);
      PrefixOf(actions, i);
    } else {
      i := |front|;
    }
  }

  /** An artifact is retracted exactly by undoing its version. */
  lemma {:induction false} RetractedExactly(actions: seq<Action>, artifact: ArtifactId)
    requires Run(actions).Some?
    ensures artifact in Run(actions).value.retracted <==> WasUndone(actions, artifact)
  {
    hide Inv, Next, Enabled, IsUndoing, HasNamed, JobBefore;
    if |actions| > 0 {
      var front, a := actions[..|actions| - 1], actions[|actions| - 1];
      RetractedExactly(front, artifact);
      RetractedStep(Run(front).value, a, artifact);
      UndoneSoFar(actions, artifact);
      if a.DropArtifact? {
        EnabledCall(Run(front).value, a.call);
        JobBeforeLast(actions, a.call);
        if IsUndoing(Some(Run(front).value.calls[a.call].job), artifact) {
          var i := UndoingHasFaulted(front, a.call, artifact);
          SameJobBefore(actions, i, a.call);
          assert Undone(actions, i, |front|, a.call, artifact);
        }
      }
    }
  }

  lemma EnabledCall(s: Sys, c: CallId)
    requires Enabled(s, DropArtifact(c))
    ensures c in s.calls
  {
  }

  lemma SameJobBefore(actions: seq<Action>, i: nat, c: CallId)
    requires i < |actions|
    ensures JobBefore(actions[..|actions| - 1], i, c) == JobBefore(actions, i, c)
  {
    hide Run;
    PrefixOf(actions, i);
  }

  lemma JobBeforeLast(actions: seq<Action>, c: CallId)
    requires |actions| > 0 && Run(actions[..|actions| - 1]).Some? && c in Run(actions[..|actions| - 1]).value.calls
    ensures JobBefore(actions, |actions| - 1, c) == Some(Run(actions[..|actions| - 1]).value.calls[c].job)
  {
    hide Run;
  }

  /** The last of these actions undoes an artifact, or one of those before it did. */
  lemma UndoneSoFar(actions: seq<Action>, artifact: ArtifactId)
    requires |actions| > 0
    ensures
      var front, a := actions[..|actions| - 1], actions[|actions| - 1];
      && (WasUndone(front, artifact) ==> WasUndone(actions, artifact))
      && (WasUndone(actions, artifact) ==>
            || WasUndone(front, artifact)
            || (a.DropArtifact? && IsUndoing(JobBefore(actions, |front|, a.call), artifact)))
  {
    hide Run, JobBefore, IsUndoing, HasNamed;
    var front := actions[..|actions| - 1];
    if WasUndone(front, artifact) {
      var i: nat, j: nat, c: CallId :| Undone(front, i, j, c, artifact);
      SameJobBefore(actions, i, c);
      SameJobBefore(actions, j, c);
      assert Undone(actions, i, j, c, artifact);
    }
    if WasUndone(actions, artifact) {
      var i: nat, j: nat, c: CallId :| Undone(actions, i, j, c, artifact);
      if j < |front| {
        SameJobBefore(actions, i, c);
        SameJobBefore(actions, j, c);
        assert Undone(front, i, j, c, artifact);
      }
    }
  }

  /**
   * Artifact conservation. At every moment each stored artifact is named by a persisted version, held by a
   * call in flight, or was left behind by a call that stopped or could not delete it; a named artifact is
   * missing exactly when its call got an exception after its last transaction and its handler deleted it;
   * and no two versions, of one run or of two, name the same artifact.
   */
  lemma ArtifactsAccountedFor(actions: seq<Action>)
    requires Run(actions).Some?
    ensures
      var s := Run(actions).value;
      && (forall a :: a in s.artifacts ==>
            || Named(s.db, a)
            || (exists c :: c in s.calls && Holding(s.calls[c].job) == Some(a))
            || (a in s.holders && s.holders[a].Lost?))
      && (forall a :: Named(s.db, a) ==> (a in s.artifacts <==> !WasUndone(actions, a)))
      && (forall a, r, q :: NamedFirst(s.db, a, r) && NamedFirst(s.db, a, q) ==> r == q)
      && (forall a, r, q :: NamedSecond(s.db, a, r) && NamedSecond(s.db, a, q) ==> r == q)
      && (forall a, r, q :: !(NamedFirst(s.db, a, r) && NamedSecond(s.db, a, q)))
  {
    hide DbInv, CallsInv, Next, Enabled, Holding, WasUndone;
    ReachableInv(actions);
    var s := Run(actions).value;
    forall a | a in s.artifacts
      ensures
        || Named(s.db, a)
        || (exists c :: c in s.calls && Holding(s.calls[c].job) == Some(a))
        || (a in s.holders && s.holders[a].Lost?)
    {
      match s.holders[a] {
        case HeldBy(c) => assert c in s.calls && Holding(s.calls[c].job) == Some(a);
        case FirstVersionOf(r) => assert NamedFirst(s.db, a, r);
        case SecondVersionOf(r) => assert NamedSecond(s.db, a, r);
        case Lost =>
      }
    }
    forall a | Named(s.db, a)
      ensures a in s.artifacts <==> !WasUndone(actions, a)
    {
      RetractedExactly(actions, a);
    }
  }

  /**
   * Without a stop or a failing deletion, whenever no call holds an artifact the store has exactly those that
   * versions name and that have not been undone.
   */
  lemma ArtifactConservation(actions: seq<Action>)
    requires Run(actions).Some? && Quiet(Run(actions).value)
    requires forall i :: 0 <= i < |actions| ==> !LosesArtifacts(actions[i])
    ensures forall a ::
              a in Run(actions).value.artifacts <==> Named(Run(actions).value.db, a) && !WasUndone(actions, a)
  {
    hide Next, Enabled, Holding, Named, WasUndone;
    ArtifactsAccountedFor(actions);
    NoCrashNoneLost(actions);
    UndoneAreNamed(actions);
  }

  lemma UndoneAreNamed(actions: seq<Action>)
    requires Run(actions).Some?
    ensures forall a :: WasUndone(actions, a) ==> Named(Run(actions).value.db, a) && a !in Run(actions).value.artifacts
  {
    hide DbInv, CallsInv, Next, Enabled, Holding, WasUndone;
    ReachableInv(actions);
    var s := Run(actions).value;
    forall a | WasUndone(actions, a)
      ensures Named(s.db, a) && a !in s.artifacts
    {
      RetractedExactly(actions, a);
      match s.holders[a] {
        case FirstVersionOf(r) => assert NamedFirst(s.db, a, r);
        case SecondVersionOf(r) => assert NamedSecond(s.db, a, r);
      }
    }
  }

  /** No call gets an exception between its last transaction and its return. */
  predicate ReturnsCleanly(actions: seq<Action>) {
    forall i :: 0 <= i < |actions| && actions[i].Fault? ==>
      var job := JobBefore(actions, i, actions[i].call);
      job.Some? ==> !job.value.Stored? && !job.value.Committed?
  }

  /** Then the store has exactly the artifacts that versions name. */
  lemma ExactlyTheNamed(actions: seq<Action>)
    requires Run(actions).Some? && Quiet(Run(actions).value) && ReturnsCleanly(actions)
    requires forall i :: 0 <= i < |actions| ==> !LosesArtifacts(actions[i])
    ensures forall a :: a in Run(actions).value.artifacts <==> Named(Run(actions).value.db, a)
  {
    hide Run, Named;
    ArtifactConservation(actions);
  }

  /** What the handlers of _execute do after an exception that comes once the transaction is committed. */
  function LateHandling(c: CallId, technical: bool, lost: bool): seq<Action> {
    if technical then [Fault(c, technical), DropArtifact(c), WriteFault(c, lost)]
    else [Fault(c, technical), DropArtifact(c)]
  }

  /** A call that has committed its revision can return it, and the run is ready with it. */
  lemma CommittedReturns(actions: seq<Action>, c: CallId)
    requires Run(actions).Some? && c in Run(actions).value.calls && Run(actions).value.calls[c].job.Committed?
    ensures
      var s, job := Run(actions).value, Run(actions).value.calls[c].job;
      && Mine(s, c) && s.db.runs[s.calls[c].run].status.Ready?
      && NamedSecond(s.db, job.record.composition.artifactId, s.calls[c].run)
      && job.response.composition == job.record.composition
      && Run(actions + [Conclude(c)]) == Some(At(s, c, Finished(RevisionAnswer(job.response))))
  {
    hide Inv, Next, Enabled, Closed, View;
    ReachableInv(actions);
    CommittedFacts(Run(actions).value, c);
    OneMore(actions, Conclude(c));
    Concludes(Run(actions).value, c);
  }

  lemma AtTwice(s: Sys, c: CallId, first: Job, second: Job)
    requires c in s.calls
    ensures At(At(s, c, first), c, second) == At(s, c, second)
  {
    var call := s.calls[c];
    assert s.calls[c := call.(job := first)][c := call.(job := second)] == s.calls[c := call.(job := second)];
  }

  /** The state after such a handler. */
  lemma LateSteps(actions: seq<Action>, c: CallId, technical: bool, lost: bool)
    requires Run(actions).Some? && c in Run(actions).value.calls && Run(actions).value.calls[c].job.Committed?
    ensures
      var s, job := Run(actions).value, Run(actions).value.calls[c].job;
      var s1 := At(s, c, Undoing(job.record.composition.artifactId, Some(job.op), technical));
      var s2 := Retracted(s1, job.record.composition.artifactId);
      Run(actions + LateHandling(c, technical, lost)) == Some(Refuse(s2, c, FailureCode(job.op.kind.Retry?)))
  {
    hide Inv, Next, Enabled, Closed, View, Run, NamedSecond;
    ReachableInv(actions);
    var s, job := Run(actions).value, Run(actions).value.calls[c].job;
    CommittedFacts(s, c);
    LateFault(s, c, technical);
    OneMore(actions, Fault(c, technical));
    var one := actions + [Fault(c, technical)];
    OneMore(one, DropArtifact(c));
    var two := one + [DropArtifact(c)];
    if technical {
      var s2 := Retracted(Run(one).value, job.record.composition.artifactId);
      LateFailureWrite(Run(two).value, c, lost);
      OneMore(two, WriteFault(c, lost));
      assert two + [WriteFault(c, lost)] == actions + LateHandling(c, technical, lost);
      hide At, Retracted;
      AtTwice(s2, c, LateFailing(job.op), Finished(Refused(FailureCode(job.op.kind.Retry?))));
    } else {
      assert two == actions + LateHandling(c, technical, lost);
    }
  }

  /**
   * An exception after complete_revision's transaction, whichever handler takes it: the caller is told that the
   * revision failed where it would have been given version 2, the run is ready with version 2 stored, and the artifact
   * that version 2 names is gone.
   */
  lemma LateFaultLosesArtifact(actions: seq<Action>, c: CallId, technical: bool, lost: bool)
    requires Run(actions).Some? && c in Run(actions).value.calls && Run(actions).value.calls[c].job.Committed?
    ensures
      var s, job := Run(actions).value, Run(actions).value.calls[c].job;
      var t := Run(actions + LateHandling(c, technical, lost));
      && t.Some? && s.calls[c].run in t.value.db.runs && t.value.db.runs[s.calls[c].run].status.Ready?
      && NamedSecond(t.value.db, job.record.composition.artifactId, s.calls[c].run)
      && job.record.composition.artifactId !in t.value.artifacts
      && JobIn(t.value, c) == Some(Finished(Refused(FailureCode(job.op.kind.Retry?))))
  {
    hide Run;
    LateSteps(actions, c, technical, lost);
    CommittedReturns(actions, c);
  }

  lemma OneMore(actions: seq<Action>, a: Action)
    ensures
      Run(actions + [a]) ==
        if Run(actions).Some? && Enabled(Run(actions).value, a) then Some(Next(Run(actions).value, a)) else None
  {
    hide Next, Enabled;
    assert (actions + [a])[..|actions|] == actions;
  }

  lemma Concludes(s: Sys, c: CallId)
    requires Mine(s, c) && s.calls[c].job.Committed?
    ensures Enabled(s, Conclude(c))
    ensures Next(s, Conclude(c)) == At(s, c, Finished(RevisionAnswer(s.calls[c].job.response)))
  {
  }

  /** The states that follow such an exception. */
  lemma LateFault(s: Sys, c: CallId, technical: bool)
    requires Mine(s, c) && s.calls[c].job.Committed?
    ensures
      var job := s.calls[c].job;
      var artifact := job.record.composition.artifactId;
      var s1 := At(s, c, Undoing(artifact, Some(job.op), technical));
      var after := if technical then LateFailing(job.op) else Finished(Refused(FailureCode(job.op.kind.Retry?)));
      && Enabled(s, Fault(c, technical)) && Next(s, Fault(c, technical)) == s1
      && Enabled(s1, DropArtifact(c)) && Next(s1, DropArtifact(c)) == At(Retracted(s1, artifact), c, after)
  {
  }

  lemma LateFailureWrite(s: Sys, c: CallId, lost: bool)
    requires DbInv(s.db) && Mine(s, c) && s.calls[c].job.LateFailing?
    requires Closed(View(s.db, s.calls[c].run), s.calls[c].job.op)
    ensures Enabled(s, WriteFault(c, lost))
    ensures Next(s, WriteFault(c, lost)) == Refuse(s, c, FailureCode(s.calls[c].job.op.kind.Retry?))
  {
    hide DbInv, FailOperation, Closed, View;
    var op := s.calls[c].job.op;
    LateFailureRefused(s.db, s.calls[c].run, op, ConnectionBeforeAcceptance,
                       if op.kind.Retry? then DoNotRetry else RetryOnce);
  }

  lemma CommittedFacts(s: Sys, c: CallId)
    requires Inv(s) && c in s.calls && s.calls[c].job.Committed?
    ensures
      var r, job := s.calls[c].run, s.calls[c].job;
      && DbInv(s.db) && Mine(s, c) && Closed(View(s.db, r), job.op)
      && s.db.runs[r].status.Ready? && NamedSecond(s.db, job.record.composition.artifactId, r)
      && job.response.composition == job.record.composition
  {
    hide CallsInv, ArtifactsInv, SeenOk, Closed, Find, OpsInv, Consistent, Complete, VersionTwo;
    TheCall(s, c);
    RunKnown(s, s.calls[c].run);
    RevisedIsReady(s.calls[c].run, View(s.db, s.calls[c].run));
  }

  /**
   * Racing generate calls that return all return the stored composition, generated once; its artifact is stored unless
   * the call that stored it did not return.
   */
  lemma RacingGenerates(actions: seq<Action>, c: CallId, d: CallId)
    requires Run(actions).Some?
    requires
      var s := Run(actions).value;
      && c in s.calls && d in s.calls && s.calls[c].run == s.calls[d].run
      && s.calls[c].job.Finished? && s.calls[c].job.answer.CompositionAnswer?
      && s.calls[d].job.Finished? && s.calls[d].job.answer.CompositionAnswer?
    ensures
      var s := Run(actions).value;
      var r, composition := s.calls[c].run, s.calls[c].job.answer.composition;
      && s.calls[d].job.answer.composition == composition
      && r in s.db.contexts && s.db.contexts[r].composition == Some(composition)
      && s.db.contexts[r].initialGenerationCount == 1
      && (composition.artifactId in s.artifacts <==> !WasUndone(actions, composition.artifactId))
  {
    hide DbInv, CallsInv, Next, Enabled, Holding, WasUndone;
    var s := Run(actions).value;
    ReachableInv(actions);
    FinishedOk(s, c);
    FinishedOk(s, d);
    DecodersNeverCorrupt(actions, s.calls[c].run);
    ArtifactsAccountedFor(actions);
    assert NamedFirst(s.db, s.calls[c].job.answer.composition.artifactId, s.calls[c].run);
  }

  // One lock

  /** A draft, a composition and a report that keep the lock of a run. */
  ghost predicate UnderLock(lock: BrandLock, direction: Direction, draft: Draft, composition: Composition,
                            report: CritiqueReport)
  {
    && Keeps(lock, draft.brief, draft.adCopy, draft.factReferences)
    && PendingForTarget(direction, draft.brief.hypotheses)
    && |lock.productUiAssetIds| > 0
    && SourceOf(composition.layers, Logo) == Some(lock.logoAssetId)
    && SourceOf(composition.layers, ProductUi) == Some(lock.productUiAssetIds[0])
    && report.brandLockPreserved
    && forall i :: 0 <= i < |report.issues| ==>
         !report.issues[i].category.BrandLockCategory? && !report.issues[i].category.Fact?
  }

  lemma NoProtectedIssues(request: CriticRequest)
    requires LockPreserved(request) && FactsSupported(request)
    ensures forall i :: 0 <= i < |Issues(request)| ==>
      !Issues(request)[i].category.BrandLockCategory? && !Issues(request)[i].category.Fact?
  {
    hide LockPreserved, FactsSupported, Critic.Refused, Warnings, Readable, HypothesisIssues;
    HypothesisIssuesOnlyWarn(request.analysis.hypotheses);
    var h := HypothesisIssues(request.analysis.hypotheses);
    var fixed := ProtectedIssues(request) + ReadabilityIssues(request);
    assert Issues(request) == fixed + h;
    forall i | |fixed| <= i < |Issues(request)|
      ensures Issues(request)[i].category.Culture?
    {
      assert Issues(request)[i] == h[i - |fixed|];
    }
  }

  lemma ReviewedUnderLock(analysis: Analysis, lock: BrandLock, draft: Draft, composition: Composition,
                          report: CritiqueReport, direction: Direction, r: RunId)
    requires analysis.brandLock == lock && Keeps(lock, draft.brief, draft.adCopy, draft.factReferences)
    requires PendingForTarget(direction, draft.brief.hypotheses)
    requires ComposedUnder(r, lock, composition) && ReviewedAs(analysis, lock, draft, composition, report)
    requires |lock.verifiedProductFacts| > 0
    ensures UnderLock(lock, direction, draft, composition, report)
  {
    hide Issues, Verdict, Review, Warnings, SourceOf, Composition.Valid;
    var request := CriticRequest(analysis, lock, draft, composition, []);
    ReviewedVerdict(request, report);
    NoProtectedIssues(request);
  }

  lemma DraftedKeeps(r: RunId, v: RunView)
    requires Consistent(r, v) && DecodeDraft(v.ctx).Present?
    ensures
      var c := v.ctx;
      && c.analysis.Some? && c.confirmedLock.Some?
      && c.request.brandLock == c.analysis.value.brandLock == c.confirmedLock.value
      && |c.confirmedLock.value.verifiedProductFacts| > 0
      && var draft := DecodeDraft(c).value;
         && Keeps(c.confirmedLock.value, draft.brief, draft.adCopy, draft.factReferences)
         && draft.brief.hypotheses == c.analysis.value.hypotheses
         && PendingForTarget(v.run.direction, draft.brief.hypotheses)
  {
    hide Ledger, ComposedUnder, ReviewedAs, ValidateConfirmation;
    Layers(r, v);
    var c := v.ctx;
    GenerateKeepsLock(c.analysis.value, c.confirmedLock.value, v.run.direction);
  }

  lemma SecondUnderLock(r: RunId, v: RunView, revision: RevisionRecord)
    requires Consistent(r, v) && Complete(v.ctx) && VersionTwo(r, v, revision)
    ensures UnderLock(v.ctx.confirmedLock.value, v.run.direction, revision.draft, revision.composition,
                      revision.critique)
  {
    hide Consistent, Generate, ComposedUnder, ReviewedAs;
    DraftedKeeps(r, v);
    ReviseKeepsLock(v.run.direction, DecodeDraft(v.ctx).value, revision.requestedChanges);
    ReviewedUnderLock(v.ctx.analysis.value, v.ctx.confirmedLock.value, revision.draft, revision.composition,
                      revision.critique, v.run.direction, r);
  }

  /**
   * One Brand Lock from the request to version 2, in every reachable state. A confirmed lock permutes the
   * benefits of the requested one at most; once there is a draft, request, analysis, confirmation and
   * brief have the same lock; both versions show its logo and product UI, keep its call to action and its
   * facts; and the Critic's brand-lock and fact rules never fire on what is stored.
   */
  lemma OneLockThroughout(actions: seq<Action>, r: RunId)
    requires Run(actions).Some? && r in Run(actions).value.db.runs
    ensures r in Run(actions).value.db.contexts
    ensures
      var v := View(Run(actions).value.db, r);
      var c := v.ctx;
      && (c.confirmedLock.Some? ==> Confirms(c.confirmedLock.value, c.request.brandLock))
      && (DecodeDraft(c).Present? ==>
            && c.analysis.Some? && c.confirmedLock.Some?
            && c.request.brandLock == c.analysis.value.brandLock == c.confirmedLock.value
            && Keeps(c.confirmedLock.value, DecodeDraft(c).value.brief, DecodeDraft(c).value.adCopy,
                     DecodeDraft(c).value.factReferences))
      && (c.critique.Some? ==>
            && Complete(c)
            && UnderLock(c.confirmedLock.value, v.run.direction, DecodeDraft(c).value, c.composition.value,
                         c.critique.value))
      && (v.revision.Some? ==>
            && Complete(c)
            && UnderLock(c.confirmedLock.value, v.run.direction, v.revision.value.draft, v.revision.value.composition,
                         v.revision.value.critique)
            && Subsequence(v.revision.value.critique.issues, c.critique.value.issues))
  {
    hide DbInv, ArtifactsInv, CallsInv, Next, Enabled, Consistent, UnderLock, VersionTwo, Keeps, Confirms, Find, DbStep;
    ReachableInv(actions);
    RunKnown(Run(actions).value, r);
    var v := View(Run(actions).value.db, r);
    ConfirmedConfirms(r, v);
    if DecodeDraft(v.ctx).Present? {
      DraftedKeeps(r, v);
    }
    if v.ctx.critique.Some? {
      FirstUnderLock(r, v);
    }
    if v.revision.Some? {
      RevisedIsReady(r, v);
      SecondUnderLock(r, v, v.revision.value);
    }
  }

  lemma ConfirmedConfirms(r: RunId, v: RunView)
    requires Consistent(r, v)
    ensures v.ctx.confirmedLock.Some? ==> Confirms(v.ctx.confirmedLock.value, v.ctx.request.brandLock)
  {
    hide Ledger, ComposedUnder, ReviewedAs, DraftedFrom, ValidateConfirmation, BrandLock.Valid, Confirms;
    Layers(r, v);
    if v.ctx.confirmedLock.Some? {
      ConfirmationSound(v.ctx.confirmedLock.value, v.ctx.request.brandLock);
    }
  }

  lemma FirstUnderLock(r: RunId, v: RunView)
    requires Consistent(r, v) && v.ctx.critique.Some?
    ensures Complete(v.ctx)
    ensures UnderLock(v.ctx.confirmedLock.value, v.run.direction, DecodeDraft(v.ctx).value, v.ctx.composition.value,
                      v.ctx.critique.value)
  {
    hide Ledger, ComposedUnder, ReviewedAs, DraftedFrom, ValidateConfirmation, UnderLock;
    Layers(r, v);
    DraftedKeeps(r, v);
    var c := v.ctx;
    ReviewedUnderLock(c.analysis.value, c.confirmedLock.value, DecodeDraft(c).value, c.composition.value,
                      c.critique.value, v.run.direction, r);
  }

  // What can go wrong

  /** The job of a call in a state. */
  function JobIn(s: Sys, c: CallId): Option<Job> {
    if c in s.calls then Some(s.calls[c].job) else None
  }

  predicate IsRevised(job: Option<Job>) {
    job.Some? && job.value.Revised?
  }

  predicate IsCounted(job: Option<Job>) {
    job.Some? && job.value.Counted?
  }

  predicate AnswersComposition(job: Option<Job>) {
    job.Some? && job.value.Finished? && job.value.answer.CompositionAnswer?
  }

  /**
   * No check of the revision service fails by itself, whatever other calls do in between: the stored retry
   * decision is confirmed, the guard on the seven reads passes, the review and the response satisfy their
   * contracts, and complete_revision accepts. Only the environment can make a claimed revision fail.
   */
  lemma OnlyTheEnvironmentFails(actions: seq<Action>, a: Action)
    requires Run(actions).Some? && Enabled(Run(actions).value, a)
    ensures
      var s := Run(actions).value;
      var next := Next(s, a);
      && (a.Recheck? ==> JobIn(next, a.call) == Some(Revising(s.calls[a.call].job.op)))
      && (a.RenderSecond? ==>
            if a.rendering.logoKind.LogoAsset? && a.rendering.productUiKind.ProductUiAsset?
            then IsRevised(JobIn(next, a.call))
            else JobIn(next, a.call) == Some(Failing(s.calls[a.call].job.op)))
      && (a.CountAttempts? ==> IsCounted(JobIn(next, a.call)))
      && (a.WriteRevision? ==>
            var job := s.calls[a.call].job;
            JobIn(next, a.call) == Some(Committed(job.op, job.record, job.response)))
      && (a.Conclude? && s.calls[a.call].job.Committed? ==>
            JobIn(next, a.call) == Some(Finished(RevisionAnswer(s.calls[a.call].job.response))))
      && (a.ReplayComposition? ==> AnswersComposition(JobIn(next, a.call)))
  {
    hide Inv, Next, JobIn, IsRevised, IsCounted, AnswersComposition;
    var s := Run(actions).value;
    ReachableInv(actions);
    match a {
      case Recheck(c) => RecheckGoesOn(s, c);
      case RenderSecond(c, rendering, reviewedAt) => RenderGoesOn(s, c, rendering, reviewedAt);
      case CountAttempts(c) => CountGoesOn(s, c);
      case WriteRevision(c) => WriteGoesOn(s, c);
      case Conclude(c) => ConcludeGoesOn(s, c);
      case ReplayComposition(c) => ReplayGoesOn(s, c);
      case _ =>
    }
  }

  lemma RecheckGoesOn(s: Sys, c: CallId)
    requires Mine(s, c) && s.calls[c].job.Rechecking?
    requires Inv(s) && Enabled(s, Recheck(c))
    ensures JobIn(Next(s, Recheck(c)), c) == Some(Revising(s.calls[c].job.op))
  {
    hide Inv, RecheckPasses;
    RecheckAlwaysPasses(s, c);
  }

  lemma RenderGoesOn(s: Sys, c: CallId, rendering: Rendering, reviewedAt: int)
    requires Mine(s, c) && s.calls[c].job.Revising?
    requires Inv(s) && Enabled(s, RenderSecond(c, rendering, reviewedAt))
    ensures
      var job := JobIn(Next(s, RenderSecond(c, rendering, reviewedAt)), c);
      if rendering.logoKind.LogoAsset? && rendering.productUiKind.ProductUiAsset? then IsRevised(job)
      else job == Some(Failing(s.calls[c].job.op))
  {
    hide DbInv, CallsInv, ArtifactsInv, CallOk, Consistent, DbStep, Revisable, ReviseDraft, RenderLayers, Review;
    hide Deliverable, Composition.Valid, OpenOp;
    var r, op := s.calls[c].run, s.calls[c].job.op;
    var v := View(s.db, r);
    RunKnown(s, r);
    RevisingFacts(s, c);
    ReadsAreOneSnapshot(s, c);
    FreshArtifact(s, r, rendering.artifact);
    RenderedVersionTwo(r, v, op, rendering, reviewedAt);
    RendersExactly(r, v, op, rendering);
  }

  /** Rendering for a revised draft succeeds exactly when the registry knows the two assets as what they are. */
  lemma RendersExactly(r: RunId, v: RunView, op: Operation, rendering: Rendering)
    requires Consistent(r, v) && Complete(v.ctx) && rendering.Possible()
    ensures
      var art := ReviseDraft(v.run.direction, DecodeDraft(v.ctx).value, op.requestedChanges);
      && art.Some?
      && (RenderLayers(v.ctx.confirmedLock.value, art.value.adCopy, rendering).Ok? <==>
            rendering.logoKind.LogoAsset? && rendering.productUiKind.ProductUiAsset?)
  {
    hide Consistent, ComposeLayers, ReviseDraft, BrandLock.Valid;
    var lock := v.ctx.confirmedLock.value;
    SecondVersionPossible(r, v, op.requestedChanges);
    var art := ReviseDraft(v.run.direction, DecodeDraft(v.ctx).value, op.requestedChanges).value;
    DraftedKeeps(r, v);
    ReviseKeepsLock(v.run.direction, DecodeDraft(v.ctx).value, op.requestedChanges);
    LockHasProductUi(r, v);
    ComposedFromLock(lock, art.adCopy, RegisteredAsset(lock.logoAssetId, rendering.logoKind),
                     RegisteredAsset(lock.productUiAssetIds[0], rendering.productUiKind),
                     rendering.logoSize, rendering.productUiSize);
  }

  lemma LockHasProductUi(r: RunId, v: RunView)
    requires Consistent(r, v) && v.ctx.confirmedLock.Some?
    ensures |v.ctx.confirmedLock.value.productUiAssetIds| > 0
  {
    hide Ledger, ComposedUnder, ReviewedAs, DraftedFrom, ValidateConfirmation;
    Layers(r, v);
  }

  /** What a call that holds a second version knows. */
  lemma RevisedFacts(s: Sys, c: CallId)
    requires Inv(s) && Mine(s, c) && s.calls[c].job.Revised?
    ensures
      var r, job, seen := s.calls[c].run, s.calls[c].job, s.calls[c].seen;
      var v := View(s.db, r);
      && Complete(v.ctx) && VersionTwo(r, v, job.record) && job.record.revisedAt == job.record.critique.reviewedAt
      && Found(seen.composition).Some? && Found(seen.composition) == v.ctx.composition
      && job.record.runId == r
  {
    hide DbInv, ArtifactsInv, CallsInv, RevisedFrom, ComposedUnder, ReviewedAs, OpenOp, DecodeDraft, DecodeCritique,
      DecodeConfirmation;
    TheCall(s, c);
  }

  lemma CountGoesOn(s: Sys, c: CallId)
    requires Inv(s) && Enabled(s, CountAttempts(c))
    ensures IsCounted(JobIn(Next(s, CountAttempts(c)), c))
  {
    hide DbInv, ArtifactsInv, CallsInv, Consistent, DbStep, VersionTwo, RevisionCompleted.Valid, Complete;
    var r, job := s.calls[c].run, s.calls[c].job;
    RunKnown(s, r);
    RevisedFacts(s, c);
    ResponseValid(r, View(s.db, r), job.record);
  }

  lemma WriteGoesOn(s: Sys, c: CallId)
    requires Mine(s, c) && s.calls[c].job.Counted?
    requires Inv(s) && Enabled(s, WriteRevision(c))
    ensures
      var job := s.calls[c].job;
      JobIn(Next(s, WriteRevision(c)), c) == Some(Committed(job.op, job.record, job.response))
  {
    hide Inv, Next, CompleteRevision, View, JobOk, DbStep;
    WriteRevisionIs(s, c);
    RevisionAccepted(s, c);
  }

  lemma WriteRevisionIs(s: Sys, c: CallId)
    requires Enabled(s, WriteRevision(c))
    ensures s.calls[c].job.Counted? && Next(s, WriteRevision(c)) == WriteRevisionStep(s, c)
  {
    hide WriteRevisionStep;
  }

  lemma ConcludeGoesOn(s: Sys, c: CallId)
    requires Enabled(s, Conclude(c))
    ensures s.calls[c].job.Committed? ==>
      JobIn(Next(s, Conclude(c)), c) == Some(Finished(RevisionAnswer(s.calls[c].job.response)))
  {
  }

  lemma ReplayGoesOn(s: Sys, c: CallId)
    requires Inv(s) && Enabled(s, ReplayComposition(c))
    ensures AnswersComposition(JobIn(Next(s, ReplayComposition(c)), c))
  {
    hide DbInv, ArtifactsInv, CallsInv, SeenOk;
    TheCall(s, c);
  }
}

/** Runs that wait for ever: when exactly a run loses its owner, and that nothing brings it back. */
module Stranding {
  import opened Prelude
  import opened Domain
  import opened Contracts
  import opened AnalysisPipeline
  import opened Confirmation
  import opened Drafts
  import opened Revising
  import opened Critic
  import opened Tables
  import opened Lifecycle
  import opened Transactions
  import opened Protocol
  import opened Invariant
  import opened Preservation
  import opened Guarantees
  import opened Answers

  /** The run waits for an owner that no longer exists. */
  ghost predicate Stranded(s: Sys, r: RunId) {
    && r in s.db.runs && r in s.db.contexts && Locked(View(s.db, r))
    && forall c :: c in s.calls && s.calls[c].run == r ==> !Exclusive(s.calls[c].job)
  }

  /** Nothing that any call does, however long the service runs, changes a stranded run again. */
  lemma StrandedStays(s: Sys, a: Action, r: RunId)
    requires Inv(s) && Enabled(s, a) && Stranded(s, r)
    ensures Stranded(Next(s, a), r) && View(Next(s, a).db, r) == View(s.db, r)
  {
    hide DbInv, ArtifactsInv, CallsInv, Next, Locked, Exclusive, View, Evolves, Enabled;
    if a.CreateRun? {
      CreateKeepsTheCalls(s, a);
      CreatedSame(s, a.run, a.request, a.at, r);
    } else {
      EveryStepKeeps(s, a);
      SameKeys(s.db, Next(s, a).db, RunOf(s, a));
    }
  }

  lemma SameKeys(db: Db, next: Db, r: RunId)
    requires DbStep(db, next, r)
    ensures next.runs.Keys == db.runs.Keys && next.contexts.Keys == db.runs.Keys == db.contexts.Keys
  {
    hide Evolves, View;
  }

  lemma CreatedSame(s: Sys, r: RunId, request: RunCreate, at: int, q: RunId)
    requires Inv(s) && Enabled(s, CreateRun(r, request, at)) && q in s.db.runs && q in s.db.contexts
    ensures
      var next := Next(s, CreateRun(r, request, at));
      q in next.db.runs && q in next.db.contexts && View(next.db, q) == View(s.db, q)
  {
    hide DbInv, CallsInv, ArtifactsInv, RunCreate.Valid, View;
    CreateKeeps(s.db, r, ProjectRun(request.direction, Pending, [], at), request);
  }

  lemma {:induction false} StrandedForever(actions: seq<Action>, more: seq<Action>, r: RunId)
    requires Run(actions).Some? && Run(actions + more).Some? && Stranded(Run(actions).value, r)
    ensures Stranded(Run(actions + more).value, r)
    ensures View(Run(actions + more).value.db, r) == View(Run(actions).value.db, r)
  {
    hide Next, Enabled, View, Stranded, Inv;
    if |more| == 0 {
      assert actions + more == actions;
      StrandedKnown(Run(actions).value, r);
    } else {
      var front, a := more[..|more| - 1], more[|more| - 1];
      assert (actions + more)[..|actions + more| - 1] == actions + front;
      assert (actions + more)[|actions + more| - 1] == a;
      StrandedForever(actions, front, r);
      ReachableInv(actions + front);
      StrandedStays(Run(actions + front).value, a, r);
      StrandedKnown(Run(actions).value, r);
      StrandedKnown(Run(actions + front).value, r);
    }
  }

  lemma StrandedKnown(s: Sys, r: RunId)
    requires Stranded(s, r)
    ensures r in s.db.runs && r in s.db.contexts
  {
    hide Locked, View, Exclusive;
  }

  // Losing the owner

  /**
   * The steps by which the owner of a run gives it up: it stops, an exception leaves the service or is taken by a
   * handler that records nothing, or the deletion or the failure write of a handler is lost.
   */
  predicate Abandons(job: Job, a: Action) {
    match a
    case Crash(_) => Exclusive(job)
    case Fault(_, technical) =>
      || job.Won? || job.FailureDecided? || job.FailureRead? || job.Analyzed? || job.AnalysisChecked?
      || job.Rechecking? || (job.Revising? && !technical)
    case DropArtifact(_) => job.Cleaning? && !job.technical
    case DropFails(_) => job.Cleaning?
    case WriteFault(_, lost) => job.Failing? && lost
    case _ => false
  }

  /** Action a is such a step of the owner of run r. */
  predicate AbandonsRun(s: Sys, a: Action, r: RunId) {
    !a.CreateRun? && a.call in s.calls && s.calls[a.call].run == r && Abandons(s.calls[a.call].job, a)
  }

  lemma AbandonedJob(s: Sys, a: Action)
    requires Enabled(s, a) && !a.CreateRun? && a.call in s.calls && Abandons(s.calls[a.call].job, a)
    ensures Exclusive(s.calls[a.call].job) && Next(s, a).db == s.db
    ensures a.call in Next(s, a).calls ==> !Exclusive(Next(s, a).calls[a.call].job)
  {
    hide FailOperation, Holding;
  }

  /** The owner of a run leaves it stranded by such a step. */
  lemma AbandoningStrands(s: Sys, a: Action, r: RunId)
    requires Inv(s) && Enabled(s, a) && AbandonsRun(s, a, r)
    ensures Stranded(Next(s, a), r)
  {
    hide DbInv, ArtifactsInv, Next, Abandons, Exclusive, Locked, View, DbStep, CallOk;
    AbandonedJob(s, a);
    TheCall(s, a.call);
    OwnerLocks(s, a.call);
    EveryStepKeeps(s, a);
  }

  // Keeping the owner

  /** A write that neither starts an analysis nor an operation locks nothing. */
  lemma NeverLocks(r: RunId, v: RunView, w: RunView)
    requires Consistent(r, v) && Evolves(v, w) && !Locked(v) && w.feedback == v.feedback
    requires w.run.status == v.run.status || w.run.status != InProgress || v.run.status == AwaitingBrandLock
    ensures !Locked(w)
  {
    hide Chain, VersionTwo;
  }

  /** The writes of the calls that own a run. */
  predicate OwnersWrite(s: Sys, a: Action)
    requires Enabled(s, a)
  {
    a.WriteFailure? || a.WriteAnalysis? || a.WriteRevision? || (a.WriteFault? && s.calls[a.call].job.Failing?)
  }

  lemma OperationsUntouched(s: Sys, a: Action)
    requires Inv(s) && Enabled(s, a) && !a.CreateRun? && !a.ClaimRun? && !a.SubmitFeedback? && !a.SubmitRetry?
    requires !a.WriteFault? && !OwnersWrite(s, a)
    ensures
      var r, db, next := RunOf(s, a), s.db, Next(s, a).db;
      && next.operations == db.operations && r in db.runs && r in next.runs
      && (next.runs[r].status == db.runs[r].status || next.runs[r].status != InProgress
          || db.runs[r].status == AwaitingBrandLock)
  {
    hide RenderLayers, Generate, Review, ReviseDraft, RevisionCompleted.Valid, Composition.Valid, RecheckPasses;
    hide CompleteRevision, ClaimFeedback, ClaimRetry, FailOperation, StoreFailure, StoreAnalysis, Observe, Inv;
    hide AnalysisResult, AnalysisFailureCode, AfterFault, ValidateConfirmation, DecodeDraft, DecodeCritique, Holding;
  }

  lemma StaysUnlocked(s: Sys, a: Action)
    requires Inv(s) && Enabled(s, a) && !a.CreateRun? && !a.ClaimRun? && !a.SubmitFeedback? && !a.SubmitRetry?
    requires !a.WriteFault? && !OwnersWrite(s, a)
    requires RunOf(s, a) in s.db.runs && RunOf(s, a) in s.db.contexts && !Locked(View(s.db, RunOf(s, a)))
    ensures
      var r, next := RunOf(s, a), Next(s, a).db;
      r in next.runs && r in next.contexts && !Locked(View(next, r))
  {
    hide DbInv, CallsInv, ArtifactsInv, Next, Enabled, OwnersWrite, Evolves, Consistent, Locked, Find, Exclusive;
    var r := RunOf(s, a);
    OperationsUntouched(s, a);
    EveryStepKeeps(s, a);
    RunKnown(s, r);
    NeverLocks(r, View(s.db, r), View(Next(s, a).db, r));
  }

  lemma ClaimedBy(s: Sys, c: CallId)
    requires Inv(s) && Enabled(s, ClaimRun(c))
    ensures
      var next := Next(s, ClaimRun(c));
      c in next.calls && (next.db == s.db || next.calls[c].job == Won)
  {
    hide Inv, ClaimAnalysis;
    ClaimRefused(s.db, s.calls[c].run);
  }

  lemma ClaimRefused(db: Db, r: RunId)
    ensures
      var out := ClaimAnalysis(db, r);
      out.result.Err? || out.result.value.None? ==> out.db == db
  {
  }

  lemma SubmittedBy(s: Sys, a: Action)
    requires Inv(s) && Enabled(s, a) && (a.SubmitFeedback? || a.SubmitRetry?)
    ensures Next(s, a).db == s.db || (a.call in Next(s, a).calls && Exclusive(Next(s, a).calls[a.call].job))
  {
    hide DbInv, CallsInv, ArtifactsInv, ClaimFeedback, ClaimRetry;
    if a.SubmitFeedback? {
      ClaimFeedbackKeeps(s.db, a.run, a.key, a.fingerprint, a.changes, a.digest);
    } else {
      ClaimRetryKeeps(s.db, a.run, a.key, a.fingerprint);
    }
  }

  /** A call that moves its run from unlocked to locked is its owner from then on. */
  lemma LockingClaims(s: Sys, a: Action)
    requires Inv(s) && Enabled(s, a) && !a.CreateRun?
    requires RunOf(s, a) in s.db.runs && RunOf(s, a) in s.db.contexts && !Locked(View(s.db, RunOf(s, a)))
    requires
      var r, next := RunOf(s, a), Next(s, a).db;
      r in next.runs && r in next.contexts && Locked(View(next, r))
    ensures a.call in Next(s, a).calls && Exclusive(Next(s, a).calls[a.call].job)
  {
    hide DbInv, CallsInv, ArtifactsInv, Next, View, Locked, CallOk;
    if a.ClaimRun? {
      ClaimedBy(s, a.call);
      EveryStepKeeps(s, a);
    } else if a.SubmitFeedback? || a.SubmitRetry? {
      SubmittedBy(s, a);
      EveryStepKeeps(s, a);
    } else if a.WriteFault? || OwnersWrite(s, a) {
      WriterLocks(s, a);
    } else {
      StaysUnlocked(s, a);
    }
  }

  /** Only the owner of a run makes these writes, or nothing is written. */
  lemma WriterLocks(s: Sys, a: Action)
    requires Inv(s) && Enabled(s, a) && (a.WriteFault? || OwnersWrite(s, a))
    requires RunOf(s, a) in s.db.contexts && !Locked(View(s.db, RunOf(s, a)))
    ensures Next(s, a).db == s.db
  {
    hide DbInv, ArtifactsInv, View, Locked, CallOk, FailOperation, StoreFailure, StoreAnalysis, CompleteRevision;
    var c := a.call;
    TheCall(s, c);
    if Exclusive(s.calls[c].job) {
      OwnerLocks(s, c);
    } else {
      LateWrite(s, c);
    }
  }

  lemma LateWrite(s: Sys, c: CallId)
    requires Inv(s) && Mine(s, c) && s.calls[c].job.LateFailing?
    ensures
      var op := s.calls[c].job.op;
      FailOperation(s.db, s.calls[c].run, op.id, ConnectionBeforeAcceptance,
                    if op.kind.Retry? then DoNotRetry else RetryOnce).db == s.db
  {
    hide DbInv, ArtifactsInv, CallsInv, SeenOk, Closed, FailOperation, View;
    TheCall(s, c);
    var op := s.calls[c].job.op;
    LateFailureRefused(s.db, s.calls[c].run, op, ConnectionBeforeAcceptance,
                       if op.kind.Retry? then DoNotRetry else RetryOnce);
  }

  /** The owner still owns its run, or has unlocked it. */
  ghost predicate GoesOn(s: Sys, a: Action)
    requires Enabled(s, a) && !a.CreateRun? && a.call in s.calls
  {
    var next, r := Next(s, a), s.calls[a.call].run;
    || (a.call in next.calls && Exclusive(next.calls[a.call].job))
    || (r in next.db.runs && r in next.db.contexts && !Locked(View(next.db, r)))
  }

  lemma AnalysisGoesOn(s: Sys, a: Action)
    requires Inv(s) && Enabled(s, a)
    requires a.AssetRefused? || a.Analyse? || a.ReadForFailure? || a.WriteFailure? || a.ReadForAnalysis?
      || a.WriteAnalysis?
    ensures GoesOn(s, a)
  {
    hide DbInv, ArtifactsInv, CallsInv, SeenOk, AnalysisResult, AnalysisFailureCode, Find, Chain, VersionTwo;
    TheCall(s, a.call);
    RunKnown(s, s.calls[a.call].run);
  }

  lemma RenderingGoesOn(s: Sys, a: Action)
    requires Inv(s) && Enabled(s, a) && (a.Recheck? || a.RenderSecond? || a.CountAttempts?)
    ensures GoesOn(s, a)
  {
    hide Inv, Next, Enabled, View, Locked;
    ActsOnItsCall(s, a);
    if a.Recheck? {
      RecheckGoesOn(s, a.call);
    } else if a.RenderSecond? {
      RenderGoesOn(s, a.call, a.rendering, a.reviewedAt);
    } else {
      CountGoesOn(s, a.call);
    }
  }

  lemma ActsOnItsCall(s: Sys, a: Action)
    requires Enabled(s, a) && (a.Recheck? || a.RenderSecond? || a.CountAttempts?)
    ensures Mine(s, a.call)
    ensures (a.Recheck? ==> s.calls[a.call].job.Rechecking?) && (a.RenderSecond? ==> s.calls[a.call].job.Revising?)
  {
  }

  lemma ReadGoesOn(s: Sys, c: CallId, field: Field)
    requires Inv(s) && Enabled(s, ReadField(c, field)) && s.calls[c].job.Revising?
    ensures GoesOn(s, ReadField(c, field))
  {
    hide DbInv, ArtifactsInv, CallsInv, Locked, Consistent, Find;
    var r := s.calls[c].run;
    RunKnown(s, r);
    NoneCorrupt(r, View(s.db, r));
  }

  lemma NoneCorrupt(r: RunId, v: RunView)
    requires Consistent(r, v)
    ensures !DecodeConfirmation(v.ctx).Corrupt? && !DecodeDraft(v.ctx).Corrupt? && !DecodeCritique(v.ctx).Corrupt?
  {
    hide Chain, Ledger;
    Layers(r, v);
  }

  lemma WriteRevisionGoesOn(s: Sys, c: CallId)
    requires c in s.calls && Inv(s) && Enabled(s, WriteRevision(c))
    ensures GoesOn(s, WriteRevision(c))
  {
    hide DbInv, ArtifactsInv, CallsInv, SeenOk, Closed, CompleteRevision, DbStep, OpenOp, Complete, VersionTwo;
    RevisionAccepted(s, c);
    var job := s.calls[c].job;
    CompletedNotInProgress(s.db, s.calls[c].run, job.op.id, job.record, job.response);
  }

  lemma CompletedNotInProgress(db: Db, r: RunId, id: nat, revision: RevisionRecord, response: RevisionCompleted)
    requires r in db.runs
    ensures
      var out := CompleteRevision(db, r, id, revision, response);
      out.result.Ok? ==> r in out.db.runs && !out.db.runs[r].status.InProgress?
  {
  }

  lemma HandlersGoOn(s: Sys, a: Action)
    requires Inv(s) && Enabled(s, a) && (a.Fault? || a.DropArtifact? || a.WriteFault?)
    requires Exclusive(s.calls[a.call].job) && !Abandons(s.calls[a.call].job, a)
    ensures GoesOn(s, a)
  {
    hide DbInv, ArtifactsInv, CallsInv, SeenOk, Find, OpsInv;
    if a.WriteFault? {
      TheCall(s, a.call);
      OpenRow(s.db, s.calls[a.call].run, s.calls[a.call].job.op);
    }
  }

  lemma OwnerGoesOn(s: Sys, a: Action)
    requires Inv(s) && Enabled(s, a) && !a.CreateRun? && a.call in s.calls
    requires Exclusive(s.calls[a.call].job) && !Abandons(s.calls[a.call].job, a)
    ensures GoesOn(s, a)
  {
    hide Inv, Next, GoesOn;
    match a {
      case AssetRefused(_, _) => AnalysisGoesOn(s, a);
      case Analyse(_, _, _, _) => AnalysisGoesOn(s, a);
      case ReadForFailure(_) => AnalysisGoesOn(s, a);
      case WriteFailure(_) => AnalysisGoesOn(s, a);
      case ReadForAnalysis(_) => AnalysisGoesOn(s, a);
      case WriteAnalysis(_) => AnalysisGoesOn(s, a);
      case Recheck(_) => RenderingGoesOn(s, a);
      case RenderSecond(_, _, _) => RenderingGoesOn(s, a);
      case CountAttempts(_) => RenderingGoesOn(s, a);
      case ReadField(c, field) => ReadGoesOn(s, c, field);
      case WriteRevision(c) => WriteRevisionGoesOn(s, c);
      case Fault(_, _) => HandlersGoOn(s, a);
      case DropArtifact(_) => HandlersGoOn(s, a);
      case WriteFault(_, _) => HandlersGoOn(s, a);
      case _ =>
    }
  }

  /** A run with an owner, or one that is not locked, is stranded only by its owner giving it up. */
  lemma OnlyAbandoningStrands(s: Sys, a: Action, r: RunId)
    requires Inv(s) && Enabled(s, a) && !Stranded(s, r) && Stranded(Next(s, a), r)
    ensures AbandonsRun(s, a, r)
  {
    hide DbInv, CallsInv, ArtifactsInv, Next, View, Locked, Exclusive, Abandons, Evolves, CallOk, Enabled;
    if a.CreateRun? {
      CreatedUnlocked(s, a.run, a.request, a.at, r);
    } else {
      EveryStepKeeps(s, a);
      var q := RunOf(s, a);
      SameKeys(s.db, Next(s, a).db, q);
      if !(a.call in s.calls && Exclusive(s.calls[a.call].job) && s.calls[a.call].run == r) {
        if r == q && !Locked(View(s.db, r)) {
          LockingClaims(s, a);
        }
      } else if !Abandons(s.calls[a.call].job, a) {
        OwnerGoesOn(s, a);
      }
    }
  }

  lemma CreatedUnlocked(s: Sys, r: RunId, request: RunCreate, at: int, q: RunId)
    requires Inv(s) && Enabled(s, CreateRun(r, request, at)) && !Stranded(s, q)
    ensures !Stranded(Next(s, CreateRun(r, request, at)), q)
  {
    hide DbInv, CallsInv, ArtifactsInv, RunCreate.Valid, Find, Exclusive;
    if q in s.db.runs {
      RunKnown(s, q);
      CreatedSame(s, r, request, at, q);
    }
  }

  /**
   * A run is stranded exactly when its owner gives it up: in every reachable state and for every step of any call, a
   * run that still had an owner or needed none is left locked without one if and only if the step is one of those that
   * Abandons lists, made by the call that owned it.
   */
  lemma StrandsExactly(actions: seq<Action>, a: Action, r: RunId)
    requires Run(actions).Some? && Enabled(Run(actions).value, a) && !Stranded(Run(actions).value, r)
    ensures Stranded(Next(Run(actions).value, a), r) <==> AbandonsRun(Run(actions).value, a, r)
  {
    hide Inv, Next, Enabled, Stranded, AbandonsRun;
    var s := Run(actions).value;
    ReachableInv(actions);
    if AbandonsRun(s, a, r) {
      AbandoningStrands(s, a, r);
    }
    if Stranded(Next(s, a), r) {
      OnlyAbandoningStrands(s, a, r);
    }
  }
}

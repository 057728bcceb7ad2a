/** Every action of every call keeps the invariant. */
module Preservation {
  import opened Prelude
  import opened Domain
  import opened Contracts
  import opened AnalysisPipeline
  import opened Confirmation
  import opened Drafts
  import opened Revising
  import opened Critic
  import opened Compositor
  import opened Tables
  import opened Lifecycle
  import opened Transactions
  import opened Protocol
  import opened Invariant

  /** The run that an enabled action works on. */
  function RunOf(s: Sys, a: Action): RunId
    requires Enabled(s, a)
  {
    match a
    case CreateRun(r, _, _) => r
    case Start(_, r, _) => r
    case Confirm(_, r, _, _) => r
    case SubmitFeedback(_, r, _, _, _, _) => r
    case SubmitRetry(_, r, _, _) => r
    case _ => s.calls[a.call].run
  }

  /** The invariant is kept, and only one call and one run change. */
  ghost predicate Sound(s: Sys, a: Action)
    requires Enabled(s, a)
  {
    Inv(Next(s, a)) && (a.CreateRun? || Moves(s, Next(s, a), a.call, RunOf(s, a)))
  }

  // Artifacts

  function HoldingOf(s: Sys, c: CallId): Option<ArtifactId> {
    if c in s.calls then Holding(s.calls[c].job) else None
  }

  /** The rows that name artifacts are the same. */
  ghost predicate SameNames(db: Db, next: Db) {
    && next.revisions == db.revisions
    && next.contexts.Keys == db.contexts.Keys
    && forall r :: r in db.contexts ==> next.contexts[r].composition == db.contexts[r].composition
  }

  lemma ArtifactsKept(s: Sys, next: Sys, c: CallId)
    requires ArtifactsInv(s)
    requires next.artifacts == s.artifacts && next.holders == s.holders && s.issued <= next.issued
    requires next.retracted == s.retracted
    requires SameNames(s.db, next.db)
    requires forall d :: d in next.calls && d != c ==> d in s.calls && next.calls[d] == s.calls[d]
    requires forall d :: d in s.calls && d != c ==> d in next.calls
    requires HoldingOf(next, c) == HoldingOf(s, c)
    ensures ArtifactsInv(next)
  {
    hide Holding;
    forall d | d in next.calls && Holding(next.calls[d].job).Some?
      ensures Holding(next.calls[d].job).value in s.holders && s.holders[Holding(next.calls[d].job).value] == HeldBy(d)
    {
      if d == c {
        assert c in s.calls;
      }
    }
  }

  /** A call that only changes what it knows itself. */
  lemma LocalStep(s: Sys, next: Sys, c: CallId, r: RunId)
    requires Inv(s) && r in s.db.runs
    requires next == s.(calls := next.calls)
    requires forall d :: d in next.calls && d != c ==> d in s.calls && next.calls[d] == s.calls[d]
    requires forall d :: d in s.calls && d != c ==> d in next.calls
    requires c in s.calls ==> s.calls[c].run == r
    requires c in next.calls ==> next.calls[c].run == r && CallOk(next.calls[c], next.db)
    requires c in next.calls && Exclusive(next.calls[c].job) ==> c in s.calls && Exclusive(s.calls[c].job)
    requires HoldingOf(next, c) == HoldingOf(s, c)
    ensures Inv(next) && Moves(s, next, c, r)
  {
    hide DbInv, CallOk, Exclusive, Locked, View, DbStep, ArtifactsInv;
    Unchanged(s.db, r);
    CallsKept(s, next, c, r);
    ArtifactsKept(s, next, c);
  }

  /** A call that performs one transaction on its run and no artifact operation. */
  lemma StoreStep(s: Sys, next: Sys, c: CallId, r: RunId)
    requires Inv(s) && r in s.db.runs
    requires next == s.(calls := next.calls, db := next.db)
    requires DbInv(next.db) && DbStep(s.db, next.db, r) && SameNames(s.db, next.db)
    requires forall d :: d in next.calls && d != c ==> d in s.calls && next.calls[d] == s.calls[d]
    requires forall d :: d in s.calls && d != c ==> d in next.calls
    requires c in s.calls ==> s.calls[c].run == r
    requires c in next.calls && next.calls[c].run == r && CallOk(next.calls[c], next.db)
    requires Locked(View(s.db, r)) && !(c in s.calls && Exclusive(s.calls[c].job)) ==> next.db == s.db
    requires Exclusive(next.calls[c].job) ==>
      (c in s.calls && Exclusive(s.calls[c].job)) || !Locked(View(s.db, r))
    requires HoldingOf(next, c) == HoldingOf(s, c)
    ensures Inv(next) && Moves(s, next, c, r)
  {
    hide CallOk, Exclusive, Locked, ArtifactsInv, SameNames, Consistent, Evolves;
    CallsKept(s, next, c, r);
    ArtifactsKept(s, next, c);
  }

  lemma TheCall(s: Sys, c: CallId)
    requires CallsInv(s) && c in s.calls
    ensures CallOk(s.calls[c], s.db)
  {
    hide CallOk, Exclusive;
  }

  /** A new job for a call whose run has not changed. */
  lemma NewJob(call: Call, job: Job, db: Db)
    requires CallOk(call, db)
    requires JobOk(call.run, job, call.seen, View(db, call.run))
    ensures CallOk(call.(job := job), db)
  {
    hide JobOk, SeenOk, View;
  }

  /** A new job for a call that has just performed a transaction. */
  lemma NewJobAfter(call: Call, job: Job, db: Db, next: Db)
    requires CallOk(call, db) && DbStep(db, next, call.run)
    requires call.run in next.runs && call.run in next.contexts
    requires JobOk(call.run, job, call.seen, View(next, call.run))
    ensures CallOk(call.(job := job), next)
  {
    hide JobOk, SeenOk, View, Evolves;
    SeenStable(call.seen, View(db, call.run), View(next, call.run));
  }

  /** A call that has just started with this job. */
  lemma FirstJob(r: RunId, job: Job, db: Db)
    requires r in db.runs && r in db.contexts && JobOk(r, job, NOTHING_READ, View(db, r))
    ensures CallOk(Call(r, job, NOTHING_READ), db)
  {
    hide JobOk, View;
  }

  lemma RefuseStep(s: Sys, c: CallId, reason: Refusal)
    requires Inv(s) && Mine(s, c) && Holding(s.calls[c].job).None?
    ensures Inv(Refuse(s, c, reason)) && Moves(s, Refuse(s, c, reason), c, s.calls[c].run)
  {
    hide DbInv, ArtifactsInv, CallsInv, CallOk, View;
    TheCall(s, c);
    NewJob(s.calls[c], Finished(Refused(reason)), s.db);
    LocalStep(s, Refuse(s, c, reason), c, s.calls[c].run);
  }

  /** The call moves on by itself. */
  lemma MoveOn(s: Sys, c: CallId, job: Job)
    requires Inv(s) && Mine(s, c)
    requires CallOk(s.calls[c], s.db) ==> JobOk(s.calls[c].run, job, s.calls[c].seen, View(s.db, s.calls[c].run))
    requires Exclusive(job) ==> Exclusive(s.calls[c].job)
    requires Holding(job) == Holding(s.calls[c].job)
    ensures Inv(At(s, c, job)) && Moves(s, At(s, c, job), c, s.calls[c].run)
  {
    hide DbInv, ArtifactsInv, CallsInv, CallOk, View, JobOk, Exclusive, Holding;
    TheCall(s, c);
    NewJob(s.calls[c], job, s.db);
    LocalStep(s, At(s, c, job), c, s.calls[c].run);
  }

  /** The call performs one transaction and moves on. */
  lemma StoreAndMoveOn(s: Sys, c: CallId, next: Db, job: Job)
    requires Inv(s) && Mine(s, c)
    requires DbInv(next) && DbStep(s.db, next, s.calls[c].run) && SameNames(s.db, next)
    requires JobOk(s.calls[c].run, job, s.calls[c].seen, View(next, s.calls[c].run))
    requires Exclusive(s.calls[c].job) || next == s.db || !Locked(View(s.db, s.calls[c].run))
    requires Exclusive(job) ==> Exclusive(s.calls[c].job) || !Locked(View(s.db, s.calls[c].run))
    requires Holding(job) == Holding(s.calls[c].job)
    ensures Inv(At(s.(db := next), c, job)) && Moves(s, At(s.(db := next), c, job), c, s.calls[c].run)
  {
    hide DbInv, ArtifactsInv, CallsInv, CallOk, View, JobOk, Exclusive, Holding, Locked, Evolves, SameNames;
    TheCall(s, c);
    NewJobAfter(s.calls[c], job, s.db, next);
    StoreStep(s, At(s.(db := next), c, job), c, s.calls[c].run);
  }

  /** A call that starts with one transaction. */
  lemma StoreAndBegin(s: Sys, c: CallId, r: RunId, next: Db, job: Job)
    requires Inv(s) && c !in s.calls && r in s.db.runs
    requires DbInv(next) && DbStep(s.db, next, r) && SameNames(s.db, next)
    requires JobOk(r, job, NOTHING_READ, View(next, r))
    requires next == s.db || !Locked(View(s.db, r))
    requires Exclusive(job) ==> !Locked(View(s.db, r))
    requires Holding(job).None?
    ensures Inv(Begin(s.(db := next), c, r, job)) && Moves(s, Begin(s.(db := next), c, r, job), c, r)
  {
    hide DbInv, ArtifactsInv, CallsInv, CallOk, View, JobOk, Exclusive, Holding, Locked, Evolves, SameNames;
    FirstJob(r, job, next);
    StoreStep(s, Begin(s.(db := next), c, r, job), c, r);
  }

  // The analysis endpoint

  lemma CreateRunKeeps(s: Sys, r: RunId, request: RunCreate, at: int)
    requires Inv(s) && request.Valid()
    ensures Inv(Next(s, CreateRun(r, request, at)))
  {
    hide DbInv, CallsInv, ArtifactsInv, Moves, RunCreate.Valid, View;
    var next := Next(s, CreateRun(r, request, at));
    CreateKeeps(s.db, r, ProjectRun(request.direction, Pending, [], at), request);
    CreateKeepsCalls(s, next);
    CreateKeepsArtifacts(s, r, request, at);
  }

  lemma CreateKeepsCalls(s: Sys, next: Sys)
    requires CallsInv(s) && next.calls == s.calls
    requires forall q :: q in s.db.runs && q in s.db.contexts ==>
      q in next.db.runs && q in next.db.contexts && View(next.db, q) == View(s.db, q)
    ensures CallsInv(next)
  {
    hide Exclusive, JobOk, SeenOk, View;
    forall c | c in next.calls
      ensures CallOk(next.calls[c], next.db)
    {
      assert CallOk(s.calls[c], s.db);
    }
  }

  lemma CreateKeepsArtifacts(s: Sys, r: RunId, request: RunCreate, at: int)
    requires ArtifactsInv(s) && request.Valid()
    ensures ArtifactsInv(Next(s, CreateRun(r, request, at)))
  {
    hide Holding, RunCreate.Valid;
  }

  lemma StartKeeps(s: Sys, c: CallId, r: RunId, endpoint: Endpoint)
    requires Inv(s) && c !in s.calls && r in s.db.runs
    ensures Sound(s, Start(c, r, endpoint))
  {
    hide ArtifactsInv, CallsInv, Consistent, View, Locked, OpsInv;
    Unchanged(s.db, r);
    StoreAndBegin(s, c, r, s.db, EndpointJob(endpoint));
  }

  lemma ObservedOk(db: Db, r: RunId, field: Field, seen: Snapshot)
    requires DbInv(db) && r in db.runs && SeenOk(seen, View(db, r))
    ensures
      var now := Observe(db, r, field, seen);
      && now.Some? && SeenOk(now.value, View(db, r))
      && (SeenComplete(seen) && Complete(db.contexts[r]) ==> SeenComplete(now.value))
  {
    hide Consistent, DecodeDraft, DecodeConfirmation, DecodeCritique;
    Layers(r, View(db, r));
  }

  lemma ReadOk(db: Db, call: Call, field: Field)
    requires DbInv(db) && CallOk(call, db)
    requires
      call.job.Analyzing? || call.job.Drafting? || call.job.Composing? || call.job.Reviewing? || call.job.Revising?
    ensures
      var now := Observe(db, call.run, field, call.seen);
      now.Some? && CallOk(call.(seen := now.value), db)
  {
    hide DbInv, SeenOk, SeenComplete, Complete, OpenOp, Observe;
    ObservedOk(db, call.run, field, call.seen);
  }

  lemma ReadFieldKeeps(s: Sys, c: CallId, field: Field)
    requires Inv(s) && Enabled(s, ReadField(c, field))
    ensures Sound(s, ReadField(c, field))
  {
    hide DbInv, ArtifactsInv, CallsInv, Moves, CallOk, Observe;
    TheCall(s, c);
    ReadOk(s.db, s.calls[c], field);
    LocalStep(s, Next(s, ReadField(c, field)), c, s.calls[c].run);
  }

  lemma AnswerStoredKeeps(s: Sys, c: CallId)
    requires Inv(s) && Enabled(s, AnswerStored(c))
    ensures Sound(s, AnswerStored(c))
  {
    hide DbInv, ArtifactsInv, CallsInv, Moves, View, DecodeDraft, DecodeConfirmation, DecodeCritique;
    MoveOn(s, c, Finished(StoredAnswer(s.calls[c].job, s.calls[c].seen).value));
  }

  lemma ClaimRunKeeps(s: Sys, c: CallId)
    requires Inv(s) && Enabled(s, ClaimRun(c))
    ensures Sound(s, ClaimRun(c))
  {
    hide DbInv, ArtifactsInv, CallsInv, Moves, SeenOk, Locked, Evolves, DbStep;
    var r := s.calls[c].run;
    ClaimAnalysisKeeps(s.db, r);
    var out := ClaimAnalysis(s.db, r);
    if out.result.Ok? && out.result.value.Some? {
      StoreAndMoveOn(s, c, out.db, Won);
    } else {
      RefuseStep(s, c, InvalidState);
    }
  }

  lemma AnalyseKeeps(s: Sys, c: CallId, requestError: Option<AnalysisError>, initial: Reply, repair: Reply)
    requires Inv(s) && Enabled(s, Analyse(c, requestError, initial, repair))
    ensures Sound(s, Analyse(c, requestError, initial, repair))
  {
    hide DbInv, ArtifactsInv, CallsInv, Moves, View, AnalysisResult, Admissible, AnalysisFailureCode;
    var outcome := AnalysisResult(s.calls[c].seen.request.value, requestError, initial, repair);
    AnalysisExactly(s.calls[c].seen.request.value, requestError, initial, repair);
    match outcome {
      case Ok(done) => MoveOn(s, c, Analyzed(done.analysis, done.repairAttempted));
      case Err(error) => MoveOn(s, c, FailureDecided(AnalysisFailureStatus(error), AnalysisFailureCode(error)));
    }
  }

  lemma AssetRefusedKeeps(s: Sys, c: CallId, closed: bool)
    requires Inv(s) && Enabled(s, AssetRefused(c, closed))
    ensures Sound(s, AssetRefused(c, closed))
  {
    hide DbInv, ArtifactsInv, CallsInv, Moves, View;
    MoveOn(s, c, FailureDecided(Blocked, if closed then "asset_lifecycle_closed" else "asset_validation_failed"));
  }

  lemma ReadForFailureKeeps(s: Sys, c: CallId)
    requires Inv(s) && Enabled(s, ReadForFailure(c))
    ensures Sound(s, ReadForFailure(c))
  {
    hide DbInv, ArtifactsInv, CallsInv, Moves, ProjectRun.Valid, SeenOk;
    var call := s.calls[c];
    var updated := CheckFailure(s.db.runs[call.run], call.job.status, call.job.code);
    if updated.Err? {
      RefuseStep(s, c, Store(updated.error));
    } else {
      MoveOn(s, c, FailureRead(updated.value));
    }
  }

  lemma ReadForAnalysisKeeps(s: Sys, c: CallId)
    requires Inv(s) && Enabled(s, ReadForAnalysis(c))
    ensures Sound(s, ReadForAnalysis(c))
  {
    hide DbInv, ArtifactsInv, CallsInv, Moves, Admissible, SeenOk;
    var call := s.calls[c];
    var updated := CheckAnalysis(s.db.runs[call.run], s.db.contexts[call.run].request, call.job.analysis);
    if updated.Err? {
      RefuseStep(s, c, Store(updated.error));
    } else {
      MoveOn(s, c, AnalysisChecked(call.job.analysis, call.job.repaired, updated.value));
    }
  }

  lemma WriteFailureKeeps(s: Sys, c: CallId)
    requires Inv(s) && Enabled(s, WriteFailure(c))
    ensures Sound(s, WriteFailure(c))
  {
    hide DbInv, ArtifactsInv, CallsInv, Moves, SeenOk, DbStep;
    TheCall(s, c);
    var r := s.calls[c].run;
    StoreFailureKeeps(s.db, r, s.calls[c].job.failed);
    StoreAndMoveOn(s, c, StoreFailure(s.db, r, s.calls[c].job.failed).db, Finished(FailureRecorded));
  }

  lemma WriteAnalysisKeeps(s: Sys, c: CallId)
    requires Inv(s) && Enabled(s, WriteAnalysis(c))
    ensures Sound(s, WriteAnalysis(c))
  {
    hide DbInv, ArtifactsInv, CallsInv, Moves, SeenOk, DbStep, Admissible;
    TheCall(s, c);
    var r := s.calls[c].run;
    var job := s.calls[c].job;
    StoreAnalysisKeeps(s.db, r, job.updated, job.analysis, job.repaired);
    StoreAndMoveOn(s, c, StoreAnalysis(s.db, r, job.updated, job.analysis, job.repaired).db,
                   Finished(AnalysisAnswer(job.analysis)));
  }

  // Confirmation, draft, critic

  lemma ConfirmCallKeeps(s: Sys, c: CallId, r: RunId, proposed: BrandLock, at: int)
    requires Inv(s) && Enabled(s, Action.Confirm(c, r, proposed, at))
    ensures Sound(s, Action.Confirm(c, r, proposed, at))
  {
    hide DbInv, ArtifactsInv, CallsInv, Moves, DbStep, Locked, ConfirmBrandLock, BrandLock.Valid, Consistent;
    hide DecodeConfirmation;
    ConfirmKeeps(s.db, r, proposed, at);
    RunKnown(s, r);
    var out := ConfirmBrandLock(s.db, r, proposed, at);
    match out.result {
      case Ok(record) => StoreAndBegin(s, c, r, out.db, Finished(ConfirmationAnswer(record)));
      case Err(error) => StoreAndBegin(s, c, r, s.db, Finished(Refused(Store(error))));
    }
  }

  lemma RunKnown(s: Sys, r: RunId)
    requires Inv(s) && r in s.db.runs
    ensures r in s.db.contexts && s.db.contexts.Keys == s.db.runs.Keys && Consistent(r, View(s.db, r))
    ensures DbStep(s.db, s.db, r)
  {
    hide Consistent, OpsInv, CallsInv, ArtifactsInv;
    Unchanged(s.db, r);
  }

  /** A run that has been analysed carries no warning codes of its own. */
  lemma AnalysedUnwarned(r: RunId, v: RunView)
    requires Consistent(r, v) && v.ctx.analysis.Some?
    ensures v.run.warningCodes == []
  {
    hide Chain, VersionTwo;
  }

  /** What a call has read determines the stored artifacts it works from. */
  lemma SeenFacts(r: RunId, seen: Snapshot, v: RunView)
    requires Consistent(r, v) && SeenOk(seen, v)
    ensures Found(seen.confirmation).Some? ==> v.ctx.confirmedLock == Some(Found(seen.confirmation).value.brandLock)
    ensures Found(seen.draft).Some? ==> DecodeDraft(v.ctx).Present? && v.ctx.draftGeneratedAt.Some?
    ensures seen.run.Some? && v.ctx.analysis.Some? ==> seen.run.value.warningCodes == []
    ensures Paired(v.ctx) && Layered(v.ctx) && Counters(v) && Chain(r, v)
  {
    hide Chain, Ledger, VersionTwo;
    Layers(r, v);
    if v.ctx.analysis.Some? {
      AnalysedUnwarned(r, v);
    }
  }

  lemma WriteDraftKeeps(s: Sys, c: CallId, at: int)
    requires Inv(s) && Enabled(s, WriteDraft(c, at))
    ensures Sound(s, WriteDraft(c, at))
  {
    hide DbInv, ArtifactsInv, CallsInv, Moves, DbStep, Locked, Generate, Chain, Consistent, Evolves;
    TheCall(s, c);
    var r, seen := s.calls[c].run, s.calls[c].seen;
    RunKnown(s, r);
    SeenFacts(r, seen, View(s.db, r));
    if Found(seen.analysis).None? || Found(seen.confirmation).None? || seen.run.value.status != InProgress {
      RefuseStep(s, c, InvalidState);
    } else {
      var art :=
        Generate(Found(seen.analysis).value, Found(seen.confirmation).value.brandLock, seen.run.value.direction);
      if art.Err? {
        RefuseStep(s, c, OutputRefused);
      } else {
        var draft := Draft(art.value.brief, art.value.adCopy, art.value.factReferences, art.value.ruleIds, at);
        var out := SaveDraft(s.db, r, draft);
        SaveDraftKeeps(s.db, r, draft);
        match out.result {
          case Ok(saved) => StoreAndMoveOn(s, c, out.db, Finished(DraftAnswer(saved)));
          case Err(error) => RefuseStep(s, c, Store(error));
        }
      }
    }
  }

  /** The Critic works on the stored artifacts, whenever it has read them. */
  lemma ReviewInputs(r: RunId, seen: Snapshot, v: RunView, at: int)
    requires Consistent(r, v) && SeenOk(seen, v) && seen.run.Some?
    requires Found(seen.analysis).Some? && Found(seen.confirmation).Some? && Found(seen.draft).Some?
    requires Found(seen.composition).Some?
    ensures
      var c := v.ctx;
      var report := Review(CriticRequest(Found(seen.analysis).value, Found(seen.confirmation).value.brandLock,
                                         Found(seen.draft).value, Found(seen.composition).value,
                                         seen.run.value.warningCodes), at);
      report.Some? ==>
        && Complete(c.(critique := report, reviewedAt := Some(report.value.reviewedAt)))
        && ReviewedAs(c.analysis.value, c.confirmedLock.value, DecodeDraft(c).value, c.composition.value, report.value)
  {
    hide Consistent, Review, Chain;
    SeenFacts(r, seen, v);
    var request := CriticRequest(Found(seen.analysis).value, Found(seen.confirmation).value.brandLock,
                                 Found(seen.draft).value, Found(seen.composition).value, seen.run.value.warningCodes);
    if Review(request, at).Some? {
      ReviewTime(request, at);
    }
  }

  lemma WriteCritiqueKeeps(s: Sys, c: CallId, at: int)
    requires Inv(s) && Enabled(s, WriteCritique(c, at))
    ensures Sound(s, WriteCritique(c, at))
  {
    hide DbInv, ArtifactsInv, CallsInv, Moves, DbStep, Locked, Consistent, Review, ReviewedAs, SeenOk, Complete;
    TheCall(s, c);
    var r, seen := s.calls[c].run, s.calls[c].seen;
    RunKnown(s, r);
    if Found(seen.analysis).None? || Found(seen.confirmation).None? || Found(seen.draft).None?
       || Found(seen.composition).None? {
      RefuseStep(s, c, InvalidState);
    } else {
      var report := Review(CriticRequest(Found(seen.analysis).value, Found(seen.confirmation).value.brandLock,
                                         Found(seen.draft).value, Found(seen.composition).value,
                                         seen.run.value.warningCodes), at);
      ReviewInputs(r, seen, View(s.db, r), at);
      if report.None? {
        RefuseStep(s, c, OutputRefused);
      } else {
        var out := SaveCritique(s.db, r, report.value);
        SaveCritiqueKeeps(s.db, r, report.value);
        match out.result {
          case Ok(saved) => StoreAndMoveOn(s, c, out.db, Finished(CritiqueAnswer(saved)));
          case Err(error) => RefuseStep(s, c, Store(error));
        }
      }
    }
  }

  // Artifacts of the first version

  lemma SavedArtifacts(s: Sys, c: CallId, rendering: Rendering, job: Job)
    requires ArtifactsInv(s) && c in s.calls
    requires rendering.artifact !in s.issued
    requires Holding(s.calls[c].job).None? && Holding(job) == Some(rendering.artifact)
    ensures ArtifactsInv(At(Saved(s, rendering, HeldBy(c)), c, job))
  {
    hide Holding;
  }

  lemma DeletedArtifacts(s: Sys, c: CallId, job: Job)
    requires ArtifactsInv(s) && c in s.calls
    requires Holding(s.calls[c].job).Some? && Holding(job).None?
    ensures ArtifactsInv(At(Deleted(s, Holding(s.calls[c].job).value), c, job))
  {
    hide Holding;
  }

  /** A call that saves an artifact and moves on. */
  lemma SaveAndMoveOn(s: Sys, c: CallId, rendering: Rendering, job: Job)
    requires Inv(s) && Mine(s, c) && rendering.artifact !in s.issued
    requires CallOk(s.calls[c], s.db) ==> JobOk(s.calls[c].run, job, s.calls[c].seen, View(s.db, s.calls[c].run))
    requires Exclusive(job) ==> Exclusive(s.calls[c].job)
    requires Holding(s.calls[c].job).None? && Holding(job) == Some(rendering.artifact)
    ensures Inv(At(Saved(s, rendering, HeldBy(c)), c, job))
    ensures Moves(s, At(Saved(s, rendering, HeldBy(c)), c, job), c, s.calls[c].run)
  {
    hide DbInv, ArtifactsInv, CallsInv, Moves, CallOk, View, JobOk, Exclusive, Holding, DbStep, Locked;
    TheCall(s, c);
    NewJob(s.calls[c], job, s.db);
    SavedArtifacts(s, c, rendering, job);
    Unchanged(s.db, s.calls[c].run);
    CallsKept(s, At(Saved(s, rendering, HeldBy(c)), c, job), c, s.calls[c].run);
  }

  /** A call that deletes the artifact it holds and moves on. */
  lemma DeleteAndMoveOn(s: Sys, c: CallId, job: Job)
    requires Inv(s) && Mine(s, c)
    requires CallOk(s.calls[c], s.db) ==> JobOk(s.calls[c].run, job, s.calls[c].seen, View(s.db, s.calls[c].run))
    requires Exclusive(job) ==> Exclusive(s.calls[c].job)
    requires Holding(s.calls[c].job).Some? && Holding(job).None?
    ensures Inv(At(Deleted(s, Holding(s.calls[c].job).value), c, job))
    ensures Moves(s, At(Deleted(s, Holding(s.calls[c].job).value), c, job), c, s.calls[c].run)
  {
    hide DbInv, ArtifactsInv, CallsInv, Moves, CallOk, View, JobOk, Exclusive, Holding, DbStep, Locked;
    TheCall(s, c);
    NewJob(s.calls[c], job, s.db);
    DeletedArtifacts(s, c, job);
    Unchanged(s.db, s.calls[c].run);
    CallsKept(s, At(Deleted(s, Holding(s.calls[c].job).value), c, job), c, s.calls[c].run);
  }

  /** A rendering for the lock of a run shows that lock's assets and passes the contract. */
  lemma RenderedUnder(r: RunId, lock: BrandLock, adCopy: AdCopy, rendering: Rendering)
    requires rendering.Possible()
    ensures
      var layers := RenderLayers(lock, adCopy, rendering);
      layers.Ok? ==> ComposedUnder(r, lock, CompositionOf(r, rendering, layers.value))
  {
    hide SourceOf, Layer.Valid;
    if |lock.productUiAssetIds| > 0 {
      ComposedFromLock(lock, adCopy, RegisteredAsset(lock.logoAssetId, rendering.logoKind),
                       RegisteredAsset(lock.productUiAssetIds[0], rendering.productUiKind),
                       rendering.logoSize, rendering.productUiSize);
    }
  }

  lemma RenderFirstKeeps(s: Sys, c: CallId, rendering: Rendering)
    requires Inv(s) && Enabled(s, RenderFirst(c, rendering))
    ensures Sound(s, RenderFirst(c, rendering))
  {
    hide DbInv, ArtifactsInv, CallsInv, Moves, Chain, Consistent, ComposeLayers, RenderLayers, SourceOf, DbStep;
    hide Composition.Valid;
    TheCall(s, c);
    var r, seen := s.calls[c].run, s.calls[c].seen;
    RunKnown(s, r);
    SeenFacts(r, seen, View(s.db, r));
    if seen.run.value.status != InProgress || Found(seen.analysis).None?
       || !seen.request.value.executionMode.Fixture?
       || Found(seen.confirmation).None? || Found(seen.draft).None? {
      RefuseStep(s, c, InvalidState);
    } else {
      var lock := Found(seen.confirmation).value.brandLock;
      var layers := RenderLayers(lock, Found(seen.draft).value.adCopy, rendering);
      RenderedUnder(r, lock, Found(seen.draft).value.adCopy, rendering);
      if layers.Err? {
        RefuseStep(s, c, OutputRefused);
      } else {
        SaveAndMoveOn(s, c, rendering, Rendered(CompositionOf(r, rendering, layers.value)));
      }
    }
  }

  lemma HandedOver(s: Sys, c: CallId, composition: Composition, next: Db)
    requires ArtifactsInv(s) && Mine(s, c)
    requires s.calls[c].job == Rendered(composition)
    requires next.revisions == s.db.revisions && next.contexts.Keys == s.db.contexts.Keys
    requires s.db.contexts[s.calls[c].run].composition.None?
    requires next.contexts[s.calls[c].run].composition == Some(composition)
    requires forall q :: q in s.db.contexts && q != s.calls[c].run ==> next.contexts[q] == s.db.contexts[q]
    ensures
      ArtifactsInv(At(s.(db := next, holders := s.holders[composition.artifactId := FirstVersionOf(s.calls[c].run)]), c,
                      Stored(composition)))
  {
    assert Holding(s.calls[c].job) == Some(composition.artifactId) && Holding(Stored(composition)).None?;
    hide Holding;
  }

  /** What a call that holds a rendered composition knows. */
  lemma RenderedFacts(s: Sys, c: CallId)
    requires Inv(s) && Mine(s, c) && s.calls[c].job.Rendered?
    ensures s.db.contexts[s.calls[c].run].confirmedLock.Some?
    ensures ComposedUnder(s.calls[c].run, s.db.contexts[s.calls[c].run].confirmedLock.value, s.calls[c].job.composition)
  {
    hide DbInv, ArtifactsInv, CallsInv, Moves, ComposedUnder, SeenOk;
    TheCall(s, c);
  }

  /** The call hands its artifact over to the row that now names it. */
  lemma HandOver(s: Sys, c: CallId, next: Db)
    requires Inv(s) && Mine(s, c) && s.calls[c].job.Rendered?
    requires DbInv(next) && DbStep(s.db, next, s.calls[c].run)
    requires !Locked(View(s.db, s.calls[c].run))
    requires next.revisions == s.db.revisions
    requires s.db.contexts[s.calls[c].run].composition.None?
    requires next.contexts[s.calls[c].run].composition == Some(s.calls[c].job.composition)
    requires forall q :: q in s.db.contexts && q != s.calls[c].run ==> next.contexts[q] == s.db.contexts[q]
    ensures
      var composition := s.calls[c].job.composition;
      var holders := s.holders[composition.artifactId := FirstVersionOf(s.calls[c].run)];
      var after := At(s.(db := next, holders := holders), c, Stored(composition));
      Inv(after) && Moves(s, after, c, s.calls[c].run)
  {
    hide DbInv, ArtifactsInv, CallsInv, Moves, CallOk, SeenOk, Evolves, Locked, Find;
    var r, composition := s.calls[c].run, s.calls[c].job.composition;
    TheCall(s, c);
    NewJobAfter(s.calls[c], Stored(composition), s.db, next);
    HandedOver(s, c, composition, next);
    var holders := s.holders[composition.artifactId := FirstVersionOf(r)];
    CallsKept(s, At(s.(db := next, holders := holders), c, Stored(composition)), c, r);
  }

  lemma WriteCompositionKeeps(s: Sys, c: CallId)
    requires Inv(s) && Enabled(s, WriteComposition(c))
    ensures Sound(s, WriteComposition(c))
  {
    hide DbInv, ArtifactsInv, CallsInv, Moves, CallOk, DbStep, Consistent, ComposedUnder, SeenOk, Locked, Find;
    hide SaveComposition;
    var r := s.calls[c].run;
    var composition := s.calls[c].job.composition;
    RunKnown(s, r);
    RenderedFacts(s, c);
    SaveCompositionKeeps(s.db, r, composition);
    FreshComposition(s, c);
    var out := SaveComposition(s.db, r, composition);
    match out.result {
      case Ok(saved) => HandOver(s, c, out.db);
      case Err(error) => MoveOn(s, c, Dropping(composition.artifactId, error.CompositionImmutable?));
    }
  }

  /** The composition a call holds is not the stored one, because their artifacts differ. */
  lemma FreshComposition(s: Sys, c: CallId)
    requires ArtifactsInv(s) && Mine(s, c) && s.calls[c].job.Rendered?
    ensures s.db.contexts[s.calls[c].run].composition != Some(s.calls[c].job.composition)
  {
  }

  lemma ConcludeKeeps(s: Sys, c: CallId)
    requires Inv(s) && Enabled(s, Conclude(c))
    ensures Sound(s, Conclude(c))
  {
    hide DbInv, ArtifactsInv, CallsInv, Moves, View, SeenOk;
    match s.calls[c].job {
      case Stored(composition) => MoveOn(s, c, Finished(CompositionAnswer(composition)));
      case Committed(_, _, response) => MoveOn(s, c, Finished(RevisionAnswer(response)));
    }
  }

  /** An artifact that a row names can be deleted, and is then marked as retracted. */
  lemma RetractedArtifacts(s: Sys, c: CallId, artifact: ArtifactId, job: Job)
    requires ArtifactsInv(s) && c in s.calls && Holding(s.calls[c].job).None? && Holding(job).None?
    requires artifact in s.holders && (s.holders[artifact].FirstVersionOf? || s.holders[artifact].SecondVersionOf?)
    ensures ArtifactsInv(At(Retracted(s, artifact), c, job))
  {
    hide Holding;
  }

  /** What a call that undoes a stored version is about to delete. */
  lemma UndoingFacts(s: Sys, c: CallId)
    requires Inv(s) && Mine(s, c) && s.calls[c].job.Undoing?
    ensures
      var artifact, r := s.calls[c].job.artifact, s.calls[c].run;
      && artifact in s.holders
      && s.holders[artifact] == if s.calls[c].job.late.None? then FirstVersionOf(r) else SecondVersionOf(r)
  {
    hide DbInv, CallsInv, Moves, SeenOk, Find;
    TheCall(s, c);
  }

  lemma HoldsNothing(job: Job)
    requires job.Undoing?
    ensures Holding(job).None? && !Exclusive(job)
  {
  }

  /** A call that deletes a named artifact and moves on. */
  lemma RetractAndMoveOn(s: Sys, c: CallId, artifact: ArtifactId, job: Job)
    requires Inv(s) && Mine(s, c) && s.calls[c].job.Undoing? && s.calls[c].job.artifact == artifact
    requires CallOk(s.calls[c], s.db) ==> JobOk(s.calls[c].run, job, s.calls[c].seen, View(s.db, s.calls[c].run))
    requires !Exclusive(job) && Holding(job).None?
    ensures Inv(At(Retracted(s, artifact), c, job))
    ensures Moves(s, At(Retracted(s, artifact), c, job), c, s.calls[c].run)
  {
    hide DbInv, ArtifactsInv, CallsInv, Moves, CallOk, View, JobOk, Exclusive, Holding, DbStep, Locked;
    TheCall(s, c);
    NewJob(s.calls[c], job, s.db);
    HoldsNothing(s.calls[c].job);
    UndoingFacts(s, c);
    RetractedArtifacts(s, c, artifact, job);
    Unchanged(s.db, s.calls[c].run);
    CallsKept(s, At(Retracted(s, artifact), c, job), c, s.calls[c].run);
  }

  lemma DropArtifactKeeps(s: Sys, c: CallId)
    requires Inv(s) && Enabled(s, DropArtifact(c))
    ensures Sound(s, DropArtifact(c))
  {
    hide DbInv, ArtifactsInv, CallsInv, Moves, View, SeenOk;
    match s.calls[c].job {
      case Dropping(artifact, replay) =>
        DeleteAndMoveOn(s, c, if replay then Replaying else Finished(Refused(PersistenceFailed)));
      case Cleaning(op, artifact, technical) =>
        DeleteAndMoveOn(s, c, if technical then Failing(op) else Finished(Refused(FailureCode(op.kind.Retry?))));
      case Undoing(artifact, late, technical) =>
        RetractAndMoveOn(s, c, artifact,
                         if late.None? then Finished(Refused(PersistenceFailed))
                         else if technical then LateFailing(late.value)
                         else Finished(Refused(FailureCode(late.value.kind.Retry?))));
    }
  }

  lemma LostArtifacts(s: Sys, c: CallId)
    requires ArtifactsInv(s) && c in s.calls && Deleting(s.calls[c].job)
    ensures ArtifactsInv(DropFailsStep(s, c))
  {
    assert Holding(Finished(Refused(Unhandled))).None?;
    hide Holding;
  }

  lemma DropFailsKeeps(s: Sys, c: CallId)
    requires Inv(s) && Enabled(s, DropFails(c))
    ensures Sound(s, DropFails(c))
  {
    hide DbInv, ArtifactsInv, CallsInv, Moves, CallOk, View, Holding, DbStep, Locked;
    TheCall(s, c);
    NewJob(s.calls[c], Finished(Refused(Unhandled)), s.db);
    LostArtifacts(s, c);
    Unchanged(s.db, s.calls[c].run);
    CallsKept(s, DropFailsStep(s, c), c, s.calls[c].run);
  }

  lemma ReplayCompositionKeeps(s: Sys, c: CallId)
    requires Inv(s) && Enabled(s, ReplayComposition(c))
    ensures Sound(s, ReplayComposition(c))
  {
    hide DbInv, ArtifactsInv, CallsInv, Moves, SeenOk;
    var stored := s.db.contexts[s.calls[c].run].composition;
    if stored.Some? {
      MoveOn(s, c, Finished(CompositionAnswer(stored.value)));
    } else {
      RefuseStep(s, c, PersistenceFailed);
    }
  }

  // The revision

  /** A succeeded operation stores the answer that the tables determine. */
  lemma SucceededAnswer(r: RunId, v: RunView, op: Operation)
    requires Consistent(r, v) && op.state.OpSucceeded? && (v.feedback == Some(op) || v.retry == Some(op))
    ensures op.publicResponse.Some? && AnswerOk(r, RevisionAnswer(op.publicResponse.value), v)
  {
    hide Chain, VersionTwo;
  }

  /** An operation exists only once version 1 is complete and accepted. */
  lemma OperationFacts(r: RunId, v: RunView)
    requires Consistent(r, v) && v.feedback.Some?
    ensures Complete(v.ctx) && !v.ctx.critique.value.status.Reject?
    ensures v.feedback.value.feedbackDigest.Some? && (v.retry.Some? ==> v.retry.value.feedbackDigest.Some?)
    ensures v.ctx.technicalAttemptCount == if v.retry.Some? then 1 else 0
  {
    hide Chain, VersionTwo;
  }

  lemma RetryNeedsFeedback(r: RunId, v: RunView)
    requires Consistent(r, v) && v.retry.Some?
    ensures v.feedback.Some?
  {
    hide Chain, VersionTwo;
  }

  /** The job of a call that has just claimed or replayed an operation. */
  lemma ClaimJobOk(r: RunId, v: RunView, op: Operation)
    requires Consistent(r, v)
    requires if op.kind.Feedback? then v.feedback == Some(op) else v.retry == Some(op)
    requires op.state.OpSucceeded? || (OpenOp(v, op) && (op.kind.Retry? ==> Retryable(op)))
    ensures JobOk(r, ClaimJob(op), NOTHING_READ, v)
    ensures Exclusive(ClaimJob(op)) <==> !op.state.OpSucceeded?
    ensures Holding(ClaimJob(op)).None?
  {
    hide Consistent, AnswerOk, Complete;
    if op.state.OpSucceeded? {
      SucceededAnswer(r, v, op);
    } else {
      if v.retry.Some? {
        RetryNeedsFeedback(r, v);
      }
      OperationFacts(r, v);
    }
  }

  lemma SubmitFeedbackKeeps(s: Sys, c: CallId, r: RunId, key: string, fingerprint: string, changes: seq<RevisionChange>,
                           digest: string)
    requires Inv(s) && Enabled(s, SubmitFeedback(c, r, key, fingerprint, changes, digest))
    ensures Sound(s, SubmitFeedback(c, r, key, fingerprint, changes, digest))
  {
    hide DbInv, ArtifactsInv, CallsInv, Moves, Locked, ClaimFeedback, Consistent, ClaimJob, DbStep, JobOk, Exclusive;
    RunKnown(s, r);
    ClaimFeedbackKeeps(s.db, r, key, fingerprint, changes, digest);
    var out := ClaimFeedback(s.db, r, key, fingerprint, changes, digest);
    match out.result {
      case Ok(op) =>
        ViewConsistent(s.db, out.db, r);
        ClaimJobOk(r, View(out.db, r), op);
        StoreAndBegin(s, c, r, out.db, ClaimJob(op));
      case Err(error) =>
        RefusedBegin(s, c, r, Store(error));
    }
  }

  lemma ViewConsistent(db: Db, next: Db, r: RunId)
    requires DbInv(next) && DbStep(db, next, r) && r in db.runs
    ensures r in next.runs && r in next.contexts && Consistent(r, View(next, r))
  {
    hide Consistent, OpsInv, Evolves;
  }

  lemma RefusedBegin(s: Sys, c: CallId, r: RunId, reason: Refusal)
    requires Inv(s) && c !in s.calls && r in s.db.runs
    ensures Inv(Begin(s, c, r, Finished(Refused(reason)))) && Moves(s, Begin(s, c, r, Finished(Refused(reason))), c, r)
  {
    hide DbInv, ArtifactsInv, CallsInv, Moves, Locked, DbStep, Consistent;
    RunKnown(s, r);
    StoreAndBegin(s, c, r, s.db, Finished(Refused(reason)));
  }

  lemma SubmitRetryKeeps(s: Sys, c: CallId, r: RunId, key: string, fingerprint: string)
    requires Inv(s) && Enabled(s, SubmitRetry(c, r, key, fingerprint))
    ensures Sound(s, SubmitRetry(c, r, key, fingerprint))
  {
    hide DbInv, ArtifactsInv, CallsInv, Moves, Locked, ClaimRetry, Consistent, ClaimJob, DbStep, JobOk, Exclusive;
    RunKnown(s, r);
    ClaimRetryKeeps(s.db, r, key, fingerprint);
    var out := ClaimRetry(s.db, r, key, fingerprint);
    match out.result {
      case Ok(op) =>
        ViewConsistent(s.db, out.db, r);
        ClaimJobOk(r, View(out.db, r), op);
        StoreAndBegin(s, c, r, out.db, ClaimJob(op));
      case Err(error) =>
        RefusedBegin(s, c, r, Store(error));
    }
  }

  /** The re-check of the stored retry decision never fails once the retry has been claimed. */
  lemma RecheckAlwaysPasses(s: Sys, c: CallId)
    requires Inv(s) && Mine(s, c) && s.calls[c].job.Rechecking?
    ensures RecheckPasses(s.db, s.calls[c].run, s.calls[c].job.op)
  {
    hide DbInv, ArtifactsInv, CallsInv, Moves, Consistent, DbStep, SeenOk;
    var r := s.calls[c].run;
    TheCall(s, c);
    RunKnown(s, r);
    RetryNeedsFeedback(r, View(s.db, r));
    OperationFacts(r, View(s.db, r));
  }

  lemma RecheckKeeps(s: Sys, c: CallId)
    requires Inv(s) && Enabled(s, Recheck(c))
    ensures Sound(s, Recheck(c))
  {
    hide DbInv, ArtifactsInv, CallsInv, Moves, Consistent, DbStep, SeenOk, RecheckPasses;
    var r := s.calls[c].run;
    TheCall(s, c);
    RunKnown(s, r);
    RetryNeedsFeedback(r, View(s.db, r));
    OperationFacts(r, View(s.db, r));
    RecheckAlwaysPasses(s, c);
    MoveOn(s, c, Revising(s.calls[c].job.op));
  }

  /** The seven reads of _execute, made at different times, show the run as it is now, and it may be revised. */
  lemma ReadsAreOneSnapshot(s: Sys, c: CallId)
    requires Inv(s) && Mine(s, c) && s.calls[c].job.Revising? && ReadAll(s.calls[c].seen)
    ensures
      var seen, v := s.calls[c].seen, View(s.db, s.calls[c].run);
      && Complete(v.ctx)
      && seen == Snapshot(Some(v.run.(status := seen.run.value.status)), Some(v.ctx.request), Read(v.ctx.analysis),
                          Read(Some(DecodeConfirmation(v.ctx).value)), Read(Some(DecodeDraft(v.ctx).value)),
                          Read(v.ctx.composition), Read(Some(DecodeCritique(v.ctx).value)))
      && v.run.warningCodes == []
      && Revisable(seen)
  {
    hide DbInv, ArtifactsInv, CallsInv, Moves, Consistent, DbStep;
    var r := s.calls[c].run;
    var v := View(s.db, r);
    TheCall(s, c);
    RunKnown(s, r);
    OpenIsFeedbackOrRetry(r, v, s.calls[c].job.op);
    OperationFacts(r, v);
    AnalysedUnwarned(r, v);
    RequestInFixtureMode(r, v);
  }

  lemma RequestInFixtureMode(r: RunId, v: RunView)
    requires Consistent(r, v)
    ensures v.ctx.request.executionMode.Fixture?
  {
    hide Ledger;
  }

  lemma OpenIsFeedbackOrRetry(r: RunId, v: RunView, op: Operation)
    requires Consistent(r, v) && OpenOp(v, op)
    ensures v.feedback.Some? && op.feedbackDigest.Some?
  {
    hide Chain, VersionTwo;
  }

  /** What the stored artifacts of a complete run say about a second version. */
  lemma SecondVersionPossible(r: RunId, v: RunView, changes: seq<RevisionChange>)
    requires Consistent(r, v) && Complete(v.ctx)
    ensures ReviseDraft(v.run.direction, DecodeDraft(v.ctx).value, changes).Some?
  {
    hide Ledger, ComposedUnder, ReviewedAs, Admissible, ValidateConfirmation;
    Layers(r, v);
    var c := v.ctx;
    GenerateKeepsLock(c.analysis.value, c.confirmedLock.value, v.run.direction);
    ReviseKeepsLock(v.run.direction, DecodeDraft(c).value, changes);
  }

  /** The review of a second version stays within the limits that the first review kept. */
  lemma SecondReviewSucceeds(r: RunId, v: RunView, changes: seq<RevisionChange>, draft: Draft, composition: Composition,
                             at: int)
    requires Paired(v.ctx) && Layered(v.ctx) && Chain(r, v) && Complete(v.ctx)
    requires RevisedFrom(v.run.direction, DecodeDraft(v.ctx).value, changes, draft)
    requires ComposedUnder(r, v.ctx.confirmedLock.value, composition)
    ensures
      var second := CriticRequest(v.ctx.analysis.value, v.ctx.confirmedLock.value, draft, composition, []);
      Review(second, at).Some?
  {
    hide Issues, Verdict, Review, ReviseDraft, Warnings, LockPreserved, FactsSupported, SourceOf, Generate;
    hide ValidateConfirmation, Admissible;
    var c := v.ctx;
    var first := CriticRequest(c.analysis.value, c.confirmedLock.value, DecodeDraft(c).value, c.composition.value, []);
    RevisionNeverWorsens(first, v.run.direction, changes, draft, composition, at);
    ReviewAtAnyTime(first, c.critique.value.reviewedAt, at);
  }

  lemma ReviewAtAnyTime(request: CriticRequest, at: int, later: int)
    requires Review(request, at).Some?
    ensures Review(request, later).Some?
  {
    hide Issues, Verdict, Warnings, LockPreserved, NeedsHuman;
  }

  lemma ReviewTime(request: CriticRequest, at: int)
    requires Review(request, at).Some?
    ensures Review(request, at).value.reviewedAt == at
  {
    hide Issues, Verdict, Warnings, LockPreserved, NeedsHuman;
  }

  /** A rendered second version is a version two of the stored run. */
  lemma RenderedVersionTwo(r: RunId, v: RunView, op: Operation, rendering: Rendering, reviewedAt: int)
    requires Consistent(r, v) && Complete(v.ctx) && op.feedbackDigest.Some? && OpenOp(v, op)
    requires rendering.Possible() && rendering.artifact != v.ctx.composition.value.artifactId
    ensures
      var revised := ReviseDraft(v.run.direction, DecodeDraft(v.ctx).value, op.requestedChanges);
      && revised.Some?
      && var art := revised.value;
         var lock := v.ctx.confirmedLock.value;
         var layers := RenderLayers(lock, art.adCopy, rendering);
         layers.Ok? ==>
           var composition := CompositionOf(r, rendering, layers.value);
           var draft := Draft(art.brief, art.adCopy, art.factReferences, art.ruleIds, rendering.at);
           var report := Review(CriticRequest(v.ctx.analysis.value, lock, draft, composition, []), reviewedAt);
           && composition.Valid() && report.Some?
           && Deliverable(r, v, op, RevisionRecordOf(r, op, draft, composition, report.value))
  {
    hide Ledger, Generate, ReviseDraft, Review, RenderLayers, Chain, SourceOf, Layer.Valid;
    Layers(r, v);
    SecondVersionPossible(r, v, op.requestedChanges);
    var art := ReviseDraft(v.run.direction, DecodeDraft(v.ctx).value, op.requestedChanges).value;
    var lock := v.ctx.confirmedLock.value;
    var layers := RenderLayers(lock, art.adCopy, rendering);
    if layers.Ok? {
      RenderedUnder(r, lock, art.adCopy, rendering);
      var composition := CompositionOf(r, rendering, layers.value);
      var draft := Draft(art.brief, art.adCopy, art.factReferences, art.ruleIds, rendering.at);
      SecondReviewSucceeds(r, v, op.requestedChanges, draft, composition, reviewedAt);
      ReviewTime(CriticRequest(v.ctx.analysis.value, lock, draft, composition, []), reviewedAt);
    }
  }

  /** A new artifact id is not the one of the stored first version. */
  lemma FreshArtifact(s: Sys, r: RunId, artifact: ArtifactId)
    requires ArtifactsInv(s) && artifact !in s.issued && r in s.db.contexts && s.db.contexts[r].composition.Some?
    ensures s.db.contexts[r].composition.value.artifactId != artifact
  {
  }

  lemma RenderSecondKeeps(s: Sys, c: CallId, rendering: Rendering, reviewedAt: int)
    requires Inv(s) && Enabled(s, RenderSecond(c, rendering, reviewedAt))
    ensures Sound(s, RenderSecond(c, rendering, reviewedAt))
  {
    hide DbInv, ArtifactsInv, CallsInv, Moves, CallOk, Consistent, DbStep, Revisable, ReviseDraft, RenderLayers, Review;
    hide Deliverable, Composition.Valid, OpenOp;
    var r, op := s.calls[c].run, s.calls[c].job.op;
    var v := View(s.db, r);
    TheCall(s, c);
    RunKnown(s, r);
    RevisingFacts(s, c);
    ReadsAreOneSnapshot(s, c);
    FreshArtifact(s, r, rendering.artifact);
    RenderedVersionTwo(r, v, op, rendering, reviewedAt);
    var art := ReviseDraft(v.run.direction, DecodeDraft(v.ctx).value, op.requestedChanges).value;
    var layers := RenderLayers(v.ctx.confirmedLock.value, art.adCopy, rendering);
    if layers.Err? {
      MoveOn(s, c, Failing(op));
    } else {
      var composition := CompositionOf(r, rendering, layers.value);
      var draft := Draft(art.brief, art.adCopy, art.factReferences, art.ruleIds, rendering.at);
      var report := Review(CriticRequest(v.ctx.analysis.value, v.ctx.confirmedLock.value, draft, composition, []),
                           reviewedAt);
      SaveAndMoveOn(s, c, rendering, Revised(op, RevisionRecordOf(r, op, draft, composition, report.value)));
    }
  }

  lemma RevisingFacts(s: Sys, c: CallId)
    requires Inv(s) && Mine(s, c) && s.calls[c].job.Revising?
    ensures
      var v, op := View(s.db, s.calls[c].run), s.calls[c].job.op;
      OpenOp(v, op) && Complete(v.ctx) && op.feedbackDigest.Some? && SeenComplete(s.calls[c].seen)
  {
    hide DbInv, ArtifactsInv, CallsInv, Moves, Consistent, DbStep, SeenOk, SeenComplete;
    TheCall(s, c);
    RunKnown(s, s.calls[c].run);
    OpenIsFeedbackOrRetry(s.calls[c].run, View(s.db, s.calls[c].run), s.calls[c].job.op);
  }

  /** The response that a finished revision sends always satisfies its contract. */
  lemma ResponseValid(r: RunId, v: RunView, record: RevisionRecord)
    requires Consistent(r, v) && Complete(v.ctx) && VersionTwo(r, v, record)
    ensures Lifecycle.Answer(r, v, record).Valid()
  {
    hide Ledger, ReviewedAs, Admissible, ValidateConfirmation, SourceOf, Composition.Valid;
    Layers(r, v);
    var c := v.ctx;
    GenerateKeepsLock(c.analysis.value, c.confirmedLock.value, v.run.direction);
    ReviseKeepsLock(v.run.direction, DecodeDraft(c).value, record.requestedChanges);
  }

  lemma CountAttemptsKeeps(s: Sys, c: CallId)
    requires Inv(s) && Enabled(s, CountAttempts(c))
    ensures Sound(s, CountAttempts(c))
  {
    hide DbInv, ArtifactsInv, CallsInv, Moves, Consistent, DbStep, VersionTwo, RevisionCompleted.Valid;
    hide DecodeDraft, DecodeCritique, DecodeConfirmation, OpenOp;
    var r, job := s.calls[c].run, s.calls[c].job;
    var v := View(s.db, r);
    TheCall(s, c);
    RunKnown(s, r);
    ResponseValid(r, v, job.record);
    RecordTimes(r, v, job.record);
    MoveOn(s, c, Counted(job.op, job.record, Lifecycle.Answer(r, v, job.record)));
  }

  lemma RecordTimes(r: RunId, v: RunView, record: RevisionRecord)
    requires Complete(v.ctx) && VersionTwo(r, v, record)
    ensures record.revisedAt == record.critique.reviewedAt
  {
    hide RevisedFrom, ComposedUnder, ReviewedAs;
  }

  lemma HandedOverSecond(s: Sys, c: CallId, next: Db, record: RevisionRecord, job: Job)
    requires ArtifactsInv(s) && Mine(s, c)
    requires Holding(s.calls[c].job) == Some(record.composition.artifactId) && Holding(job).None?
    requires s.calls[c].run !in s.db.revisions
    requires next.revisions == s.db.revisions[s.calls[c].run := record]
    requires next.contexts.Keys == s.db.contexts.Keys
    requires forall q :: q in s.db.contexts ==> next.contexts[q].composition == s.db.contexts[q].composition
    ensures
      var a := record.composition.artifactId;
      ArtifactsInv(At(s.(db := next, holders := s.holders[a := SecondVersionOf(s.calls[c].run)]), c, job))
  {
    hide Holding;
  }

  lemma CountedFacts(s: Sys, c: CallId)
    requires Inv(s) && Mine(s, c) && s.calls[c].job.Counted?
    ensures
      var r, job := s.calls[c].run, s.calls[c].job;
      var v := View(s.db, r);
      && Deliverable(r, v, job.op, job.record) && v.ctx.composition.Some?
      && job.response == Lifecycle.Answer(r, v, job.record)
  {
    hide DbInv, ArtifactsInv, CallsInv, Moves, VersionTwo, SeenOk, OpenOp;
    TheCall(s, c);
  }

  lemma StepKeys(db: Db, next: Db, r: RunId)
    requires DbStep(db, next, r)
    ensures next.runs.Keys == db.runs.Keys && next.contexts.Keys == db.contexts.Keys
  {
    hide Evolves, View;
  }

  lemma ClosedAfter(v: RunView, op: Operation, revision: RevisionRecord, response: RevisionCompleted)
    requires OpenOp(v, op) && v.feedback.Some?
    ensures Closed(AfterRevision(v, revision, response), op)
  {
  }

  /** complete_revision succeeds for the call that owns the operation, and its answer is the stored one. */
  lemma RevisionAccepted(s: Sys, c: CallId)
    requires Inv(s) && Mine(s, c) && s.calls[c].job.Counted?
    ensures
      var r, job := s.calls[c].run, s.calls[c].job;
      var out := CompleteRevision(s.db, r, job.op.id, job.record, job.response);
      && out.result == Ok(job.record)
      && DbInv(out.db) && DbStep(s.db, out.db, r)
      && out.db.runs.Keys == s.db.runs.Keys && out.db.contexts.Keys == s.db.contexts.Keys
      && JobOk(r, Committed(job.op, job.record, job.response), s.calls[c].seen, View(out.db, r))
      && r !in s.db.revisions && out.db.revisions == s.db.revisions[r := job.record]
      && (forall q :: q in s.db.contexts ==> out.db.contexts[q].composition == s.db.contexts[q].composition)
  {
    hide DbInv, ArtifactsInv, CallsInv, Moves, CallOk, Consistent, DbStep, VersionTwo, SeenOk, OpenOp, Find;
    hide CompleteRevision;
    var r, job := s.calls[c].run, s.calls[c].job;
    RunKnown(s, r);
    CountedFacts(s, c);
    CompleteRevisionKeeps(s.db, r, job.op, job.record);
    ClosedAfter(View(s.db, r), job.op, job.record, job.response);
    StepKeys(s.db, CompleteRevision(s.db, r, job.op.id, job.record, job.response).db, r);
  }

  lemma WriteRevisionKeeps(s: Sys, c: CallId)
    requires Inv(s) && Enabled(s, WriteRevision(c))
    ensures Sound(s, WriteRevision(c))
  {
    hide DbInv, ArtifactsInv, CallsInv, Moves, CallOk, DbStep, JobOk, CompleteRevision, View, Locked;
    var r, job := s.calls[c].run, s.calls[c].job;
    TheCall(s, c);
    RevisionAccepted(s, c);
    var next := CompleteRevision(s.db, r, job.op.id, job.record, job.response).db;
    NewJobAfter(s.calls[c], Committed(job.op, job.record, job.response), s.db, next);
    HandedOverSecond(s, c, next, job.record, Committed(job.op, job.record, job.response));
    CallsKept(s, Next(s, WriteRevision(c)), c, r);
  }

  // Exceptions

  lemma FaultJobOk(r: RunId, job: Job, technical: bool, seen: Snapshot, v: RunView)
    requires JobOk(r, job, seen, v)
    ensures JobOk(r, AfterFault(job, technical), seen, v)
  {
    hide OpenOp, Closed, ComposedUnder, VersionTwo, SeenComplete, Complete;
  }

  lemma FaultHolds(job: Job, technical: bool)
    requires Faultable(job)
    ensures Holding(AfterFault(job, technical)) == Holding(job)
    ensures Exclusive(AfterFault(job, technical)) ==> Exclusive(job)
  {
  }

  lemma FaultKeeps(s: Sys, c: CallId, technical: bool)
    requires Inv(s) && Enabled(s, Fault(c, technical))
    ensures Sound(s, Fault(c, technical))
  {
    hide Inv, Moves, JobOk, SeenOk, View, AfterFault, Holding, Exclusive, Faultable;
    var call := s.calls[c];
    FaultHolds(call.job, technical);
    if CallOk(call, s.db) {
      FaultJobOk(call.run, call.job, technical, call.seen, View(s.db, call.run));
    }
    MoveOn(s, c, AfterFault(call.job, technical));
  }

  /** A completed operation cannot be recorded as failed. */
  lemma LateFailureRefused(db: Db, r: RunId, op: Operation, condition: RetryCondition, action: RetryAction)
    requires DbInv(db) && r in db.runs && Closed(View(db, r), op)
    ensures FailOperation(db, r, op.id, condition, action) == Outcome(db, Err(InvalidRunState))
  {
    hide Chain, VersionTwo, OpAt;
    var kind := if op.kind.Retry? then Retry else Feedback;
    ClosedSucceeded(r, View(db, r), op);
    assert Find(db.operations, r, kind).Some?;
  }

  lemma ClosedSucceeded(r: RunId, v: RunView, op: Operation)
    requires Consistent(r, v) && Closed(v, op)
    ensures (if op.kind.Retry? then v.retry else v.feedback).value.state.OpSucceeded?
  {
    hide Chain, VersionTwo;
  }

  lemma WriteFaultKeeps(s: Sys, c: CallId, lost: bool)
    requires Inv(s) && Enabled(s, WriteFault(c, lost))
    ensures Sound(s, WriteFault(c, lost))
  {
    hide DbInv, ArtifactsInv, CallsInv, Moves, SeenOk, OpenOp, Closed, DbStep, Consistent, FailOperation, Find;
    var r, op := s.calls[c].run, s.calls[c].job.op;
    var reason := FailureCode(op.kind.Retry?);
    TheCall(s, c);
    if lost {
      RefuseStep(s, c, reason);
    } else if s.calls[c].job.LateFailing? {
      LateFailureRefused(s.db, r, op, ConnectionBeforeAcceptance, if op.kind.Retry? then DoNotRetry else RetryOnce);
      RefuseStep(s, c, reason);
    } else {
      RunKnown(s, r);
      FailOperationKeeps(s.db, r, op);
      var next := FailOperation(s.db, r, op.id, ConnectionBeforeAcceptance,
                                if op.kind.Retry? then DoNotRetry else RetryOnce).db;
      StoreAndMoveOn(s, c, next, Finished(Refused(reason)));
    }
  }

  lemma CrashedArtifacts(s: Sys, c: CallId)
    requires ArtifactsInv(s) && c in s.calls && s.calls[c].run in s.db.runs && s.calls[c].run in s.db.contexts
    requires !s.calls[c].job.Finished?
    ensures ArtifactsInv(Next(s, Crash(c)))
  {
    hide Holding;
  }

  lemma CrashKeeps(s: Sys, c: CallId)
    requires Inv(s) && Enabled(s, Crash(c))
    ensures Sound(s, Crash(c))
  {
    hide DbInv, ArtifactsInv, CallsInv, Moves, CallOk, View, DbStep, Exclusive, Holding, Locked;
    var next := Next(s, Crash(c));
    CrashedArtifacts(s, c);
    Unchanged(s.db, s.calls[c].run);
    CallsKept(s, next, c, s.calls[c].run);
  }

  /** Every enabled action keeps the invariant and moves one call. */
  lemma EveryStepKeeps(s: Sys, a: Action)
    requires Inv(s) && Enabled(s, a)
    ensures Inv(Next(s, a))
    ensures !a.CreateRun? ==> Moves(s, Next(s, a), a.call, RunOf(s, a))
  {
    hide Inv, Next, Moves;
    match a {
      case CreateRun(r, request, at) => CreateRunKeeps(s, r, request, at);
      case Start(c, r, endpoint) => StartKeeps(s, c, r, endpoint);
      case ReadField(c, field) => ReadFieldKeeps(s, c, field);
      case AnswerStored(c) => AnswerStoredKeeps(s, c);
      case ClaimRun(c) => ClaimRunKeeps(s, c);
      case AssetRefused(c, closed) => AssetRefusedKeeps(s, c, closed);
      case Analyse(c, requestError, initial, repair) => AnalyseKeeps(s, c, requestError, initial, repair);
      case ReadForFailure(c) => ReadForFailureKeeps(s, c);
      case WriteFailure(c) => WriteFailureKeeps(s, c);
      case ReadForAnalysis(c) => ReadForAnalysisKeeps(s, c);
      case WriteAnalysis(c) => WriteAnalysisKeeps(s, c);
      case Confirm(c, r, proposed, at) => ConfirmCallKeeps(s, c, r, proposed, at);
      case WriteDraft(c, at) => WriteDraftKeeps(s, c, at);
      case RenderFirst(c, rendering) => RenderFirstKeeps(s, c, rendering);
      case WriteComposition(c) => WriteCompositionKeeps(s, c);
      case Conclude(c) => ConcludeKeeps(s, c);
      case DropArtifact(c) => DropArtifactKeeps(s, c);
      case DropFails(c) => DropFailsKeeps(s, c);
      case ReplayComposition(c) => ReplayCompositionKeeps(s, c);
      case WriteCritique(c, at) => WriteCritiqueKeeps(s, c, at);
      case SubmitFeedback(c, r, key, fingerprint, changes, digest) =>
        SubmitFeedbackKeeps(s, c, r, key, fingerprint, changes, digest);
      case SubmitRetry(c, r, key, fingerprint) => SubmitRetryKeeps(s, c, r, key, fingerprint);
      case Recheck(c) => RecheckKeeps(s, c);
      case RenderSecond(c, rendering, reviewedAt) => RenderSecondKeeps(s, c, rendering, reviewedAt);
      case CountAttempts(c) => CountAttemptsKeeps(s, c);
      case WriteRevision(c) => WriteRevisionKeeps(s, c);
      case Fault(c, technical) => FaultKeeps(s, c, technical);
      case WriteFault(c, lost) => WriteFaultKeeps(s, c, lost);
      case Crash(c) => CrashKeeps(s, c);
    }
  }
}

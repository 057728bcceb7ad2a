/**
 * CompositionService and RevisionService (composition_service.py, revision_service.py) as they act on the repository
 * and the artifact store, with other calls running in between. Each method is shown to take steps of the protocol.
 */
module Services {
  import opened Prelude
  import opened Domain
  import opened Contracts
  import opened Revising
  import opened Critic
  import opened Tables
  import opened Lifecycle
  import opened Repository
  import opened Protocol
  import opened Invariant
  import opened Preservation
  import opened Guarantees
  import opened Answers
  import opened Worlds

  /** An exception at some point of a call: Some(true) is one that the service expects of a rendering. */
  type Exception = Option<bool>

  /** What the environment brings to one call. onReturning comes once the last transaction is committed. */
  datatype Circumstances = Circumstances(
    rendering: Rendering,
    reviewedAt: int,
    others: nat -> seq<Action>,
    onRendering: Exception,
    onSaving: bool,
    onReviewing: Exception,
    onWriting: Exception,
    onReturning: Exception,
    deletionFails: bool,
    failureLost: bool
  ) {
    /** A rendering that can be, under an artifact id that no other call draws. */
    ghost predicate Proper(c: CallId, issued: set<ArtifactId>) {
      && rendering.Possible() && rendering.artifact !in issued
      && forall k, a :: a in others(k) ==> Foreign(a, c, rendering.artifact)
    }
  }

  lemma CallIsMine(trace: seq<Action>, s: Sys, c: CallId)
    requires Run(trace) == Some(s) && c in s.calls
    ensures Mine(s, c)
  {
    hide DbInv, ArtifactsInv, CallsInv, Next, Enabled, SeenOk, JobOk;
    ReachableInv(trace);
    TheCall(s, c);
  }

  /** One read of a call: a transaction of its own. */
  method ReadOne(world: World, c: CallId, field: Field) returns (raised: bool)
    requires world.Linked() && c in world.sys.calls
    requires
      var job := world.sys.calls[c].job;
      job.Analyzing? || job.Drafting? || job.Composing? || job.Reviewing? || job.Revising?
    modifies world`sys, world`trace
    ensures world.Linked() && c in world.sys.calls
    ensures world.sys.issued == old(world.sys).issued && world.sys.db == old(world.sys).db
    ensures Mine(world.sys, c)
    ensures
      var before, after := old(world.sys).calls[c], world.sys.calls[c];
      && before.run == after.run
      && var seen := Observe(world.sys.db, before.run, field, before.seen);
         if seen.None? then raised && after.job == Finished(Refused(Store(InvalidValue)))
         else !raised && after == before.(seen := seen.value)
  {
    hide Run, DecodeDraft, DecodeConfirmation, DecodeCritique;
    CallIsMine(world.trace, world.sys, c);
    var before := world.sys.calls[c];
    world.Act(ReadField(c, field));
    raised := world.sys.calls[c].job != before.job;
  }

  /** Whether a finished call says what a service method returned. */
  predicate Answered(s: Sys, c: CallId, answer: Option<Protocol.Answer>) {
    && c in s.calls && s.calls[c].job.Finished?
    && (if answer.Some? then s.calls[c].job.answer == answer.value else s.calls[c].job.answer.Refused?)
  }

  predicate HasRead(seen: Snapshot, field: Field) {
    match field
    case RunField => seen.run.Some?
    case RequestField => seen.request.Some?
    case AnalysisField => seen.analysis.Read?
    case ConfirmationField => seen.confirmation.Read?
    case DraftField => seen.draft.Read?
    case CompositionField => seen.composition.Read?
    case CritiqueField => seen.critique.Read?
  }

  /** A read adds one field to what has been read. */
  lemma ObserveAdds(db: Db, r: RunId, field: Field, seen: Snapshot)
    requires r in db.runs && r in db.contexts && Observe(db, r, field, seen).Some?
    ensures
      var more := Observe(db, r, field, seen).value;
      && HasRead(more, field)
      && (forall f :: HasRead(seen, f) ==> HasRead(more, f))
      && (field != CompositionField ==> more.composition == seen.composition)
  {
    hide DecodeDraft, DecodeConfirmation, DecodeCritique;
  }

  /** Reads fields one after the other; what has been read is kept in the record of the call. */
  method ReadFields(world: World, c: CallId, fields: seq<Field>, now: Circumstances, from: nat) returns (raised: bool)
    requires world.Linked() && c in world.sys.calls
    requires world.sys.calls[c].job.Composing? || world.sys.calls[c].job.Revising?
    requires now.Proper(c, world.sys.issued) && now.rendering.artifact !in world.artifacts
    modifies world, world.repository
    ensures world.Linked() && c in world.sys.calls && now.Proper(c, world.sys.issued)
    ensures now.rendering.artifact !in world.artifacts
    ensures
      var before, after := old(world.sys).calls[c], world.sys.calls[c];
      && before.run == after.run
      && (if raised then after.job == Finished(Refused(Store(InvalidValue)))
          else
            && after.job == before.job
            && (forall f :: f in fields || HasRead(before.seen, f) ==> HasRead(after.seen, f))
            && (CompositionField !in fields ==> after.seen.composition == before.seen.composition))
  {
    hide Run, Observe, HasRead;
    ghost var before := world.sys.calls[c];
    var i := 0;
    while i < |fields|
      invariant 0 <= i <= |fields|
      invariant world.Linked() && c in world.sys.calls && now.Proper(c, world.sys.issued)
      invariant now.rendering.artifact !in world.artifacts
      invariant
        var after := world.sys.calls[c];
        && before.run == after.run && after.job == before.job
        && (forall f :: f in fields[..i] || HasRead(before.seen, f) ==> HasRead(after.seen, f))
        && (CompositionField !in fields ==> after.seen.composition == before.seen.composition)
    {
      ghost var seen := world.sys.calls[c].seen;
      raised := ReadOne(world, c, fields[i]);
      if raised {
        return;
      }
      ObserveAdds(world.sys.db, before.run, fields[i], seen);
      world.Yield(c, now.rendering.artifact, now.others(from + i));
      i := i + 1;
    }
    return false;
  }

  /** The guard of generate on what it has read. */
  predicate Composable(seen: Snapshot) {
    && seen.run.Some? && seen.run.value.status == InProgress && Found(seen.analysis).Some?
    && seen.request.Some? && seen.request.value.executionMode.Fixture?
    && Found(seen.confirmation).Some? && Found(seen.draft).Some?
  }

  lemma RenderFirstCases(s: Sys, c: CallId, rendering: Rendering)
    requires Enabled(s, RenderFirst(c, rendering))
    ensures
      var next, run, seen := Next(s, RenderFirst(c, rendering)), s.calls[c].run, s.calls[c].seen;
      if !Composable(seen) then next == Refuse(s, c, InvalidState)
      else
        var layers := RenderLayers(Found(seen.confirmation).value.brandLock, Found(seen.draft).value.adCopy, rendering);
        if layers.Err? then next == Refuse(s, c, OutputRefused)
        else
          next == At(Saved(s, rendering, HeldBy(c)), c, Rendered(CompositionOf(run, rendering, layers.value)))
  {
    hide RenderLayers, Composition.Valid;
    var run, seen := s.calls[c].run, s.calls[c].seen;
    if Composable(seen) {
      RenderedUnder(run, Found(seen.confirmation).value.brandLock, Found(seen.draft).value.adCopy, rendering);
    }
  }

  lemma FaultCases(trace: seq<Action>, s: Sys, c: CallId, technical: bool)
    requires Run(trace) == Some(s) && c in s.calls && Faultable(s.calls[c].job)
    ensures Enabled(s, Fault(c, technical))
    ensures Next(s, Fault(c, technical)) == At(s, c, AfterFault(s.calls[c].job, technical))
  {
    hide Run, Faultable;
    CallIsMine(trace, s, c);
  }

  lemma WriteCompositionCases(trace: seq<Action>, s: Sys, c: CallId)
    requires Run(trace) == Some(s) && c in s.calls && s.calls[c].job.Rendered?
    ensures Enabled(s, WriteComposition(c)) && Next(s, WriteComposition(c)) == WriteCompositionStep(s, c)
  {
    hide Run, WriteCompositionStep;
    CallIsMine(trace, s, c);
  }

  lemma DropCases(trace: seq<Action>, s: Sys, c: CallId)
    requires Run(trace) == Some(s) && c in s.calls && Deleting(s.calls[c].job)
    ensures Enabled(s, DropArtifact(c)) && Next(s, DropArtifact(c)) == DropArtifactStep(s, c)
    ensures Enabled(s, DropFails(c)) && Next(s, DropFails(c)) == DropFailsStep(s, c)
  {
    hide Run, DropArtifactStep, DropFailsStep;
    CallIsMine(trace, s, c);
  }

  lemma ConcludeCases(trace: seq<Action>, s: Sys, c: CallId)
    requires Run(trace) == Some(s) && c in s.calls && (s.calls[c].job.Stored? || s.calls[c].job.Committed?)
    ensures Enabled(s, Conclude(c)) && Next(s, Conclude(c)) == ConcludeStep(s, c)
  {
    hide Run;
    CallIsMine(trace, s, c);
  }

  lemma ReplayCases(trace: seq<Action>, s: Sys, c: CallId)
    requires Run(trace) == Some(s) && c in s.calls && s.calls[c].job.Replaying?
    ensures Enabled(s, ReplayComposition(c)) && Mine(s, c)
    ensures
      var next, stored := Next(s, ReplayComposition(c)), s.db.contexts[s.calls[c].run].composition;
      next ==
        if stored.Some? then At(s, c, Finished(CompositionAnswer(stored.value))) else Refuse(s, c, PersistenceFailed)
  {
    hide Run;
    CallIsMine(trace, s, c);
  }

  lemma StartCases(s: Sys, c: CallId, r: RunId, endpoint: Endpoint)
    requires c !in s.calls && r in s.db.runs
    ensures Enabled(s, Start(c, r, endpoint)) && Next(s, Start(c, r, endpoint)) == Begin(s, c, r, EndpointJob(endpoint))
  {
  }

  lemma StoredCases(trace: seq<Action>, s: Sys, c: CallId)
    requires Run(trace) == Some(s) && c in s.calls && StoredAnswer(s.calls[c].job, s.calls[c].seen).Some?
    ensures Enabled(s, AnswerStored(c))
    ensures Next(s, AnswerStored(c)) == At(s, c, Finished(StoredAnswer(s.calls[c].job, s.calls[c].seen).value))
  {
    hide Run, StoredAnswer;
    CallIsMine(trace, s, c);
  }

  lemma RenderFirstEnabled(trace: seq<Action>, s: Sys, c: CallId, rendering: Rendering)
    requires Run(trace) == Some(s) && c in s.calls && s.calls[c].job.Composing?
    requires rendering.Possible() && rendering.artifact !in s.issued
    requires forall f :: f != CritiqueField ==> HasRead(s.calls[c].seen, f)
    requires s.calls[c].seen.composition == Reading.Read(None)
    ensures Enabled(s, RenderFirst(c, rendering))
  {
    hide Run;
    CallIsMine(trace, s, c);
    forall f
      ensures f != CritiqueField ==> HasRead(s.calls[c].seen, f)
    {
    }
    assert HasRead(s.calls[c].seen, RunField) && HasRead(s.calls[c].seen, RequestField);
    assert HasRead(s.calls[c].seen, AnalysisField) && HasRead(s.calls[c].seen, ConfirmationField);
    assert HasRead(s.calls[c].seen, DraftField);
  }

  class CompositionService {
    const world: World

    constructor (world: World)
      ensures this.world == world
    {
      this.world := world;
    }

    /** From the guard to the saved artifact. */
    method Render(c: CallId, now: Circumstances) returns (r: Result<Composition, Refusal>)
      requires world.Linked() && c in world.sys.calls && now.Proper(c, world.sys.issued)
      requires now.rendering.artifact !in world.artifacts
      requires world.sys.calls[c].job.Composing? && Enabled(world.sys, RenderFirst(c, now.rendering))
      modifies world
      ensures world.Linked() && c in world.sys.calls
      ensures world.sys.calls[c].run == old(world.sys).calls[c].run
      ensures r.Ok? ==>
        && world.sys.calls[c].job == Rendered(r.value) && r.value.artifactId == now.rendering.artifact
        && world.artifacts == old(world.artifacts)[now.rendering.artifact := now.rendering.sha256]
      ensures r.Err? ==> Answered(world.sys, c, None) && world.artifacts == old(world.artifacts)
    {
      hide Run, Enabled, Next, Observe, RenderLayers, Composition.Valid;
      RenderFirstCases(world.sys, c, now.rendering);
      var mine, seen := now.rendering.artifact, world.sys.calls[c].seen;
      if !Composable(seen) {
        world.Act(RenderFirst(c, now.rendering));
        return Err(InvalidState);
      }
      if now.onRendering.Some? {
        FaultCases(world.trace, world.sys, c, now.onRendering.value);
        world.Act(Fault(c, now.onRendering.value));
        return Err(if now.onRendering.value then OutputRefused else PersistenceFailed);
      }
      var lock := Found(seen.confirmation).value.brandLock;
      var layers := RenderLayers(lock, Found(seen.draft).value.adCopy, now.rendering);
      if layers.Err? {
        world.Act(RenderFirst(c, now.rendering));
        return Err(OutputRefused);
      }
      if now.onSaving {
        world.artifacts := world.artifacts - {mine};
        FaultCases(world.trace, world.sys, c, false);
        world.Act(Fault(c, false));
        return Err(PersistenceFailed);
      }
      world.artifacts := world.artifacts[mine := now.rendering.sha256];
      var run := world.sys.calls[c].run;
      world.Act(RenderFirst(c, now.rendering));
      return Ok(CompositionOf(run, now.rendering, layers.value));
    }

    /** From the saved artifact to the answer. */
    method Write(c: CallId, composition: Composition, now: Circumstances)
      returns (answer: Result<Composition, Refusal>)
      requires world.Linked() && c in world.sys.calls && world.sys.calls[c].job == Rendered(composition)
      requires composition.artifactId == now.rendering.artifact
      requires forall k, a :: a in now.others(k) ==> Foreign(a, c, now.rendering.artifact)
      modifies world, world.repository
      ensures world.Linked()
      ensures Answered(world.sys, c, if answer.Ok? then Some(CompositionAnswer(answer.value)) else None)
      ensures now.rendering.artifact in world.artifacts ==> answer == Ok(composition) || now.deletionFails
    {
      hide Run, Next, Enabled, SaveComposition;
      var run := world.sys.calls[c].run;
      if now.onWriting.Some? {
        FaultCases(world.trace, world.sys, c, now.onWriting.value);
        world.Act(Fault(c, now.onWriting.value));
        answer := Withdraw(c, PersistenceFailed, now);
        return;
      }
      WriteCompositionCases(world.trace, world.sys, c);
      SavedAsGiven(world.sys.db, run, composition);
      var saved := world.repository.SaveComposition(run, composition, now.onReturning.Some?);
      world.Act(WriteComposition(c));
      if saved.Ok? {
        ConcludeCases(world.trace, world.sys, c);
        world.Act(Conclude(c));
        return Ok(saved.value);
      }
      if saved.error.Interrupted? {
        FaultCases(world.trace, world.sys, c, now.onReturning.value);
        world.Act(Fault(c, now.onReturning.value));
      }
      world.Yield(c, now.rendering.artifact, now.others(7));
      answer := Withdraw(c, if saved.error.InvalidRunState? then InvalidState else PersistenceFailed, now);
    }

    /** The handlers of generate: they delete the artifact, and replay the composition of a call that was faster. */
    method Withdraw(c: CallId, reason: Refusal, now: Circumstances) returns (answer: Result<Composition, Refusal>)
      requires world.Linked() && c in world.sys.calls
      requires
        var job := world.sys.calls[c].job;
        (job.Dropping? || (job.Undoing? && job.late.None?)) && job.artifact == now.rendering.artifact
      requires forall k, a :: a in now.others(k) ==> Foreign(a, c, now.rendering.artifact)
      modifies world, world.repository
      ensures world.Linked()
      ensures Answered(world.sys, c, if answer.Ok? then Some(CompositionAnswer(answer.value)) else None)
      ensures now.rendering.artifact in world.artifacts ==> now.deletionFails
    {
      hide Run, Next, Enabled;
      DropCases(world.trace, world.sys, c);
      if now.deletionFails {
        world.Act(DropFails(c));
        return Err(Unhandled);
      }
      world.artifacts := world.artifacts - {now.rendering.artifact};
      world.Act(DropArtifact(c));
      if !world.sys.calls[c].job.Replaying? {
        return Err(reason);
      }
      world.Yield(c, now.rendering.artifact, now.others(8));
      ReplayCases(world.trace, world.sys, c);
      world.Act(ReplayComposition(c));
      var replay := world.repository.contexts[world.sys.calls[c].run].composition;
      return if replay.Some? then Ok(replay.value) else Err(PersistenceFailed);
    }

    /** The rest of generate when no composition is stored. */
    method Produce(c: CallId, now: Circumstances) returns (answer: Result<Composition, Refusal>)
      requires world.Linked() && c in world.sys.calls && now.Proper(c, world.sys.issued)
      requires now.rendering.artifact !in world.artifacts
      requires world.sys.calls[c].job.Composing? && world.sys.calls[c].seen.composition == Reading.Read(None)
      modifies world, world.repository
      ensures world.Linked()
      ensures Answered(world.sys, c, if answer.Ok? then Some(CompositionAnswer(answer.value)) else None)
      ensures now.rendering.artifact in world.artifacts ==>
        (answer.Ok? && answer.value.artifactId == now.rendering.artifact) || now.deletionFails
    {
      hide Run, Next, Enabled, Observe;
      assert HasRead(world.sys.calls[c].seen, CompositionField);
      var fields := [RunField, RequestField, AnalysisField, ConfirmationField, DraftField];
      var raised := ReadFields(world, c, fields, now, 1);
      if raised {
        return Err(Store(InvalidValue));
      }
      assert fields[0] == RunField && fields[1] == RequestField && fields[2] == AnalysisField;
      assert fields[3] == ConfirmationField && fields[4] == DraftField;
      RenderFirstEnabled(world.trace, world.sys, c, now.rendering);
      var rendered := Render(c, now);
      if rendered.Err? {
        return Err(rendered.error);
      }
      world.Yield(c, now.rendering.artifact, now.others(6));
      answer := Write(c, rendered.value, now);
    }

    /** generate. */
    method Generate(c: CallId, r: RunId, now: Circumstances) returns (answer: Result<Composition, Refusal>)
      requires world.Linked() && c !in world.sys.calls && now.Proper(c, world.sys.issued)
      modifies world, world.repository
      ensures world.Linked()
      ensures r !in old(world.sys).db.runs ==> answer == Err(Store(ProjectRunNotFound)) && world.sys == old(world.sys)
      ensures r in old(world.sys).db.runs ==>
        Answered(world.sys, c, if answer.Ok? then Some(CompositionAnswer(answer.value)) else None)
      ensures now.rendering.artifact in world.artifacts ==>
        (answer.Ok? && answer.value.artifactId == now.rendering.artifact) || now.deletionFails
    {
      hide Run, Next, Enabled, Observe;
      NotIssuedNotSaved(world.trace, world.sys, now.rendering.artifact);
      if r !in world.repository.runs {
        return Err(Store(ProjectRunNotFound));
      }
      StartCases(world.sys, c, r, CompositionEndpoint);
      world.Act(Start(c, r, CompositionEndpoint));
      var raised := ReadFields(world, c, [CompositionField], now, 0);
      if raised {
        return Err(Store(InvalidValue));
      }
      assert HasRead(world.sys.calls[c].seen, CompositionField);
      var existing := world.sys.calls[c].seen.composition.value;
      if existing.Some? {
        StoredCases(world.trace, world.sys, c);
        world.Act(AnswerStored(c));
        return Ok(existing.value);
      }
      answer := Produce(c, now);
    }
  }

  lemma SavedAsGiven(db: Db, r: RunId, composition: Composition)
    ensures
      var out := SaveComposition(db, r, composition);
      if out.result.Ok? then out.result.value == composition else out.db == db && !out.result.error.Interrupted?
  {
  }

  lemma NotIssuedNotSaved(trace: seq<Action>, s: Sys, artifact: ArtifactId)
    requires Run(trace) == Some(s) && artifact !in s.issued
    ensures artifact !in s.artifacts
  {
    hide Run, DbInv, CallsInv;
    ReachableInv(trace);
  }

  // The revision service

  lemma RenderSecondCases(s: Sys, c: CallId, rendering: Rendering, reviewedAt: int)
    requires Enabled(s, RenderSecond(c, rendering, reviewedAt))
    ensures s.calls[c].job.Revising?
    ensures Next(s, RenderSecond(c, rendering, reviewedAt)) == RenderSecondStep(s, c, rendering, reviewedAt)
  {
    hide RenderSecondStep;
  }

  lemma CountCases(trace: seq<Action>, s: Sys, c: CallId)
    requires Run(trace) == Some(s) && c in s.calls && s.calls[c].job.Revised?
    ensures Enabled(s, CountAttempts(c)) && Mine(s, c)
    ensures Found(s.calls[c].seen.composition).Some?
    ensures Next(s, CountAttempts(c)) == CountAttemptsStep(s, c)
  {
    hide Run, CountAttemptsStep, Inv;
    CallIsMine(trace, s, c);
    ReachableInv(trace);
    RevisedFacts(s, c);
  }

  lemma WriteRevisionCases(trace: seq<Action>, s: Sys, c: CallId)
    requires Run(trace) == Some(s) && c in s.calls && s.calls[c].job.Counted?
    ensures Enabled(s, WriteRevision(c)) && Next(s, WriteRevision(c)) == WriteRevisionStep(s, c)
  {
    hide Run, WriteRevisionStep;
    CallIsMine(trace, s, c);
  }

  lemma RefusedRevisionRollsBack(db: Db, r: RunId, id: nat, revision: RevisionRecord, response: RevisionCompleted)
    ensures
      var out := CompleteRevision(db, r, id, revision, response);
      out.result.Err? ==> out.db == db && !out.result.error.Interrupted?
  {
  }

  lemma WriteFaultCases(trace: seq<Action>, s: Sys, c: CallId, lost: bool)
    requires Run(trace) == Some(s) && c in s.calls && (s.calls[c].job.Failing? || s.calls[c].job.LateFailing?)
    ensures Enabled(s, WriteFault(c, lost))
    ensures
      var op := s.calls[c].job.op;
      var out := FailOperation(s.db, s.calls[c].run, op.id, ConnectionBeforeAcceptance,
                               if op.kind.Retry? then DoNotRetry else RetryOnce);
      Next(s, WriteFault(c, lost)) == Refuse(if lost then s else s.(db := out.db), c, FailureCode(op.kind.Retry?))
  {
    hide Run, FailOperation;
    CallIsMine(trace, s, c);
  }

  lemma RenderSecondEnabled(trace: seq<Action>, s: Sys, c: CallId, rendering: Rendering, reviewedAt: int)
    requires Run(trace) == Some(s) && c in s.calls && s.calls[c].job.Revising?
    requires rendering.Possible() && rendering.artifact !in s.issued
    requires forall f :: HasRead(s.calls[c].seen, f)
    ensures Enabled(s, RenderSecond(c, rendering, reviewedAt))
  {
    hide Run;
    CallIsMine(trace, s, c);
    var seen := s.calls[c].seen;
    assert HasRead(seen, RunField) && HasRead(seen, RequestField) && HasRead(seen, AnalysisField);
    assert HasRead(seen, ConfirmationField) && HasRead(seen, DraftField) && HasRead(seen, CompositionField);
    assert HasRead(seen, CritiqueField);
  }

  /** What the exception handlers of _execute tell apart. */
  datatype Failure = StateInvalid | Conflicting(error: RepoError) | Technical | Unexpected

  class RevisionService {
    const world: World

    constructor (world: World)
      ensures this.world == world
    {
      this.world := world;
    }

    /** Where a call is after an exception in the try statement of _execute. */
    ghost predicate Failed(s: Sys, c: CallId, op: Operation, failure: Failure, saved: bool, artifact: ArtifactId) {
      && c in s.calls && s.calls[c].run == op.runId
      && (if saved then
            || s.calls[c].job == Cleaning(op, artifact, failure.Technical?)
            || s.calls[c].job == Undoing(artifact, Some(op), failure.Technical?)
          else if failure.Technical? then s.calls[c].job == Failing(op)
          else Answered(s, c, None))
    }

    /** From the reads to the saved artifact. */
    method Render(c: CallId, op: Operation, now: Circumstances)
      returns (r: Result<RevisionRecord, Failure>, artifactSaved: bool)
      requires world.Linked() && c in world.sys.calls && now.Proper(c, world.sys.issued)
      requires now.rendering.artifact !in world.artifacts
      requires world.sys.calls[c].run == op.runId && world.sys.calls[c].job == Revising(op)
      requires Enabled(world.sys, RenderSecond(c, now.rendering, now.reviewedAt))
      modifies world
      ensures world.Linked() && c in world.sys.calls
      ensures r.Ok? ==>
        && world.sys.calls[c].run == op.runId && world.sys.calls[c].job == Revised(op, r.value)
        && r.value.composition.artifactId == now.rendering.artifact
      ensures r.Err? ==> Failed(world.sys, c, op, r.error, artifactSaved, now.rendering.artifact)
      ensures !artifactSaved ==> r.Err? && world.artifacts == old(world.artifacts)
    {
      hide Run, Enabled, Next, Observe, RenderLayers, Composition.Valid, ReviseDraft, Review;
      RenderSecondCases(world.sys, c, now.rendering, now.reviewedAt);
      artifactSaved := false;
      var seen := world.sys.calls[c].seen;
      if !Revisable(seen) {
        world.Act(RenderSecond(c, now.rendering, now.reviewedAt));
        return Err(StateInvalid), false;
      }
      var revised := ReviseDraft(seen.run.value.direction, Found(seen.draft).value, op.requestedChanges);
      if revised.None? {
        world.Act(RenderSecond(c, now.rendering, now.reviewedAt));
        return Err(Unexpected), false;
      }
      if now.onRendering.Some? {
        FaultCases(world.trace, world.sys, c, now.onRendering.value);
        world.Act(Fault(c, now.onRendering.value));
        return Err(if now.onRendering.value then Technical else Unexpected), false;
      }
      var lock, art := Found(seen.confirmation).value.brandLock, revised.value;
      var layers := RenderLayers(lock, art.adCopy, now.rendering);
      if layers.Err? {
        world.Act(RenderSecond(c, now.rendering, now.reviewedAt));
        return Err(Technical), false;
      }
      if now.onSaving {
        FaultCases(world.trace, world.sys, c, true);
        world.Act(Fault(c, true));
        return Err(Technical), false;
      }
      world.artifacts := world.artifacts[now.rendering.artifact := now.rendering.sha256];
      artifactSaved := true;
      var composition := CompositionOf(op.runId, now.rendering, layers.value);
      var draft := Draft(art.brief, art.adCopy, art.factReferences, art.ruleIds, now.rendering.at);
      var report := SecondReview(seen, draft, composition, now.reviewedAt);
      world.Act(RenderSecond(c, now.rendering, now.reviewedAt));
      if !composition.Valid() || report.None? {
        return Err(Technical), true;
      }
      return Ok(RevisionRecordOf(op.runId, op, draft, composition, report.value)), true;
    }

    /** An exception after the artifact has been saved. */
    method RaiseAfterSaving(c: CallId, op: Operation, technical: bool, artifact: ArtifactId) returns (failure: Failure)
      requires world.Linked() && c in world.sys.calls && world.sys.calls[c].run == op.runId
      requires
        var job := world.sys.calls[c].job;
        && (job.Revised? || job.Counted? || job.Committed?)
        && job.op == op && job.record.composition.artifactId == artifact
      modifies world`sys, world`trace
      ensures world.Linked() && Failed(world.sys, c, op, failure, true, artifact)
    {
      hide Run, Next, Enabled;
      FaultCases(world.trace, world.sys, c, technical);
      world.Act(Fault(c, technical));
      return if technical then Technical else Unexpected;
    }

    /** From the saved artifact to the completed revision. */
    method Complete(c: CallId, op: Operation, record: RevisionRecord, now: Circumstances)
      returns (r: Result<RevisionCompleted, Failure>)
      requires world.Linked() && c in world.sys.calls
      requires world.sys.calls[c].run == op.runId && world.sys.calls[c].job == Revised(op, record)
      requires record.composition.artifactId == now.rendering.artifact
      requires forall k, a :: a in now.others(k) ==> Foreign(a, c, now.rendering.artifact)
      modifies world, world.repository
      ensures world.Linked()
      ensures r.Ok? ==>
        Answered(world.sys, c, Some(RevisionAnswer(r.value))) && r.value.composition == record.composition
      ensures r.Err? ==> Failed(world.sys, c, op, r.error, true, now.rendering.artifact)
    {
      hide Run, Next, Enabled, CompleteRevision, RevisionCompleted.Valid;
      var mine := now.rendering.artifact;
      if now.onReviewing.Some? {
        var failure := RaiseAfterSaving(c, op, now.onReviewing.value, mine);
        return Err(failure);
      }
      world.Yield(c, mine, now.others(8));
      CountCases(world.trace, world.sys, c);
      var response := RevisionCompleted(
        op.runId,
        if record.critique.status.Reject? then FailedFinal else Ready,
        Found(world.sys.calls[c].seen.composition).value,
        record.draft.brief,
        record.draft.adCopy,
        record.composition,
        record.critique,
        world.repository.contexts[op.runId].technicalAttemptCount,
        record.critique.reviewedAt);
      world.Act(CountAttempts(c));
      if !response.Valid() {
        return Err(Technical);
      }
      world.Yield(c, mine, now.others(9));
      if now.onWriting.Some? {
        var failure := RaiseAfterSaving(c, op, now.onWriting.value, mine);
        return Err(failure);
      }
      WriteRevisionCases(world.trace, world.sys, c);
      RefusedRevisionRollsBack(world.sys.db, op.runId, op.id, record, response);
      var completed := world.repository.CompleteRevision(op.runId, op.id, record, response, now.onReturning.Some?);
      world.Act(WriteRevision(c));
      if completed.Err? && completed.error.Interrupted? {
        var failure := RaiseAfterSaving(c, op, now.onReturning.value, mine);
        return Err(failure);
      }
      if completed.Err? {
        return Err(if completed.error.InvalidRunState? then StateInvalid else Conflicting(completed.error));
      }
      ConcludeCases(world.trace, world.sys, c);
      world.Act(Conclude(c));
      return Ok(response);
    }

    /** The handlers of _execute. */
    method Handle(c: CallId, op: Operation, failure: Failure, artifactSaved: bool, now: Circumstances)
      returns (reason: Refusal)
      requires world.Linked() && Failed(world.sys, c, op, failure, artifactSaved, now.rendering.artifact)
      requires now.rendering.artifact in world.artifacts ==> artifactSaved
      requires forall k, a :: a in now.others(k) ==> Foreign(a, c, now.rendering.artifact)
      modifies world, world.repository
      ensures world.Linked() && Answered(world.sys, c, None)
      ensures now.rendering.artifact in world.artifacts ==> now.deletionFails
    {
      hide Run, Next, Enabled, FailOperation;
      var mine := now.rendering.artifact;
      if artifactSaved {
        DropCases(world.trace, world.sys, c);
        if now.deletionFails {
          world.Act(DropFails(c));
          return Unhandled;
        }
        world.artifacts := world.artifacts - {mine};
        world.Act(DropArtifact(c));
      }
      match failure {
        case StateInvalid => return InvalidState;
        case Conflicting(error) => return Store(error);
        case Unexpected => return FailureCode(op.kind.Retry?);
        case Technical =>
          world.Yield(c, mine, now.others(10));
          WriteFaultCases(world.trace, world.sys, c, now.failureLost);
          if !now.failureLost {
            var action := if op.kind.Retry? then DoNotRetry else RetryOnce;
            var recorded := world.repository.FailOperation(op.runId, op.id, ConnectionBeforeAcceptance, action);
          }
          world.Act(WriteFault(c, now.failureLost));
          return FailureCode(op.kind.Retry?);
      }
    }

    /** _execute. */
    method Execute(c: CallId, op: Operation, now: Circumstances) returns (answer: Result<RevisionCompleted, Refusal>)
      requires world.Linked() && c in world.sys.calls && now.Proper(c, world.sys.issued)
      requires world.sys.calls[c].run == op.runId && world.sys.calls[c].job == Revising(op)
      modifies world, world.repository
      ensures world.Linked()
      ensures Answered(world.sys, c, if answer.Ok? then Some(RevisionAnswer(answer.value)) else None)
      ensures now.rendering.artifact in world.artifacts ==>
        (answer.Ok? && answer.value.composition.artifactId == now.rendering.artifact) || now.deletionFails
    {
      hide Run, Next, Enabled;
      NotIssuedNotSaved(world.trace, world.sys, now.rendering.artifact);
      var fields :=
        [RunField, RequestField, AnalysisField, ConfirmationField, DraftField, CompositionField, CritiqueField];
      var raised := ReadFields(world, c, fields, now, 0);
      if raised {
        var reason := Handle(c, op, Unexpected, false, now);
        return Err(reason);
      }
      AllFields(fields);
      RenderSecondEnabled(world.trace, world.sys, c, now.rendering, now.reviewedAt);
      var rendered, artifactSaved := Render(c, op, now);
      if rendered.Err? {
        var reason := Handle(c, op, rendered.error, artifactSaved, now);
        return Err(reason);
      }
      var completed := Complete(c, op, rendered.value, now);
      if completed.Err? {
        var reason := Handle(c, op, completed.error, artifactSaved, now);
        return Err(reason);
      }
      return Ok(completed.value);
    }

    /** submit_feedback; key and fingerprint are the digests that it computes. */
    method SubmitFeedback(c: CallId, r: RunId, key: string, fingerprint: string, changes: seq<RevisionChange>,
                          digest: string, now: Circumstances)
      returns (answer: Result<RevisionCompleted, Refusal>)
      requires world.Linked() && c !in world.sys.calls && now.Proper(c, world.sys.issued)
      modifies world, world.repository
      ensures world.Linked()
      ensures answer.Ok? ==> Answered(world.sys, c, Some(RevisionAnswer(answer.value)))
      ensures now.rendering.artifact in world.artifacts ==>
        (answer.Ok? && answer.value.composition.artifactId == now.rendering.artifact) || now.deletionFails
      ensures
        var claim := ClaimFeedback(old(world.sys).db, r, key, fingerprint, changes, digest).result;
        && (claim.Err? ==> answer == Err(Store(claim.error)) && world.sys == old(world.sys))
        && (claim.Ok? && claim.value.state.OpSucceeded? && claim.value.publicResponse.Some? ==>
              answer == Ok(claim.value.publicResponse.value) && world.repository.State() == old(world.sys).db)
    {
      hide Run, Next, Enabled, ClaimFeedback;
      NotIssuedNotSaved(world.trace, world.sys, now.rendering.artifact);
      FeedbackCases(world.trace, world.sys, c, r, key, fingerprint, changes, digest);
      var claim := world.repository.ClaimFeedback(r, key, fingerprint, changes, digest);
      if claim.Err? {
        return Err(Store(claim.error));
      }
      var op := claim.value;
      world.Act(Action.SubmitFeedback(c, r, key, fingerprint, changes, digest));
      if op.state.OpSucceeded? && op.publicResponse.Some? {
        return Ok(op.publicResponse.value);
      }
      answer := Execute(c, op, now);
    }

    /** retry. */
    method Retry(c: CallId, r: RunId, key: string, fingerprint: string, now: Circumstances)
      returns (answer: Result<RevisionCompleted, Refusal>)
      requires world.Linked() && c !in world.sys.calls && now.Proper(c, world.sys.issued)
      modifies world, world.repository
      ensures world.Linked()
      ensures answer.Ok? ==> Answered(world.sys, c, Some(RevisionAnswer(answer.value)))
      ensures now.rendering.artifact in world.artifacts ==>
        (answer.Ok? && answer.value.composition.artifactId == now.rendering.artifact) || now.deletionFails
      ensures
        var claim := ClaimRetry(old(world.sys).db, r, key, fingerprint).result;
        && (claim.Err? ==> answer == Err(Store(claim.error)) && world.sys == old(world.sys))
        && (claim.Ok? && claim.value.state.OpSucceeded? && claim.value.publicResponse.Some? ==>
              answer == Ok(claim.value.publicResponse.value) && world.repository.State() == old(world.sys).db)
    {
      hide Run, Next, Enabled, ClaimRetry;
      NotIssuedNotSaved(world.trace, world.sys, now.rendering.artifact);
      RetryCases(world.trace, world.sys, c, r, key, fingerprint);
      var claim := world.repository.ClaimRetry(r, key, fingerprint);
      if claim.Err? {
        return Err(Store(claim.error));
      }
      var op := claim.value;
      world.Act(SubmitRetry(c, r, key, fingerprint));
      if op.state.OpSucceeded? && op.publicResponse.Some? {
        return Ok(op.publicResponse.value);
      }
      world.Yield(c, now.rendering.artifact, now.others(11));
      var passes := Recheck(c, op);
      if !passes {
        return Err(InvalidState);
      }
      answer := Execute(c, op, now);
    }

    /** The check of the stored decision in retry. */
    method Recheck(c: CallId, op: Operation) returns (passes: bool)
      requires world.Linked() && c in world.sys.calls
      requires world.sys.calls[c].run == op.runId && world.sys.calls[c].job == Rechecking(op)
      modifies world`sys, world`trace
      ensures world.Linked() && c in world.sys.calls && world.sys.calls[c].run == op.runId
      ensures world.sys.issued == old(world.sys).issued
      ensures if passes then world.sys.calls[c].job == Revising(op) else Answered(world.sys, c, None)
    {
      hide Run, Next, Enabled, DecideRetry;
      RecheckCases(world.trace, world.sys, c);
      if op.retryCondition.None? || op.retryAction.None? {
        world.Act(Action.Recheck(c));
        return false;
      }
      var attemptCount := world.repository.contexts[op.runId].technicalAttemptCount - 1;
      var decision := DecideRetry(op.retryCondition.value, attemptCount, None);
      world.Act(Action.Recheck(c));
      return decision.Some? && decision.value.action == op.retryAction.value
          && decision.value.action in RETRYING_ACTIONS;
    }
  }

  lemma AllFields(fields: seq<Field>)
    requires fields ==
      [RunField, RequestField, AnalysisField, ConfirmationField, DraftField, CompositionField, CritiqueField]
    ensures forall f: Field :: f in fields
  {
    assert fields[0] == RunField && fields[1] == RequestField && fields[2] == AnalysisField;
    assert fields[3] == ConfirmationField && fields[4] == DraftField && fields[5] == CompositionField;
    assert fields[6] == CritiqueField;
    forall f: Field
      ensures f in fields
    {
      match f
      case RunField =>
      case RequestField =>
      case AnalysisField =>
      case ConfirmationField =>
      case DraftField =>
      case CompositionField =>
      case CritiqueField =>
    }
  }

  lemma FeedbackCases(trace: seq<Action>, s: Sys, c: CallId, r: RunId, key: string, fingerprint: string,
                      changes: seq<RevisionChange>, digest: string)
    requires Run(trace) == Some(s) && c !in s.calls
    ensures
      var a := Action.SubmitFeedback(c, r, key, fingerprint, changes, digest);
      var out := ClaimFeedback(s.db, r, key, fingerprint, changes, digest);
      if out.result.Err? then out.db == s.db
      else
        var op := out.result.value;
        && op.runId == r && op.kind.Feedback? && (op.state.OpSucceeded? ==> out.db == s.db)
        && Enabled(s, a) && Next(s, a) == Begin(s.(db := out.db), c, r, ClaimJob(op))
  {
    hide Run, DbInv, CallsInv, ArtifactsInv, ClaimFeedback, ClaimJob;
    ReachableInv(trace);
    ClaimedFeedback(s.db, r, key, fingerprint, changes, digest);
  }

  lemma ClaimedFeedback(db: Db, r: RunId, key: string, fingerprint: string, changes: seq<RevisionChange>,
                        digest: string)
    requires DbInv(db)
    ensures
      var out := ClaimFeedback(db, r, key, fingerprint, changes, digest);
      if out.result.Err? then out.db == db
      else
        var op := out.result.value;
        r in db.runs && op.runId == r && op.kind.Feedback? && (op.state.OpSucceeded? ==> out.db == db)
  {
    hide Consistent, ByKey, OpAt, ActiveFeedback;
  }

  lemma ClaimedRetry(db: Db, r: RunId, key: string, fingerprint: string)
    requires DbInv(db)
    ensures
      var out := ClaimRetry(db, r, key, fingerprint);
      if out.result.Err? then out.db == db
      else
        var op := out.result.value;
        r in db.runs && op.runId == r && op.kind.Retry? && (op.state.OpSucceeded? ==> out.db == db)
  {
    hide Consistent, ByKey, OpAt, LatestRetryable;
  }

  lemma RetryCases(trace: seq<Action>, s: Sys, c: CallId, r: RunId, key: string, fingerprint: string)
    requires Run(trace) == Some(s) && c !in s.calls
    ensures
      var a := SubmitRetry(c, r, key, fingerprint);
      var out := ClaimRetry(s.db, r, key, fingerprint);
      if out.result.Err? then out.db == s.db
      else
        var op := out.result.value;
        && op.runId == r && op.kind.Retry? && (op.state.OpSucceeded? ==> out.db == s.db)
        && Enabled(s, a) && Next(s, a) == Begin(s.(db := out.db), c, r, ClaimJob(op))
  {
    hide Run, DbInv, CallsInv, ArtifactsInv, ClaimRetry, ClaimJob;
    ReachableInv(trace);
    ClaimedRetry(s.db, r, key, fingerprint);
  }

  lemma RecheckCases(trace: seq<Action>, s: Sys, c: CallId)
    requires Run(trace) == Some(s) && c in s.calls && s.calls[c].job.Rechecking?
    ensures Mine(s, c) && Enabled(s, Action.Recheck(c))
    ensures
      var op := s.calls[c].job.op;
      Next(s, Action.Recheck(c))
        == if RecheckPasses(s.db, s.calls[c].run, op) then At(s, c, Revising(op)) else Refuse(s, c, InvalidState)
  {
    hide Run, RecheckPasses;
    CallIsMine(trace, s, c);
  }
}

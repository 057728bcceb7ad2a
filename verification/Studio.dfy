/** The reducer behind the Studio page (apps/web/src/studio/studio-state.ts). */
module Studio {
  import opened Prelude

  datatype Phase =
    | Configure | Uploading | Analyzing | AwaitingBrandLock | GeneratingDraft | Composing | Reviewing
    | ReadyV1 | SubmittingRevision | ReadyV2
    | RetryableFailure | Conflict | FinalFailure | Deleting

  /** The error codes the reducer tells apart; every other code of the API is Other. */
  datatype ErrorCode =
    | RevisionLimitReached | IdempotencyConflict | OperationInProgress | RevisionFailed | CriticFailed
    | Other(name: string)

  /** Results of the API, which the reducer stores without looking inside unless a field is named here. */
  datatype Critique = Critique(id: string, status: string)
  datatype Revision = Revision(id: string, resultVersion: int, humanRevisionCount: int)

  datatype State = State(
    phase: Phase, fixture: string,
    upload: Option<string>, run: Option<string>, analysis: Option<string>, confirmation: Option<string>,
    draft: Option<string>, composition: Option<string>, critique: Option<Critique>, revision: Option<Revision>,
    visible: seq<int>, error: Option<ErrorCode>)

  datatype Event =
    | FixtureSelected(fixture: string) | UploadStarted | UploadSucceeded(upload: string) | RunCreated(run: string)
    | AnalysisSucceeded(analysis: string) | BrandLockConfirmed(confirmation: string) | GenerationStarted
    | DraftSucceeded(draft: string) | CompositionSucceeded(composition: string) | CriticSucceeded(critique: Critique)
    | RevisionStarted | RevisionSucceeded(revision: Revision) | RetryStarted | OperationFailed(code: ErrorCode)
    | DeleteStarted | DeleteSucceeded | Reset

  function Initial(fixture: string): State {
    State(Configure, fixture, None, None, None, None, None, None, None, None, [], None)
  }

  predicate CanUpload(s: State) {
    s.phase == Configure
  }

  predicate CanConfirmBrandLock(s: State) {
    s.phase == AwaitingBrandLock && s.analysis.Some? && s.confirmation.None?
  }

  predicate CanGenerate(s: State) {
    s.phase == AwaitingBrandLock && s.confirmation.Some?
  }

  predicate CanSubmitRevision(s: State) {
    s.phase == ReadyV1 && s.revision.None?
  }

  predicate CanRetry(s: State) {
    s.phase == RetryableFailure && s.error == Some(RevisionFailed)
  }

  predicate CanExport(s: State, version: int) {
    if version == 1 then |s.visible| > 0 && s.visible[0] == 1 else |s.visible| > 1 && s.visible[1] == 2
  }

  predicate CanDelete(s: State) {
    s.upload.Some? && s.phase != Uploading && s.phase != Deleting
  }

  predicate IsConflict(code: ErrorCode) {
    code.RevisionLimitReached? || code.IdempotencyConflict? || code.OperationInProgress?
  }

  /** studioReducer. */
  function Reduce(s: State, event: Event): State {
    match event
    case Reset => Initial(s.fixture)
    case FixtureSelected(fixture) => if s.phase == Configure then Initial(fixture) else s
    case UploadStarted => if CanUpload(s) then s.(phase := Uploading) else s
    case UploadSucceeded(upload) => if s.phase == Uploading then s.(upload := Some(upload)) else s
    case RunCreated(run) =>
      if s.phase == Uploading && s.upload.Some? then s.(phase := Analyzing, run := Some(run)) else s
    case AnalysisSucceeded(analysis) =>
      if s.phase == Analyzing && s.run.Some? then s.(phase := AwaitingBrandLock, analysis := Some(analysis)) else s
    case BrandLockConfirmed(confirmation) =>
      if CanConfirmBrandLock(s) then s.(confirmation := Some(confirmation)) else s
    case GenerationStarted => if CanGenerate(s) then s.(phase := GeneratingDraft) else s
    case DraftSucceeded(draft) =>
      if s.phase == GeneratingDraft then s.(phase := Composing, draft := Some(draft)) else s
    case CompositionSucceeded(composition) =>
      if s.phase == Composing && s.draft.Some? then s.(phase := Reviewing, composition := Some(composition)) else s
    case CriticSucceeded(critique) =>
      if s.phase != Reviewing || s.composition.None? then s
      else if critique.status == "ready" then
        s.(phase := ReadyV1, critique := Some(critique), visible := [1], error := None)
      else s.(phase := FinalFailure, critique := Some(critique), error := Some(CriticFailed))
    case RevisionStarted =>
      if CanSubmitRevision(s) then s.(phase := SubmittingRevision, error := None) else s
    case RevisionSucceeded(revision) =>
      if s.phase != SubmittingRevision && s.phase != ReadyV2 then s
      else if revision.resultVersion != 2 || revision.humanRevisionCount != 1 then
        s.(phase := FinalFailure, error := Some(RevisionFailed))
      else s.(phase := ReadyV2, revision := Some(revision), visible := [1, 2], error := None)
    case RetryStarted => if CanRetry(s) then s.(phase := SubmittingRevision, error := None) else s
    case OperationFailed(code) =>
      if s.phase == Configure || s.phase == Deleting then s
      else if IsConflict(code) then s.(phase := Conflict, error := Some(code))
      else if code == RevisionFailed then s.(phase := RetryableFailure, error := Some(code))
      else s.(phase := FinalFailure, error := Some(code))
    case DeleteStarted => if CanDelete(s) then s.(phase := Deleting) else s
    case DeleteSucceeded => if s.phase == Deleting then Initial(s.fixture) else s
  }

  function Run(fixture: string, events: seq<Event>): State {
    if |events| == 0 then Initial(fixture) else Reduce(Run(fixture, events[..|events| - 1]), events[|events| - 1])
  }

  // What holds in every state

  predicate MainPath(phase: Phase) {
    !phase.RetryableFailure? && !phase.Conflict? && !phase.FinalFailure? && !phase.Deleting?
  }

  /** Where a phase stands on the main path. */
  function Rank(phase: Phase): nat
    requires MainPath(phase)
  {
    match phase
    case Configure => 0 case Uploading => 1 case Analyzing => 2 case AwaitingBrandLock => 3
    case GeneratingDraft => 4 case Composing => 5 case Reviewing => 6
    case ReadyV1 => 7 case SubmittingRevision => 8 case ReadyV2 => 9
  }

  /** The artifacts of a run up to a critique that is ready. */
  predicate Complete(s: State) {
    && s.upload.Some? && s.run.Some? && s.analysis.Some? && s.confirmation.Some? && s.draft.Some?
    && s.composition.Some? && s.critique.Some? && s.critique.value.status == "ready"
  }

  /** Up to ready_v1 a phase has exactly the artifacts of the phases before it. */
  predicate Exact(s: State) {
    MainPath(s.phase) && Rank(s.phase) <= 7 ==>
      var rank := Rank(s.phase);
      && (rank < 1 ==> s.upload.None?) && (rank > 1 ==> s.upload.Some?)
      && (s.run.Some? <==> rank >= 2) && (s.analysis.Some? <==> rank >= 3)
      && (rank < 3 ==> s.confirmation.None?) && (rank > 3 ==> s.confirmation.Some?)
      && (s.draft.Some? <==> rank >= 5) && (s.composition.Some? <==> rank >= 6)
      && (s.critique.Some? <==> rank == 7) && (rank == 7 ==> s.critique.value.status == "ready")
      && s.revision.None? && s.visible == (if rank == 7 then [1] else []) && s.error.None?
  }

  /** Each artifact rests on the one before it. */
  predicate Chained(s: State) {
    && (s.run.Some? ==> s.upload.Some?) && (s.analysis.Some? ==> s.run.Some?)
    && (s.confirmation.Some? ==> s.analysis.Some?) && (s.draft.Some? ==> s.confirmation.Some?)
    && (s.composition.Some? ==> s.draft.Some?) && (s.critique.Some? ==> s.composition.Some?)
  }

  predicate Versions(s: State) {
    && (s.visible == [1, 2] <==> s.revision.Some?)
    && (s.visible == [] || s.visible == [1] || s.visible == [1, 2])
    && (s.visible == [1] ==> Complete(s))
    && (s.revision.Some? ==> s.revision.value.resultVersion == 2 && s.revision.value.humanRevisionCount == 1)
    && (s.phase == ReadyV2 ==> s.revision.Some?)
    && (s.phase == RetryableFailure ==> s.error == Some(RevisionFailed))
  }

  predicate Sound(s: State) {
    Exact(s) && Chained(s) && Versions(s)
  }

  lemma ReduceExact(s: State, event: Event)
    requires Exact(s)
    ensures Exact(Reduce(s, event))
  {
  }

  lemma ReduceChained(s: State, event: Event)
    requires Exact(s) && Chained(s)
    ensures Chained(Reduce(s, event))
  {
  }

  lemma ReduceVersions(s: State, event: Event)
    requires Exact(s) && Versions(s)
    ensures Versions(Reduce(s, event))
  {
  }

  /** Every event keeps the invariant, in whatever phase it arrives. */
  lemma ReduceSound(s: State, event: Event)
    requires Sound(s)
    ensures Sound(Reduce(s, event))
  {
    hide Exact, Chained, Reduce;
    ReduceExact(s, event);
    ReduceChained(s, event);
    ReduceVersions(s, event);
  }

  lemma {:induction false} AlwaysSound(fixture: string, events: seq<Event>)
    ensures Sound(Run(fixture, events))
  {
    if |events| > 0 {
      AlwaysSound(fixture, events[..|events| - 1]);
      ReduceSound(Run(fixture, events[..|events| - 1]), events[|events| - 1]);
    }
  }

  /** What the page may show and offer, after any events. */
  lemma Offers(fixture: string, events: seq<Event>)
    ensures
      var s := Run(fixture, events);
      && (CanExport(s, 2) <==> s.revision.Some?) && (CanExport(s, 2) ==> CanExport(s, 1))
      && (CanSubmitRevision(s) <==> s.phase == ReadyV1) && (CanSubmitRevision(s) ==> Complete(s))
      && (CanRetry(s) <==> s.phase == RetryableFailure)
      && (CanConfirmBrandLock(s) <==> s.phase == AwaitingBrandLock && !CanGenerate(s))
  {
    AlwaysSound(fixture, events);
  }

  // Nothing is lost or replaced on the way

  predicate StartsOver(event: Event) {
    event.Reset? || event.DeleteSucceeded?
  }

  predicate Keeps<T(==)>(a: Option<T>, b: Option<T>) {
    a.Some? ==> a == b
  }

  /** Once stored, the artifacts of a run are never replaced; a revision is replaced only by another one. */
  predicate Kept(a: State, b: State) {
    && Keeps(a.run, b.run) && Keeps(a.analysis, b.analysis) && Keeps(a.confirmation, b.confirmation)
    && Keeps(a.draft, b.draft) && Keeps(a.composition, b.composition) && Keeps(a.critique, b.critique)
    && (a.run.Some? ==> a.upload == b.upload) && (a.revision.Some? ==> b.revision.Some?)
    && a.visible <= b.visible
  }

  /** A phase below which the main path is not re-entered without starting over. */
  function Level(phase: Phase): nat {
    if MainPath(phase) then Rank(phase) else if phase.RetryableFailure? then 8 else 9
  }

  lemma ReduceKeeps(s: State, event: Event)
    requires Exact(s) && Versions(s) && !StartsOver(event)
    ensures Kept(s, Reduce(s, event))
  {
  }

  lemma LastEvent(fixture: string, events: seq<Event>, more: seq<Event>)
    requires |more| > 0
    ensures Run(fixture, events + more) == Reduce(Run(fixture, events + more[..|more| - 1]), more[|more| - 1])
  {
    assert (events + more)[..|events + more| - 1] == events + more[..|more| - 1];
  }

  lemma {:induction false} RunKeeps(fixture: string, events: seq<Event>, more: seq<Event>)
    requires forall i :: 0 <= i < |more| ==> !StartsOver(more[i])
    ensures Kept(Run(fixture, events), Run(fixture, events + more))
  {
    if |more| == 0 {
      assert events + more == events;
    } else {
      var less := more[..|more| - 1];
      RunKeeps(fixture, events, less);
      LastEvent(fixture, events, more);
      AlwaysSound(fixture, events + less);
      hide Run, Reduce, Exact, Chained, Versions;
      ReduceKeeps(Run(fixture, events + less), more[|more| - 1]);
    }
  }

  lemma ReduceLevel(s: State, event: Event)
    requires !StartsOver(event)
    ensures var after := Level(Reduce(s, event).phase); after >= Level(s.phase) || after >= 8
  {
  }

  predicate AtLeast(a: Phase, b: Phase) {
    MainPath(a) && MainPath(b) ==> Rank(b) >= Rank(a) || (a == ReadyV2 && b == SubmittingRevision)
  }

  /** The levels are kept up to submitting_revision, the one phase that a retry goes back to. */
  lemma {:induction false} LevelsKept(fixture: string, events: seq<Event>, more: seq<Event>)
    requires forall i :: 0 <= i < |more| ==> !StartsOver(more[i])
    ensures
      var before, after := Level(Run(fixture, events).phase), Level(Run(fixture, events + more).phase);
      after >= before || after >= 8
  {
    if |more| == 0 {
      assert events + more == events;
    } else {
      var less := more[..|more| - 1];
      LevelsKept(fixture, events, less);
      LastEvent(fixture, events, more);
      hide Run, Reduce, Level;
      ReduceLevel(Run(fixture, events + less), more[|more| - 1]);
    }
  }

  /**
   * Without a reset or a completed deletion the page never returns to an earlier phase of the main path, except from
   * ready_v2 to submitting_revision.
   */
  lemma NoReturn(fixture: string, events: seq<Event>, more: seq<Event>)
    requires forall i :: 0 <= i < |more| ==> !StartsOver(more[i])
    ensures AtLeast(Run(fixture, events).phase, Run(fixture, events + more).phase)
  {
    LevelsKept(fixture, events, more);
  }

  /** That exception is real: a failure in ready_v2 that is retried leads back. */
  lemma ReturnsForRetry(fixture: string, events: seq<Event>)
    requires Run(fixture, events).phase == ReadyV2
    ensures
      var more := [OperationFailed(RevisionFailed), RetryStarted];
      Run(fixture, events + more).phase == SubmittingRevision && Kept(Run(fixture, events), Run(fixture, events + more))
  {
    var more := [OperationFailed(RevisionFailed), RetryStarted];
    LastEvent(fixture, events, more);
    LastEvent(fixture, events, more[..1]);
    assert more[..1][..0] == [] && events + [] == events;
    assert Run(fixture, events + more[..1]).phase == RetryableFailure;
    RunKeeps(fixture, events, more);
  }

  // Failures reported as revision_failed

  /** What the three events of a failed, retried and then successful revision lead to. */
  function Retried(s: State, revision: Revision): State {
    Reduce(Reduce(Reduce(s, OperationFailed(RevisionFailed)), RetryStarted), RevisionSucceeded(revision))
  }

  /**
   * A failure reported as revision_failed can be retried from any phase but configure and deleting, so the next
   * revision is shown whatever artifacts there are: version 2 is complete exactly when the state was before.
   */
  lemma RetryCompletesExactly(s: State, revision: Revision)
    requires revision.resultVersion == 2 && revision.humanRevisionCount == 1
    ensures Retried(s, revision).phase == ReadyV2 <==>
            s.phase != Configure && s.phase != Deleting
    ensures s.phase != Configure && s.phase != Deleting ==>
              CanExport(Retried(s, revision), 2) && (Complete(Retried(s, revision)) <==> Complete(s))
  {
  }

  /** For example, both versions can be exported before anything was uploaded. */
  lemma IncompleteVersionTwo(fixture: string)
    ensures exists events ::
              var s := Run(fixture, events);
              s.phase == ReadyV2 && CanExport(s, 1) && s.upload.None? && s.composition.None?
  {
    var revision := Revision("", 2, 1);
    var events := [UploadStarted, OperationFailed(RevisionFailed), RetryStarted, RevisionSucceeded(revision)];
    assert events[..3] == [UploadStarted, OperationFailed(RevisionFailed), RetryStarted];
    assert events[..3][..2] == [UploadStarted, OperationFailed(RevisionFailed)];
    assert events[..3][..2][..1] == [UploadStarted];
    assert events[..3][..2][..1][..0] == [];
    assert Run(fixture, events[..3][..2][..1]).phase == Uploading;
    assert Run(fixture, events[..3][..2]).phase == RetryableFailure;
    assert Run(fixture, events[..3]).phase == SubmittingRevision;
    assert Run(fixture, events).phase == ReadyV2;
  }

  /** revision_failed is only reported when version 1 was complete. */
  predicate Disciplined(fixture: string, events: seq<Event>) {
    forall i {:trigger events[..i]} :: 0 <= i < |events| && events[i] == OperationFailed(RevisionFailed) ==>
      Complete(Run(fixture, events[..i])) || Run(fixture, events[..i]).phase in {Configure, Deleting}
  }

  predicate ShowsComplete(s: State) {
    s.phase in {SubmittingRevision, ReadyV2, RetryableFailure} || s.visible != [] ==> Complete(s)
  }

  lemma ReduceShowsComplete(s: State, event: Event)
    requires Exact(s) && Chained(s) && ShowsComplete(s)
    requires event == OperationFailed(RevisionFailed) ==> Complete(s) || s.phase in {Configure, Deleting}
    ensures ShowsComplete(Reduce(s, event))
  {
  }

  /** Under that discipline, a revision is only awaited, retried or shown for a complete version 1. */
  lemma {:induction false} DisciplinedIsComplete(fixture: string, events: seq<Event>)
    requires Disciplined(fixture, events)
    ensures ShowsComplete(Run(fixture, events))
  {
    if |events| > 0 {
      var before, event := events[..|events| - 1], events[|events| - 1];
      forall i | 0 <= i < |before|
        ensures before[..i] == events[..i]
      {
      }
      assert Disciplined(fixture, before);
      DisciplinedIsComplete(fixture, before);
      AlwaysSound(fixture, before);
      assert events[..|before|] == before;
      hide Reduce, Exact, Chained, ShowsComplete, Complete;
      ReduceShowsComplete(Run(fixture, before), event);
    }
  }
}

# CultureShift, verified

A Dafny model of the server and client state of CultureShift: an application that takes one advertisement through
analysis, a confirmed Brand Lock, a draft, a composition and a review (version 1), and then through at most one human
revision (version 2). `dafny verify dfyconfig.toml` checks everything.

## What is modelled

* **The run lifecycle and revision protocol.** `Tables` holds the four tables of the run store as a value with one
  function for each transaction; `Repository` is the object that updates the same tables statement by statement, rolls
  them back when it raises, and is proved to do what those functions say. `Protocol` is the concurrent system: any
  number of calls, each a sequence of transactions, artifact-store operations and decisions, with an exception or a
  stop possible at every point, also between the last transaction of a call and its return, interleaving freely.
  `Lifecycle`, `Transactions`, `Invariant` and `Preservation` find and prove an inductive invariant; `Guarantees` and
  `Answers` say what it means for clients, over every finite sequence of actions. `Stranding` says exactly when a run
  loses its owner for ever, and `Progress` what can still be reached from a state. `Worlds` and `Services` are the composition and revision services as imperative code, with other calls
  running at every point where they can, and are shown to take only steps of `Protocol`, so that every theorem about its
  runs is a theorem about them.
* **The rules the protocol calls**: `Domain`, `Contracts`, `Confirmation`, `AnalysisPipeline`, `Drafts`, `Revising`,
  `Critic`.
* **The compositor**: geometry and pixels in `Compositor`, mixed Chinese and Latin text in `TextUnits` and `TextWrap`.
* **Stores**: temporary assets with tombstones and crash points (`AssetFiles`, `AssetStorage`, `AssetRuns`), the
  lock-free cloud variant (`CloudAssets`), immutable composition artifacts (`CompositionStorage`).
* **The fixed-window rate limiter** (`RateLimiter`) and **the Studio reducer** (`Studio`).

Times are integers (microseconds where a constant has a unit), identifiers are numbers or strings, and raised exceptions
are values (`Err`, `None`, `Raised`). SHA-256 is taken as injective. A method that works step by step in the source is a
method here; its contract refers to a function only where lemmas about that function say what it means.

## What was found

* A run changes status at most eight times, although the transition table has cycles, every run that can be created can
  reach eight, and every unconditional status write is a transition of that table in every reachable state.
* No check of the revision service after a successful claim can fail by itself; only the environment can
  (`OnlyTheEnvironmentFails`).
* `complete_revision` reads the revision again after its transaction, inside the `try` of `_execute`. An exception there,
  or a lost acknowledgement of the commit, makes the handler delete the artifact that version 2 names: the caller is
  told that the revision failed, the run is ready, and every replay names an artifact that is gone
  (`Answers.LateFaultLosesArtifact`, reached in `Progress.NamedArtifactCanGoMissing`). A lost acknowledgement of
  `save_composition`'s commit does the same to version 1. This is the only way: a named artifact is missing exactly when
  its call got an exception between its last transaction and its return and the handler deleted it
  (`Answers.ArtifactsAccountedFor`), and without such an exception the store and the rows agree
  (`Answers.ExactlyTheNamed`).
* A run is left locked with no call to own it, for ever, exactly when its owner stops; gets an exception during an
  analysis it has claimed, or in the re-check of a retry, or one outside the retryable list while it makes a revision;
  loses the failure write after a retryable one; or fails to delete its artifact (`Stranding.StrandsExactly`,
  `Stranding.StrandedForever`).
* The confirmation accepts reordered benefits and fewer localizable fields, but the draft generator demands the analysed
  lock. A confirmed run can get a draft exactly when its lock is the analysed one and the source is in the language the
  direction starts from; otherwise it stays in progress for ever (`Progress.DraftPossibleExactly`).
* Part files of an interrupted composition save make the next save of the same artifact fail, and that one removes them
  (`CompositionStorage.StalePartsStopOneSave`).
* The rate limiter lets through fewer than twice its limit in any stretch as long as its window, and that bound is
  reached.
* The Studio reducer can show version 2 without version 1: `operation_failed` with the code `revision_failed` can be
  retried from almost any phase (`IncompleteVersionTwo`, exactly when in `RetryCompletesExactly`, and a discipline that
  rules it out in `DisciplinedIsComplete`).
* `purge_expired` is stopped by a tombstone that was begun and not finished; the failed attempt removes the obstacle
  (`AssetStorage.TemporaryAssetStore.PurgeExpired`, `AssetStorage.TemporaryAssetStore.Delete`).

## Model

| member | source | states |
|---|---|---|
| `Answers.OneAnswerForEachRun` | src/cultureshift/revision_service.py:119-173 | after any interleaving, any two feedback or retry calls that succeeded for one run returned the same response, the one its stored version 1 and revision determine, and the run is ready |
| `Answers.FeedbackOutcome` | src/cultureshift/repository.py:494-573 | in every reachable state, which of conflict, replay, in progress, limit reached, wrong state or a new claim a feedback call gets, decided by the key, the fingerprint and the stored operations; the replay carries the answer of the stored revision, also after a retry; a refusal changes nothing |
| `Answers.RetryOutcome` | src/cultureshift/repository.py:627-714 | the same for retry calls: one retry is claimed, with the changes of the failed feedback, and only after a retryable failure |
| `Answers.RevisedIsReady` | src/cultureshift/repository.py:723-727 | a stored revision has left the run ready, its report is not a rejection, and its issues are a subsequence of those of version 1 |
| `Answers.FinishedStays` | src/cultureshift/revision_service.py:119-334 | no step of any call changes the answer of a finished call |
| `Answers.OnlyTheEnvironmentFails` | src/cultureshift/revision_service.py:159-289 | after a claim, the stored retry decision is confirmed, the guard on the seven reads passes, review and response meet their contracts, complete_revision accepts and its call can return the stored response, whatever other calls do in between |
| `Stranding.StrandsExactly` | src/cultureshift/revision_service.py:143-334 | in every reachable state and for every enabled action, a run that had an owner or needed none is left locked without one if and only if the action is its owner stopping, an exception of the owner that no handler records, or a lost deletion or failure write of its handler |
| `Stranding.StrandedForever` | src/cultureshift/revision_service.py:298-334 | such a run never changes again, whatever is called afterwards |
| `Answers.ArtifactsAccountedFor` | src/cultureshift/composition_service.py:99-178 | at every moment each stored artifact is named by one persisted version, held by one call in flight, or left by a call that stopped or could not delete it; a named artifact is missing iff the call that stored it got an exception after its last transaction and its handler deleted it; no two versions share one |
| `Answers.ArtifactConservation` | src/cultureshift/revision_service.py:223-334 | without a stop or a failing deletion, whenever no call holds an artifact, the store has exactly the artifacts that persisted versions name, apart from those deleted after such a late exception |
| `Answers.ExactlyTheNamed` | src/cultureshift/revision_service.py:223-334 | if moreover no call gets an exception between its last transaction and its return, the store has exactly the artifacts that persisted versions name |
| `Answers.LateFaultLosesArtifact` | src/cultureshift/revision_service.py:287-334 | from every reachable state in which a call has committed its revision: an exception before it returns, in whichever handler, leaves the run ready with version 2 stored, its named artifact deleted and the caller told that the revision failed |
| `Answers.CommittedReturns` | src/cultureshift/repository.py:778-797 | from the same states the call can also return the stored response, with the run ready |
| `Answers.RacingGenerates` | src/cultureshift/composition_service.py:69-178 | racing generate calls that return all return the stored composition, generated once; its artifact is in the store unless the call that stored it got an exception before it returned and deleted it |
| `Answers.OneLockThroughout` | src/cultureshift/draft_generation.py:115-154 | in every reachable state: the confirmed lock matches the requested one, request, analysis, confirmation and brief locks are equal once there is a draft, both versions show the lock's logo and product UI and keep its call to action and facts, hypotheses stay pending for the target market, and no report has a brand-lock or fact issue |
| `Progress.DraftPossibleExactly` | src/cultureshift/draft_generation.py:115-131 | in every reachable state a confirmed run without a draft can still get one iff the confirmed lock equals the analysed one and the source is in the locale of the direction; otherwise it is in progress after every continuation |
| `Guarantees.ReachableInv` | src/cultureshift/repository.py:494-797 | the invariant of tables, calls and artifacts holds after every sequence of actions |
| `Guarantees.LedgerTheorem` | src/cultureshift/repository.py:504-797 | in every reachable state: one operation of each kind for a run, at most one in progress and then the run is too, a revision row iff the counter is 1 iff an operation succeeded, equal responses of succeeded operations, attempts counted by retry rows |
| `Guarantees.StatusWritesAllowed` | src/cultureshift/domain.py:29-53 | every status change of every enabled action in every reachable state is in the transition table |
| `Guarantees.AtMostEightStatusChanges` | src/cultureshift/domain.py:29-53 | no run changes status more than eight times in any sequence of actions |
| `Progress.EightChangesReached` | src/cultureshift/domain.py:29-53 | for every valid request some sequence of actions changes the status of its run eight times, ending with a version 2 delivered by the retry |
| `Progress.NamedArtifactCanGoMissing` | src/cultureshift/repository.py:795-797 | for every valid request some sequence of actions ends with a persisted version naming an artifact that is not stored |
| `Guarantees.WriteOnceForever` | src/cultureshift/repository.py:895-995 | over any continuation, request, analysis, lock, draft, composition and critique never change once set, operations keep key and request, a succeeded one its answer, and a revised run does not change at all |
| `Guarantees.DecodersNeverCorrupt` | src/cultureshift/repository.py:800-863 | no decoder meets columns that do not belong together, and a composition is stored iff the generation counter is 1 |
| `Preservation.EveryStepKeeps` | src/cultureshift/repository.py:139-150 | every action keeps the invariant; an action of a call changes at most its own run and call, and a locked run only under its owner |
| `Preservation.RecheckAlwaysPasses` | src/cultureshift/revision_service.py:163-173 | the decision stored with a claimed retry is the one that decide_retry makes again from the attempt counter |
| `Preservation.ReadsAreOneSnapshot` | src/cultureshift/revision_service.py:181-197 | the seven reads of _execute, made at different times, equal the run's rows as they are now, and pass the guard |
| `Preservation.RevisionAccepted` | src/cultureshift/repository.py:716-797 | complete_revision accepts the record and response of the call that owns the operation |
| `Preservation.ResponseValid` | src/cultureshift/contracts.py:515-547 | the response of a version two built from a complete run satisfies the validators of RevisionCompleted |
| `Transactions.CreateKeeps` | src/cultureshift/repository.py:314-345 | creating a run keeps the table invariant and every other run |
| `Transactions.ClaimAnalysisKeeps` | src/cultureshift/repository.py:1120-1139 | the claim keeps the table invariant, moves only its run, and a winner finds the run in progress |
| `Transactions.StoreAnalysisKeeps` | src/cultureshift/repository.py:1141-1182 | an admissible analysis stored by the winner keeps the invariant |
| `Transactions.StoreFailureKeeps` | src/cultureshift/repository.py:1259-1288 | the unconditional failure write keeps the invariant and the transition table while the run is under analysis |
| `Transactions.ConfirmKeeps` | src/cultureshift/repository.py:1184-1257 | confirming keeps the invariant, and its answer is the stored confirmation |
| `Transactions.SaveDraftKeeps` | src/cultureshift/repository.py:865-940 | saving a generated draft keeps the invariant, and its answer is the stored draft |
| `Transactions.SaveCompositionKeeps` | src/cultureshift/repository.py:942-996 | saving a composition made under the lock keeps the invariant; a refusal as immutable means one is stored |
| `Transactions.SaveCritiqueKeeps` | src/cultureshift/repository.py:998-1068 | saving the report of the stored artifacts keeps the invariant, and its answer is the stored report |
| `Transactions.ClaimFeedbackKeeps` | src/cultureshift/repository.py:494-573 | a feedback claim keeps the invariant, and a new operation is the open one of its run |
| `Transactions.ClaimRetryKeeps` | src/cultureshift/repository.py:627-714 | a retry claim keeps the invariant, and a new operation carries the failed one's request and decision |
| `Transactions.FailOperationKeeps` | src/cultureshift/repository.py:575-625 | failing the open operation keeps the invariant although the status write has no condition |
| `Transactions.CompleteRevisionKeeps` | src/cultureshift/repository.py:716-797 | completing the open operation with a proper version two succeeds, keeps the invariant, and delivers one answer to both operations |
| `Transactions.VersionTwoAccepted` | src/cultureshift/repository.py:723-727 | the issues of a version two of a complete run are a subsequence of version 1's, and its verdict is no worse |
| `Lifecycle.StepPreserves` | src/cultureshift/repository.py:139-150 | a transaction on one run that keeps that run consistent keeps the whole store consistent |
| `Lifecycle.MarkOps` | src/cultureshift/repository.py:778-790 | marking operation rows in place keeps ids, keys and the lookup by run and kind |
| `Repository.ProjectRunRepository.Create` | src/cultureshift/repository.py:314-345 | result and tables of create, including both refusals after the first insert, which are rolled back |
| `Repository.ProjectRunRepository.Rollback` | src/cultureshift/repository.py:139-150 | the tables are those before the transaction |
| `Repository.ProjectRunRepository.ClaimAnalysis` | src/cultureshift/repository.py:1120-1139 | conditional update: one winner, None for the others |
| `Repository.ProjectRunRepository.CompleteAnalysis` | src/cultureshift/repository.py:1141-1182 | result and tables of the checks and the transaction run without interruption |
| `Repository.ProjectRunRepository.RecordFailure` | src/cultureshift/repository.py:1259-1288 | result and tables of the checks and the unconditional write |
| `Repository.ProjectRunRepository.ConfirmBrandLock` | src/cultureshift/repository.py:1184-1257 | idempotent for the stored lock, refused for another one, validated against the analysis otherwise; the final update cannot miss |
| `Repository.ProjectRunRepository.SaveDraft` | src/cultureshift/repository.py:865-940 | idempotent for the stored draft whatever its time, refused for another one, checked against lock and facts otherwise |
| `Repository.ProjectRunRepository.SaveComposition` | src/cultureshift/repository.py:942-996 | idempotent for the stored composition, refused for another one, checked against state, lock and counter otherwise; an exception after the commit leaves it stored |
| `Repository.ProjectRunRepository.SaveCritique` | src/cultureshift/repository.py:998-1068 | idempotent for the stored report, refused for another one, moves the run to ready or failed_final otherwise |
| `Repository.ProjectRunRepository.ClaimFeedback` | src/cultureshift/repository.py:494-573 | result and tables of the claim in every case |
| `Repository.ProjectRunRepository.FailOperation` | src/cultureshift/repository.py:575-625 | result and tables of failing an operation |
| `Repository.ProjectRunRepository.ClaimRetry` | src/cultureshift/repository.py:627-714 | result and tables of the claim in every case, including the attempt counter |
| `Repository.ProjectRunRepository.CompleteRevision` | src/cultureshift/repository.py:716-797 | result and tables of the completion; a refusal after the insert is rolled back; a retry also delivers to the feedback it repeats; the second read after the commit finds the new row, and an exception there leaves everything stored |
| `Worlds.World.Yield` | src/cultureshift/repository.py:139-150 | other calls take any enabled steps; the state reached is again reached by a sequence of actions, and the waiting call and its fresh artifact id are untouched |
| `Services.ReadFields` | src/cultureshift/revision_service.py:181-187 | each field is read in a transaction of its own, with other calls in between, and what was read is kept |
| `Services.CompositionService.Generate` | src/cultureshift/composition_service.py:69-178 | for any number of racing calls, exceptions at any point and any interleaving: protocol steps only, the call ends answered or refused, and its own artifact is left in the store only if it is the one of the composition returned or its deletion failed |
| `Services.CompositionService.Write` | src/cultureshift/composition_service.py:152-178 | from a saved artifact: hand over and return, or delete and replay the winner's composition, or delete and refuse, also when the exception comes after the commit |
| `Services.RevisionService.Execute` | src/cultureshift/revision_service.py:175-334 | whatever exceptions and interleavings, also after the commit: protocol steps only, the call ends answered or refused, and its artifact is left only with a success that names it or a failed deletion |
| `Services.RevisionService.Handle` | src/cultureshift/revision_service.py:289-334 | every handler deletes a saved artifact unless that raises, records a technical failure unless that write is lost or refused, and ends the call |
| `Services.RevisionService.SubmitFeedback` | src/cultureshift/revision_service.py:119-141 | a refused claim changes nothing; a succeeded operation is replayed without touching the tables; otherwise the answer is that of the executed operation |
| `Services.RevisionService.Retry` | src/cultureshift/revision_service.py:143-173 | the same for retries, with the re-check of the stored decision |
| `Confirmation.ConfirmationSound` | src/cultureshift/brand_lock_confirmation.py:20-40 | on duplicate-free locks the checks accept exactly the locks with the same six locked fields, a permutation of the analysed benefits and no field made localizable that was not |
| `Confirmation.ConfirmationPreorder` | src/cultureshift/brand_lock_confirmation.py:20-40 | the accepted relation is reflexive and transitive, and a confirmation is returned as proposed |
| `Confirmation.UniqueMultiset` | src/cultureshift/contracts.py:171-181 | in a duplicate-free sequence every element occurs once |
| `AnalysisPipeline.Analyze` | src/cultureshift/analysis_pipeline.py:111-135 | the try and repair steps compute the outcome function; repair happens at most once |
| `AnalysisPipeline.AnalysisExactly` | src/cultureshift/analysis_pipeline.py:64-135 | an analysis succeeds exactly when the request is valid and the reply, or its one repair, is structured, unflagged and has only pending hypotheses for the target market; it then carries the request's asset and lock |
| `Drafts.GenerateKeepsLock` | src/cultureshift/draft_generation.py:115-154 | generation succeeds exactly for a lock equal to the analysed one, a source in the locale of the direction and only pending hypotheses; the draft keeps lock, call to action, facts and hypotheses |
| `Revising.ReviseKeepsLock` | src/cultureshift/revision.py:36-67 | a revision succeeds exactly for the draft's own direction; it keeps every lock the draft keeps, changes headline and body only where asked, and leaves a readable draft readable |
| `Revising.GeneratedDraftReadable` | src/cultureshift/draft_generation.py:63-154 | every generated draft is within the readable lengths |
| `Critic.RunReview` | src/cultureshift/critic.py:70-178 | the appending loops and the status choice compute the review, and its report satisfies the validator |
| `Critic.AppendHypothesisIssues` | src/cultureshift/critic.py:118-152 | the loop appends one issue at most for each hypothesis, in order |
| `Critic.ReportValid` | src/cultureshift/contracts.py:241-271 | every report within the size limits satisfies the validators of CritiqueReport |
| `Critic.RejectedExactly` | src/cultureshift/critic.py:70-178 | a version is rejected exactly for refused safety evidence, a broken lock or an unsupported fact |
| `Critic.VerdictMonotone` | src/cultureshift/critic.py:153-165 | leaving issues out never makes the verdict worse |
| `Critic.RevisionNeverWorsens` | src/cultureshift/critic.py:70-178 | for any draft and requested changes, the issues of the second version are a subsequence of the first's, its verdict is no worse and its report stays within the limits |
| `Critic.DeduplicatedFacts` | src/cultureshift/critic.py:70-82 | removing repetitions keeps the elements, their first order and uniqueness |
| `Compositor.LayoutProtects` | src/cultureshift/composition.py:258-326 | for every thumbnail size the layers satisfy the contract and no two layers above the background share a pixel |
| `Compositor.ComposedFromLock` | src/cultureshift/composition.py:246-326 | composing succeeds exactly for the lock's own logo, one of its product UIs and its call to action, and the layers name those two assets |
| `Compositor.CompositeAll` | src/cultureshift/composition.py:315-326 | the in-place loop leaves at each position the layers stacked in order |
| `Compositor.AlphaComposite` | src/cultureshift/composition.py:315-326 | one layer drawn in place changes the canvas inside its bounds only |
| `Compositor.ProtectedPixels` | src/cultureshift/composition.py:258-326 | on the finished canvas a pixel inside a layer shows that layer over the background and nothing else |
| `TextUnits.SplitJoin` | src/cultureshift/composition.py:114-117 | splitting undoes joining on every list of words |
| `TextUnits.NormalizeProjects` | src/cultureshift/composition.py:114-117 | normalisation yields single inner spaces only and is idempotent |
| `TextUnits.BlankExactly` | src/cultureshift/composition.py:114-117 | the text has no words exactly when it is all whitespace |
| `TextUnits.SplitUnits` | src/cultureshift/composition.py:114-138 | the scan returns units that are single Chinese characters or maximal runs without spaces, and that give back the normalised text when rejoined; it raises exactly for a blank text |
| `TextUnits.UnitsUnique` | src/cultureshift/composition.py:114-138 | a text has only one such list of units |
| `TextWrap.WrapText` | src/cultureshift/composition.py:141-167 | the loop returns greedy lines within the limits, and raises exactly when a limit is not positive, the text is blank or no greedy lines within the limit exist, for any width |
| `TextWrap.GreedyUnique` | src/cultureshift/composition.py:149-167 | there is at most one greedy way to set the units |
| `TextWrap.StaysAhead` | src/cultureshift/composition.py:149-167 | with a monotone width, the k-th greedy line starts and ends no earlier than that of any setting that fits |
| `TextWrap.GreedyOptimal` | src/cultureshift/composition.py:149-167 | with a monotone width, greedy lines exist as soon as some setting fits and are never more |
| `TextWrap.WrapOptimal` | src/cultureshift/composition.py:141-167 | with a monotone width, wrapping succeeds iff some setting of the units fits within both limits, and uses the fewest lines |
| `TextWrap.LinesRejoin` | src/cultureshift/composition.py:149-167 | the lines contain exactly the units in their order |
| `TextWrap.LinesShowText` | src/cultureshift/composition.py:149-167 | whatever lines a text is wrapped into, reading them back gives the normalised text |
| `TextWrap.FitFont` | src/cultureshift/composition.py:170-192 | the largest tried size at which the text wraps and its box fits, and none exactly when no tried size works |
| `AssetFiles.LoadsOneCall` | src/cultureshift/asset_storage.py:198-244 | on any sane disk, load succeeds exactly when the files are those of one store call, without tombstone, from its creation up to its expiry, and returns its bytes and metadata |
| `AssetRuns.RunsSane` | src/cultureshift/asset_storage.py:118-308 | after any run of store, delete and purge calls from an empty directory, each complete, failed or cut short at any file operation, the disk is sane |
| `AssetRuns.CrashConsistent` | src/cultureshift/asset_storage.py:118-308 | so after any such run a load succeeds exactly when the files are those of one store call of the run, without tombstone and within its lifetime, and returns its bytes and metadata |
| `AssetStorage.TemporaryAssetStore.Store` | src/cultureshift/asset_storage.py:118-196 | checks in order; under any fault or crash the disk stays sane and only the asset's own files differ; success stores both files; a storage error leaves none of them |
| `AssetStorage.TemporaryAssetStore.WriteAsset` | src/cultureshift/asset_storage.py:173-186 | every prefix of the four file operations leaves a sane disk, and the tombstone re-checks pass |
| `AssetStorage.TemporaryAssetStore.Load` | src/cultureshift/asset_storage.py:198-244 | after any calls, load returns exactly what one store call wrote, while it is neither expired nor deleted |
| `AssetStorage.TemporaryAssetStore.Delete` | src/cultureshift/asset_storage.py:246-282 | success leaves the tombstone and no file of the asset; without faults it fails only on an unfinished tombstone, and then removes it |
| `AssetStorage.TemporaryAssetStore.PurgeExpired` | src/cultureshift/asset_storage.py:284-308 | the number returned is that of the expired assets, exactly they are deleted, and only tombstones past their lifetime go; without faults it succeeds exactly when no expired asset has an unfinished tombstone |
| `AssetStorage.TemporaryAssetStore.FindExpired` | src/cultureshift/asset_storage.py:288-296 | exactly the assets whose metadata is expired, each once |
| `AssetRuns.TombstoneLasts` | src/cultureshift/asset_storage.py:246-308 | over any run of calls with any outcomes, until a purge as late as seven days after its deletion, an id stays closed to load and every store call on it changes nothing |
| `AssetRuns.StoredLasts` | src/cultureshift/asset_storage.py:118-308 | over any run of calls with any outcomes that neither store nor delete the id, a stored asset loads with its exact bytes until a purge at its expiry |
| `AssetRuns.PurgeExact` | src/cultureshift/asset_storage.py:284-308 | after a purge, the files of expired assets are gone and every other asset file is as it was |
| `CloudAssets.LoadsOneCall` | src/cultureshift/asset_storage.py:392-421 | under any interleaving and failing requests, a load that returns gives bytes and metadata of one store call within its lifetime |
| `CloudAssets.TombstonesForever` | src/cultureshift/asset_storage.py:321-451 | no request ever removes a tombstone, and no store or load call begun after it succeeds on its id |
| `CompositionStorage.CompositionArtifactStore.Save` | src/cultureshift/composition_storage.py:59-101 | the same data again are accepted, other data for a stored artifact refused; for a failure or a stop at each of the four file operations, the files that are left, part files included |
| `CompositionStorage.CompositionArtifactStore.WriteFiles` | src/cultureshift/composition_storage.py:89-97 | at which of the four operations it ends, also because of a part file that is there already, and the files written by then |
| `CompositionStorage.CompositionArtifactStore.Load` | src/cultureshift/composition_storage.py:103-134 | what was saved is returned until it expires, and nothing else ever |
| `CompositionStorage.CompositionArtifactStore.Delete` | src/cultureshift/composition_storage.py:136-143 | removes both files of one artifact and says whether there were any; cut short, it removes the image only |
| `CompositionStorage.Immutable` | src/cultureshift/composition_storage.py:59-143 | over any saves, complete, failed or cut short, and deletions of others, a stored artifact does not change |
| `CompositionStorage.SavedByOneCall` | src/cultureshift/composition_storage.py:59-143 | after any such calls from an empty store, an artifact with both files is acceptable data with its own record, and exactly what one save call was given |
| `CompositionStorage.StalePartsStopOneSave` | src/cultureshift/composition_storage.py:87-100 | a save of a new artifact that nothing else disturbs succeeds iff no part file of it is left, and the one after it succeeds in any case |
| `RateLimiter.FixedWindowRateLimiter.Allow` | src/cultureshift/rate_limits.py:16-29 | the answer and the entries left, and the error for an empty key |
| `RateLimiter.SlidingWindow` | src/cultureshift/rate_limits.py:16-29 | for times in order, fewer than twice the limit of the calls on a key are let through in any half-open interval as long as the window |
| `RateLimiter.SlidingWindowTight` | src/cultureshift/rate_limits.py:16-29 | for every limit and every window of more than one tick some calls reach that bound |
| `RateLimiter.FixedWindow` | src/cultureshift/rate_limits.py:21-29 | the counter of a key is the number of calls let through in its window, at most the limit |
| `RateLimiter.KeysIndependent` | src/cultureshift/rate_limits.py:16-29 | leaving out the calls on other keys changes nothing for a key |
| `RateLimiter.AnswerIndependent` | src/cultureshift/rate_limits.py:16-29 | so every answer is the one the call would get if only its key were used |
| `Studio.AlwaysSound` | apps/web/src/studio/studio-state.ts:112-213 | after any events: up to ready_v1 a phase has exactly the artifacts of the phases before it, ready_v1 has a ready critique, each artifact rests on the one before, and version 2 is visible iff a revision is stored |
| `Studio.Offers` | apps/web/src/studio/studio-state.ts:80-110 | after any events: what can be exported, submitted, retried and confirmed, in terms of phase and artifacts |
| `Studio.RunKeeps` | apps/web/src/studio/studio-state.ts:112-213 | over any events without reset or completed deletion, stored artifacts are not replaced and visible versions are only added |
| `Studio.NoReturn` | apps/web/src/studio/studio-state.ts:112-213 | over such events the main path is never re-entered earlier, except from ready_v2 to submitting_revision |
| `Studio.ReturnsForRetry` | apps/web/src/studio/studio-state.ts:191-204 | that exception is real: a failure and a retry lead back from every state in ready_v2, with all artifacts kept |
| `Studio.RetryCompletesExactly` | apps/web/src/studio/studio-state.ts:161-204 | a failure reported as revision_failed, a retry and a success lead to version 2 from every phase but two, with a complete version 1 exactly when there was one before |
| `Studio.IncompleteVersionTwo` | apps/web/src/studio/studio-state.ts:177-204 | events after which both versions can be exported and nothing was uploaded |
| `Studio.DisciplinedIsComplete` | apps/web/src/studio/studio-state.ts:112-213 | if revision_failed is reported only for a complete version 1, every version shown and every revision awaited has one |

## Left out

- `src/cultureshift/app.py` apart from the order of its repository calls: routing, capability tokens, status codes.
- Calls for runs that do not exist: they are refused without effect and are not actions of the protocol.
- `update_status` and `increment_technical_attempt`: no caller outside tests. `initialize`: a one-off migration.
- SQL, JSON and Pydantic encoding, the `updated_at` column, UTC and time-zone checks, length and pattern validators of
  text fields, texts of issues. Claims of hypotheses are taken after case folding.
- The checks of an analysis request before the provider is called are a parameter of `AnalysisPipeline.Analyze`.
- Background requests and provider output: a failing provider is an exception of the protocol.
- Pillow, fonts, PNG encoding: widths, boxes, blending and thumbnails no larger than their box are parameters. A font
  file with the wrong digest is not part of this model.
- Runs whose completion or failure write is lost by the database itself: one flag of the protocol, not SQLite's own
  recovery.
- The bookkeeping of who accounts for an artifact in the protocol is a history variable; reads of one call may happen in
  any order, which allows more than the source does.
- In `Services` the artifact store is the map from artifacts to digests that `CompositionStorage` gives; a call keeps what
  it has read in its record; an answer that is refused may have another reason in the record than in the result.
- Answers.ArtifactConservation: artifacts in the local store only; the artifact store of the cloud deployment is not modelled.
- Power loss that reorders or undoes file operations; part files of the composition store that a failing clean-up of
  its own leaves. Directories are taken to exist.
- An exception after the commit of a claim is a stop of the protocol; after the commit of the last transaction of an
  analysis, a confirmation, a draft or a review the model shows the answer that the caller then does not get.
- A deletion of an artifact that raises has removed nothing; the handler it belongs to is then left by that exception.
- Failing reads of files: they raise and change nothing.
- Other threads of one process between the listing and the deletions of `purge_expired`.
- In `CloudAssets` one request that deletes several objects is one step.
- Relations between run ids of the client and of the server: the reducer does not compare them.
- The artifact key format of idempotency keys: calls are given the digests.

/**
 * The objects of one server together with the state of the concurrent system they are part of. Services act on the
 * objects; at every point where another call can run, Yield lets other calls take any steps of the protocol.
 */
module Worlds {
  import opened Prelude
  import opened Domain
  import opened Contracts
  import opened AnalysisPipeline
  import opened Confirmation
  import opened Drafts
  import opened Revising
  import opened Critic
  import opened Tables
  import opened Lifecycle
  import opened Repository
  import opened Protocol
  import opened Invariant
  import opened Preservation
  import opened Guarantees
  import opened Answers

  /** A step of another call, which draws artifact ids of its own. */
  predicate Foreign(a: Action, c: CallId, mine: ArtifactId) {
    && (!a.CreateRun? ==> a.call != c)
    && (a.RenderFirst? || a.RenderSecond? ==> a.rendering.artifact != mine)
  }

  lemma OthersKeep(s: Sys, a: Action, c: CallId)
    requires Inv(s) && Enabled(s, a) && c in s.calls && (!a.CreateRun? ==> a.call != c)
    ensures c in Next(s, a).calls && Next(s, a).calls[c] == s.calls[c]
  {
    hide Inv, Next, Enabled, DbStep, Locked, View, Exclusive;
    EveryStepKeeps(s, a);
    if a.CreateRun? {
      CreateKeepsTheCalls(s, a);
    }
  }

  lemma NeverSaved(s: Sys, a: Action, mine: ArtifactId)
    requires Enabled(s, a)
    requires a.RenderFirst? || a.RenderSecond? ==> a.rendering.artifact != mine
    ensures mine !in s.issued ==> mine !in Next(s, a).issued
    ensures mine !in s.artifacts ==> mine !in Next(s, a).artifacts
  {
    hide RenderLayers, Generate, Review, ReviseDraft, Composition.Valid, RevisionCompleted.Valid, ValidateConfirmation;
    hide SaveComposition, CompleteRevision, ClaimFeedback, ClaimRetry, FailOperation, ConfirmBrandLock, SaveDraft;
    hide SaveCritique, AnalysisResult, AnalysisFailureCode, Holding, RecheckPasses, Observe;
  }

  lemma TraceGoesOn(trace: seq<Action>, s: Sys, a: Action)
    requires Run(trace) == Some(s) && Enabled(s, a)
    ensures Run(trace + [a]) == Some(Next(s, a))
  {
    hide Next, Enabled;
    assert (trace + [a])[..|trace|] == trace;
  }

  class World {
    const repository: ProjectRunRepository
    /** The artifact store: the digest of what is saved for an artifact. */
    var artifacts: map<ArtifactId, string>
    var sys: Sys
    ghost var trace: seq<Action>

    /** The state of the system is reached by the steps taken so far, and the objects are in that state. */
    ghost predicate Linked()
      reads this, repository
    {
      Run(trace) == Some(sys) && repository.State() == sys.db && artifacts == sys.artifacts
    }

    constructor ()
      ensures Linked() && trace == [] && fresh(repository)
    {
      repository := new ProjectRunRepository();
      artifacts := map[];
      sys := INITIAL;
      trace := [];
    }

    method Act(a: Action)
      requires Run(trace) == Some(sys) && Enabled(sys, a)
      modifies this`sys, this`trace
      ensures sys == Next(old(sys), a) && Run(trace) == Some(sys) && trace == old(trace) + [a]
    {
      hide *;
      TraceGoesOn(trace, sys, a);
      sys := Next(sys, a);
      trace := trace + [a];
    }

    /** Other calls run for a while. */
    method Yield(c: CallId, mine: ArtifactId, others: seq<Action>)
      requires Linked() && c in sys.calls
      requires forall a :: a in others ==> Foreign(a, c, mine)
      modifies this, repository
      ensures Linked() && c in sys.calls && sys.calls[c] == old(sys).calls[c]
      ensures mine !in old(sys).issued ==> mine !in sys.issued
      ensures mine !in old(sys).artifacts ==> mine !in sys.artifacts
    {
      hide Next, Enabled, Run, Foreign, Inv;
      var i := 0;
      while i < |others|
        invariant 0 <= i <= |others| && Run(trace) == Some(sys)
        invariant c in sys.calls && sys.calls[c] == old(sys).calls[c]
        invariant mine !in old(sys).issued ==> mine !in sys.issued
        invariant mine !in old(sys).artifacts ==> mine !in sys.artifacts
      {
        var a := others[i];
        if Enabled(sys, a) {
          assert Foreign(a, c, mine);
          ReachableInv(trace);
          ForeignKeeps(sys, a, c, mine);
          Act(a);
        }
        i := i + 1;
      }
      repository.Rollback(sys.db);
      artifacts := sys.artifacts;
    }
  }

  lemma ForeignKeeps(s: Sys, a: Action, c: CallId, mine: ArtifactId)
    requires Inv(s) && Enabled(s, a) && c in s.calls && Foreign(a, c, mine)
    ensures c in Next(s, a).calls && Next(s, a).calls[c] == s.calls[c]
    ensures mine !in s.issued ==> mine !in Next(s, a).issued
    ensures mine !in s.artifacts ==> mine !in Next(s, a).artifacts
  {
    hide Inv, Next, Enabled;
    OthersKeep(s, a, c);
    NeverSaved(s, a, mine);
  }
}

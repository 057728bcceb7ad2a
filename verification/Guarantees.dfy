/** What the service promises, over every interleaving of calls, exceptions and stops. */
module Guarantees {
  import opened Prelude
  import opened Domain
  import opened Contracts
  import opened AnalysisPipeline
  import opened Confirmation
  import opened Drafts
  import opened Revising
  import opened Critic
  import opened Tables
  import opened Lifecycle
  import opened Transactions
  import opened Protocol
  import opened Invariant
  import opened Preservation

  lemma InitialInv()
    ensures Inv(INITIAL)
  {
  }

  lemma {:induction false} ReachableInv(actions: seq<Action>)
    requires Run(actions).Some?
    ensures Inv(Run(actions).value)
  {
    hide Inv, Next, Enabled;
    if |actions| == 0 {
      InitialInv();
    } else {
      var front := actions[..|actions| - 1];
      ReachableInv(front);
      EveryStepKeeps(Run(front).value, actions[|actions| - 1]);
    }
  }

  // Single steps

  lemma CreatedEvolves(s: Sys, r: RunId, request: RunCreate, at: int, q: RunId)
    requires Inv(s) && request.Valid() && q in s.db.runs
    ensures
      var next := Next(s, CreateRun(r, request, at));
      && q in s.db.contexts && q in next.db.runs && q in next.db.contexts
      && Evolves(View(s.db, q), View(next.db, q))
  {
    hide DbInv, CallsInv, ArtifactsInv, RunCreate.Valid, View, Evolves;
    RunKnown(s, q);
    CreateKeeps(s.db, r, ProjectRun(request.direction, Pending, [], at), request);
    EvolvesReflexive(q, View(s.db, q));
  }

  /** Whatever happens, every run keeps what it has and moves only along its lifecycle. */
  lemma EveryRunEvolves(s: Sys, a: Action, q: RunId)
    requires Inv(s) && Enabled(s, a) && q in s.db.runs
    ensures
      var next := Next(s, a);
      && q in s.db.contexts && q in next.db.runs && q in next.db.contexts
      && Evolves(View(s.db, q), View(next.db, q))
  {
    hide DbInv, CallsInv, ArtifactsInv, Next, View, Evolves, Locked, Exclusive;
    if a.CreateRun? {
      CreatedEvolves(s, a.run, a.request, a.at, q);
    } else {
      EveryStepKeeps(s, a);
      RunKnown(s, q);
      EvolvesReflexive(q, View(s.db, q));
    }
  }

  /**
   * Every status write that can happen is a transition of the table, also where the statement that
   * writes it has no condition on the old status.
   */
  lemma StatusWritesAllowed(actions: seq<Action>, a: Action, r: RunId)
    requires Run(actions).Some? && Enabled(Run(actions).value, a) && r in Run(actions).value.db.runs
    ensures
      var s := Run(actions).value;
      var next := Next(s, a);
      && r in next.db.runs
      && (next.db.runs[r].status == s.db.runs[r].status
          || next.db.runs[r].status in AllowedTransitions(s.db.runs[r].status))
  {
    hide Inv, Next, Enabled, WriteOnce, OpEvolves;
    ReachableInv(actions);
    EveryRunEvolves(Run(actions).value, a, r);
  }

  // Whole runs of the system

  /** How often the status of run r changed while these actions happened. */
  function StatusChanges(actions: seq<Action>, r: RunId): nat {
    if |actions| == 0 then 0
    else
      var front := actions[..|actions| - 1];
      var before, after := Run(front), Run(actions);
      StatusChanges(front, r)
      + if before.Some? && after.Some? && r in before.value.db.runs && r in after.value.db.runs
           && before.value.db.runs[r].status != after.value.db.runs[r].status
        then 1 else 0
  }

  lemma {:induction false} ChangesAndMovesLeft(actions: seq<Action>, r: RunId)
    requires Run(actions).Some?
    ensures
      var s := Run(actions).value;
      if r in s.db.runs then r in s.db.contexts && StatusChanges(actions, r) + MovesLeft(View(s.db, r)) <= 8
      else StatusChanges(actions, r) == 0
  {
    hide Inv, Next, Enabled, WriteOnce, OpEvolves;
    if |actions| > 0 {
      var front, a := actions[..|actions| - 1], actions[|actions| - 1];
      ChangesAndMovesLeft(front, r);
      ReachableInv(front);
      ReachableInv(actions);
      var s, next := Run(front).value, Run(actions).value;
      if r in s.db.runs {
        EveryRunEvolves(s, a, r);
      } else if r in next.db.runs {
        RunKnown(next, r);
      }
    }
  }

  /** Although the transition table has cycles, no run changes status more than eight times. */
  lemma AtMostEightStatusChanges(actions: seq<Action>, r: RunId)
    requires Run(actions).Some?
    ensures StatusChanges(actions, r) <= 8
  {
    ChangesAndMovesLeft(actions, r);
  }

  predicate Kept(v: RunView, w: RunView) {
    && w.run.direction == v.run.direction && w.run.createdAt == v.run.createdAt
    && WriteOnce(v.ctx, w.ctx)
    && OpEvolves(v.feedback, w.feedback) && OpEvolves(v.retry, w.retry)
    && (v.revision.Some? ==> w == v)
  }

  lemma KeptTransitive(u: RunView, v: RunView, w: RunView)
    requires Kept(u, v) && Evolves(v, w)
    ensures Kept(u, w)
  {
    hide DecodeDraft, DecodeConfirmation, DecodeCritique, StatusMoves;
  }

  lemma {:induction false} RunSplits(actions: seq<Action>, more: seq<Action>)
    requires Run(actions + more).Some?
    ensures Run(actions).Some?
  {
    hide Next, Enabled;
    if |more| == 0 {
      assert actions + more == actions;
    } else {
      assert (actions + more)[..|actions + more| - 1] == actions + more[..|more| - 1];
      RunSplits(actions, more[..|more| - 1]);
    }
  }

  /**
   * Write-once, over any number of further steps: request, analysis, confirmed lock, draft, composition
   * and critique never change once set, operations keep their key and request, a succeeded operation keeps
   * its answer, and nothing about a run changes once its revision is stored.
   */
  lemma {:induction false} WriteOnceForever(actions: seq<Action>, more: seq<Action>, r: RunId)
    requires Run(actions).Some? && Run(actions + more).Some? && r in Run(actions).value.db.runs
    ensures
      var s, t := Run(actions).value, Run(actions + more).value;
      && r in s.db.contexts && r in t.db.runs && r in t.db.contexts
      && Kept(View(s.db, r), View(t.db, r))
  {
    hide Inv, Next, Enabled, View, WriteOnce, OpEvolves, StatusMoves;
    var s := Run(actions).value;
    ReachableInv(actions);
    if |more| == 0 {
      assert actions + more == actions;
      RunKnown(s, r);
      KeptReflexive(View(s.db, r));
    } else {
      var front, a := more[..|more| - 1], more[|more| - 1];
      assert (actions + more)[..|actions + more| - 1] == actions + front;
      assert (actions + more)[|actions + more| - 1] == a;
      WriteOnceForever(actions, front, r);
      ReachableInv(actions + front);
      var t := Run(actions + front).value;
      EveryRunEvolves(t, a, r);
      KeptTransitive(View(s.db, r), View(t.db, r), View(Next(t, a).db, r));
    }
  }

  lemma KeptReflexive(v: RunView)
    ensures Kept(v, v)
  {
  }

  /** No row decoder ever finds columns that do not belong together. */
  lemma DecodersNeverCorrupt(actions: seq<Action>, r: RunId)
    requires Run(actions).Some? && r in Run(actions).value.db.contexts
    ensures
      var c := Run(actions).value.db.contexts[r];
      && !DecodeConfirmation(c).Corrupt? && !DecodeDraft(c).Corrupt? && !DecodeCritique(c).Corrupt?
      && (c.initialGenerationCount == 1 <==> c.composition.Some?) && c.initialGenerationCount <= 1
  {
    hide Next, Enabled, CallsInv, ArtifactsInv, OpsInv, Chain, Ledger;
    ReachableInv(actions);
    Layers(r, View(Run(actions).value.db, r));
  }

  // The ledger of revisions

  function OpsOf(ops: seq<Operation>, r: RunId): set<nat> {
    set i | 0 <= i < |ops| && ops[i].runId == r
  }

  function RetriesOf(ops: seq<Operation>, r: RunId): set<nat> {
    set i | 0 <= i < |ops| && ops[i].runId == r && ops[i].kind.Retry?
  }

  /** What the operation table says about one run in every reachable state. */
  ghost predicate LedgerHolds(db: Db, r: RunId)
    requires r in db.runs && r in db.contexts
  {
    var ops, c := db.operations, db.contexts[r];
    // one operation of each kind
    && (forall i, j :: i in OpsOf(ops, r) && j in OpsOf(ops, r) && ops[i].kind == ops[j].kind ==> i == j)
    // at most one in progress, and then the run is
    && (forall i :: i in OpsOf(ops, r) && ops[i].state.OpInProgress? ==>
          && db.runs[r].status.InProgress?
          && forall j :: j in OpsOf(ops, r) && ops[j].state.OpInProgress? ==> j == i)
    // a revision row, the counter and a succeeded operation come together
    && (r in db.revisions <==> c.humanRevisionCount == 1)
    && (r in db.revisions <==> exists i :: i in OpsOf(ops, r) && ops[i].state.OpSucceeded?)
    && c.humanRevisionCount <= 1
    // all succeeded operations answer alike
    && (forall i, j ::
          i in OpsOf(ops, r) && j in OpsOf(ops, r) && ops[i].state.OpSucceeded? && ops[j].state.OpSucceeded?
          ==> ops[i].publicResponse.Some? && ops[i].publicResponse == ops[j].publicResponse)
    // the attempts are the retries, of which there is at most one
    && c.technicalAttemptCount == |RetriesOf(ops, r)|
  }

  /** An operation of a run is the feedback or the retry of its view. */
  lemma OpInView(db: Db, r: RunId, i: nat)
    requires DbInv(db) && r in db.runs && i in OpsOf(db.operations, r)
    ensures
      var v := View(db, r);
      && (db.operations[i].kind.Feedback? ==> v.feedback == Some(db.operations[i]))
      && (db.operations[i].kind.Retry? ==> v.retry == Some(db.operations[i]))
      && db.operations[i].id == i
  {
    hide Consistent;
    FoundByKind(db, i);
  }

  lemma ViewInOps(db: Db, r: RunId, kind: OperationKind)
    requires DbInv(db) && r in db.runs && Find(db.operations, r, kind).Some?
    ensures
      var op := Find(db.operations, r, kind).value;
      op.id in OpsOf(db.operations, r) && db.operations[op.id] == op && op.kind == kind
  {
    hide Consistent;
  }

  /** The same facts on a view, where there are only two operations to look at. */
  lemma LedgerCases(r: RunId, v: RunView)
    requires Consistent(r, v)
    ensures v.ctx.humanRevisionCount == if v.revision.Some? then 1 else 0
    ensures v.ctx.technicalAttemptCount == if v.retry.Some? then 1 else 0
    ensures v.revision.Some? <==> v.feedback.Some? && v.feedback.value.state.OpSucceeded?
    ensures v.retry.Some? ==> v.feedback.Some?
    ensures v.retry.Some? && v.retry.value.state.OpSucceeded? ==>
      v.feedback.value.state.OpSucceeded? && v.feedback.value.publicResponse == v.retry.value.publicResponse
    ensures v.feedback.Some? && v.feedback.value.state.OpSucceeded? ==> v.feedback.value.publicResponse.Some?
    ensures v.feedback.Some? && v.feedback.value.state.OpInProgress? ==> v.run.status.InProgress? && v.retry.None?
    ensures v.retry.Some? && v.retry.value.state.OpInProgress? ==>
      v.run.status.InProgress? && !v.feedback.value.state.OpInProgress?
  {
    hide Chain, VersionTwo;
  }

  lemma LedgerOfStore(db: Db, r: RunId)
    requires DbInv(db) && r in db.runs
    ensures r in db.contexts && LedgerHolds(db, r)
  {
    hide Consistent, OpsInv, Find;
    var ops, v := db.operations, View(db, r);
    LedgerCases(r, v);
    forall i | i in OpsOf(ops, r)
      ensures ops[i].kind.Feedback? ==> v.feedback == Some(ops[i])
      ensures ops[i].kind.Retry? ==> v.retry == Some(ops[i])
      ensures ops[i].id == i
    {
      OpInView(db, r, i);
    }
    if v.feedback.Some? {
      ViewInOps(db, r, Feedback);
    }
    if v.retry.Some? {
      ViewInOps(db, r, Retry);
      assert RetriesOf(ops, r) == {v.retry.value.id};
    } else {
      assert RetriesOf(ops, r) == {};
    }
  }

  /** Over every interleaving: one revision for each run, delivered once, by one feedback or its one retry. */
  lemma LedgerTheorem(actions: seq<Action>, r: RunId)
    requires Run(actions).Some? && r in Run(actions).value.db.runs
    ensures r in Run(actions).value.db.contexts && LedgerHolds(Run(actions).value.db, r)
  {
    hide DbInv, CallsInv, ArtifactsInv, Next, Enabled, LedgerHolds;
    ReachableInv(actions);
    LedgerOfStore(Run(actions).value.db, r);
  }
}

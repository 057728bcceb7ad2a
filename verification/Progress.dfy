/** What can still happen to a run: paths of the system that reach a draft, and one that takes every status change. */
module Progress {
  import opened Prelude
  import opened Domain
  import opened Contracts
  import opened AnalysisPipeline
  import opened Confirmation
  import opened Drafts
  import opened Revising
  import opened Critic
  import opened Compositor
  import opened Tables
  import opened Lifecycle
  import opened Transactions
  import opened Protocol
  import opened Invariant
  import opened Preservation
  import opened Guarantees
  import opened Answers

  // Paths

  /** The state after some more actions. */
  function StepsFrom(s: Sys, more: seq<Action>): Option<Sys> {
    if |more| == 0 then Some(s)
    else
      var before, a := StepsFrom(s, more[..|more| - 1]), more[|more| - 1];
      if before.Some? && Enabled(before.value, a) then Some(Next(before.value, a)) else None
  }

  predicate StatusDiffers(s: Sys, t: Sys, r: RunId) {
    r in s.db.runs && r in t.db.runs && s.db.runs[r].status != t.db.runs[r].status
  }

  /** How often the status of run r changes on the way. */
  function ChangesFrom(s: Sys, more: seq<Action>, r: RunId): nat {
    if |more| == 0 then 0
    else
      var before, after := StepsFrom(s, more[..|more| - 1]), StepsFrom(s, more);
      ChangesFrom(s, more[..|more| - 1], r)
      + if before.Some? && after.Some? && StatusDiffers(before.value, after.value, r) then 1 else 0
  }

  lemma {:induction false} StepsContinue(actions: seq<Action>, more: seq<Action>)
    requires Run(actions).Some?
    ensures Run(actions + more) == StepsFrom(Run(actions).value, more)
  {
    hide Next, Enabled;
    if |more| == 0 {
      assert actions + more == actions;
    } else {
      var front := more[..|more| - 1];
      StepsContinue(actions, front);
      assert (actions + more)[..|actions + more| - 1] == actions + front;
    }
  }

  lemma {:induction false} ChangesFromStart(actions: seq<Action>, r: RunId)
    ensures Run(actions) == StepsFrom(INITIAL, actions)
    ensures StatusChanges(actions, r) == ChangesFrom(INITIAL, actions, r)
  {
    hide Next, Enabled;
    if |actions| > 0 {
      ChangesFromStart(actions[..|actions| - 1], r);
    }
  }

  /** A path from s to t on which the status of run r changes k times. */
  ghost predicate Leads(s: Sys, more: seq<Action>, t: Sys, r: RunId, k: nat) {
    StepsFrom(s, more) == Some(t) && Inv(t) && r in t.db.runs && r in t.db.contexts && ChangesFrom(s, more, r) == k
  }

  /** One step further. */
  lemma Further(s: Sys, more: seq<Action>, t: Sys, r: RunId, k: nat, a: Action)
    requires Leads(s, more, t, r, k) && Enabled(t, a) && !a.CreateRun?
    ensures
      var u := Next(t, a);
      Leads(s, more + [a], u, r, if StatusDiffers(t, u, r) then k + 1 else k)
  {
    hide DbInv, CallsInv, ArtifactsInv, Next, Enabled, Evolves, View, Locked;
    EveryStepKeeps(t, a);
    StepKeys(t.db, Next(t, a).db, RunOf(t, a));
    assert (more + [a])[..|more|] == more;
  }

  /** A call id that is not in use. */
  lemma Unused(ids: set<nat>) returns (bound: nat)
    ensures forall id :: id in ids ==> id < bound
  {
    if ids == {} {
      bound := 0;
    } else {
      var id :| id in ids;
      var rest := Unused(ids - {id});
      bound := if id < rest then rest else id + 1;
      assert forall x :: x in ids ==> x == id || x in ids - {id};
    }
  }

  // Reading

  /** What has been read of this field is what is stored. */
  predicate Exactly(db: Db, r: RunId, field: Field, seen: Snapshot)
    requires r in db.runs && r in db.contexts
  {
    var c := db.contexts[r];
    match field
    case RunField => seen.run == Some(db.runs[r])
    case RequestField => seen.request == Some(c.request)
    case AnalysisField => seen.analysis == Read(c.analysis)
    case ConfirmationField => seen.confirmation == Read(Optional(DecodeConfirmation(c)))
    case DraftField => seen.draft == Read(Optional(DecodeDraft(c)))
    case CompositionField => seen.composition == Read(c.composition)
    case CritiqueField => seen.critique == Read(Optional(DecodeCritique(c)))
  }

  lemma ObserveExactly(db: Db, r: RunId, field: Field, seen: Snapshot)
    requires r in db.runs && r in db.contexts && Paired(db.contexts[r])
    ensures
      var more := Observe(db, r, field, seen);
      && more.Some? && Exactly(db, r, field, more.value)
      && (forall f :: Exactly(db, r, f, seen) ==> Exactly(db, r, f, more.value))
  {
    hide DecodeDraft, DecodeConfirmation, DecodeCritique;
  }

  predicate Reads(job: Job) {
    job.Analyzing? || job.Drafting? || job.Composing? || job.Reviewing? || job.Revising?
  }

  lemma ReadsField(t: Sys, c: CallId, field: Field)
    requires Inv(t) && c in t.calls && Reads(t.calls[c].job)
    ensures Enabled(t, ReadField(c, field)) && Mine(t, c)
    ensures
      var call := t.calls[c];
      var seen := Observe(t.db, call.run, field, call.seen);
      && seen.Some?
      && Next(t, ReadField(c, field)) == t.(calls := t.calls[c := call.(seen := seen.value)])
      && Exactly(t.db, call.run, field, seen.value)
      && (forall f :: Exactly(t.db, call.run, f, call.seen) ==> Exactly(t.db, call.run, f, seen.value))
  {
    hide DbInv, CallsInv, ArtifactsInv, SeenOk, JobOk, Observe, Exactly, Chain, Ledger;
    var r := t.calls[c].run;
    TheCall(t, c);
    RunKnown(t, r);
    Layers(r, View(t.db, r));
    ObserveExactly(t.db, r, field, t.calls[c].seen);
  }

  /** The call reads some fields and nothing else happens. */
  lemma {:induction false} ReadsFields(s: Sys, more: seq<Action>, t: Sys, r: RunId, k: nat, c: CallId,
                                       fields: seq<Field>) returns (longer: seq<Action>, u: Sys)
    requires Leads(s, more, t, r, k) && c in t.calls && t.calls[c].run == r && Reads(t.calls[c].job)
    ensures Leads(s, longer, u, r, k) && more <= longer
    ensures c in u.calls && u == t.(calls := t.calls[c := t.calls[c].(seen := u.calls[c].seen)])
    ensures forall f :: f in fields ==> Exactly(u.db, r, f, u.calls[c].seen)
  {
    hide Inv, Next, Enabled, StepsFrom, ChangesFrom, Observe, Exactly;
    if |fields| == 0 {
      longer, u := more, t;
      assert t.calls == t.calls[c := t.calls[c].(seen := t.calls[c].seen)];
    } else {
      var front, last := fields[..|fields| - 1], fields[|fields| - 1];
      var m, v := ReadsFields(s, more, t, r, k, c, front);
      ReadsField(v, c, last);
      Further(s, m, v, r, k, ReadField(c, last));
      longer, u := m + [ReadField(c, last)], Next(v, ReadField(c, last));
      assert u.calls == t.calls[c := t.calls[c].(seen := u.calls[c].seen)];
      assert forall f :: f in fields ==> f in front || f == last;
    }
  }

  /** A new call of one of the endpoints that begin with reads. */
  lemma Starts(s: Sys, more: seq<Action>, t: Sys, r: RunId, k: nat, endpoint: Endpoint)
    returns (longer: seq<Action>, u: Sys, c: CallId)
    requires Leads(s, more, t, r, k)
    ensures Leads(s, longer, u, r, k) && more <= longer && c in u.calls
    ensures u == t.(calls := t.calls[c := Call(r, EndpointJob(endpoint), NOTHING_READ)])
  {
    hide Inv, StepsFrom, ChangesFrom;
    c := Unused(t.calls.Keys);
    Further(s, more, t, r, k, Start(c, r, endpoint));
    longer, u := more + [Start(c, r, endpoint)], Next(t, Start(c, r, endpoint));
  }

  // From a confirmation to a draft

  function SourceLocale(direction: Direction): Locale {
    if direction.ChinaToUk? then ZhCn else EnGb
  }

  /** The confirmed lock is the analysed one, and the source is in the language that the direction starts from. */
  predicate Draftable(run: ProjectRun, c: Context) {
    && c.analysis.Some? && c.confirmedLock == Some(c.analysis.value.brandLock)
    && c.analysis.value.detectedLocale == SourceLocale(run.direction)
  }

  /** A context that differs in its draft columns only, and has a draft. */
  predicate OnlyDrafted(c: Context, d: Context) {
    && DecodeDraft(d).Present?
    && d == c.(brief := d.brief, adCopy := d.adCopy, factReferences := d.factReferences, ruleIds := d.ruleIds,
               draftGeneratedAt := d.draftGeneratedAt)
  }

  lemma GeneratedIsSaved(db: Db, r: RunId, at: int)
    requires r in db.runs && r in db.contexts && Consistent(r, View(db, r))
    requires Draftable(db.runs[r], db.contexts[r]) && DecodeDraft(db.contexts[r]).Absent?
    requires db.runs[r].status.InProgress?
    ensures
      var c := db.contexts[r];
      var art := Generate(c.analysis.value, c.confirmedLock.value, db.runs[r].direction);
      && art.Ok?
      && var draft :=
           Draft(art.value.brief, art.value.adCopy, art.value.factReferences, art.value.ruleIds, at);
         var out := SaveDraft(db, r, draft);
         && out.result.Ok? && out.db == db.(contexts := db.contexts[r := out.db.contexts[r]])
         && OnlyDrafted(c, out.db.contexts[r])
  {
    hide Generate, Ledger, ComposedUnder, ReviewedAs, DraftedFrom, ValidateConfirmation, Find;
    var c := db.contexts[r];
    Layers(r, View(db, r));
    GenerateKeepsLock(c.analysis.value, c.confirmedLock.value, db.runs[r].direction);
  }

  lemma WritesDraft(t: Sys, c: CallId, r: RunId, at: int)
    requires Inv(t) && c in t.calls && t.calls[c].job.Drafting? && t.calls[c].run == r
    requires r in t.db.runs && r in t.db.contexts
    requires forall f :: f in [RunField, AnalysisField, ConfirmationField, DraftField] ==>
               Exactly(t.db, r, f, t.calls[c].seen)
    requires t.db.runs[r].status.InProgress? && Draftable(t.db.runs[r], t.db.contexts[r])
    requires DecodeDraft(t.db.contexts[r]).Absent?
    ensures
      var a := WriteDraft(c, at);
      && Enabled(t, a)
      && var u := Next(t, a).db;
         && r in u.contexts && u == t.db.(contexts := t.db.contexts[r := u.contexts[r]])
         && OnlyDrafted(t.db.contexts[r], u.contexts[r])
  {
    hide DbInv, CallsInv, ArtifactsInv, Generate, SaveDraft, DecodeDraft, Find, Consistent, Draftable, OnlyDrafted;
    RunKnown(t, r);
    HasConfirmation(r, View(t.db, r));
    GeneratedIsSaved(t.db, r, at);
    var seen, fields := t.calls[c].seen, [RunField, AnalysisField, ConfirmationField, DraftField];
    assert RunField in fields && AnalysisField in fields && ConfirmationField in fields && DraftField in fields;
    assert Exactly(t.db, r, RunField, seen) && Exactly(t.db, r, AnalysisField, seen);
    assert Exactly(t.db, r, ConfirmationField, seen) && Exactly(t.db, r, DraftField, seen);
  }

  lemma HasConfirmation(r: RunId, v: RunView)
    requires Consistent(r, v) && Draftable(v.run, v.ctx)
    ensures DecodeConfirmation(v.ctx).Present? && v.ctx.analysis.Some?
    ensures DecodeConfirmation(v.ctx).value.brandLock == v.ctx.confirmedLock.value
  {
    hide Ledger, Chain;
  }

  /** A draft request goes through. */
  lemma DraftPhase(s: Sys, more: seq<Action>, t: Sys, r: RunId, k: nat, at: int)
    returns (longer: seq<Action>, u: Sys)
    requires Leads(s, more, t, r, k) && t.db.runs[r].status.InProgress?
    requires Draftable(t.db.runs[r], t.db.contexts[r]) && DecodeDraft(t.db.contexts[r]).Absent?
    ensures Leads(s, longer, u, r, k) && more <= longer
    ensures u.db == t.db.(contexts := t.db.contexts[r := u.db.contexts[r]])
    ensures OnlyDrafted(t.db.contexts[r], u.db.contexts[r])
  {
    hide Inv, Next, Enabled, StepsFrom, ChangesFrom, Exactly, OnlyDrafted, Draftable, DecodeDraft;
    var m, v, c := Starts(s, more, t, r, k, DraftEndpoint);
    var m', v' := ReadsFields(s, m, v, r, k, c, [RunField, AnalysisField, ConfirmationField, DraftField]);
    WritesDraft(v', c, r, at);
    Further(s, m', v', r, k, WriteDraft(c, at));
    longer, u := m' + [WriteDraft(c, at)], Next(v', WriteDraft(c, at));
  }

  /**
   * A confirmed run without a draft can still get one if and only if the confirmed lock is the analysed one, with
   * benefits and localizable fields as they were, and the source is in the locale the direction starts from.
   * Otherwise no calls whatever bring a draft, and the run stays in progress.
   */
  lemma DraftPossibleExactly(actions: seq<Action>, r: RunId)
    requires Run(actions).Some? && r in Run(actions).value.db.runs && r in Run(actions).value.db.contexts
    requires
      var c := Run(actions).value.db.contexts[r];
      DecodeConfirmation(c).Present? && DecodeDraft(c).Absent?
    ensures
      var db := Run(actions).value.db;
      Draftable(db.runs[r], db.contexts[r]) <==>
        exists more ::
          && Run(actions + more).Some? && r in Run(actions + more).value.db.contexts
          && DecodeDraft(Run(actions + more).value.db.contexts[r]).Present?
    ensures
      var db := Run(actions).value.db;
      !Draftable(db.runs[r], db.contexts[r]) ==>
        forall more :: Run(actions + more).Some? ==>
          r in Run(actions + more).value.db.runs && Run(actions + more).value.db.runs[r].status.InProgress?
  {
    hide Inv, Next, Enabled, DecodeDraft, DecodeConfirmation, Draftable;
    var s := Run(actions).value;
    ReachableInv(actions);
    if Draftable(s.db.runs[r], s.db.contexts[r]) {
      ConfirmedInProgress(actions, r);
      var more, u := DraftPhase(s, [], s, r, 0, 0);
      StepsContinue(actions, more);
      assert Run(actions + more) == Some(u);
    }
    if more :| Run(actions + more).Some? && r in Run(actions + more).value.db.contexts
               && DecodeDraft(Run(actions + more).value.db.contexts[r]).Present? {
      DraftedWasDraftable(actions, more, r);
    }
    if !Draftable(s.db.runs[r], s.db.contexts[r]) {
      forall more | Run(actions + more).Some?
        ensures r in Run(actions + more).value.db.runs
        ensures Run(actions + more).value.db.runs[r].status.InProgress?
      {
        StaysConfirmed(actions, more, r);
        if DecodeDraft(Run(actions + more).value.db.contexts[r]).Present? {
          DraftedWasDraftable(actions, more, r);
        } else {
          ConfirmedInProgress(actions + more, r);
        }
      }
    }
  }

  lemma StaysConfirmed(actions: seq<Action>, more: seq<Action>, r: RunId)
    requires Run(actions).Some? && r in Run(actions).value.db.runs && r in Run(actions).value.db.contexts
    requires DecodeConfirmation(Run(actions).value.db.contexts[r]).Present? && Run(actions + more).Some?
    ensures
      var db := Run(actions + more).value.db;
      && r in db.runs && r in db.contexts && DecodeConfirmation(db.contexts[r]).Present?
      && !DecodeDraft(db.contexts[r]).Corrupt?
  {
    hide Next, Enabled, Inv, DecodeDraft, DecodeConfirmation;
    WriteOnceForever(actions, more, r);
    DecodersNeverCorrupt(actions + more, r);
  }

  lemma ConfirmedInProgress(actions: seq<Action>, r: RunId)
    requires Run(actions).Some? && r in Run(actions).value.db.runs && r in Run(actions).value.db.contexts
    requires
      var c := Run(actions).value.db.contexts[r];
      DecodeConfirmation(c).Present? && DecodeDraft(c).Absent?
    ensures Run(actions).value.db.runs[r].status.InProgress?
  {
    hide DbInv, CallsInv, ArtifactsInv, Next, Enabled, Consistent, Find;
    ReachableInv(actions);
    RunKnown(Run(actions).value, r);
    InProgressUntilDrafted(r, View(Run(actions).value.db, r));
  }

  lemma InProgressUntilDrafted(r: RunId, v: RunView)
    requires Consistent(r, v) && DecodeConfirmation(v.ctx).Present? && DecodeDraft(v.ctx).Absent?
    ensures v.run.status.InProgress?
  {
    hide Chain, VersionTwo;
  }

  lemma DraftedWasDraftable(actions: seq<Action>, more: seq<Action>, r: RunId)
    requires Run(actions).Some? && r in Run(actions).value.db.runs && r in Run(actions).value.db.contexts
    requires DecodeConfirmation(Run(actions).value.db.contexts[r]).Present?
    requires Run(actions + more).Some? && r in Run(actions + more).value.db.contexts
    requires DecodeDraft(Run(actions + more).value.db.contexts[r]).Present?
    ensures Draftable(Run(actions).value.db.runs[r], Run(actions).value.db.contexts[r])
  {
    hide DbInv, CallsInv, ArtifactsInv, Next, Enabled, Consistent, Find, DecodeDraft;
    WriteOnceForever(actions, more, r);
    ReachableInv(actions);
    ReachableInv(actions + more);
    var db, db' := Run(actions).value.db, Run(actions + more).value.db;
    RunKnown(Run(actions).value, r);
    RunKnown(Run(actions + more).value, r);
    DraftedIsDraftable(r, View(db', r));
    ConfirmedIsAnalysed(r, View(db, r));
  }

  lemma ConfirmedIsAnalysed(r: RunId, v: RunView)
    requires Consistent(r, v) && DecodeConfirmation(v.ctx).Present?
    ensures v.ctx.analysis.Some?
  {
    hide Chain, Ledger;
  }

  lemma DraftedIsDraftable(r: RunId, v: RunView)
    requires Consistent(r, v) && DecodeDraft(v.ctx).Present?
    ensures Draftable(v.run, v.ctx)
  {
    hide Ledger, ComposedUnder, ReviewedAs, ValidateConfirmation;
    Layers(r, v);
    GenerateKeepsLock(v.ctx.analysis.value, v.ctx.confirmedLock.value, v.run.direction);
  }

  // From a new run to a confirmation

  /** A provider's answer that passes every check: the right language, and no hypotheses or warnings. */
  function PlainReply(direction: Direction): Reply {
    Structured(ProviderResult(SourceLocale(direction), [], [], false, false))
  }

  function PlainAnalysis(request: RunCreate): Analysis {
    Analysis(request.sourceAsset, SourceLocale(request.direction), request.brandLock, [], [])
  }

  lemma ClaimsRun(t: Sys, c: CallId, r: RunId)
    requires Inv(t) && c in t.calls && t.calls[c].job.Analyzing? && t.calls[c].run == r
    requires r in t.db.runs && r in t.db.contexts && t.db.runs[r].status.Pending?
    requires Exactly(t.db, r, RunField, t.calls[c].seen) && Exactly(t.db, r, RequestField, t.calls[c].seen)
    ensures Enabled(t, ClaimRun(c))
    ensures Next(t, ClaimRun(c)) == At(t.(db := WithStatusOf(t.db, r, InProgress)), c, Won)
  {
    hide Inv;
  }

  lemma Analyses(t: Sys, c: CallId, r: RunId)
    requires Inv(t) && c in t.calls && t.calls[c].job.Won? && t.calls[c].run == r
    requires r in t.db.runs && r in t.db.contexts && t.calls[c].seen.request == Some(t.db.contexts[r].request)
    ensures
      var request := t.db.contexts[r].request;
      var reply := PlainReply(request.direction);
      && Enabled(t, Analyse(c, None, reply, reply))
      && Next(t, Analyse(c, None, reply, reply)) == At(t, c, Analyzed(PlainAnalysis(request), false))
  {
    hide Inv;
  }

  lemma ChecksAnalysis(t: Sys, c: CallId, r: RunId)
    requires Inv(t) && c in t.calls && t.calls[c].run == r && r in t.db.runs && r in t.db.contexts
    requires t.calls[c].job == Analyzed(PlainAnalysis(t.db.contexts[r].request), false)
    requires t.db.runs[r].status.InProgress?
    ensures
      var checked := AnalysisChecked(PlainAnalysis(t.db.contexts[r].request), false,
                                     t.db.runs[r].(status := AwaitingBrandLock));
      Enabled(t, ReadForAnalysis(c)) && Next(t, ReadForAnalysis(c)) == At(t, c, checked)
  {
    hide Inv;
  }

  lemma StoresAnalysis(t: Sys, c: CallId, r: RunId)
    requires Inv(t) && c in t.calls && t.calls[c].run == r && r in t.db.runs && r in t.db.contexts
    requires t.calls[c].job.AnalysisChecked? && t.calls[c].job.updated.status.AwaitingBrandLock?
    requires t.calls[c].job.analysis == PlainAnalysis(t.db.contexts[r].request)
    requires t.db.runs[r].status.InProgress?
    ensures
      var u := Next(t, WriteAnalysis(c)).db;
      && Enabled(t, WriteAnalysis(c)) && r in u.runs && r in u.contexts
      && u.runs[r] == t.db.runs[r].(status := AwaitingBrandLock)
      && u.contexts[r].request == t.db.contexts[r].request
      && u.contexts[r].analysis == Some(PlainAnalysis(t.db.contexts[r].request))
  {
    hide Inv;
  }

  /** An analysis goes through: two status changes. */
  lemma AnalysisPhase(s: Sys, more: seq<Action>, t: Sys, r: RunId, k: nat) returns (longer: seq<Action>, u: Sys)
    requires Leads(s, more, t, r, k) && t.db.runs[r].status.Pending?
    ensures Leads(s, longer, u, r, k + 2)
    ensures u.db.runs[r] == t.db.runs[r].(status := AwaitingBrandLock)
    ensures u.db.contexts[r].analysis == Some(PlainAnalysis(u.db.contexts[r].request))
  {
    hide Inv, Next, Enabled, StepsFrom, ChangesFrom;
    var m, v, c := Starts(s, more, t, r, k, AnalyzeEndpoint);
    var fields := [RunField, RequestField];
    m, v := ReadsFields(s, m, v, r, k, c, fields);
    assert fields[0] == RunField && fields[1] == RequestField;
    var reply := PlainReply(t.db.contexts[r].request.direction);
    ClaimsRun(v, c, r);
    Further(s, m, v, r, k, ClaimRun(c));
    m, v := m + [ClaimRun(c)], Next(v, ClaimRun(c));
    Analyses(v, c, r);
    Further(s, m, v, r, k + 1, Analyse(c, None, reply, reply));
    m, v := m + [Analyse(c, None, reply, reply)], Next(v, Analyse(c, None, reply, reply));
    ChecksAnalysis(v, c, r);
    Further(s, m, v, r, k + 1, ReadForAnalysis(c));
    m, v := m + [ReadForAnalysis(c)], Next(v, ReadForAnalysis(c));
    StoresAnalysis(v, c, r);
    Further(s, m, v, r, k + 1, WriteAnalysis(c));
    longer, u := m + [WriteAnalysis(c)], Next(v, WriteAnalysis(c));
  }

  lemma AwaitingFacts(r: RunId, v: RunView)
    requires Consistent(r, v) && v.run.status.AwaitingBrandLock?
    ensures v.ctx.analysis.Some? && DecodeConfirmation(v.ctx).Absent? && DecodeDraft(v.ctx).Absent?
    ensures v.ctx.request.direction == v.run.direction && v.ctx.request.brandLock.Valid()
  {
    hide DraftedFrom, ComposedUnder, ReviewedAs, ValidateConfirmation, Admissible, VersionTwo, BrandLock.Valid;
  }

  /** The analysed lock itself can be confirmed. */
  lemma LockConfirmed(db: Db, r: RunId)
    requires r in db.runs && r in db.contexts && db.runs[r].status.AwaitingBrandLock?
    requires db.contexts[r].analysis.Some? && DecodeConfirmation(db.contexts[r]).Absent?
    ensures
      var c := db.contexts[r];
      var lock, at := c.analysis.value.brandLock, db.runs[r].createdAt;
      var confirmed := c.(confirmedLock := Some(lock), confirmedAt := Some(at));
      ConfirmBrandLock(db, r, lock, at)
      == Outcome(db.(runs := db.runs[r := db.runs[r].(status := InProgress)],
                     contexts := db.contexts[r := confirmed]),
                 Ok(ConfirmationRecord(lock, at)))
  {
    hide ValidateConfirmation;
    var lock := db.contexts[r].analysis.value.brandLock;
    ConfirmationPreorder(lock, lock, lock);
  }

  lemma ConfirmsLock(t: Sys, c: CallId, r: RunId)
    requires Inv(t) && c !in t.calls && r in t.db.runs && r in t.db.contexts && t.db.runs[r].status.AwaitingBrandLock?
    requires t.db.contexts[r].analysis == Some(PlainAnalysis(t.db.contexts[r].request))
    ensures
      var a := Action.Confirm(c, r, t.db.contexts[r].request.brandLock, t.db.runs[r].createdAt);
      && Enabled(t, a)
      && var u := Next(t, a).db;
         && r in u.runs && r in u.contexts && u.runs[r] == t.db.runs[r].(status := InProgress)
         && u.contexts[r].analysis == t.db.contexts[r].analysis && u.contexts[r].request == t.db.contexts[r].request
         && Draftable(u.runs[r], u.contexts[r])
         && DecodeDraft(u.contexts[r]).Absent?
  {
    hide DbInv, CallsInv, ArtifactsInv, ConfirmBrandLock, Consistent, Find, BrandLock.Valid;
    RunKnown(t, r);
    AwaitingFacts(r, View(t.db, r));
    LockConfirmed(t.db, r);
  }

  lemma ConfirmationPhase(s: Sys, more: seq<Action>, t: Sys, r: RunId, k: nat) returns (longer: seq<Action>, u: Sys)
    requires Leads(s, more, t, r, k) && t.db.runs[r].status.AwaitingBrandLock?
    requires t.db.contexts[r].analysis == Some(PlainAnalysis(t.db.contexts[r].request))
    ensures Leads(s, longer, u, r, k + 1) && u.db.runs[r] == t.db.runs[r].(status := InProgress)
    ensures u.db.contexts[r].analysis == Some(PlainAnalysis(u.db.contexts[r].request))
    ensures Draftable(u.db.runs[r], u.db.contexts[r]) && DecodeDraft(u.db.contexts[r]).Absent?
  {
    hide Inv, Next, Enabled, StepsFrom, ChangesFrom, Draftable, DecodeDraft;
    var c := Unused(t.calls.Keys);
    ConfirmsLock(t, c, r);
    var a := Action.Confirm(c, r, t.db.contexts[r].request.brandLock, t.db.runs[r].createdAt);
    Further(s, more, t, r, k, a);
    longer, u := more + [a], Next(t, a);
  }

  // From a draft to a reviewed composition

  /** A rendering that fits: the two assets are what the registry says, and any thumbnail will do. */
  function PlainRendering(artifact: ArtifactId): Rendering {
    Rendering(artifact, LogoAsset, ProductUiAsset, Size(1, 1), Size(1, 1), EMPTY_DIGEST, 0)
  }

  const GENERATE_FIELDS: seq<Field> :=
    [CompositionField, RunField, RequestField, AnalysisField, ConfirmationField, DraftField]

  predicate Drafted(run: ProjectRun, c: Context) {
    run.status.InProgress? && DecodeDraft(c).Present? && c.composition.None?
  }

  lemma DraftedFacts(r: RunId, v: RunView)
    requires Consistent(r, v) && Drafted(v.run, v.ctx)
    ensures v.ctx.analysis.Some? && DecodeConfirmation(v.ctx).Present? && v.ctx.request.executionMode.Fixture?
    ensures v.ctx.confirmedLock == Some(DecodeConfirmation(v.ctx).value.brandLock)
    ensures v.ctx.initialGenerationCount == 0 && v.ctx.draftGeneratedAt.Some? && v.ctx.critique.None?
    ensures
      var lock := v.ctx.confirmedLock.value;
      && |lock.productUiAssetIds| > 0
      && DecodeDraft(v.ctx).value.adCopy.ctaActionMeaning == lock.ctaActionMeaning
  {
    DraftedKeeps(r, v);
    LockHasProductUi(r, v);
    hide Ledger, DraftedFrom, ComposedUnder, ReviewedAs, ValidateConfirmation, Admissible;
    Layers(r, v);
  }

  /** The guard of generate, on what it has read. */
  lemma SeenDrafted(db: Db, r: RunId, seen: Snapshot)
    requires r in db.runs && r in db.contexts && Consistent(r, View(db, r)) && Drafted(db.runs[r], db.contexts[r])
    requires forall f :: f in GENERATE_FIELDS ==> Exactly(db, r, f, seen)
    ensures seen.run == Some(db.runs[r]) && seen.request == Some(db.contexts[r].request)
    ensures seen.analysis.Read? && seen.confirmation.Read? && seen.draft.Read? && seen.composition == Read(None)
    ensures Found(seen.analysis) == db.contexts[r].analysis && db.contexts[r].analysis.Some?
    ensures
      && Found(seen.confirmation).Some? && db.contexts[r].confirmedLock.Some?
      && Found(seen.confirmation).value.brandLock == db.contexts[r].confirmedLock.value
    ensures Found(seen.draft) == Some(DecodeDraft(db.contexts[r]).value)
    ensures db.contexts[r].request.executionMode.Fixture?
  {
    hide Consistent, Find, DecodeDraft, DecodeConfirmation, DecodeCritique;
    DraftedFacts(r, View(db, r));
    var fields := GENERATE_FIELDS;
    assert fields[0] in fields && fields[1] in fields && fields[2] in fields;
    assert fields[3] in fields && fields[4] in fields && fields[5] in fields;
  }

  lemma LayersPossible(r: RunId, v: RunView, artifact: ArtifactId)
    requires Consistent(r, v) && Drafted(v.run, v.ctx)
    ensures v.ctx.confirmedLock.Some?
    ensures
      var lock, rendering := v.ctx.confirmedLock.value, PlainRendering(artifact);
      var layers := RenderLayers(lock, DecodeDraft(v.ctx).value.adCopy, rendering);
      layers.Ok? && ComposedUnder(r, lock, CompositionOf(r, rendering, layers.value))
  {
    hide Consistent, DecodeDraft, DecodeConfirmation, ComposeLayers, SourceOf, ComposedUnder;
    DraftedFacts(r, v);
    var lock, adCopy := v.ctx.confirmedLock.value, DecodeDraft(v.ctx).value.adCopy;
    ComposedFromLock(lock, adCopy, RegisteredAsset(lock.logoAssetId, LogoAsset),
                     RegisteredAsset(lock.productUiAssetIds[0], ProductUiAsset), Size(1, 1), Size(1, 1));
    RenderedUnder(r, lock, adCopy, PlainRendering(artifact));
  }

  lemma RenderedStep(s: Sys, c: CallId, rendering: Rendering, lock: BrandLock, adCopy: AdCopy)
    requires c in s.calls
    requires
      var seen := s.calls[c].seen;
      && seen.run.Some? && seen.run.value.status.InProgress? && Found(seen.analysis).Some?
      && seen.request.Some? && seen.request.value.executionMode.Fixture?
      && Found(seen.confirmation).Some? && Found(seen.confirmation).value.brandLock == lock
      && Found(seen.draft).Some? && Found(seen.draft).value.adCopy == adCopy
    requires
      var layers := RenderLayers(lock, adCopy, rendering);
      layers.Ok? && CompositionOf(s.calls[c].run, rendering, layers.value).Valid()
    ensures
      var composition := CompositionOf(s.calls[c].run, rendering, RenderLayers(lock, adCopy, rendering).value);
      RenderFirstStep(s, c, rendering) == At(Saved(s, rendering, HeldBy(c)), c, Rendered(composition))
  {
    hide RenderLayers, Composition.Valid;
  }

  lemma RenderFirstIs(s: Sys, c: CallId, rendering: Rendering)
    requires Mine(s, c) && s.calls[c].job.Composing? && rendering.Possible() && rendering.artifact !in s.issued
    requires
      var seen := s.calls[c].seen;
      && seen.run.Some? && seen.request.Some? && seen.analysis.Read? && seen.confirmation.Read? && seen.draft.Read?
      && seen.composition == Read(None)
    ensures Enabled(s, RenderFirst(c, rendering))
    ensures Next(s, RenderFirst(c, rendering)) == RenderFirstStep(s, c, rendering)
  {
    hide RenderFirstStep;
  }

  lemma Renders(t: Sys, c: CallId, r: RunId, artifact: ArtifactId)
    requires Inv(t) && c in t.calls && t.calls[c].job.Composing? && t.calls[c].run == r && artifact !in t.issued
    requires r in t.db.runs && r in t.db.contexts && Drafted(t.db.runs[r], t.db.contexts[r])
    requires forall f :: f in GENERATE_FIELDS ==> Exactly(t.db, r, f, t.calls[c].seen)
    ensures t.db.contexts[r].confirmedLock.Some?
    ensures
      var a := RenderFirst(c, PlainRendering(artifact));
      && Enabled(t, a) && Next(t, a).db == t.db
      && c in Next(t, a).calls && Next(t, a).calls[c].run == r && Next(t, a).calls[c].job.Rendered?
      && ComposedUnder(r, t.db.contexts[r].confirmedLock.value, Next(t, a).calls[c].job.composition)
  {
    hide DbInv, CallsInv, ArtifactsInv, Consistent, Find, DecodeDraft, DecodeConfirmation, SourceOf, RenderLayers;
    hide Composition.Valid, Next, Enabled, RenderFirstStep, Exactly;
    RunKnown(t, r);
    SeenDrafted(t.db, r, t.calls[c].seen);
    LayersPossible(r, View(t.db, r), artifact);
    RenderFirstIs(t, c, PlainRendering(artifact));
    RenderedStep(t, c, PlainRendering(artifact), t.db.contexts[r].confirmedLock.value,
                 DecodeDraft(t.db.contexts[r]).value.adCopy);
  }

  lemma CompositionSaved(db: Db, r: RunId, composition: Composition)
    requires r in db.runs && r in db.contexts && db.runs[r].status.InProgress? && db.contexts[r].composition.None?
    requires db.contexts[r].confirmedLock.Some? && db.contexts[r].draftGeneratedAt.Some?
    requires db.contexts[r].initialGenerationCount == 0
    requires ComposedUnder(r, db.contexts[r].confirmedLock.value, composition)
    ensures
      var after := db.contexts[r].(composition := Some(composition), initialGenerationCount := 1);
      SaveComposition(db, r, composition) == Outcome(db.(contexts := db.contexts[r := after]), Ok(composition))
  {
    hide SourceOf, Composition.Valid;
    var ids := db.contexts[r].confirmedLock.value.productUiAssetIds;
    assert ids[0] in ids;
  }

  lemma WriteCompositionIs(s: Sys, c: CallId)
    requires Mine(s, c) && s.calls[c].job.Rendered?
    ensures Enabled(s, WriteComposition(c)) && Next(s, WriteComposition(c)) == WriteCompositionStep(s, c)
  {
    hide WriteCompositionStep;
  }

  lemma WriteCompositionOk(s: Sys, c: CallId, next: Db)
    requires c in s.calls && s.calls[c].job.Rendered?
    requires
      var composition := s.calls[c].job.composition;
      SaveComposition(s.db, s.calls[c].run, composition) == Outcome(next, Ok(composition))
    ensures WriteCompositionStep(s, c).db == next
  {
    hide SaveComposition;
  }

  lemma StoresComposition(t: Sys, c: CallId, r: RunId)
    requires Inv(t) && c in t.calls && t.calls[c].job.Rendered? && t.calls[c].run == r
    requires r in t.db.runs && r in t.db.contexts && Drafted(t.db.runs[r], t.db.contexts[r])
    requires t.db.contexts[r].confirmedLock.Some?
    requires ComposedUnder(r, t.db.contexts[r].confirmedLock.value, t.calls[c].job.composition)
    ensures Enabled(t, WriteComposition(c))
    ensures
      var after := t.db.contexts[r].(composition := Some(t.calls[c].job.composition), initialGenerationCount := 1);
      Next(t, WriteComposition(c)).db == t.db.(contexts := t.db.contexts[r := after])
  {
    hide DbInv, CallsInv, ArtifactsInv, Consistent, Find, DecodeDraft, DecodeConfirmation, SaveComposition;
    hide ComposedUnder, Next, Enabled, WriteCompositionStep;
    RunKnown(t, r);
    DraftedFacts(r, View(t.db, r));
    CompositionSaved(t.db, r, t.calls[c].job.composition);
    WriteCompositionIs(t, c);
    WriteCompositionOk(t, c, SaveComposition(t.db, r, t.calls[c].job.composition).db);
  }

  lemma CompositionPhase(s: Sys, more: seq<Action>, t: Sys, r: RunId, k: nat) returns (longer: seq<Action>, u: Sys)
    requires Leads(s, more, t, r, k) && Drafted(t.db.runs[r], t.db.contexts[r])
    ensures Leads(s, longer, u, r, k) && u.db.runs[r] == t.db.runs[r]
    ensures
      var c, d := t.db.contexts[r], u.db.contexts[r];
      d.composition.Some? && d == c.(composition := d.composition, initialGenerationCount := 1)
  {
    hide Inv, Next, Enabled, StepsFrom, ChangesFrom, Exactly, Drafted, ComposedUnder;
    var m, v, c := Starts(s, more, t, r, k, CompositionEndpoint);
    m, v := ReadsFields(s, m, v, r, k, c, GENERATE_FIELDS);
    var artifact := Unused(v.issued);
    Renders(v, c, r, artifact);
    var a := RenderFirst(c, PlainRendering(artifact));
    Further(s, m, v, r, k, a);
    m, v := m + [a], Next(v, a);
    StoresComposition(v, c, r);
    Further(s, m, v, r, k, WriteComposition(c));
    longer, u := m + [WriteComposition(c)], Next(v, WriteComposition(c));
  }

  const REVIEW_FIELDS: seq<Field> :=
    [RunField, AnalysisField, ConfirmationField, DraftField, CompositionField, CritiqueField]

  predicate ComposedOnly(run: ProjectRun, c: Context) {
    && run.status.InProgress? && DecodeDraft(c).Present? && c.composition.Some? && DecodeCritique(c).Absent?
    && c.analysis == Some(PlainAnalysis(c.request))
  }

  lemma ComposedFacts(r: RunId, v: RunView)
    requires Consistent(r, v) && ComposedOnly(v.run, v.ctx)
    ensures v.feedback.None? && v.revision.None? && v.run.warningCodes == []
    ensures DecodeConfirmation(v.ctx).Present? && v.ctx.draftGeneratedAt.Some? && v.ctx.initialGenerationCount == 1
    ensures v.ctx.confirmedLock == Some(DecodeConfirmation(v.ctx).value.brandLock)
    ensures ComposedUnder(r, v.ctx.confirmedLock.value, v.ctx.composition.value)
  {
    hide DraftedFrom, ComposedUnder, ReviewedAs, ValidateConfirmation, Admissible, VersionTwo;
  }

  lemma NothingRaised(request: CriticRequest, at: int)
    requires LockPreserved(request) && FactsSupported(request)
    requires request.analysis.hypotheses == [] && Warnings(request) == []
    ensures Review(request, at).Some?
    ensures Review(request, at).value.reviewedAt == at && !Review(request, at).value.status.Reject?
  {
    hide LockPreserved, FactsSupported, Readable, Warnings, Verdict;
    RejectedExactly(request);
  }

  /** The Critic accepts the first version of a run with a plain analysis. */
  lemma PlainReview(r: RunId, v: RunView, at: int)
    requires Consistent(r, v) && ComposedOnly(v.run, v.ctx)
    ensures v.ctx.confirmedLock.Some?
    ensures
      var c := v.ctx;
      var report := Review(CriticRequest(c.analysis.value, c.confirmedLock.value, DecodeDraft(c).value,
                                         c.composition.value, []), at);
      report.Some? && report.value.reviewedAt == at && !report.value.status.Reject?
  {
    hide Consistent, SourceOf, Composition.Valid, DecodeDraft, DecodeCritique, DecodeConfirmation, Review;
    ComposedFacts(r, v);
    DraftedKeeps(r, v);
    var c := v.ctx;
    var ids := c.confirmedLock.value.productUiAssetIds;
    assert ids[0] in ids;
    NothingRaised(CriticRequest(c.analysis.value, c.confirmedLock.value, DecodeDraft(c).value, c.composition.value, []),
                  at);
  }

  lemma CritiqueSaved(db: Db, r: RunId, report: CritiqueReport)
    requires r in db.runs && r in db.contexts && db.runs[r].status.InProgress? && DecodeCritique(db.contexts[r]).Absent?
    requires db.contexts[r].confirmedLock.Some? && db.contexts[r].draftGeneratedAt.Some?
    requires db.contexts[r].composition.Some? && db.contexts[r].initialGenerationCount == 1
    requires report.reviewedAt == db.runs[r].createdAt && !report.status.Reject?
    ensures
      var after := db.contexts[r].(critique := Some(report), reviewedAt := Some(report.reviewedAt));
      SaveCritique(db, r, report)
      == Outcome(db.(runs := db.runs[r := db.runs[r].(status := Ready)], contexts := db.contexts[r := after]),
                 Ok(report))
  {
  }

  /** The guard of the critic endpoint, on what it has read. */
  lemma SeenComposed(db: Db, r: RunId, seen: Snapshot)
    requires r in db.runs && r in db.contexts && Consistent(r, View(db, r)) && ComposedOnly(db.runs[r], db.contexts[r])
    requires forall f :: f in REVIEW_FIELDS ==> Exactly(db, r, f, seen)
    ensures seen.run == Some(db.runs[r]) && seen.analysis.Read? && seen.confirmation.Read? && seen.draft.Read?
    ensures seen.composition.Read? && seen.critique == Read(None)
    ensures Found(seen.analysis) == db.contexts[r].analysis && Found(seen.composition) == db.contexts[r].composition
    ensures
      && Found(seen.confirmation).Some? && db.contexts[r].confirmedLock.Some?
      && Found(seen.confirmation).value.brandLock == db.contexts[r].confirmedLock.value
    ensures Found(seen.draft) == Some(DecodeDraft(db.contexts[r]).value)
  {
    hide Consistent, Find, DecodeDraft, DecodeConfirmation, DecodeCritique;
    ComposedFacts(r, View(db, r));
    var fields := REVIEW_FIELDS;
    assert fields[0] in fields && fields[1] in fields && fields[2] in fields;
    assert fields[3] in fields && fields[4] in fields && fields[5] in fields;
  }

  lemma WriteCritiqueIs(s: Sys, c: CallId, at: int, request: CriticRequest, report: CritiqueReport)
    requires Mine(s, c) && s.calls[c].job.Reviewing?
    requires
      var seen := s.calls[c].seen;
      && seen.run.Some? && seen.analysis == Read(Some(request.analysis)) && Found(seen.confirmation).Some?
      && Found(seen.confirmation).value.brandLock == request.confirmedLock
      && seen.draft == Read(Some(request.draft)) && seen.composition == Read(Some(request.composition))
      && seen.run.value.warningCodes == request.warningCodes && seen.critique == Read(None)
    requires Review(request, at) == Some(report) && SaveCritique(s.db, s.calls[c].run, report).result.Ok?
    ensures Enabled(s, WriteCritique(c, at))
    ensures Next(s, WriteCritique(c, at)).db == SaveCritique(s.db, s.calls[c].run, report).db
  {
    hide Review, SaveCritique;
  }

  lemma WritesCritique(t: Sys, c: CallId, r: RunId)
    requires Inv(t) && c in t.calls && t.calls[c].job.Reviewing? && t.calls[c].run == r
    requires r in t.db.runs && r in t.db.contexts && ComposedOnly(t.db.runs[r], t.db.contexts[r])
    requires forall f :: f in REVIEW_FIELDS ==> Exactly(t.db, r, f, t.calls[c].seen)
    ensures
      var a := WriteCritique(c, t.db.runs[r].createdAt);
      && Enabled(t, a)
      && var u := Next(t, a).db;
         && r in u.runs && u.runs[r] == t.db.runs[r].(status := Ready) && r !in u.revisions
  {
    hide DbInv, CallsInv, ArtifactsInv, Consistent, Find, DecodeDraft, DecodeConfirmation, DecodeCritique, Exactly;
    hide Next, Enabled, Review, SaveCritique, ComposedUnder, ComposedOnly;
    RunKnown(t, r);
    var v, at := View(t.db, r), t.db.runs[r].createdAt;
    SeenComposed(t.db, r, t.calls[c].seen);
    ComposedFacts(r, v);
    PlainReview(r, v, at);
    StillComposed(v.run, v.ctx);
    var d := v.ctx;
    var request :=
      CriticRequest(d.analysis.value, d.confirmedLock.value, DecodeDraft(d).value, d.composition.value, []);
    CritiqueSaved(t.db, r, Review(request, at).value);
    WriteCritiqueIs(t, c, at, request, Review(request, at).value);
  }

  lemma StillComposed(run: ProjectRun, c: Context)
    requires ComposedOnly(run, c)
    ensures run.status.InProgress? && c.composition.Some? && DecodeCritique(c).Absent? && c.analysis.Some?
    ensures DecodeDraft(c).Present?
  {
  }

  /** The first version is accepted. */
  lemma CriticPhase(s: Sys, more: seq<Action>, t: Sys, r: RunId, k: nat) returns (longer: seq<Action>, u: Sys)
    requires Leads(s, more, t, r, k) && ComposedOnly(t.db.runs[r], t.db.contexts[r])
    ensures Leads(s, longer, u, r, k + 1) && u.db.runs[r].status.Ready? && r !in u.db.revisions
  {
    hide Inv, Next, Enabled, StepsFrom, ChangesFrom, Exactly, ComposedOnly;
    StillComposed(t.db.runs[r], t.db.contexts[r]);
    var m, v, c := Starts(s, more, t, r, k, CriticEndpoint);
    m, v := ReadsFields(s, m, v, r, k, c, REVIEW_FIELDS);
    WritesCritique(v, c, r);
    var a := WriteCritique(c, v.db.runs[r].createdAt);
    Further(s, m, v, r, k, a);
    longer, u := m + [a], Next(v, a);
  }

  // From a failed revision to the one retry

  lemma FeedbackAccepted(db: Db, r: RunId, changes: seq<RevisionChange>)
    requires DbInv(db) && r in db.runs && db.runs[r].status.Ready? && r !in db.revisions
    ensures
      var out := ClaimFeedback(db, r, EMPTY_DIGEST, EMPTY_DIGEST, changes, EMPTY_DIGEST);
      && out.result.Ok? && !out.result.value.state.OpSucceeded? && out.result.value.kind.Feedback?
      && r in out.db.runs && out.db.runs[r] == db.runs[r].(status := InProgress)
  {
    hide Consistent, ByKey, ActiveFeedback, Find, OpsInv;
    FoundByKey(db, r, Feedback, EMPTY_DIGEST);
    ActiveInView(db, r);
    ReadyFacts(r, View(db, r));
  }

  lemma SubmitsFeedback(t: Sys, c: CallId, r: RunId, changes: seq<RevisionChange>)
    requires Inv(t) && c !in t.calls && r in t.db.runs && t.db.runs[r].status.Ready? && r !in t.db.revisions
    ensures
      var a := SubmitFeedback(c, r, EMPTY_DIGEST, EMPTY_DIGEST, changes, EMPTY_DIGEST);
      && Enabled(t, a)
      && var u := Next(t, a);
         && r in u.db.runs && u.db.runs[r] == t.db.runs[r].(status := InProgress)
         && c in u.calls && u.calls[c].run == r && u.calls[c].job.Revising? && u.calls[c].job.op.kind.Feedback?
  {
    hide DbInv, CallsInv, ArtifactsInv, ClaimFeedback;
    FeedbackAccepted(t.db, r, changes);
  }

  /** A call about to record a failed feedback. */
  lemma FailureRecorded(t: Sys, c: CallId, r: RunId)
    requires Inv(t) && c in t.calls && t.calls[c].run == r && t.calls[c].job.Failing?
    requires t.calls[c].job.op.kind.Feedback?
    ensures Enabled(t, WriteFault(c, false)) && r in t.db.runs
    ensures
      var u := Next(t, WriteFault(c, false)).db;
      r in u.runs && u.runs[r] == t.db.runs[r].(status := FailedRetryable)
  {
    hide CallsInv, ArtifactsInv, Consistent, FailOperation, Find, OpenOp, OpsInv;
    TheCall(t, c);
    OpenRow(t.db, r, t.calls[c].job.op);
    FailedRows(t.db, r, t.calls[c].job.op);
  }

  lemma FaultIs(s: Sys, c: CallId)
    requires Mine(s, c) && s.calls[c].job.Revising?
    ensures Enabled(s, Fault(c, true)) && Next(s, Fault(c, true)) == At(s, c, Failing(s.calls[c].job.op))
  {
  }

  /** A feedback is claimed and fails: two status changes. */
  lemma FeedbackPhase(s: Sys, more: seq<Action>, t: Sys, r: RunId, k: nat) returns (longer: seq<Action>, u: Sys)
    requires Leads(s, more, t, r, k) && t.db.runs[r].status.Ready? && r !in t.db.revisions
    ensures Leads(s, longer, u, r, k + 2) && u.db.runs[r].status.FailedRetryable?
  {
    hide Inv, Next, Enabled, StepsFrom, ChangesFrom;
    var c := Unused(t.calls.Keys);
    SubmitsFeedback(t, c, r, [ShortenHeadline]);
    var a := SubmitFeedback(c, r, EMPTY_DIGEST, EMPTY_DIGEST, [ShortenHeadline], EMPTY_DIGEST);
    Further(s, more, t, r, k, a);
    var m, v := more + [a], Next(t, a);
    FaultIs(v, c);
    Further(s, m, v, r, k + 1, Fault(c, true));
    m, v := m + [Fault(c, true)], Next(v, Fault(c, true));
    FailureRecorded(v, c, r);
    Further(s, m, v, r, k + 1, WriteFault(c, false));
    longer, u := m + [WriteFault(c, false)], Next(v, WriteFault(c, false));
  }

  lemma RetryAccepted(db: Db, r: RunId)
    requires DbInv(db) && r in db.runs && db.runs[r].status.FailedRetryable?
    ensures
      var out := ClaimRetry(db, r, EMPTY_DIGEST, EMPTY_DIGEST);
      && out.result.Ok? && !out.result.value.state.OpSucceeded? && out.result.value.kind.Retry?
      && r in out.db.runs && out.db.runs[r] == db.runs[r].(status := InProgress)
  {
    hide Consistent, ByKey, LatestRetryable, Find, OpsInv;
    FoundByKey(db, r, Retry, EMPTY_DIGEST);
    LatestRetryableInView(db, r);
    ReadyFacts(r, View(db, r));
  }

  lemma SubmitsRetry(t: Sys, c: CallId, r: RunId)
    requires Inv(t) && c !in t.calls && r in t.db.runs && t.db.runs[r].status.FailedRetryable?
    ensures
      var a := SubmitRetry(c, r, EMPTY_DIGEST, EMPTY_DIGEST);
      && Enabled(t, a)
      && var u := Next(t, a);
         && r in u.db.runs && u.db.runs[r] == t.db.runs[r].(status := InProgress)
         && c in u.calls && u.calls[c].run == r && u.calls[c].job.Rechecking?
  {
    hide DbInv, CallsInv, ArtifactsInv, ClaimRetry;
    RetryAccepted(t.db, r);
  }

  const ALL_FIELDS: seq<Field> :=
    [RunField, RequestField, AnalysisField, ConfirmationField, DraftField, CompositionField, CritiqueField]

  lemma SeenAll(db: Db, r: RunId, seen: Snapshot)
    requires r in db.runs && r in db.contexts && forall f :: f in ALL_FIELDS ==> Exactly(db, r, f, seen)
    ensures ReadAll(seen)
  {
    hide DecodeDraft, DecodeConfirmation, DecodeCritique;
    var fields := ALL_FIELDS;
    assert fields[0] in fields && fields[1] in fields && fields[2] in fields && fields[3] in fields;
    assert fields[4] in fields && fields[5] in fields && fields[6] in fields;
  }

  /** The actions of a claimed revision before its last transaction leave the tables and the run of the call alone. */
  lemma OnlyTheJob(s: Sys, a: Action)
    requires Enabled(s, a) && (a.Recheck? || a.RenderSecond? || a.CountAttempts?)
    ensures
      var t := Next(s, a);
      && t.db == s.db && a.call in s.calls && a.call in t.calls
      && t.calls[a.call] == s.calls[a.call].(job := t.calls[a.call].job)
  {
    hide RecheckPasses, Revisable, ReviseDraft, RenderLayers, SecondReview, Composition.Valid, RevisionCompleted.Valid;
  }

  /** The retry delivers version 2: two status changes, and the call has not returned yet. */
  lemma RetryPhase(s: Sys, more: seq<Action>, t: Sys, r: RunId, k: nat)
    returns (longer: seq<Action>, u: Sys, c: CallId)
    requires Leads(s, more, t, r, k) && t.db.runs[r].status.FailedRetryable?
    ensures Leads(s, longer, u, r, k + 2) && c in u.calls && u.calls[c].job.Committed?
  {
    hide Inv, Next, Enabled, StepsFrom, ChangesFrom, Exactly;
    c := Unused(t.calls.Keys);
    SubmitsRetry(t, c, r);
    var a := SubmitRetry(c, r, EMPTY_DIGEST, EMPTY_DIGEST);
    Further(s, more, t, r, k, a);
    var m, v := more + [a], Next(t, a);
    RevisionEnabled(v, c);
    RecheckGoesOn(v, c);
    OnlyTheJob(v, Recheck(c));
    Further(s, m, v, r, k + 1, Recheck(c));
    m, v := m + [Recheck(c)], Next(v, Recheck(c));
    m, v := ReadsFields(s, m, v, r, k + 1, c, ALL_FIELDS);
    SeenAll(v.db, r, v.calls[c].seen);
    var artifact := Unused(v.issued);
    var render := RenderSecond(c, PlainRendering(artifact), 0);
    RenderEnabled(v, c, PlainRendering(artifact));
    RenderGoesOn(v, c, PlainRendering(artifact), 0);
    OnlyTheJob(v, render);
    Further(s, m, v, r, k + 1, render);
    m, v := m + [render], Next(v, render);
    RevisedFacts(v, c);
    RevisionEnabled(v, c);
    CountGoesOn(v, c);
    OnlyTheJob(v, CountAttempts(c));
    Further(s, m, v, r, k + 1, CountAttempts(c));
    m, v := m + [CountAttempts(c)], Next(v, CountAttempts(c));
    RevisionEnabled(v, c);
    WriteGoesOn(v, c);
    Further(s, m, v, r, k + 1, WriteRevision(c));
    longer, u := m + [WriteRevision(c)], Next(v, WriteRevision(c));
    CommittedOn(v, u, c, r);
  }

  lemma CommittedOn(v: Sys, u: Sys, c: CallId, r: RunId)
    requires Inv(v) && Mine(v, c) && v.calls[c].run == r && Enabled(v, WriteRevision(c))
    requires u == Next(v, WriteRevision(c)) && Inv(u) && c in u.calls && u.calls[c].job.Committed?
    ensures r in u.db.runs && u.db.runs[r].status.Ready?
  {
    hide Inv, Next, Enabled, View, Locked, DbStep, Exclusive;
    EveryStepKeeps(v, WriteRevision(c));
    CommittedFacts(u, c);
  }

  lemma RevisionEnabled(s: Sys, c: CallId)
    requires Mine(s, c)
    ensures s.calls[c].job.Rechecking? ==> Enabled(s, Recheck(c))
    ensures s.calls[c].job.Revised? && Found(s.calls[c].seen.composition).Some? ==> Enabled(s, CountAttempts(c))
    ensures s.calls[c].job.Counted? ==> Enabled(s, WriteRevision(c))
  {
  }

  lemma RenderEnabled(s: Sys, c: CallId, rendering: Rendering)
    requires Mine(s, c) && s.calls[c].job.Revising? && ReadAll(s.calls[c].seen)
    requires rendering.Possible() && rendering.artifact !in s.issued
    ensures Enabled(s, RenderSecond(c, rendering, 0))
  {
  }

  // A whole run

  lemma OneStep(s: Sys, a: Action, r: RunId)
    requires Enabled(s, a) && r !in s.db.runs
    ensures StepsFrom(s, [a]) == Some(Next(s, a)) && ChangesFrom(s, [a], r) == 0
  {
    hide Next, Enabled;
    assert [a][..0] == [];
  }

  lemma Created(request: RunCreate, r: RunId) returns (t: Sys)
    requires request.Valid()
    ensures Leads(INITIAL, [CreateRun(r, request, 0)], t, r, 0)
    ensures t.db.runs[r].status.Pending?
  {
    hide Inv, RunCreate.Valid, StepsFrom, ChangesFrom;
    var a := CreateRun(r, request, 0);
    InitialInv();
    EveryStepKeeps(INITIAL, a);
    t := Next(INITIAL, a);
    OneStep(INITIAL, a, r);
  }

  lemma NothingBeyond(t: Sys, r: RunId)
    requires Inv(t) && r in t.db.runs && r in t.db.contexts
    ensures DecodeDraft(t.db.contexts[r]).Absent? ==> t.db.contexts[r].composition.None?
    ensures t.db.contexts[r].composition.None? ==> DecodeCritique(t.db.contexts[r]).Absent?
  {
    hide DbInv, CallsInv, ArtifactsInv, Consistent, Find;
    RunKnown(t, r);
    Layers(r, View(t.db, r));
  }

  lemma DraftedOn(run: ProjectRun, c: Context, d: Context)
    requires run.status.InProgress? && c.composition.None? && OnlyDrafted(c, d)
    ensures Drafted(run, d) && d.analysis == c.analysis && d.request == c.request
  {
  }

  lemma StillDrafted(run: ProjectRun, c: Context)
    requires Drafted(run, c)
    ensures run.status.InProgress? && c.composition.None?
  {
  }

  lemma ComposedOn(run: ProjectRun, c: Context, d: Context)
    requires Drafted(run, c) && c.analysis == Some(PlainAnalysis(c.request)) && DecodeCritique(c).Absent?
    requires d.composition.Some? && d == c.(composition := d.composition, initialGenerationCount := 1)
    ensures ComposedOnly(run, d)
  {
  }

  /** From its creation to version 2 through every status change, for any request that the service accepts. */
  lemma WholeRun(request: RunCreate, r: RunId) returns (actions: seq<Action>, c: CallId)
    requires request.Valid()
    ensures Run(actions).Some? && StatusChanges(actions, r) == 8
    ensures c in Run(actions).value.calls && Run(actions).value.calls[c].job.Committed?
  {
    hide Inv, Next, Enabled, StepsFrom, ChangesFrom, Run, StatusChanges, Draftable, DecodeDraft, DecodeCritique;
    hide Drafted, OnlyDrafted, ComposedOnly;
    var t := Created(request, r);
    var m := [CreateRun(r, request, 0)];
    m, t := AnalysisPhase(INITIAL, m, t, r, 0);
    m, t := ConfirmationPhase(INITIAL, m, t, r, 2);
    NothingBeyond(t, r);
    var before := t.db.contexts[r];
    m, t := DraftPhase(INITIAL, m, t, r, 3, 0);
    DraftedOn(t.db.runs[r], before, t.db.contexts[r]);
    NothingBeyond(t, r);
    before := t.db.contexts[r];
    StillDrafted(t.db.runs[r], before);
    m, t := CompositionPhase(INITIAL, m, t, r, 3);
    ComposedOn(t.db.runs[r], before, t.db.contexts[r]);
    m, t := CriticPhase(INITIAL, m, t, r, 3);
    m, t := FeedbackPhase(INITIAL, m, t, r, 4);
    m, t, c := RetryPhase(INITIAL, m, t, r, 6);
    actions := m;
    ChangesFromStart(actions, r);
  }

  /** The bound of eight status changes is reached, for every run that can be created. */
  lemma EightChangesReached(request: RunCreate, r: RunId)
    requires request.Valid()
    ensures exists actions :: Run(actions).Some? && StatusChanges(actions, r) == 8
  {
    var actions, c := WholeRun(request, r);
  }

  /** And at its end a late exception can take the artifact away that version 2 names. */
  lemma NamedArtifactCanGoMissing(request: RunCreate, r: RunId)
    requires request.Valid()
    ensures exists actions, a ::
              && Run(actions).Some? && Named(Run(actions).value.db, a) && a !in Run(actions).value.artifacts
  {
    hide Run;
    var actions, c := WholeRun(request, r);
    var s := Run(actions).value;
    LateFaultLosesArtifact(actions, c, true, false);
    var late := actions + LateHandling(c, true, false);
    assert NamedSecond(Run(late).value.db, s.calls[c].job.record.composition.artifactId, s.calls[c].run);
    assert Named(Run(late).value.db, s.calls[c].job.record.composition.artifactId);
  }
}

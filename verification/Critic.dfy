/** The structured check of a drafted and composed version (critic.py). */
module Critic {
  import opened Prelude
  import opened Domain
  import opened Contracts
  import opened Drafts
  import opened Revising

  const SAFETY_REFUSALS: set<string> := {"prohibited_content", "instruction_like_content", "safety_refusal"}

  const ABSOLUTE_CULTURAL_PHRASES: seq<string> := [
    "all british people",
    "british people always",
    "all chinese people",
    "chinese people always",
    "所有英国人",
    "英国人都",
    "所有中国人",
    "中国人都"
  ]

  const STEREOTYPE_PHRASES: seq<string> := [
    "british people are reserved",
    "chinese users only like red",
    "英国人很保守",
    "中国用户只喜欢红色"
  ]

  datatype CriticRequest = CriticRequest(
    analysis: Analysis,
    confirmedLock: BrandLock,
    draft: Draft,
    composition: Composition,
    warningCodes: seq<string>
  )

  predicate OccursAt(text: string, phrase: string, i: nat) {
    i + |phrase| <= |text| && text[i..i + |phrase|] == phrase
  }

  predicate Contains(text: string, phrase: string) {
    exists i :: 0 <= i <= |text| && OccursAt(text, phrase, i)
  }

  predicate ContainsAny(text: string, phrases: seq<string>) {
    exists i :: 0 <= i < |phrases| && Contains(text, phrases[i])
  }

  /** The first occurrence of every element, in order. */
  function Deduplicated(s: seq<string>): seq<string> {
    if |s| == 0 then []
    else
      var front := Deduplicated(s[..|s| - 1]);
      if s[|s| - 1] in front then front else front + [s[|s| - 1]]
  }

  lemma {:induction false} DeduplicatedFacts(s: seq<string>)
    ensures Unique(Deduplicated(s)) && Elements(Deduplicated(s)) == Elements(s)
    ensures Subsequence(Deduplicated(s), s)
  {
    if |s| > 0 {
      DeduplicatedFacts(s[..|s| - 1]);
      assert s == s[..|s| - 1] + [s[|s| - 1]];
      assert Elements(s) == Elements(s[..|s| - 1]) + {s[|s| - 1]};
      var front := Deduplicated(s[..|s| - 1]);
      if s[|s| - 1] in front {
        assert s[|s| - 1] in Elements(front);
        if |front| > 0 && front[|front| - 1] == s[|s| - 1] {
          SubsequenceDropLast(front, s[..|s| - 1]);
        }
      } else {
        assert s[|s| - 1] !in Elements(front);
        var d := front + [s[|s| - 1]];
        assert d[..|d| - 1] == front;
        assert Elements(d) == Elements(front) + {s[|s| - 1]};
      }
    }
  }

  lemma {:induction false} SubsequenceDropLast<T>(a: seq<T>, b: seq<T>)
    requires Subsequence(a, b) && |a| > 0
    ensures Subsequence(a[..|a| - 1], b)
    decreases |b|
  {
    var a', b' := a[..|a| - 1], b[..|b| - 1];
    if a[|a| - 1] == b[|b| - 1] {
      if |a'| > 0 && a'[|a'| - 1] == b[|b| - 1] {
        SubsequenceDropLast(a', b');
      }
    } else {
      SubsequenceDropLast(a, b');
      if |a'| > 0 && a'[|a'| - 1] == b[|b| - 1] {
        SubsequenceDropLast(a', b');
      }
    }
  }

  predicate LockPreserved(request: CriticRequest) {
    var lock := request.confirmedLock;
    && request.analysis.brandLock == lock
    && request.draft.brief.brandLock == lock
    && request.draft.adCopy.ctaActionMeaning == lock.ctaActionMeaning
    && SourceOf(request.composition.layers, Logo) == Some(lock.logoAssetId)
    && SourceOf(request.composition.layers, ProductUi).Some?
    && SourceOf(request.composition.layers, ProductUi).value in lock.productUiAssetIds
  }

  predicate FactsSupported(request: CriticRequest) {
    && |request.draft.factReferences| > 0
    && Elements(request.draft.factReferences) <= Elements(request.confirmedLock.verifiedProductFacts)
  }

  predicate Refused(warnings: seq<string>) {
    exists w :: w in SAFETY_REFUSALS && w in warnings
  }

  function Warnings(request: CriticRequest): seq<string> {
    Deduplicated(request.analysis.warnings + request.warningCodes)
  }

  function HypothesisIssue(hypothesis: Hypothesis): seq<Issue> {
    if ContainsAny(hypothesis.claim, ABSOLUTE_CULTURAL_PHRASES)
    then [Issue(AbsoluteCulturalClaim, Culture, Warning, false)]
    else if ContainsAny(hypothesis.claim, STEREOTYPE_PHRASES)
    then [Issue(PossibleStereotype, Culture, Warning, true)]
    else if hypothesis.reviewStatus.PendingReview?
    then [Issue(CulturalHypothesisPending, Culture, Warning, true)]
    else []
  }

  function HypothesisIssues(hypotheses: seq<Hypothesis>): seq<Issue> {
    if |hypotheses| == 0 then []
    else HypothesisIssues(hypotheses[..|hypotheses| - 1]) + HypothesisIssue(hypotheses[|hypotheses| - 1])
  }

  function Raise(condition: bool, issue: Issue): seq<Issue> {
    if condition then [issue] else []
  }

  /** The issues about the protected parts: safety evidence, the lock, the facts. All of them block. */
  function ProtectedIssues(request: CriticRequest): seq<Issue> {
    Raise(Refused(Warnings(request)), Issue(SafetyRefusalIssue, Safety, Blocking, false))
    + Raise(!LockPreserved(request), Issue(BrandLockMismatch, BrandLockCategory, Blocking, false))
    + Raise(!FactsSupported(request), Issue(UnsupportedFact, Fact, Blocking, false))
  }

  function ReadabilityIssues(request: CriticRequest): seq<Issue> {
    Raise(!Readable(request.draft.adCopy), Issue(CopyUnreadable, Readability, Warning, false))
  }

  function Issues(request: CriticRequest): seq<Issue> {
    ProtectedIssues(request) + ReadabilityIssues(request) + HypothesisIssues(request.analysis.hypotheses)
  }

  predicate Blocks(issues: seq<Issue>) {
    exists i :: 0 <= i < |issues| && issues[i].severity.Blocking?
  }

  predicate NeedsHuman(issues: seq<Issue>) {
    exists i :: 0 <= i < |issues| && issues[i].requiresHumanReview
  }

  function Verdict(issues: seq<Issue>): CritiqueStatus {
    if Blocks(issues) then Reject
    else if NeedsHuman(issues) then NeedsHumanReview
    else if |issues| > 0 then Revise
    else Pass
  }

  /** None models the ValidationError that a report over its size limits raises. */
  function Review(request: CriticRequest, at: int): Option<CritiqueReport> {
    var issues, warnings := Issues(request), Warnings(request);
    var report := CritiqueReport(Verdict(issues), issues, warnings, LockPreserved(request), NeedsHuman(issues), at);
    if |issues| <= MAX_ISSUES && |warnings| <= MAX_WARNINGS then Some(report) else None
  }

  lemma HypothesisIssuesStep(hypotheses: seq<Hypothesis>, i: nat)
    requires i < |hypotheses|
    ensures HypothesisIssues(hypotheses[..i + 1]) == HypothesisIssues(hypotheses[..i]) + HypothesisIssue(hypotheses[i])
  {
    assert hypotheses[..i + 1][..i] == hypotheses[..i];
  }

  /** The rules before the loop. */
  method FixedIssues(refused: bool, preserved: bool, supported: bool, readable: bool) returns (issues: seq<Issue>)
    ensures issues ==
      Raise(refused, Issue(SafetyRefusalIssue, Safety, Blocking, false))
      + Raise(!preserved, Issue(BrandLockMismatch, BrandLockCategory, Blocking, false))
      + Raise(!supported, Issue(UnsupportedFact, Fact, Blocking, false))
      + Raise(!readable, Issue(CopyUnreadable, Readability, Warning, false))
  {
    issues := [];
    if refused {
      issues := issues + [Issue(SafetyRefusalIssue, Safety, Blocking, false)];
    }
    if !preserved {
      issues := issues + [Issue(BrandLockMismatch, BrandLockCategory, Blocking, false)];
    }
    if !supported {
      issues := issues + [Issue(UnsupportedFact, Fact, Blocking, false)];
    }
    if !readable {
      issues := issues + [Issue(CopyUnreadable, Readability, Warning, false)];
    }
  }

  /** The loop over the hypotheses, which appends to the issues found so far. */
  method AppendHypothesisIssues(fixed: seq<Issue>, hypotheses: seq<Hypothesis>) returns (issues: seq<Issue>)
    ensures issues == fixed + HypothesisIssues(hypotheses)
  {
    issues := fixed;
    var i := 0;
    while i < |hypotheses|
      invariant 0 <= i <= |hypotheses|
      invariant issues == fixed + HypothesisIssues(hypotheses[..i])
    {
      HypothesisIssuesStep(hypotheses, i);
      var found := HypothesisRule(hypotheses[i]);
      issues := issues + found;
      i := i + 1;
    }
    assert hypotheses[..i] == hypotheses;
  }

  method HypothesisRule(hypothesis: Hypothesis) returns (found: seq<Issue>)
    ensures found == HypothesisIssue(hypothesis)
  {
    found := [];
    if ContainsAny(hypothesis.claim, ABSOLUTE_CULTURAL_PHRASES) {
      found := [Issue(AbsoluteCulturalClaim, Culture, Warning, false)];
    } else if ContainsAny(hypothesis.claim, STEREOTYPE_PHRASES) {
      found := [Issue(PossibleStereotype, Culture, Warning, true)];
    } else if hypothesis.reviewStatus.PendingReview? {
      found := [Issue(CulturalHypothesisPending, Culture, Warning, true)];
    }
  }

  /** Critic.review. */
  method RunReview(request: CriticRequest, at: int) returns (r: Option<CritiqueReport>)
    ensures r == Review(request, at)
    ensures r.Some? ==> r.value.Valid()
  {
    var warnings := Warnings(request);
    var preserved := LockPreserved(request);
    var issues := FixedIssues(Refused(warnings), preserved, FactsSupported(request), Readable(request.draft.adCopy));
    assert issues == ProtectedIssues(request) + ReadabilityIssues(request);
    issues := AppendHypothesisIssues(issues, request.analysis.hypotheses);
    var status;
    if Blocks(issues) {
      status := Reject;
    } else if NeedsHuman(issues) {
      status := NeedsHumanReview;
    } else if |issues| > 0 {
      status := Revise;
    } else {
      status := Pass;
    }
    assert status == Verdict(issues);
    ReportValid(request, at);
    if |issues| > MAX_ISSUES || |warnings| > MAX_WARNINGS {
      return None;
    }
    r := Some(CritiqueReport(status, issues, warnings, preserved, NeedsHuman(issues), at));
  }

  lemma {:induction false} HypothesisIssuesOnlyWarn(hypotheses: seq<Hypothesis>)
    ensures !Blocks(HypothesisIssues(hypotheses))
    ensures forall i :: 0 <= i < |HypothesisIssues(hypotheses)| ==> HypothesisIssues(hypotheses)[i].category.Culture?
  {
    if |hypotheses| > 0 {
      HypothesisIssuesOnlyWarn(hypotheses[..|hypotheses| - 1]);
    }
  }

  /** A report within the size limits always satisfies the contract's validator. */
  lemma ReportValid(request: CriticRequest, at: int)
    ensures Review(request, at).Some? ==> Review(request, at).value.Valid()
  {
    if !LockPreserved(request) {
      var k := |Raise(Refused(Warnings(request)), Issue(SafetyRefusalIssue, Safety, Blocking, false))|;
      assert Issues(request)[k] == Issue(BrandLockMismatch, BrandLockCategory, Blocking, false);
    }
  }

  /** A version is rejected exactly for refused safety evidence, a broken lock or an unsupported fact. */
  lemma RejectedExactly(request: CriticRequest)
    ensures Verdict(Issues(request)) == Reject <==>
      Refused(Warnings(request)) || !LockPreserved(request) || !FactsSupported(request)
  {
    var p, h := ProtectedIssues(request), HypothesisIssues(request.analysis.hypotheses);
    HypothesisIssuesOnlyWarn(request.analysis.hypotheses);
    if |p| > 0 {
      assert Issues(request)[0] == p[0];
    } else {
      forall i | 0 <= i < |Issues(request)|
        ensures !Issues(request)[i].severity.Blocking?
      {
        var fixed := |p + ReadabilityIssues(request)|;
        if i >= fixed {
          assert Issues(request)[i] == h[i - fixed];
        }
      }
    }
  }

  function VerdictRank(status: CritiqueStatus): nat {
    match status
    case Pass => 0
    case Revise => 1
    case NeedsHumanReview => 2
    case Reject => 3
  }

  lemma {:induction false} SubsequenceMembers<T>(a: seq<T>, b: seq<T>)
    requires Subsequence(a, b)
    ensures |a| <= |b|
    ensures forall i :: 0 <= i < |a| ==> a[i] in b
    decreases |b|
  {
    if |a| > 0 {
      assert b == b[..|b| - 1] + [b[|b| - 1]];
      if a[|a| - 1] == b[|b| - 1] {
        SubsequenceMembers(a[..|a| - 1], b[..|b| - 1]);
      } else {
        SubsequenceMembers(a, b[..|b| - 1]);
      }
    }
  }

  lemma {:induction false} SubsequenceAppend<T>(a: seq<T>, b: seq<T>, tail: seq<T>)
    requires Subsequence(a, b)
    ensures Subsequence(a + tail, b + tail)
    decreases |tail|
  {
    if |tail| == 0 {
      assert a + tail == a && b + tail == b;
    } else {
      var front := tail[..|tail| - 1];
      SubsequenceAppend(a, b, front);
      assert (a + tail)[..|a + tail| - 1] == a + front;
      assert (b + tail)[..|b + tail| - 1] == b + front;
    }
  }

  /** Leaving issues out never makes a verdict worse. */
  lemma VerdictMonotone(a: seq<Issue>, b: seq<Issue>)
    requires Subsequence(a, b)
    ensures VerdictRank(Verdict(a)) <= VerdictRank(Verdict(b))
  {
    SubsequenceMembers(a, b);
  }

  lemma RaiseSubsequence(condition: bool, weaker: bool, issue: Issue)
    requires condition ==> weaker
    ensures Subsequence(Raise(condition, issue), Raise(weaker, issue))
  {
  }

  lemma {:induction false} SubsequenceConcat<T>(a: seq<T>, b: seq<T>, c: seq<T>, d: seq<T>)
    requires Subsequence(a, b) && Subsequence(c, d)
    ensures Subsequence(a + c, b + d)
    decreases |d|
  {
    if |c| == 0 {
      assert a + c == a;
      if |d| > 0 {
        SubsequenceConcat(a, b, c, d[..|d| - 1]);
        SubsequencePrefix(a, b + d[..|d| - 1], d[|d| - 1]);
        assert b + d == b + d[..|d| - 1] + [d[|d| - 1]];
      } else {
        assert b + d == b;
      }
    } else if c[|c| - 1] == d[|d| - 1] {
      SubsequenceConcat(a, b, c[..|c| - 1], d[..|d| - 1]);
      assert (a + c)[..|a + c| - 1] == a + c[..|c| - 1];
      assert (b + d)[..|b + d| - 1] == b + d[..|d| - 1];
    } else {
      SubsequenceConcat(a, b, c, d[..|d| - 1]);
      assert (b + d)[..|b + d| - 1] == b + d[..|d| - 1];
    }
  }

  lemma SubsequencePrefix<T>(a: seq<T>, b: seq<T>, x: T)
    requires Subsequence(a, b)
    ensures Subsequence(a, b + [x])
  {
    assert (b + [x])[..|b|] == b;
    if |a| > 0 && a[|a| - 1] == x {
      SubsequenceDropLast(a, b);
    }
  }

  /**
   * For any stored draft and any request for change: when the second version is composed from the
   * protected assets of the lock, its issues are those of the first with some left out, so its
   * verdict is no worse and its report cannot go over the limits the first report kept.
   */
  lemma RevisionNeverWorsens(first: CriticRequest, direction: Direction, changes: seq<RevisionChange>,
                             draft: Draft, composition: Composition, at: int)
    requires ReviseDraft(direction, first.draft, changes).Some?
    requires
      var r := ReviseDraft(direction, first.draft, changes).value;
      draft.brief == r.brief && draft.adCopy == r.adCopy && draft.factReferences == r.factReferences
    requires SourceOf(composition.layers, Logo) == Some(first.confirmedLock.logoAssetId)
    requires SourceOf(composition.layers, ProductUi).Some?
    requires SourceOf(composition.layers, ProductUi).value in first.confirmedLock.productUiAssetIds
    ensures
      var second := first.(draft := draft, composition := composition);
      && Subsequence(Issues(second), Issues(first))
      && VerdictRank(Verdict(Issues(second))) <= VerdictRank(Verdict(Issues(first)))
      && (Review(first, at).Some? ==> Review(second, at).Some?)
  {
    var second := first.(draft := draft, composition := composition);
    ReviseKeepsLock(direction, first.draft, changes);
    var safety := Issue(SafetyRefusalIssue, Safety, Blocking, false);
    var lock := Issue(BrandLockMismatch, BrandLockCategory, Blocking, false);
    var fact := Issue(UnsupportedFact, Fact, Blocking, false);
    var unreadable := Issue(CopyUnreadable, Readability, Warning, false);
    RaiseSubsequence(Refused(Warnings(second)), Refused(Warnings(first)), safety);
    RaiseSubsequence(!LockPreserved(second), !LockPreserved(first), lock);
    RaiseSubsequence(!FactsSupported(second), !FactsSupported(first), fact);
    RaiseSubsequence(!Readable(second.draft.adCopy), !Readable(first.draft.adCopy), unreadable);
    var s1, l1, f1 := Raise(Refused(Warnings(first)), safety), Raise(!LockPreserved(first), lock),
                      Raise(!FactsSupported(first), fact);
    var s2, l2, f2 := Raise(Refused(Warnings(second)), safety), Raise(!LockPreserved(second), lock),
                      Raise(!FactsSupported(second), fact);
    SubsequenceConcat(s2, s1, l2, l1);
    SubsequenceConcat(s2 + l2, s1 + l1, f2, f1);
    SubsequenceConcat(ProtectedIssues(second), ProtectedIssues(first),
                      ReadabilityIssues(second), ReadabilityIssues(first));
    SubsequenceAppend(ProtectedIssues(second) + ReadabilityIssues(second),
                      ProtectedIssues(first) + ReadabilityIssues(first),
                      HypothesisIssues(first.analysis.hypotheses));
    SubsequenceMembers(Issues(second), Issues(first));
    VerdictMonotone(Issues(second), Issues(first));
  }
}

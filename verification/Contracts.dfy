/** The frozen records that pass between the stages of a run, with their validators (contracts.py). */
module Contracts {
  import opened Prelude
  import opened Domain

  type RunId = nat
  type AssetId = nat
  type ArtifactId = nat

  datatype Market = China | UnitedKingdom
  datatype Locale = ZhCn | EnGb
  datatype ExecutionMode = Fixture | Live
  datatype ReviewStatus = PendingReview | Accepted | Rejected
  datatype LocalizableField = Narrative | UseScenario | TrustInformation | Language

  datatype SourceAsset = SourceAsset(assetId: AssetId, sha256: string)

  /** `claim` is the text after case folding, which is the only form any rule looks at. */
  datatype Hypothesis = Hypothesis(
    hypothesisId: nat,
    targetMarket: Market,
    claim: string,
    reviewStatus: ReviewStatus
  )

  datatype BrandLock = BrandLock(
    logoAssetId: AssetId,
    productName: string,
    verifiedProductFacts: seq<string>,
    productUiAssetIds: seq<AssetId>,
    benefitOrder: seq<string>,
    ctaActionMeaning: string,
    layoutTemplateAssetId: AssetId,
    localizableFields: seq<LocalizableField>
  ) {
    predicate Valid() {
      && 1 <= |verifiedProductFacts| <= 32 && Unique(verifiedProductFacts)
      && 1 <= |productUiAssetIds| <= 16 && Unique(productUiAssetIds)
      && 1 <= |benefitOrder| <= 16 && Unique(benefitOrder)
      && 1 <= |localizableFields| <= 4 && Unique(localizableFields)
    }
  }

  datatype RunCreate = RunCreate(
    direction: Direction,
    executionMode: ExecutionMode,
    sourceAsset: SourceAsset,
    brandLock: BrandLock
  ) {
    predicate Valid() {
      executionMode.Fixture? && brandLock.Valid()
    }
  }

  const MAX_WARNINGS := 32
  const MAX_ISSUES := 32

  datatype Analysis = Analysis(
    sourceAsset: SourceAsset,
    detectedLocale: Locale,
    brandLock: BrandLock,
    hypotheses: seq<Hypothesis>,
    warnings: seq<string>
  )

  datatype CreativeBrief = CreativeBrief(
    direction: Direction,
    targetLocale: Locale,
    brandLock: BrandLock,
    hypotheses: seq<Hypothesis>,
    narrative: string,
    useScenario: string,
    trustInformation: string
  )

  datatype AdCopy = AdCopy(
    locale: Locale,
    headline: string,
    body: string,
    ctaLabel: string,
    ctaActionMeaning: string
  )

  datatype Draft = Draft(
    brief: CreativeBrief,
    adCopy: AdCopy,
    factReferences: seq<string>,
    ruleIds: seq<string>,
    generatedAt: int
  )

  datatype LayerKind = Background | ProductUi | Logo | Headline | Body | Cta | Disclosure

  datatype Bounds = Bounds(left: int, top: int, right: int, bottom: int)

  datatype Layer = Layer(kind: LayerKind, source: Option<AssetId>, bounds: Bounds, width: int, height: int) {
    /** The validator of CompositionLayer. */
    predicate Valid() {
      && 1 <= width <= 1600 && 1 <= height <= 900
      && ((kind.Logo? || kind.ProductUi?) <==> source.Some?)
      && 0 <= bounds.left && 0 <= bounds.top && bounds.right <= 1600 && bounds.bottom <= 900
      && bounds.left < bounds.right && bounds.top < bounds.bottom
      && bounds.right - bounds.left == width && bounds.bottom - bounds.top == height
    }
  }

  const FULL_ORDER: seq<LayerKind> := [Background, ProductUi, Logo, Headline, Body, Cta, Disclosure]
  const ORDER_WITHOUT_UI: seq<LayerKind> := [Background, Logo, Headline, Body, Cta, Disclosure]

  function Kinds(layers: seq<Layer>): seq<LayerKind> {
    seq(|layers|, i requires 0 <= i < |layers| => layers[i].kind)
  }

  /** The source recorded for a kind when later layers overwrite earlier ones. */
  function SourceOf(layers: seq<Layer>, kind: LayerKind): Option<AssetId> {
    if |layers| == 0 then None
    else
      var last := layers[|layers| - 1];
      if last.kind == kind && last.source.Some? then last.source
      else SourceOf(layers[..|layers| - 1], kind)
  }

  datatype Composition = Composition(
    runId: RunId,
    artifactId: ArtifactId,
    renderedSha256: string,
    layers: seq<Layer>,
    generatedAt: int
  ) {
    /** The validators of CompositionGenerated and of its layers. */
    predicate Valid() {
      && (forall i :: 0 <= i < |layers| ==> layers[i].Valid())
      && (Kinds(layers) == FULL_ORDER || Kinds(layers) == ORDER_WITHOUT_UI)
    }
  }

  datatype CritiqueStatus = Pass | Revise | NeedsHumanReview | Reject
  datatype Category = BrandLockCategory | Fact | Readability | Culture | Safety
  datatype Severity = Warning | Blocking
  datatype IssueCode =
    | SafetyRefusalIssue
    | BrandLockMismatch
    | UnsupportedFact
    | CopyUnreadable
    | AbsoluteCulturalClaim
    | PossibleStereotype
    | CulturalHypothesisPending

  datatype Issue = Issue(code: IssueCode, category: Category, severity: Severity, requiresHumanReview: bool)

  datatype CritiqueReport = CritiqueReport(
    status: CritiqueStatus,
    issues: seq<Issue>,
    warnings: seq<string>,
    brandLockPreserved: bool,
    requiresHumanReview: bool,
    reviewedAt: int
  ) {
    /** The validator of CritiqueReport. */
    predicate Valid() {
      && |issues| <= MAX_ISSUES && |warnings| <= MAX_WARNINGS
      && (!brandLockPreserved ==>
            exists i :: 0 <= i < |issues| && issues[i].category.BrandLockCategory? && issues[i].severity.Blocking?)
      && ((exists i :: 0 <= i < |issues| && issues[i].severity.Blocking?) <==> status.Reject?)
      && (status.Pass? ==> |issues| == 0 && !requiresHumanReview)
      && (status.NeedsHumanReview? ==> requiresHumanReview)
    }
  }

  datatype RevisionChange = ShortenHeadline | ShortenBody

  /** The fields of RevisionCompleted that are not literals of the contract. */
  datatype RevisionCompleted = RevisionCompleted(
    runId: RunId,
    status: Status,
    previousComposition: Composition,
    brief: CreativeBrief,
    adCopy: AdCopy,
    composition: Composition,
    critique: CritiqueReport,
    technicalAttemptCount: nat,
    revisedAt: int
  ) {
    /** The validator of RevisionCompleted. */
    predicate Valid() {
      && status in {Ready, FailedFinal}
      && previousComposition.runId == runId && composition.runId == runId
      && previousComposition.artifactId != composition.artifactId
      && adCopy.locale == brief.targetLocale
      && adCopy.ctaActionMeaning == brief.brandLock.ctaActionMeaning
      && (critique.status.Reject? <==> status.FailedFinal?)
    }
  }
}

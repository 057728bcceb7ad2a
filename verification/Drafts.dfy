/** The deterministic draft for each direction (draft_generation.py). */
module Drafts {
  import opened Prelude
  import opened Domain
  import opened Contracts

  datatype DraftError = BrandLockUnconfirmed | OutputInvalid

  datatype DraftArtifacts = DraftArtifacts(
    brief: CreativeBrief,
    adCopy: AdCopy,
    factReferences: seq<string>,
    ruleIds: seq<string>
  )

  datatype DirectionFixture = DirectionFixture(
    targetLocale: Locale,
    sourceLocale: Locale,
    ruleIds: seq<string>,
    narrative: string,
    useScenario: string,
    headline: string,
    body: string,
    ctaLabel: string
  )

  const DISCLOSURE := "Fixture Demo / 非实时模型"

  const CHINA_TO_UK_FIXTURE := DirectionFixture(
    EnGb,
    ZhCn,
    ["ZEU-S1", "ZEU-S3"],
    "Present approved-note summarisation as a clear, reviewable workflow.",
    "A UK team reviews approved meeting notes before organising task summaries.",
    "Turn approved notes into clear task summaries",
    "Orbit AI helps teams organise approved meeting notes into task summaries.",
    "Try the fixture demo"
  )

  const UK_TO_CHINA_FIXTURE := DirectionFixture(
    ZhCn,
    EnGb,
    ["EZC-S1", "EZC-S3"],
    "以清晰、可复核的工作流程呈现已批准笔记的整理过程。",
    "中国团队在整理任务摘要前复核已批准的会议笔记。",
    "把已批准笔记整理成清晰任务摘要",
    "Orbit AI 帮助团队将已批准的会议笔记整理为任务摘要。",
    "体验示例演示"
  )

  function FixtureOf(direction: Direction): DirectionFixture {
    match direction
    case ChinaToUk => CHINA_TO_UK_FIXTURE
    case UkToChina => UK_TO_CHINA_FIXTURE
  }

  datatype CopywriterResult = CopywriterResult(adCopy: AdCopy, factReferences: seq<string>, ruleIds: seq<string>)

  /** FixtureCopywriter.write. */
  function Write(brief: CreativeBrief, ruleIds: seq<string>): CopywriterResult {
    var fixture := FixtureOf(brief.direction);
    CopywriterResult(
      AdCopy(fixture.targetLocale, fixture.headline, fixture.body, fixture.ctaLabel,
             brief.brandLock.ctaActionMeaning),
      brief.brandLock.verifiedProductFacts,
      ruleIds)
  }

  function Generate(analysis: Analysis, confirmed: BrandLock, direction: Direction):
    Result<DraftArtifacts, DraftError>
  {
    var fixture := FixtureOf(direction);
    if analysis.brandLock != confirmed then Err(BrandLockUnconfirmed)
    else if analysis.detectedLocale != fixture.sourceLocale then Err(OutputInvalid)
    else if exists i :: 0 <= i < |analysis.hypotheses| && !analysis.hypotheses[i].reviewStatus.PendingReview?
    then Err(OutputInvalid)
    else
      var brief := CreativeBrief(direction, fixture.targetLocale, confirmed, analysis.hypotheses,
                                 fixture.narrative, fixture.useScenario, DISCLOSURE);
      var result := Write(brief, fixture.ruleIds);
      if result.adCopy.locale != fixture.targetLocale
         || result.adCopy.ctaActionMeaning != confirmed.ctaActionMeaning
         || result.ruleIds != fixture.ruleIds
         || result.factReferences != confirmed.verifiedProductFacts
      then Err(OutputInvalid)
      else Ok(DraftArtifacts(brief, result.adCopy, result.factReferences, result.ruleIds))
  }

  /** What a draft must keep of the lock it was made from, whatever its words are. */
  ghost predicate Keeps(lock: BrandLock, brief: CreativeBrief, adCopy: AdCopy, factReferences: seq<string>) {
    && brief.brandLock == lock
    && adCopy.ctaActionMeaning == lock.ctaActionMeaning
    && factReferences == lock.verifiedProductFacts
    && adCopy.locale == brief.targetLocale
  }

  /**
   * A draft is generated exactly when the analysed lock is the confirmed one, the source was in the
   * locale the direction starts from and no hypothesis has been reviewed; it then keeps the lock.
   */
  lemma GenerateKeepsLock(analysis: Analysis, confirmed: BrandLock, direction: Direction)
    ensures
      var r := Generate(analysis, confirmed, direction);
      && (r.Ok? <==>
            && analysis.brandLock == confirmed
            && analysis.detectedLocale == (if direction.ChinaToUk? then ZhCn else EnGb)
            && forall i :: 0 <= i < |analysis.hypotheses| ==> analysis.hypotheses[i].reviewStatus.PendingReview?)
      && (r.Ok? ==>
            && Keeps(confirmed, r.value.brief, r.value.adCopy, r.value.factReferences)
            && r.value.brief.direction == direction
            && r.value.brief.hypotheses == analysis.hypotheses
            && r.value.adCopy.locale != analysis.detectedLocale)
  {
  }
}

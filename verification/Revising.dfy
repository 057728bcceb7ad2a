/** The bounded rewrite of a stored draft (revision.py). */
module Revising {
  import opened Prelude
  import opened Domain
  import opened Contracts
  import opened Drafts

  datatype RevisionFixture = RevisionFixture(headline: string, body: string)

  const CHINA_TO_UK_REVISION := RevisionFixture(
    "Turn approved notes into task summaries",
    "Orbit AI organises approved notes into task summaries.")

  const UK_TO_CHINA_REVISION := RevisionFixture(
    "把已批准笔记整理为任务摘要",
    "Orbit AI 将已批准笔记整理为任务摘要。")

  function RevisionFixtureOf(direction: Direction): RevisionFixture {
    match direction
    case ChinaToUk => CHINA_TO_UK_REVISION
    case UkToChina => UK_TO_CHINA_REVISION
  }

  /** None models the raised ValueError. */
  function ReviseDraft(direction: Direction, draft: Draft, changes: seq<RevisionChange>): Option<DraftArtifacts> {
    if draft.brief.direction != direction then None
    else
      var fixture := RevisionFixtureOf(direction);
      var revised := AdCopy(
        draft.adCopy.locale,
        if ShortenHeadline in changes then fixture.headline else draft.adCopy.headline,
        if ShortenBody in changes then fixture.body else draft.adCopy.body,
        draft.adCopy.ctaLabel,
        draft.adCopy.ctaActionMeaning);
      Some(DraftArtifacts(draft.brief, revised, draft.factReferences, draft.ruleIds))
  }

  const MAX_HEADLINE := 80
  const MAX_BODY := 220
  const MAX_CTA := 32

  /** The Critic's readability limits. */
  predicate Readable(adCopy: AdCopy) {
    |adCopy.headline| <= MAX_HEADLINE && |adCopy.body| <= MAX_BODY && |adCopy.ctaLabel| <= MAX_CTA
  }

  /**
   * A revision keeps everything the lock protects, changes the headline and the body only where that
   * was asked for, and cannot make a readable draft unreadable.
   */
  lemma ReviseKeepsLock(direction: Direction, draft: Draft, changes: seq<RevisionChange>)
    ensures
      var r := ReviseDraft(direction, draft, changes);
      && (r.Some? <==> draft.brief.direction == direction)
      && (r.Some? ==>
            && (forall lock :: Keeps(lock, draft.brief, draft.adCopy, draft.factReferences)
                  <==> Keeps(lock, r.value.brief, r.value.adCopy, r.value.factReferences))
            && r.value.brief == draft.brief && r.value.ruleIds == draft.ruleIds
            && (ShortenHeadline !in changes ==> r.value.adCopy.headline == draft.adCopy.headline)
            && (ShortenBody !in changes ==> r.value.adCopy.body == draft.adCopy.body)
            && (Readable(draft.adCopy) ==> Readable(r.value.adCopy)))
  {
  }

  /** Both fixture drafts are readable, so nothing the service stores is ever unreadable. */
  lemma GeneratedDraftReadable(analysis: Analysis, confirmed: BrandLock, direction: Direction)
    requires Generate(analysis, confirmed, direction).Ok?
    ensures Readable(Generate(analysis, confirmed, direction).value.adCopy)
  {
  }
}

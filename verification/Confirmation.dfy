/** When a proposed Brand Lock may be confirmed against the analysed one (brand_lock_confirmation.py). */
module Confirmation {
  import opened Prelude
  import opened Contracts

  datatype ConfirmationError = LockedFieldChanged | BenefitOrderInvalid | LocalizableFieldsInvalid

  function ValidateConfirmation(proposed: BrandLock, analyzed: BrandLock):
    Result<BrandLock, ConfirmationError>
  {
    if proposed.logoAssetId != analyzed.logoAssetId
       || proposed.productName != analyzed.productName
       || proposed.verifiedProductFacts != analyzed.verifiedProductFacts
       || proposed.productUiAssetIds != analyzed.productUiAssetIds
       || proposed.ctaActionMeaning != analyzed.ctaActionMeaning
       || proposed.layoutTemplateAssetId != analyzed.layoutTemplateAssetId
    then Err(LockedFieldChanged)
    else if |proposed.benefitOrder| != |analyzed.benefitOrder|
            || Elements(proposed.benefitOrder) != Elements(analyzed.benefitOrder)
    then Err(BenefitOrderInvalid)
    else if !(Elements(proposed.localizableFields) <= Elements(analyzed.localizableFields))
    then Err(LocalizableFieldsInvalid)
    else Ok(proposed)
  }

  /** What the confirmation is meant to allow: the same six locked fields, a reordering of the
      benefits, and no field made localizable that was not. */
  ghost predicate Confirms(proposed: BrandLock, analyzed: BrandLock) {
    && proposed.(benefitOrder := analyzed.benefitOrder, localizableFields := analyzed.localizableFields) == analyzed
    && multiset(proposed.benefitOrder) == multiset(analyzed.benefitOrder)
    && (forall f :: f in proposed.localizableFields ==> f in analyzed.localizableFields)
  }

  lemma {:induction false} UniqueMultiset<T>(s: seq<T>)
    requires Unique(s)
    ensures multiset(s) == multiset(Elements(s))
  {
    if |s| > 0 {
      var front, last := s[..|s| - 1], s[|s| - 1];
      assert s == front + [last];
      UniqueMultiset(front);
      assert Elements(s) == Elements(front) + {last};
      assert last !in Elements(front);
    }
  }

  lemma MultisetElements<T>(a: seq<T>, b: seq<T>)
    requires multiset(a) == multiset(b)
    ensures |a| == |b| && Elements(a) == Elements(b)
  {
    assert |multiset(a)| == |multiset(b)|;
    forall x ensures x in a <==> x in b {
      assert x in multiset(a) <==> x in multiset(b);
    }
  }

  /** The length-and-set test accepts exactly the permutations, because lock sequences have no duplicates. */
  lemma ConfirmationSound(proposed: BrandLock, analyzed: BrandLock)
    requires proposed.Valid() && analyzed.Valid()
    ensures ValidateConfirmation(proposed, analyzed).Ok? <==> Confirms(proposed, analyzed)
  {
    if multiset(proposed.benefitOrder) == multiset(analyzed.benefitOrder) {
      MultisetElements(proposed.benefitOrder, analyzed.benefitOrder);
    }
    if Elements(proposed.benefitOrder) == Elements(analyzed.benefitOrder) {
      UniqueMultiset(proposed.benefitOrder);
      UniqueMultiset(analyzed.benefitOrder);
    }
    forall f | f in proposed.localizableFields
      ensures f in Elements(proposed.localizableFields) {}
    assert (forall f :: f in proposed.localizableFields ==> f in analyzed.localizableFields)
      <==> Elements(proposed.localizableFields) <= Elements(analyzed.localizableFields);
  }

  /** Accepted confirmations form a preorder, so a chain of them confirms the first lock. */
  lemma ConfirmationPreorder(a: BrandLock, b: BrandLock, c: BrandLock)
    ensures ValidateConfirmation(a, a) == Ok(a)
    ensures ValidateConfirmation(a, b).Ok? && ValidateConfirmation(b, c).Ok? ==> ValidateConfirmation(a, c) == Ok(a)
  {
  }
}

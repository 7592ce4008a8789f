/**
 * The enterprise offer condition (`EnterpriseCustomerCondition.is_satisfied`):
 * a read-only, short-circuiting decision whether an enterprise offer applies
 * to a basket. The two remote services (enterprise learner lookup, catalog
 * containment) and the two feature switches are explicit inputs; every
 * failing check, a failed lookup included, yields `false` and nothing raises.
 */
module EnterpriseConditions {
  import opened Wrappers

  type Uuid = string
  type PartnerId = nat

  /** The condition attached to an enterprise offer. */
  datatype EnterpriseCustomerCondition = EnterpriseCustomerCondition(
    enterpriseCustomerUuid: Uuid,
    enterpriseCustomerCatalogUuid: Uuid,
    enterpriseCustomerName: string)

  /** Only the two offer types the condition distinguishes. */
  datatype OfferType = Site | Voucher

  datatype ConditionalOffer = ConditionalOffer(partner: PartnerId, offerType: OfferType)

  datatype User = User(email: string)

  /**
   * What the condition reads from a basket: its owner (None when anonymous),
   * emptiness, total in the currency's minor unit, whether the basket holds
   * a course seat, the partner of the basket's site, the `catalog` request parameter
   * and the enterprise catalog stored as a basket attribute.
   */
  datatype Basket = Basket(
    owner: Option<User>,
    isEmpty: bool,
    total: nat,
    hasCourseSeat: bool,
    sitePartner: PartnerId,
    catalogParameter: Option<string>,
    catalogAttribute: Option<string>)

  /** The switches `enterprise_offers_enabled` and `enterprise_offers_for_coupons_enabled`. */
  datatype Switches = Switches(enterpriseOffers: bool, enterpriseOffersForCoupons: bool)

  /** Answer of the enterprise learner service for the basket owner. */
  datatype LearnerLookup = LookupFailed | NotLinked | Linked(enterpriseCustomerUuid: Uuid)

  /** Answers of the remote services for this basket. */
  datatype ServiceAnswers = ServiceAnswers(learner: LearnerLookup, catalogContainsCourseRun: bool)

  const NamePrefix: string := "Basket contains a seat from "
  const NameSuffix: string := "'s catalog"

  /** The condition's display name: the fixed sentence around the customer's name, which can be read back. */
  function Name(c: EnterpriseCustomerCondition): (n: string)
    ensures |n| == |NamePrefix| + |c.enterpriseCustomerName| + |NameSuffix|
    ensures n[..|NamePrefix|] == NamePrefix
    ensures n[|n| - |NameSuffix|..] == NameSuffix
    ensures n[|NamePrefix|..|n| - |NameSuffix|] == c.enterpriseCustomerName
  {
    var n := (NamePrefix + c.enterpriseCustomerName) + NameSuffix;
    assert n[..|NamePrefix|] == NamePrefix;
    assert n[|n| - |NameSuffix|..] == NameSuffix;
    assert n[|NamePrefix|..|n| - |NameSuffix|] == c.enterpriseCustomerName;
    n
  }

  /** The name determines the customer's name: two conditions share a name iff their customers do. */
  lemma NameNamesCustomer(a: EnterpriseCustomerCondition, b: EnterpriseCustomerCondition)
    ensures Name(a) == Name(b) <==> a.enterpriseCustomerName == b.enterpriseCustomerName
  {
    var n, m := Name(a), Name(b);
    if n == m {
      assert a.enterpriseCustomerName == n[|NamePrefix|..|n| - |NameSuffix|];
      assert b.enterpriseCustomerName == m[|NamePrefix|..|m| - |NameSuffix|];
    }
  }

  /**
   * The enterprise catalog the basket was built for: the request's `catalog`
   * parameter when present, otherwise the catalog stored on the basket.
   */
  function RequestedCatalog(b: Basket): (id: Option<string>)
    ensures id.Some? <==> b.catalogParameter.Some? || b.catalogAttribute.Some?
    ensures id.Some? ==> id == b.catalogParameter || id == b.catalogAttribute
  {
    if b.catalogParameter.Some? then b.catalogParameter else b.catalogAttribute
  }

  /** A requested catalog, when there is one, must be the condition's catalog. */
  predicate CatalogMatches(c: EnterpriseCustomerCondition, b: Basket)
  {
    RequestedCatalog(b).None? || RequestedCatalog(b).value == c.enterpriseCustomerCatalogUuid
  }

  /**
   * The learner check: a failed lookup refuses; a learner of another
   * enterprise refuses; a learner with no enterprise is let through for a
   * voucher (coupon) offer only.
   */
  predicate LearnerAccepted(c: EnterpriseCustomerCondition, offer: ConditionalOffer, lookup: LearnerLookup)
  {
    match lookup
    case LookupFailed => false
    case NotLinked => offer.offerType == Voucher
    case Linked(uuid) => uuid == c.enterpriseCustomerUuid
  }

  /**
   * `is_satisfied` of the base condition: the checks in order, the first
   * failing one deciding `false`.
   */
  function IsSatisfied(
    c: EnterpriseCustomerCondition, offer: ConditionalOffer, basket: Basket,
    switches: Switches, answers: ServiceAnswers): (satisfied: bool)
    // each refusing check on its own refuses, whatever the other inputs
    ensures !switches.enterpriseOffers ==> !satisfied
    ensures offer.offerType == Voucher && !switches.enterpriseOffersForCoupons ==> !satisfied
    ensures basket.owner.None? ==> !satisfied
    ensures basket.isEmpty ==> !satisfied
    ensures basket.total == 0 ==> !satisfied
    ensures offer.partner != basket.sitePartner ==> !satisfied
    ensures !basket.hasCourseSeat ==> !satisfied
    ensures answers.learner.LookupFailed? ==> !satisfied
    ensures answers.learner.Linked? && answers.learner.enterpriseCustomerUuid != c.enterpriseCustomerUuid ==> !satisfied
    ensures answers.learner.NotLinked? && offer.offerType == Site ==> !satisfied
    ensures RequestedCatalog(basket).Some? && RequestedCatalog(basket).value != c.enterpriseCustomerCatalogUuid ==> !satisfied
    ensures !answers.catalogContainsCourseRun ==> !satisfied
    // an owned, paid course seat on the offer's site, the enterprise's learner
    // (or an unlinked one on a voucher offer), no other catalog named and the
    // run in the catalog: accepted with the switches the offer needs
    ensures && switches.enterpriseOffers
            && (offer.offerType == Voucher ==> switches.enterpriseOffersForCoupons)
            && basket.owner.Some? && !basket.isEmpty && basket.total > 0 && basket.hasCourseSeat
            && offer.partner == basket.sitePartner
            && (RequestedCatalog(basket).None? || RequestedCatalog(basket).value == c.enterpriseCustomerCatalogUuid)
            && (answers.learner == Linked(c.enterpriseCustomerUuid) || (answers.learner.NotLinked? && offer.offerType == Voucher))
            && answers.catalogContainsCourseRun
            ==> satisfied
  {
    if !switches.enterpriseOffers then false
    else if offer.offerType == Voucher && !switches.enterpriseOffersForCoupons then false
    else if offer.partner != basket.sitePartner then false
    else if basket.isEmpty || basket.total == 0 then false
    else if !basket.hasCourseSeat then false
    else if basket.owner.None? then false
    else if !CatalogMatches(c, basket) then false
    else if !LearnerAccepted(c, offer, answers.learner) then false
    else answers.catalogContainsCourseRun
  }

  /**
   * Voucher offers and the coupon switch: with the switch off a voucher offer
   * is always refused; with it on, a learner without an enterprise link passes
   * a voucher offer but not a site offer.
   */
  lemma VoucherOfferSwitchRule(
    c: EnterpriseCustomerCondition, partner: PartnerId, basket: Basket, answers: ServiceAnswers)
    ensures !IsSatisfied(c, ConditionalOffer(partner, Voucher), basket, Switches(true, false), answers)
    ensures answers.learner.NotLinked? ==>
              !IsSatisfied(c, ConditionalOffer(partner, Site), basket, Switches(true, true), answers)
    ensures answers.learner.NotLinked? ==>
              (IsSatisfied(c, ConditionalOffer(partner, Voucher), basket, Switches(true, true), answers)
               <==> IsSatisfied(c, ConditionalOffer(partner, Voucher), basket, Switches(true, true),
                                answers.(learner := Linked(c.enterpriseCustomerUuid))))
  {
  }

  /**
   * A catalog named by the request parameter or the basket attribute passes
   * only when it is the condition's catalog; when both sources name a
   * catalog, agreeing with the condition or disagreeing together decides.
   */
  lemma RequestedCatalogMustBeConditionCatalog(
    c: EnterpriseCustomerCondition, offer: ConditionalOffer, basket: Basket,
    switches: Switches, answers: ServiceAnswers, id: string)
    requires basket.catalogParameter == Some(id) || basket.catalogAttribute == Some(id)
    requires basket.catalogParameter.None? || basket.catalogAttribute.None? || basket.catalogParameter == basket.catalogAttribute
    ensures id != c.enterpriseCustomerCatalogUuid ==> !IsSatisfied(c, offer, basket, switches, answers)
    ensures id == c.enterpriseCustomerCatalogUuid ==>
              IsSatisfied(c, offer, basket, switches, answers)
              == IsSatisfied(c, offer, basket.(catalogParameter := None, catalogAttribute := None), switches, answers)
  {
  }
}

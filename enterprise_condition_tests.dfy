/**
 * The base condition's test cases, each evaluated on the model. Remote
 * answers a test leaves unmocked, and switches it leaves untouched, are
 * lemma parameters: the outcome does not depend on them.
 */
module EnterpriseConditionTests {
  import opened Wrappers
  import opened EnterpriseConditions

  const CustomerUuid: Uuid := "47130371-0b6d-43f5-01de-71942664de2b"
  const OtherCustomerUuid: Uuid := "cf246b88-d5f6-4908-a522-fc307e0b0c59"
  const CatalogUuid: Uuid := "a4e08eab-9c6b-49d1-8a3c-4ea8bb2e1b0e"

  const Condition := EnterpriseCustomerCondition(CustomerUuid, CatalogUuid, "Test Enterprise")
  const SitePartner: PartnerId := 1
  const OtherPartner: PartnerId := 2
  const Learner := User("learner@example.com")
  const SiteOffer := ConditionalOffer(SitePartner, Site)
  const CouponOffer := ConditionalOffer(SitePartner, Voucher)
  const LinkedLearner := ServiceAnswers(Linked(CustomerUuid), true)

  /** A basket of the learner on the offer's site holding one verified seat. */
  function SeatBasket(owner: Option<User>, catalogParameter: Option<string>, catalogAttribute: Option<string>): Basket
  {
    Basket(owner, false, 10000, true, SitePartner, catalogParameter, catalogAttribute)
  }

  lemma TestName()
    ensures Name(Condition) == "Basket contains a seat from Test Enterprise's catalog"
  {
  }

  lemma TestIsSatisfiedTrue(coupons: bool)
    ensures IsSatisfied(Condition, SiteOffer, SeatBasket(Some(Learner), None, None), Switches(true, coupons), LinkedLearner)
  {
  }

  lemma TestIsSatisfiedTrueForEnterpriseCatalogInGetRequest(coupons: bool)
    ensures IsSatisfied(Condition, SiteOffer, SeatBasket(Some(Learner), Some(CatalogUuid), None),
                        Switches(true, coupons), LinkedLearner)
  {
  }

  lemma TestIsSatisfiedTrueForEnterpriseCatalogInBasketAttribute(coupons: bool)
    ensures IsSatisfied(Condition, SiteOffer, SeatBasket(Some(Learner), None, Some(CatalogUuid)),
                        Switches(true, coupons), LinkedLearner)
  {
  }

  /**
   * Both rows: any catalog other than the condition's, such as a fresh uuid,
   * is refused, and the string that is no uuid is such a catalog; the
   * catalog mock answers false here.
   */
  lemma TestIsSatisfiedFalseForInvalidEnterpriseCatalog(coupons: bool, catalog: string)
    requires catalog != Condition.enterpriseCustomerCatalogUuid
    ensures !IsSatisfied(Condition, SiteOffer, SeatBasket(Some(Learner), Some(catalog), None),
                         Switches(true, coupons), ServiceAnswers(Linked(CustomerUuid), false))
    ensures "INVALID_UUID_STRING" != Condition.enterpriseCustomerCatalogUuid
  {
  }

  lemma TestIsSatisfiedForAnonymousUser(coupons: bool)
    ensures !IsSatisfied(Condition, SiteOffer, SeatBasket(None, None, None), Switches(true, coupons), LinkedLearner)
  {
  }

  lemma TestIsSatisfiedFalseForVoucherOfferCouponSwitchOff()
    ensures !IsSatisfied(Condition, CouponOffer, SeatBasket(Some(Learner), None, None), Switches(true, false), LinkedLearner)
  {
  }

  lemma TestIsSatisfiedTrueForVoucherOfferCouponSwitchOn()
    ensures IsSatisfied(Condition, CouponOffer, SeatBasket(Some(Learner), None, None), Switches(true, true), LinkedLearner)
  {
  }

  lemma TestIsSatisfiedTrueForVoucherOfferCouponSwitchOnNewUser()
    ensures IsSatisfied(Condition, CouponOffer, SeatBasket(Some(Learner), None, None), Switches(true, true),
                        ServiceAnswers(NotLinked, true))
  {
  }

  lemma TestIsSatisfiedEmptyBasket(coupons: bool, answers: ServiceAnswers)
    ensures !IsSatisfied(Condition, SiteOffer, Basket(Some(Learner), true, 0, false, SitePartner, None, None),
                         Switches(true, coupons), answers)
  {
  }

  /** A non-seat product priced at zero. */
  lemma TestIsSatisfiedFreeBasket(coupons: bool, answers: ServiceAnswers)
    ensures !IsSatisfied(Condition, SiteOffer, Basket(Some(Learner), false, 0, false, SitePartner, None, None),
                         Switches(true, coupons), answers)
  {
  }

  /** The offer belongs to another site's partner; the basket holds a non-seat product priced at 10. */
  lemma TestIsSatisfiedSiteMismatch(coupons: bool, answers: ServiceAnswers)
    ensures !IsSatisfied(Condition, ConditionalOffer(OtherPartner, Site),
                         Basket(Some(Learner), false, 1000, false, SitePartner, None, None),
                         Switches(true, coupons), answers)
  {
  }

  lemma TestIsSatisfiedEnterpriseLearnerError(coupons: bool, contains: bool)
    ensures !IsSatisfied(Condition, SiteOffer, SeatBasket(Some(Learner), None, None), Switches(true, coupons),
                         ServiceAnswers(LookupFailed, contains))
  {
  }

  lemma TestIsSatisfiedNoEnterpriseLearner(coupons: bool, contains: bool)
    ensures !IsSatisfied(Condition, SiteOffer, SeatBasket(Some(Learner), None, None), Switches(true, coupons),
                         ServiceAnswers(NotLinked, contains))
  {
  }

  lemma TestIsSatisfiedWrongEnterprise(coupons: bool, contains: bool)
    ensures !IsSatisfied(Condition, SiteOffer, SeatBasket(Some(Learner), None, None), Switches(true, coupons),
                         ServiceAnswers(Linked(OtherCustomerUuid), contains))
  {
  }

  lemma TestIsSatisfiedNoCourseProduct(coupons: bool, contains: bool)
    ensures !IsSatisfied(Condition, SiteOffer, Basket(Some(Learner), false, 1000, false, SitePartner, None, None),
                         Switches(true, coupons), ServiceAnswers(Linked(CustomerUuid), contains))
  {
  }

  lemma TestIsSatisfiedCourseRunNotInCatalog(coupons: bool)
    ensures !IsSatisfied(Condition, SiteOffer, SeatBasket(Some(Learner), None, None), Switches(true, coupons),
                         ServiceAnswers(Linked(CustomerUuid), false))
  {
  }
}

# Enterprise offer conditions

A model of the enterprise offer conditions of the ecommerce service, as their
test module `ecommerce/enterprise/tests/test_conditions.py` fixes them. The
module that implements the conditions is not part of this model. The rules
are the ones the test rows fix; where the rows give the same answers under
two readings, the model takes one of them, and the lists below say which.

- `EnterpriseConditions` (`enterprise_conditions.dfy`) is the base condition,
  `EnterpriseCustomerCondition.is_satisfied`. It is a short-circuiting
  eligibility predicate over a basket and a conditional offer. The two feature
  switches and the answers of the learner and catalog services are plain
  inputs. The learner lookup fails, finds no enterprise, or finds one.
- `AssignableConditions` (`assignable_conditions.dfy`) is the assignable
  condition, `AssignableEnterpriseCustomerCondition`.
  - It applies the base condition first, then the assignment rule.
  - An owner holding an open assignment of the basket voucher's code is
    accepted. An assignment is open when it is neither redeemed nor revoked.
  - Any other owner needs a free slot. The free slots are counted on the
    voucher's own enterprise offer.
- `RedemptionLedgers` (`redemption_ledger.dfy`) is the test harness
  `assert_condition`, as a ledger of vouchers and offer assignments.
  - An accepted attempt adds one to the voucher's `num_orders` and marks the
    owner's first open assignment as redeemed.
  - A test's attempt list runs through the spec function `RunAttempts`. It
    also runs through the class `RedemptionLedger`, whose methods update the
    ledger in place.
- `EnterpriseConditionTests` and `AssignableConditionTests` are the test
  cases, each a lemma that evaluates to what the test asserts. The harness
  scenarios are evaluated attempt by attempt: the ledger after each accepted
  attempt is written out, and each step and each tail of the run is its own
  lemma.
- `Wrappers` holds `Option`.

The test rows fix these rules, and the model follows them where a prose
description of the system differs:
- A single-use code that someone else holds an open assignment of is refused
  even while it is unused: the rows at lines 407-419 and the test at 367-389.
- The free slots are not counted on the offer the condition is called with.
  The test at lines 367-389 passes the second voucher's offer, under which the
  code has one free slot, and expects a refusal.
- A redeemed assignment of a used code does not entitle its owner to
  another use (line 344), and the owner's own revoked assignment of an unused
  code leaves the code open to them (line 345).

These are the model's choices where no row's answer separates the readings:
- A revoked assignment is closed like a redeemed one: it is not honoured and
  does not hold a slot, as the harness itself skips assignments that are
  redeemed or revoked when it looks for the one to redeem (line 335). No row
  gives a revoked assignment of a code to someone other than the presenting
  owner, so treating it as still held gives the same answers.
- Once per customer and multi use count open assignments against the ceiling,
  as the docstring at lines 544-546 counts 7 − 2 − 2 = 3 free slots. Counting
  only `num_orders` gives the same answer in every row.
- A multi-use-per-customer code has no slot for an unassigned owner while
  someone else holds an open assignment of it. Counting it like multi use,
  ceiling − `num_orders` − open, refuses the same attempts at lines 483-516.
- Assignments are counted per (voucher's enterprise offer, code). Counting
  them per code alone gives the same answers, since every test code has one
  offer.
- A catalog named by the request or the basket must be the condition's own.
  The rows at lines 112-123 refuse another catalog, but their catalog service
  also answers that the run is not in the catalog, which refuses alone.
- With the enterprise-offers switch off, every offer is refused; no row turns
  that switch off.

## Model

| member | source | states |
|---|---|---|
| EnterpriseConditions.Name | ecommerce/enterprise/tests/test_conditions.py:45-49 | The name starts with "Basket contains a seat from ", ends with "'s catalog", and what lies between is exactly the customer's name. |
| EnterpriseConditions.NameNamesCustomer | ecommerce/enterprise/tests/test_conditions.py:45-49 | Two conditions have the same name iff their customers have the same name. |
| EnterpriseConditions.RequestedCatalog | ecommerce/enterprise/tests/test_conditions.py:87-110 | A catalog is requested iff the request parameter or the basket attribute names one, and the catalog requested is one of the two. |
| EnterpriseConditions.IsSatisfied | ecommerce/enterprise/tests/test_conditions.py:35-273 | Each refusing check refuses on its own, whatever the other inputs: enterprise offers switched off, a voucher offer with the coupon switch off, an anonymous, empty, zero-total or other-partner basket, no course seat, a failed learner lookup, a learner of another enterprise, an unlinked learner on a site offer, a named catalog other than the condition's, a run outside the catalog. A basket passing every check is accepted. |
| EnterpriseConditions.VoucherOfferSwitchRule | ecommerce/enterprise/tests/test_conditions.py:167-186 | With the coupon switch off, a voucher offer is always refused. With it on, a learner without an enterprise link passes a voucher offer exactly as a linked learner would, and fails a site offer. |
| EnterpriseConditions.RequestedCatalogMustBeConditionCatalog | ecommerce/enterprise/tests/test_conditions.py:87-123 | A catalog named by the request or the basket that is not the condition's catalog refuses. The condition's own catalog decides nothing: the answer is as if none were named. |
| EnterpriseConditionTests.TestName | ecommerce/enterprise/tests/test_conditions.py:45-49 | The name for "Test Enterprise". |
| EnterpriseConditionTests.TestIsSatisfiedTrue | ecommerce/enterprise/tests/test_conditions.py:52-67 | A linked learner's seat basket satisfies a site offer. |
| EnterpriseConditionTests.TestIsSatisfiedTrueForEnterpriseCatalogInGetRequest | ecommerce/enterprise/tests/test_conditions.py:88-98 | The condition's catalog in the request parameter passes. |
| EnterpriseConditionTests.TestIsSatisfiedTrueForEnterpriseCatalogInBasketAttribute | ecommerce/enterprise/tests/test_conditions.py:100-110 | The condition's catalog in the basket attribute passes. |
| EnterpriseConditionTests.TestIsSatisfiedFalseForInvalidEnterpriseCatalog | ecommerce/enterprise/tests/test_conditions.py:112-123 | Any catalog in the request other than the condition's, such as a fresh uuid, refuses; the string that is no uuid is such a catalog. |
| EnterpriseConditionTests.TestIsSatisfiedForAnonymousUser | ecommerce/enterprise/tests/test_conditions.py:126-141 | An anonymous basket is refused. |
| EnterpriseConditionTests.TestIsSatisfiedFalseForVoucherOfferCouponSwitchOff | ecommerce/enterprise/tests/test_conditions.py:168-173 | A voucher offer with the coupon switch off is refused. |
| EnterpriseConditionTests.TestIsSatisfiedTrueForVoucherOfferCouponSwitchOn | ecommerce/enterprise/tests/test_conditions.py:175-180 | A voucher offer with the coupon switch on is accepted for a linked learner. |
| EnterpriseConditionTests.TestIsSatisfiedTrueForVoucherOfferCouponSwitchOnNewUser | ecommerce/enterprise/tests/test_conditions.py:182-186 | A voucher offer with the coupon switch on is accepted for a learner without an enterprise. |
| EnterpriseConditionTests.TestIsSatisfiedEmptyBasket | ecommerce/enterprise/tests/test_conditions.py:188-193 | An empty basket is refused, whatever the services answer. |
| EnterpriseConditionTests.TestIsSatisfiedFreeBasket | ecommerce/enterprise/tests/test_conditions.py:195-204 | A basket with a zero total is refused. |
| EnterpriseConditionTests.TestIsSatisfiedSiteMismatch | ecommerce/enterprise/tests/test_conditions.py:206-212 | An offer of another site's partner is refused. |
| EnterpriseConditionTests.TestIsSatisfiedEnterpriseLearnerError | ecommerce/enterprise/tests/test_conditions.py:214-221 | A failed learner lookup refuses a site offer. |
| EnterpriseConditionTests.TestIsSatisfiedNoEnterpriseLearner | ecommerce/enterprise/tests/test_conditions.py:223-230 | A learner without an enterprise is refused a site offer. |
| EnterpriseConditionTests.TestIsSatisfiedWrongEnterprise | ecommerce/enterprise/tests/test_conditions.py:232-242 | A learner of another enterprise is refused. |
| EnterpriseConditionTests.TestIsSatisfiedNoCourseProduct | ecommerce/enterprise/tests/test_conditions.py:244-255 | A basket without a course seat is refused. |
| EnterpriseConditionTests.TestIsSatisfiedCourseRunNotInCatalog | ecommerce/enterprise/tests/test_conditions.py:257-273 | A course run outside the catalog is refused. |
| AssignableConditions.OpenCount | ecommerce/enterprise/tests/test_conditions.py:544-546 | The number of open assignments of a code under an offer is at most the number of assignments, and it is zero iff none is open. |
| AssignableConditions.OpenCountConcat | ecommerce/enterprise/tests/test_conditions.py:544-546 | The count of a list split in two is the sum of the counts of the parts. |
| AssignableConditions.OpenCountSingle | ecommerce/enterprise/tests/test_conditions.py:544-546 | A single assignment counts one iff it is open for that offer and code, and zero otherwise; with `OpenCountConcat` this fixes the count of every list. |
| AssignableConditions.FirstOpen | ecommerce/enterprise/tests/test_conditions.py:332-336 | The index found is of an open assignment of the code to the owner, and every earlier one is not; None means there is no such assignment. |
| AssignableConditions.FreeSlots | ecommerce/enterprise/tests/test_conditions.py:420-516 | Unlimited iff there is no ceiling and no other open assignment blocks a multi-use-per-customer code. A positive count fits within the ceiling together with the redemptions and open assignments. For multi use and once per customer it is exactly ceiling − `num_orders` − open. |
| AssignableConditions.Allows | ecommerce/enterprise/tests/test_conditions.py:341-620 | An owner holding an open assignment of the code under the voucher's offer is accepted. Otherwise the policy decides: single use iff `num_orders` is 0 and no assignment of the code is open; multi use and once per customer iff there is no ceiling or ceiling − `num_orders` − open > 0; multi use per customer iff no assignment is open and there is no ceiling or ceiling − `num_orders` > 0. |
| AssignableConditions.IsSatisfied | ecommerce/enterprise/tests/test_conditions.py:341-364 | A refusal by the base condition refuses. Once the base condition holds, the basket has an owner and the assignment rule for that owner alone decides. |
| AssignableConditions.OpenAssignmentIsHonoured | ecommerce/enterprise/tests/test_conditions.py:342-345 | An owner holding an open assignment of the code is accepted, whatever the policy and the counters. |
| AssignableConditions.SingleUseRule | ecommerce/enterprise/tests/test_conditions.py:603-620 | Single use, without an open assignment of the owner's own: accepted iff `num_orders` is 0 and nobody holds an open assignment of the code. |
| AssignableConditions.AssignedToAnotherRefused | ecommerce/enterprise/tests/test_conditions.py:407-419 | Single use and multi use per customer: a code someone else holds an open assignment of is refused. |
| RedemptionLedgers.Accepts | ecommerce/enterprise/tests/test_conditions.py:323-324 | The harness's answer for an owner presenting a code: the assignment rule `Allows` for the code's voucher and the ledger's assignments, with the base condition mocked to accept (line 341). |
| RedemptionLedgers.AcceptsIsConditionAnswer | ecommerce/enterprise/tests/test_conditions.py:323-324 | Whenever the base condition accepts a basket, the basket has an owner, and `Accepts` for that owner equals the assignable condition's `IsSatisfied` on the code's voucher and the ledger's assignments. |
| RedemptionLedgers.RedeemFirstOpen | ecommerce/enterprise/tests/test_conditions.py:332-339 | The assignment list keeps its length. Only an open assignment of the code to the owner can change, and it becomes redeemed. At most one entry changes: the first such assignment, which changes whenever there is one. The list changes iff the owner holds such an assignment. |
| RedemptionLedgers.Record | ecommerce/enterprise/tests/test_conditions.py:329-339 | Recording an acceptance adds exactly one to the code's `num_orders` and changes nothing else about the voucher; every other voucher stays as it was. The only assignment that can change is the owner's first open one of the code; when the owner holds one, it does change, and it becomes redeemed. |
| RedemptionLedgers.Step | ecommerce/enterprise/tests/test_conditions.py:314-339 | An attempt keeps the set of vouchers and the number of assignments. Only an acceptance changes the ledger, and an attempt is accepted iff the code's `num_orders` grows by one. An accepted attempt is recorded exactly as `Record` states. |
| RedemptionLedgers.RunAttempts | ecommerce/enterprise/tests/test_conditions.py:310-339 | An empty list passes and leaves the ledger alone. A passing run names only codes that have a voucher, and it keeps the set of vouchers and the number of assignments. |
| RedemptionLedgers.RunOnlyAddsOrders | ecommerce/enterprise/tests/test_conditions.py:310-339 | Over any passing run, every voucher's `num_orders` only grows, and every redeemed or revoked assignment stays as it was. |
| RedemptionLedgers.OpenCountAfterRedeem | ecommerce/enterprise/tests/test_conditions.py:332-339 | Recording an acceptance closes exactly one open assignment of that offer and code when the owner held one, and none otherwise; other codes keep their count. |
| RedemptionLedgers.StepPreservesCeiling | ecommerce/enterprise/tests/test_conditions.py:314-339 | Every attempt keeps each voucher's redemptions plus open assignments within its ceiling (one for single use). |
| RedemptionLedgers.RunNeverOversells | ecommerce/enterprise/tests/test_conditions.py:314-339 | Over any attempt list the harness accepts, the ceiling invariant holds at the end, so no voucher has more redemptions than its ceiling. |
| RedemptionLedgers.Repeat | ecommerce/enterprise/tests/test_conditions.py:593-594 | `k` repetitions form a list of length `k` whose every entry is the owner's attempt on the code without an expected-answer override. |
| RedemptionLedgers.UnassignedOwnerTakesExactlyTheFreeSlots | ecommerce/enterprise/tests/test_conditions.py:564-601 | An owner without an assignment of a counted code with a ceiling gets exactly ceiling − `num_orders` − open acceptances in a row. Each adds one redemption and touches no assignment. One attempt more makes the run fail. |
| RedemptionLedgers.UnassignedOwnerAcceptedWithinFreeSlots | ecommerce/enterprise/tests/test_conditions.py:592-594 | Up to the free slots, an unassigned owner's attempts all pass, each adding one redemption and touching no assignment. |
| RedemptionLedgers.UnassignedOwnerRefusedBeyondFreeSlots | ecommerce/enterprise/tests/test_conditions.py:596-601 | More attempts than free slots make the run fail. |
| RedemptionLedgers.UnassignedAttempt | ecommerce/enterprise/tests/test_conditions.py:592-601 | An unassigned owner's attempt is accepted iff a slot is free. An accepted attempt only adds one redemption and leaves one slot fewer, and a refused one ends the run. |
| RedemptionLedgers.FindFirstOpen | ecommerce/enterprise/tests/test_conditions.py:332-336 | The scan returns the index of the owner's first open assignment of the code, as `FirstOpen` specifies. |
| RedemptionLedgers.RedemptionLedger.constructor | ecommerce/enterprise/tests/test_conditions.py:282-308 | The ledger starts with the given vouchers and assignments. |
| RedemptionLedgers.RedemptionLedger.Redeem | ecommerce/enterprise/tests/test_conditions.py:329-339 | The new state is `Record` of the old one, and the code's `num_orders` has grown by one. |
| RedemptionLedgers.RedemptionLedger.AssertCondition | ecommerce/enterprise/tests/test_conditions.py:310-339 | The loop passes iff `RunAttempts` accepts the list: every answer is as expected and a row's `result` carries over to later rows. When it passes, the new state is `RunAttempts`' final ledger. |
| AssignableConditionTests.TestIsSatisfiedPendingAssignment | ecommerce/enterprise/tests/test_conditions.py:343 | A pending assignment is honoured. |
| AssignableConditionTests.TestIsSatisfiedRedeemedAssignment | ecommerce/enterprise/tests/test_conditions.py:344 | A redeemed assignment of a used single-use code is refused. |
| AssignableConditionTests.TestIsSatisfiedRevokedAssignment | ecommerce/enterprise/tests/test_conditions.py:345 | A revoked assignment leaves the unused code's one slot free. |
| AssignableConditionTests.TestIsSatisfiedWithDifferentUsers | ecommerce/enterprise/tests/test_conditions.py:367-389 | test2 presenting the code assigned to test1 is refused, whatever the two offers' ceilings. |
| AssignableConditionTests.AllVoucherTypesPass | ecommerce/enterprise/tests/test_conditions.py:530-537 | The test body: when asked to, the correct assignments run with acceptance expected, and then the wrong ones, from the resulting ledger, run with refusal expected; the test passes iff both runs pass. |
| AssignableConditionTests.TestAllVoucherTypesSingleUseAfterRedemption | ecommerce/enterprise/tests/test_conditions.py:393-406 | Both single-use owners redeem; afterwards every attempt is refused. |
| AssignableConditionTests.TestAllVoucherTypesSingleUseWrongOwner | ecommerce/enterprise/tests/test_conditions.py:407-419 | A single-use code assigned to the other email is refused. |
| AssignableConditionTests.TestAllVoucherTypesOncePerCustomerExhausted | ecommerce/enterprise/tests/test_conditions.py:420-432 | With ceiling 2, both owners redeem; then both an owner and another email are refused. |
| AssignableConditionTests.TestAllVoucherTypesOncePerCustomerFreeSlots | ecommerce/enterprise/tests/test_conditions.py:433-445 | With ceiling 5, after both owners redeem, another email is accepted. |
| AssignableConditionTests.TestAllVoucherTypesMultiUseUnbounded | ecommerce/enterprise/tests/test_conditions.py:446-455 | Without a ceiling, both owners redeem. |
| AssignableConditionTests.TestAllVoucherTypesMultiUseExhausted | ecommerce/enterprise/tests/test_conditions.py:456-468 | With ceiling 3, three owners redeem and a fourth email is refused. |
| AssignableConditionTests.TestAllVoucherTypesMultiUseFreeSlots | ecommerce/enterprise/tests/test_conditions.py:469-482 | With ceiling 5, after three redemptions another email is accepted. |
| AssignableConditionTests.TestAllVoucherTypesMultiUsePerCustomerExhausted | ecommerce/enterprise/tests/test_conditions.py:483-501 | With ceiling 3, each owner redeems their code three times; then all four attempts, by owners or not, are refused. |
| AssignableConditionTests.TestAllVoucherTypesMultiUsePerCustomerWrongOwner | ecommerce/enterprise/tests/test_conditions.py:502-516 | Each code presented by the other code's owner is refused. |
| AssignableConditionTests.TestIsSatisfiedWhenOwnerHasNoAssignment | ecommerce/enterprise/tests/test_conditions.py:540-562 | Ceiling 7, two redemptions and two open assignments leave exactly 3 free slots, and bob is accepted. |
| AssignableConditionTests.TestIsSatisfiedWhenNoCodeAssignmentsExistsUnused | ecommerce/enterprise/tests/test_conditions.py:605 | An unused single-use code without assignments is accepted, whatever the ceiling. |
| AssignableConditionTests.TestIsSatisfiedWhenNoCodeAssignmentsExistsUsed | ecommerce/enterprise/tests/test_conditions.py:606 | A used single-use code without assignments is refused, whatever the ceiling. |
| AssignableConditionTests.NoAssignmentT1Redeems | ecommerce/enterprise/tests/test_conditions.py:588-590 | From the fresh ledger with ceiling 7, t1 redeems their own assignment. |
| AssignableConditionTests.NoAssignmentT2Redeems | ecommerce/enterprise/tests/test_conditions.py:588-590 | Then t2 redeems theirs, leaving `num_orders` at 2 and both assignments redeemed. |
| AssignableConditionTests.NoAssignmentOwnersRedeem | ecommerce/enterprise/tests/test_conditions.py:581-590 | From the fresh ledger with ceiling 7, t1 and t2 redeem their own assignments, leaving `num_orders` at 2 and both assignments redeemed. |
| AssignableConditionTests.NoAssignmentFreeSlot | ecommerce/enterprise/tests/test_conditions.py:592-594 | Below the ceiling of 7, each attempt by the owner without an assignment is accepted and adds one redemption. |
| AssignableConditionTests.NoAssignmentExhausted | ecommerce/enterprise/tests/test_conditions.py:600-601 | At 7 redemptions, the owner without an assignment is refused and nothing changes. |
| AssignableConditionTests.TestIsSatisfiedWhenUserHasNoAssignment | ecommerce/enterprise/tests/test_conditions.py:564-601 | Run on the ledger class: t1 and t2 redeem, five acceptances for the unassigned owner bring `num_orders` to 7, and the next attempt is refused. |

## Left out

- The implementation module of both conditions is not part of this model. The rules are the ones the tests fix, completed by the choices listed at the top.
- How `CouponCodeAssignmentSerializer` spreads codes over emails (lines 304-308) is not part of this model. Each scenario's starting ledger holds the listed assignments as pending. The multi-use policies get one enterprise offer per code; single-use codes share one offer.
- The learner and catalog services, and the two feature switches, are inputs. There is no HTTP, no caching and no error other than a failed lookup.
- EnterpriseConditions.RequestedCatalog: when the request parameter and the basket attribute name different catalogs, the model takes the request parameter. No test fixes this, and no lemma states a precedence.
- FreeSlots: the condition counts only slots. A once-per-customer owner who has already redeemed the code is not refused for that while slots remain, and a multi-use-per-customer owner has no cap of their own beyond the global count. No row fixes either case.
- A basket without a voucher is left out: no test has one, and the code is a parameter of the assignable rule.
- Offer-assignment statuses other than pending, redeemed and revoked are one status, pending: all of them are open.
- Concurrency and row locking around order placement are left out; the ledger is single-threaded, as the tests are.
- The payment processors and views, the journals client, the subscription endpoint, the admin, model, migration and routing declarations, the catalogue fixtures and the front-end scripts are outside the conditions and are not part of this model.

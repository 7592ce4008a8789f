/**
 * The assignable enterprise condition (`AssignableEnterpriseCustomerCondition`):
 * once the base enterprise condition holds, the basket's voucher code is
 * accepted for an owner holding an open assignment of that code, or for any
 * owner while the code still has free (unassigned, unredeemed) slots.
 */
module AssignableConditions {
  import opened Wrappers
  import EnterpriseConditions

  type Code = string
  type Email = string
  type OfferId = nat

  /** The voucher usage policies. */
  datatype Usage = SingleUse | MultiUse | OncePerCustomer | MultiUsePerCustomer

  /** Statuses of an offer assignment used by the condition. */
  datatype AssignmentStatus = EmailPending | Redeemed | Revoked

  /** A reservation of one use of `code` under `offer` for `userEmail`. */
  datatype OfferAssignment = OfferAssignment(offer: OfferId, code: Code, userEmail: Email, status: AssignmentStatus)

  /** The enterprise offer of a voucher, with its optional global ceiling. */
  datatype EnterpriseOffer = EnterpriseOffer(id: OfferId, maxGlobalApplications: Option<nat>)

  /** A voucher: usage policy, redemption counter and its enterprise offer. */
  datatype Voucher = Voucher(usage: Usage, numOrders: nat, enterpriseOffer: EnterpriseOffer)

  /** An assignment is open until it is redeemed or revoked. */
  predicate IsOpen(s: AssignmentStatus)
  {
    s != Redeemed && s != Revoked
  }

  predicate OpenFor(a: OfferAssignment, offer: OfferId, code: Code)
  {
    a.offer == offer && a.code == code && IsOpen(a.status)
  }

  predicate OpenForOwner(a: OfferAssignment, offer: OfferId, code: Code, email: Email)
  {
    OpenFor(a, offer, code) && a.userEmail == email
  }

  /** Whether `email` holds an open assignment of `code` under `offer`. */
  predicate HoldsOpenAssignment(asg: seq<OfferAssignment>, offer: OfferId, code: Code, email: Email)
  {
    exists i :: 0 <= i < |asg| && OpenForOwner(asg[i], offer, code, email)
  }

  /** Number of open assignments of `code` under `offer`. */
  function OpenCount(asg: seq<OfferAssignment>, offer: OfferId, code: Code): (n: nat)
    ensures n <= |asg|
    ensures n == 0 <==> forall i :: 0 <= i < |asg| ==> !OpenFor(asg[i], offer, code)
  {
    if asg == [] then 0
    else (if OpenFor(asg[0], offer, code) then 1 else 0) + OpenCount(asg[1..], offer, code)
  }

  /** Counting open assignments adds up over a split of the list. */
  lemma {:induction false} OpenCountConcat(a: seq<OfferAssignment>, b: seq<OfferAssignment>, offer: OfferId, code: Code)
    ensures OpenCount(a + b, offer, code) == OpenCount(a, offer, code) + OpenCount(b, offer, code)
  {
    if a != [] {
      assert (a + b)[0] == a[0];
      assert (a + b)[1..] == a[1..] + b;
      OpenCountConcat(a[1..], b, offer, code);
    } else {
      assert a + b == b;
    }
  }

  /** One assignment counts one exactly when it is open for the offer and code. */
  lemma OpenCountSingle(x: OfferAssignment, offer: OfferId, code: Code)
    ensures OpenCount([x], offer, code) == if OpenFor(x, offer, code) then 1 else 0
  {
  }

  /** Index of the first open assignment of `code` under `offer` to `email`, if any. */
  function FirstOpen(asg: seq<OfferAssignment>, offer: OfferId, code: Code, email: Email): (r: Option<nat>)
    ensures r.Some? ==> r.value < |asg| && OpenForOwner(asg[r.value], offer, code, email)
    ensures r.Some? ==> forall i :: 0 <= i < r.value ==> !OpenForOwner(asg[i], offer, code, email)
    ensures r.None? ==> forall i :: 0 <= i < |asg| ==> !OpenForOwner(asg[i], offer, code, email)
  {
    if asg == [] then None
    else if OpenForOwner(asg[0], offer, code, email) then Some(0)
    else match FirstOpen(asg[1..], offer, code, email)
      case None => None
      case Some(k) => Some(k + 1)
  }

  /** Remaining capacity of a code: no ceiling, or a (possibly non-positive) number of slots. */
  datatype Capacity = Unlimited | Slots(count: int)

  predicate HasFreeSlot(c: Capacity)
  {
    c.Unlimited? || c.count > 0
  }

  /** The number of uses a voucher can ever have: one for a single-use code, else the offer's ceiling. */
  function EffectiveCeiling(v: Voucher): Option<nat>
  {
    if v.usage == SingleUse then Some(1) else v.enterpriseOffer.maxGlobalApplications
  }

  /**
   * Free slots of a voucher that already has `open` open assignments.
   * Single-use and multi-use-per-customer codes have none while any open
   * assignment exists; a single-use code has none once used and otherwise
   * one; the other policies count the ceiling less the redemptions and the
   * open assignments.
   */
  function FreeSlots(v: Voucher, open: nat): (c: Capacity)
    ensures c.Unlimited? <==> EffectiveCeiling(v).None? && (v.usage != MultiUsePerCustomer || open == 0)
    ensures c.Slots? && c.count > 0 ==>
              EffectiveCeiling(v).Some? && v.numOrders + open + c.count <= EffectiveCeiling(v).value
    ensures (v.usage == MultiUse || v.usage == OncePerCustomer) && c.Slots? ==>
              EffectiveCeiling(v).Some? && v.numOrders + open + c.count == EffectiveCeiling(v).value
  {
    match v.usage
    case SingleUse =>
      if open > 0 || v.numOrders > 0 then Slots(0) else Slots(1)
    case MultiUsePerCustomer =>
      if open > 0 then Slots(0) else Remaining(v.enterpriseOffer.maxGlobalApplications, v.numOrders, 0)
    case MultiUse =>
      Remaining(v.enterpriseOffer.maxGlobalApplications, v.numOrders, open)
    case OncePerCustomer =>
      Remaining(v.enterpriseOffer.maxGlobalApplications, v.numOrders, open)
  }

  function Remaining(ceiling: Option<nat>, used: nat, open: nat): Capacity
  {
    match ceiling
    case None => Unlimited
    case Some(n) => Slots(n - used - open)
  }

  /**
   * The assignment rule for the owner `email` presenting `code`: an open
   * assignment of the code to the owner under the voucher's enterprise offer
   * is honoured; otherwise a free slot is needed.
   */
  function Allows(v: Voucher, code: Code, asg: seq<OfferAssignment>, email: Email): (accepted: bool)
    // the owner's own open assignment is always honoured
    ensures HoldsOpenAssignment(asg, v.enterpriseOffer.id, code, email) ==> accepted
    // otherwise the voucher's policy decides
    ensures !HoldsOpenAssignment(asg, v.enterpriseOffer.id, code, email) && v.usage == SingleUse ==>
              (accepted <==> v.numOrders == 0 && OpenCount(asg, v.enterpriseOffer.id, code) == 0)
    ensures !HoldsOpenAssignment(asg, v.enterpriseOffer.id, code, email) && (v.usage == MultiUse || v.usage == OncePerCustomer) ==>
              (accepted <==> v.enterpriseOffer.maxGlobalApplications.None?
                             || v.enterpriseOffer.maxGlobalApplications.value - v.numOrders - OpenCount(asg, v.enterpriseOffer.id, code) > 0)
    ensures !HoldsOpenAssignment(asg, v.enterpriseOffer.id, code, email) && v.usage == MultiUsePerCustomer ==>
              (accepted <==> OpenCount(asg, v.enterpriseOffer.id, code) == 0
                             && (v.enterpriseOffer.maxGlobalApplications.None?
                                 || v.enterpriseOffer.maxGlobalApplications.value - v.numOrders > 0))
  {
    FirstOpen(asg, v.enterpriseOffer.id, code, email).Some?
    || HasFreeSlot(FreeSlots(v, OpenCount(asg, v.enterpriseOffer.id, code)))
  }

  /** `is_satisfied` of the assignable condition: the base condition, then the assignment rule. */
  function IsSatisfied(
    c: EnterpriseConditions.EnterpriseCustomerCondition, offer: EnterpriseConditions.ConditionalOffer,
    basket: EnterpriseConditions.Basket, switches: EnterpriseConditions.Switches,
    answers: EnterpriseConditions.ServiceAnswers,
    voucher: Voucher, code: Code, asg: seq<OfferAssignment>): (satisfied: bool)
    ensures !EnterpriseConditions.IsSatisfied(c, offer, basket, switches, answers) ==> !satisfied
    ensures EnterpriseConditions.IsSatisfied(c, offer, basket, switches, answers) ==>
              basket.owner.Some? && (satisfied <==> Allows(voucher, code, asg, basket.owner.value.email))
  {
    EnterpriseConditions.IsSatisfied(c, offer, basket, switches, answers)
    && Allows(voucher, code, asg, basket.owner.value.email)
  }

  /** An owner holding an open assignment of the code is accepted, whatever the policy and counters. */
  lemma OpenAssignmentIsHonoured(v: Voucher, code: Code, asg: seq<OfferAssignment>, i: nat)
    requires i < |asg| && OpenFor(asg[i], v.enterpriseOffer.id, code)
    ensures Allows(v, code, asg, asg[i].userEmail)
  {
  }

  /**
   * Single use: without an open assignment of their own, an owner is
   * accepted exactly when the code is unused and nobody else holds an open
   * assignment of it.
   */
  lemma SingleUseRule(v: Voucher, code: Code, asg: seq<OfferAssignment>, email: Email)
    requires v.usage == SingleUse
    requires FirstOpen(asg, v.enterpriseOffer.id, code, email).None?
    ensures Allows(v, code, asg, email) <==>
              v.numOrders == 0 && forall i :: 0 <= i < |asg| ==> !OpenFor(asg[i], v.enterpriseOffer.id, code)
  {
  }

  /**
   * Single use and multi use per customer: a code whose open assignment
   * belongs to someone else is refused to every other owner.
   */
  lemma AssignedToAnotherRefused(v: Voucher, code: Code, asg: seq<OfferAssignment>, email: Email, i: nat)
    requires v.usage == SingleUse || v.usage == MultiUsePerCustomer
    requires i < |asg| && OpenFor(asg[i], v.enterpriseOffer.id, code)
    requires FirstOpen(asg, v.enterpriseOffer.id, code, email).None?
    ensures !Allows(v, code, asg, email)
  {
  }
}

/**
 * The redemption ledger driven by the condition tests: voucher counters and
 * offer assignments. An accepted attempt places an order, which adds one to
 * the voucher's `num_orders` and marks the owner's first open assignment of
 * the code as redeemed; a refused attempt changes nothing.
 */
module RedemptionLedgers {
  import opened Wrappers
  import opened AssignableConditions
  import EnterpriseConditions

  /** Vouchers by code, and every offer assignment. */
  datatype Ledger = Ledger(vouchers: map<Code, Voucher>, assignments: seq<OfferAssignment>)

  /** The assignable condition's answer (base condition satisfied) for `email` presenting `code`. */
  predicate Accepts(l: Ledger, code: Code, email: Email)
    requires code in l.vouchers
  {
    Allows(l.vouchers[code], code, l.assignments, email)
  }

  /**
   * With the base condition mocked to accept, `Accepts` is the assignable
   * condition's answer for a basket owned by `email` holding the voucher.
   */
  lemma AcceptsIsConditionAnswer(
    l: Ledger, code: Code, c: EnterpriseConditions.EnterpriseCustomerCondition,
    offer: EnterpriseConditions.ConditionalOffer, basket: EnterpriseConditions.Basket,
    switches: EnterpriseConditions.Switches, answers: EnterpriseConditions.ServiceAnswers)
    requires code in l.vouchers
    requires EnterpriseConditions.IsSatisfied(c, offer, basket, switches, answers)
    ensures basket.owner.Some?
    ensures Accepts(l, code, basket.owner.value.email)
            == AssignableConditions.IsSatisfied(c, offer, basket, switches, answers, l.vouchers[code], code, l.assignments)
  {
  }

  /** The assignments with the first open one of `code` under `offer` to `email` marked redeemed. */
  function RedeemFirstOpen(asg: seq<OfferAssignment>, offer: OfferId, code: Code, email: Email): (r: seq<OfferAssignment>)
    ensures |r| == |asg|
    ensures forall j :: 0 <= j < |asg| && r[j] != asg[j] ==>
              OpenForOwner(asg[j], offer, code, email) && r[j] == asg[j].(status := Redeemed)
    ensures r == asg <==> FirstOpen(asg, offer, code, email).None?
    ensures forall i, j :: 0 <= i < j < |asg| && r[i] != asg[i] ==> r[j] == asg[j]
    ensures FirstOpen(asg, offer, code, email).Some? ==>
              r[FirstOpen(asg, offer, code, email).value] != asg[FirstOpen(asg, offer, code, email).value]
  {
    match FirstOpen(asg, offer, code, email)
    case None => asg
    case Some(i) => asg[i := asg[i].(status := Redeemed)]
  }

  /**
   * The bookkeeping after an accepted attempt: exactly one more order on the
   * code, every other voucher alone, and at most one assignment changed, the
   * owner's first open one of the code, which is redeemed.
   */
  function Record(l: Ledger, code: Code, email: Email): (r: Ledger)
    requires code in l.vouchers
    ensures r.vouchers.Keys == l.vouchers.Keys
    ensures r.vouchers[code] == l.vouchers[code].(numOrders := l.vouchers[code].numOrders + 1)
    ensures forall c :: c in l.vouchers && c != code ==> r.vouchers[c] == l.vouchers[c]
    ensures |r.assignments| == |l.assignments|
    ensures forall i :: 0 <= i < |l.assignments| && r.assignments[i] != l.assignments[i] ==>
              FirstOpen(l.assignments, l.vouchers[code].enterpriseOffer.id, code, email) == Some(i)
              && r.assignments[i] == l.assignments[i].(status := Redeemed)
    ensures FirstOpen(l.assignments, l.vouchers[code].enterpriseOffer.id, code, email).Some? ==>
              var i := FirstOpen(l.assignments, l.vouchers[code].enterpriseOffer.id, code, email).value;
              r.assignments[i] != l.assignments[i]
  {
    var v := l.vouchers[code];
    Ledger(l.vouchers[code := v.(numOrders := v.numOrders + 1)],
           RedeemFirstOpen(l.assignments, v.enterpriseOffer.id, code, email))
  }

  /**
   * One attempt: the condition is evaluated, and an acceptance is recorded.
   * Only an acceptance changes the ledger, and it always counts one order.
   */
  function Step(l: Ledger, code: Code, email: Email): (r: Ledger)
    requires code in l.vouchers
    ensures r.vouchers.Keys == l.vouchers.Keys && |r.assignments| == |l.assignments|
    ensures r != l ==> Accepts(l, code, email)
    ensures Accepts(l, code, email) <==> r.vouchers[code].numOrders == l.vouchers[code].numOrders + 1
    ensures Accepts(l, code, email) ==> r == Record(l, code, email)
  {
    if Accepts(l, code, email) then Record(l, code, email) else l
  }

  /** One row of a test's attempt list; `result` overrides the expected answer. */
  datatype Attempt = Attempt(code: Code, userEmail: Email, result: Option<bool>)

  /**
   * A pass of the test harness over `attempts`: None when a voucher is
   * missing or an answer differs from the expected one. A row's own `result`
   * becomes the expected answer for the rows after it as well.
   */
  function RunAttempts(l: Ledger, attempts: seq<Attempt>, expected: bool): (r: Option<Ledger>)
    ensures attempts == [] ==> r == Some(l)
    ensures r.Some? ==> forall i :: 0 <= i < |attempts| ==> attempts[i].code in l.vouchers
    ensures r.Some? ==> r.value.vouchers.Keys == l.vouchers.Keys
    ensures r.Some? ==> |r.value.assignments| == |l.assignments|
    decreases |attempts|
  {
    if attempts == [] then Some(l)
    else
      var a := attempts[0];
      var exp := a.result.GetOr(expected);
      if a.code !in l.vouchers || Accepts(l, a.code, a.userEmail) != exp then None
      else RunAttempts(if exp then Record(l, a.code, a.userEmail) else l, attempts[1..], exp)
  }

  /**
   * Over any attempt list the harness accepts, redemption counters only grow
   * and an assignment that was redeemed or revoked stays as it was.
   */
  lemma {:induction false} RunOnlyAddsOrders(l: Ledger, attempts: seq<Attempt>, expected: bool)
    ensures RunAttempts(l, attempts, expected).Some? ==>
              var l' := RunAttempts(l, attempts, expected).value;
              && (forall c :: c in l.vouchers ==> l'.vouchers[c].numOrders >= l.vouchers[c].numOrders)
              && (forall i :: 0 <= i < |l.assignments| && !IsOpen(l.assignments[i].status) ==>
                    l'.assignments[i] == l.assignments[i])
    decreases |attempts|
  {
    if attempts != [] {
      var a := attempts[0];
      var exp := a.result.GetOr(expected);
      if a.code in l.vouchers && Accepts(l, a.code, a.userEmail) == exp {
        RunOnlyAddsOrders(if exp then Record(l, a.code, a.userEmail) else l, attempts[1..], exp);
      }
    }
  }

  /** Redeeming the owner's assignment closes exactly one open assignment of that offer and code, and no other. */
  lemma {:induction false} OpenCountAfterRedeem(
    asg: seq<OfferAssignment>, offer: OfferId, code: Code, email: Email, offer2: OfferId, code2: Code)
    ensures OpenCount(RedeemFirstOpen(asg, offer, code, email), offer2, code2)
            == OpenCount(asg, offer2, code2)
               - (if offer2 == offer && code2 == code && FirstOpen(asg, offer, code, email).Some? then 1 else 0)
  {
    if asg != [] {
      var r := RedeemFirstOpen(asg, offer, code, email);
      assert r[0] == (if OpenForOwner(asg[0], offer, code, email) then asg[0].(status := Redeemed) else asg[0]);
      if OpenForOwner(asg[0], offer, code, email) {
        assert r[1..] == asg[1..];
      } else {
        assert r[1..] == RedeemFirstOpen(asg[1..], offer, code, email);
        OpenCountAfterRedeem(asg[1..], offer, code, email, offer2, code2);
      }
    }
  }

  /**
   * Every voucher with a ceiling has its redemptions and open assignments
   * within that ceiling.
   */
  ghost predicate WithinCeiling(l: Ledger)
  {
    forall code :: code in l.vouchers && EffectiveCeiling(l.vouchers[code]).Some? ==>
      l.vouchers[code].numOrders + OpenCount(l.assignments, l.vouchers[code].enterpriseOffer.id, code)
        <= EffectiveCeiling(l.vouchers[code]).value
  }

  /** An attempt, accepted or not, keeps every voucher within its ceiling. */
  lemma StepPreservesCeiling(l: Ledger, code: Code, email: Email)
    requires code in l.vouchers && WithinCeiling(l)
    ensures WithinCeiling(Step(l, code, email))
  {
    if Accepts(l, code, email) {
      var l' := Step(l, code, email);
      var v := l.vouchers[code];
      forall c | c in l'.vouchers && EffectiveCeiling(l'.vouchers[c]).Some?
        ensures l'.vouchers[c].numOrders + OpenCount(l'.assignments, l'.vouchers[c].enterpriseOffer.id, c)
                <= EffectiveCeiling(l'.vouchers[c]).value
      {
        var w := l.vouchers[c];
        OpenCountAfterRedeem(l.assignments, v.enterpriseOffer.id, code, email, w.enterpriseOffer.id, c);
        if c == code && FirstOpen(l.assignments, v.enterpriseOffer.id, code, email).None? {
          assert HasFreeSlot(FreeSlots(v, OpenCount(l.assignments, v.enterpriseOffer.id, code)));
        }
      }
    }
  }

  /**
   * However a test's attempts go, every voucher stays within its ceiling, so
   * no code is ever redeemed more often than its ceiling allows.
   */
  lemma {:induction false} RunNeverOversells(l: Ledger, attempts: seq<Attempt>, expected: bool)
    requires WithinCeiling(l)
    ensures RunAttempts(l, attempts, expected).Some? ==> WithinCeiling(RunAttempts(l, attempts, expected).value)
    ensures RunAttempts(l, attempts, expected).Some? ==>
              var l' := RunAttempts(l, attempts, expected).value;
              forall c :: c in l'.vouchers && EffectiveCeiling(l'.vouchers[c]).Some? ==>
                l'.vouchers[c].numOrders <= EffectiveCeiling(l'.vouchers[c]).value
    decreases |attempts|
  {
    if attempts != [] {
      var a := attempts[0];
      var exp := a.result.GetOr(expected);
      if a.code in l.vouchers && Accepts(l, a.code, a.userEmail) == exp {
        StepPreservesCeiling(l, a.code, a.userEmail);
        RunNeverOversells(Step(l, a.code, a.userEmail), attempts[1..], exp);
      }
    }
  }

  /** `k` attempts by the same owner, with no expected-answer override. */
  function Repeat(code: Code, email: Email, k: nat): (r: seq<Attempt>)
    ensures |r| == k
    ensures forall i :: 0 <= i < k ==> r[i] == Attempt(code, email, None)
  {
    if k == 0 then [] else [Attempt(code, email, None)] + Repeat(code, email, k - 1)
  }

  /**
   * An owner without an assignment of a multi-use or once-per-customer code
   * with a ceiling gets exactly ceiling - redemptions - open assignments
   * acceptances in a row; each adds one redemption and touches no assignment,
   * and one attempt more is refused.
   */
  lemma UnassignedOwnerTakesExactlyTheFreeSlots(l: Ledger, code: Code, email: Email, k: nat)
    requires code in l.vouchers
    requires l.vouchers[code].usage == MultiUse || l.vouchers[code].usage == OncePerCustomer
    requires l.vouchers[code].enterpriseOffer.maxGlobalApplications.Some?
    requires FirstOpen(l.assignments, l.vouchers[code].enterpriseOffer.id, code, email).None?
    requires WithinCeiling(l)
    ensures var v := l.vouchers[code];
            var free := v.enterpriseOffer.maxGlobalApplications.value - v.numOrders
                        - OpenCount(l.assignments, v.enterpriseOffer.id, code);
            && (k <= free ==> RunAttempts(l, Repeat(code, email, k), true)
                              == Some(Ledger(l.vouchers[code := v.(numOrders := v.numOrders + k)], l.assignments)))
            && (k > free ==> RunAttempts(l, Repeat(code, email, k), true).None?)
  {
    var v := l.vouchers[code];
    var free := v.enterpriseOffer.maxGlobalApplications.value - v.numOrders
                - OpenCount(l.assignments, v.enterpriseOffer.id, code);
    assert free >= 0;
    if k <= free {
      UnassignedOwnerAcceptedWithinFreeSlots(l, code, email, k);
    } else {
      UnassignedOwnerRefusedBeyondFreeSlots(l, code, email, k);
    }
  }

  /** Free slots of a counted code with a ceiling, as the assignable rule counts them. */
  function CountedFreeSlots(l: Ledger, code: Code): int
    requires code in l.vouchers && l.vouchers[code].enterpriseOffer.maxGlobalApplications.Some?
  {
    var v := l.vouchers[code];
    v.enterpriseOffer.maxGlobalApplications.value - v.numOrders - OpenCount(l.assignments, v.enterpriseOffer.id, code)
  }

  /** The accepted half: `k` attempts within the free slots each add one redemption. */
  lemma {:induction false} UnassignedOwnerAcceptedWithinFreeSlots(l: Ledger, code: Code, email: Email, k: nat)
    requires code in l.vouchers
    requires l.vouchers[code].usage == MultiUse || l.vouchers[code].usage == OncePerCustomer
    requires l.vouchers[code].enterpriseOffer.maxGlobalApplications.Some?
    requires FirstOpen(l.assignments, l.vouchers[code].enterpriseOffer.id, code, email).None?
    requires k <= CountedFreeSlots(l, code)
    ensures RunAttempts(l, Repeat(code, email, k), true)
            == Some(Ledger(l.vouchers[code := l.vouchers[code].(numOrders := l.vouchers[code].numOrders + k)], l.assignments))
    decreases k
  {
    var v := l.vouchers[code];
    if k == 0 {
      UpdateSame(l.vouchers, code);
    } else {
      var v1 := v.(numOrders := v.numOrders + 1);
      var vk := v.(numOrders := v.numOrders + k);
      var l1 := Ledger(l.vouchers[code := v1], l.assignments);
      UnassignedAttempt(l, code, email, k);
      assert l1.vouchers[code] == v1 && v1.(numOrders := v1.numOrders + (k - 1)) == vk;
      UnassignedOwnerAcceptedWithinFreeSlots(l1, code, email, k - 1);
      UpdateTwice(l.vouchers, code, v1, vk);
      assert RunAttempts(l, Repeat(code, email, k), true) == RunAttempts(l1, Repeat(code, email, k - 1), true);
    }
  }

  /** A second update of the same code overrides the first. */
  lemma UpdateTwice(m: map<Code, Voucher>, code: Code, a: Voucher, b: Voucher)
    ensures m[code := a][code := b] == m[code := b]
  {
  }

  /** Writing back a voucher's own value leaves the map as it was. */
  lemma UpdateSame(m: map<Code, Voucher>, code: Code)
    requires code in m
    ensures m[code := m[code].(numOrders := m[code].numOrders + 0)] == m
  {
  }

  /** The refused half: more attempts than free slots make the run fail. */
  lemma {:induction false} UnassignedOwnerRefusedBeyondFreeSlots(l: Ledger, code: Code, email: Email, k: nat)
    requires code in l.vouchers
    requires l.vouchers[code].usage == MultiUse || l.vouchers[code].usage == OncePerCustomer
    requires l.vouchers[code].enterpriseOffer.maxGlobalApplications.Some?
    requires FirstOpen(l.assignments, l.vouchers[code].enterpriseOffer.id, code, email).None?
    requires 0 <= CountedFreeSlots(l, code) < k
    ensures RunAttempts(l, Repeat(code, email, k), true).None?
    decreases k
  {
    var v := l.vouchers[code];
    UnassignedAttempt(l, code, email, k);
    if Accepts(l, code, email) {
      var v1 := v.(numOrders := v.numOrders + 1);
      var l1 := Ledger(l.vouchers[code := v1], l.assignments);
      assert l1.vouchers[code] == v1;
      UnassignedOwnerRefusedBeyondFreeSlots(l1, code, email, k - 1);
    }
  }

  /**
   * The first of `k` attempts of an owner without an assignment of a counted
   * code with a ceiling: accepted exactly while a slot is free, and then only
   * the code's counter moves; refused, it ends the run.
   */
  lemma UnassignedAttempt(l: Ledger, code: Code, email: Email, k: nat)
    requires code in l.vouchers
    requires l.vouchers[code].usage == MultiUse || l.vouchers[code].usage == OncePerCustomer
    requires l.vouchers[code].enterpriseOffer.maxGlobalApplications.Some?
    requires FirstOpen(l.assignments, l.vouchers[code].enterpriseOffer.id, code, email).None?
    ensures var v := l.vouchers[code];
            var l1 := Ledger(l.vouchers[code := v.(numOrders := v.numOrders + 1)], l.assignments);
            && (Accepts(l, code, email) <==> CountedFreeSlots(l, code) > 0)
            && (CountedFreeSlots(l, code) > 0 ==> Record(l, code, email) == l1 && CountedFreeSlots(l1, code) == CountedFreeSlots(l, code) - 1)
            && (k > 0 ==> RunAttempts(l, Repeat(code, email, k), true)
                          == if CountedFreeSlots(l, code) > 0 then RunAttempts(l1, Repeat(code, email, k - 1), true) else None)
  {
    var v := l.vouchers[code];
    assert !HoldsOpenAssignment(l.assignments, v.enterpriseOffer.id, code, email);
    if k > 0 {
      var attempts := Repeat(code, email, k);
      assert attempts[0] == Attempt(code, email, None);
      assert attempts[1..] == Repeat(code, email, k - 1);
    }
  }

  /** The first open assignment of `code` under `offer` to `email`, by a scan of the assignments. */
  method FindFirstOpen(asg: seq<OfferAssignment>, offer: OfferId, code: Code, email: Email) returns (index: Option<nat>)
    ensures index == FirstOpen(asg, offer, code, email)
  {
    var i := 0;
    while i < |asg|
      invariant 0 <= i <= |asg|
      invariant forall j :: 0 <= j < i ==> !OpenForOwner(asg[j], offer, code, email)
    {
      if OpenForOwner(asg[i], offer, code, email) {
        return Some(i);
      }
      i := i + 1;
    }
    return None;
  }

  /** The vouchers and assignments of a test, updated in place as the harness does. */
  class RedemptionLedger {
    var vouchers: map<Code, Voucher>
    var assignments: seq<OfferAssignment>

    function State(): Ledger
      reads this
    {
      Ledger(vouchers, assignments)
    }

    constructor (vouchers0: map<Code, Voucher>, assignments0: seq<OfferAssignment>)
      ensures State() == Ledger(vouchers0, assignments0)
    {
      vouchers := vouchers0;
      assignments := assignments0;
    }

    /** The order placement after an accepted attempt: count the order, mark the owner's assignment redeemed. */
    method Redeem(code: Code, email: Email)
      requires code in vouchers
      modifies this
      ensures State() == Record(old(State()), code, email)
      ensures vouchers[code].numOrders == old(vouchers[code].numOrders) + 1
    {
      var v := vouchers[code];
      vouchers := vouchers[code := v.(numOrders := v.numOrders + 1)];
      var i := FindFirstOpen(assignments, v.enterpriseOffer.id, code, email);
      if i.Some? {
        assignments := assignments[i.value := assignments[i.value].(status := Redeemed)];
      }
    }

    /**
     * The harness: for each attempt, evaluate the condition, stop with
     * `false` on an unexpected answer or a missing voucher, and record every
     * acceptance.
     */
    method AssertCondition(attempts: seq<Attempt>, expected: bool) returns (passed: bool)
      modifies this
      ensures passed == RunAttempts(old(State()), attempts, expected).Some?
      ensures passed ==> State() == RunAttempts(old(State()), attempts, expected).value
    {
      var exp := expected;
      var i := 0;
      while i < |attempts|
        invariant 0 <= i <= |attempts|
        invariant RunAttempts(old(State()), attempts, expected) == RunAttempts(State(), attempts[i..], exp)
      {
        var a := attempts[i];
        assert attempts[i..][0] == a && attempts[i..][1..] == attempts[i + 1..];
        exp := a.result.GetOr(exp);
        if a.code !in vouchers {
          return false;
        }
        var accepted := Accepts(State(), a.code, a.userEmail);
        if accepted != exp {
          return false;
        }
        if exp {
          Redeem(a.code, a.userEmail);
        }
        i := i + 1;
      }
      assert attempts[i..] == [];
      passed := true;
    }
  }
}

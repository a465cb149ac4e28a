/**
 * The two service plans. A plan is a constant descriptor, not a stored row:
 * a subscription's `is_premium` flag selects one of them.
 */
module ServicePlans {

  datatype Plan = Plan(
    name: string,
    description: string,
    monthlyPrice: int,
    yearlyPrice: int,
    currency: string,
    isDefault: bool,
    sequenceNo: int)

  /** The free plan every new subscription starts on. */
  const Basic := Plan("Basic", "Free service plan", 0, 0, "", true, 1)

  /** The paid plan; its prices are placeholders. */
  const Premium := Plan("Premium", "Paid service plan", 0, 0, "", false, 2)

  /** Every plan that exists, in display order. */
  const AllPlans := [Basic, Premium]

  /** The plan a subscription with the given flag is on. */
  function PlanFor(isPremium: bool): (p: Plan)
    ensures p in AllPlans
    ensures p.isDefault <==> !isPremium
  {
    if isPremium then Premium else Basic
  }

  /** Exactly one plan is the default one: Basic, shown first. */
  lemma ExactlyOneDefault()
    ensures Basic in AllPlans && Basic.isDefault
    ensures forall p :: p in AllPlans && p.isDefault ==> p == Basic
    ensures Basic.sequenceNo == 1 && Premium.sequenceNo == 2
  {
  }

  /** The plan depends on the flag alone, and the two flags give two different plans. */
  lemma PlanForDistinguishesFlags(a: bool, b: bool)
    ensures PlanFor(a) == PlanFor(b) <==> a == b
    ensures PlanFor(true) == Premium && PlanFor(false) == Basic
  {
  }
}

/** The pricing page: the multi-year discount, the three tiers and their prices and
    savings, the billing toggle, and where each tier's button leads. Prices are exact
    reals; `Math.round` is `floor(x + 0.5)`. */
module PricingPage {
  import opened Js
  import opened CheckoutPlans

  datatype Cycle = Monthly | Yearly

  function CycleName(c: Cycle): string {
    if c == Monthly then "monthly" else "yearly"
  }

  function Flip(c: Cycle): Cycle {
    if c == Monthly then Yearly else Monthly
  }

  const BaseYearlyDiscount: real := 0.25

  /** `calculateRecursiveDiscount(years)`: 25% for one year, five points less for each
      further year, never below 10%. */
  function RecursiveDiscount(years: int): (r: real)
    ensures 0.10 <= r <= BaseYearlyDiscount
    ensures years <= 1 ==> r == BaseYearlyDiscount
  {
    if years <= 1 then BaseYearlyDiscount
    else Max(0.10, BaseYearlyDiscount - (years - 1) as real * 0.05)
  }

  function Max(a: real, b: real): real {
    if a >= b then a else b
  }

  /** The discount lies between 10% and 25%, shrinks with every further year, and has
      reached its floor of 10% from the fourth year on. */
  lemma DiscountBounds(years: int, later: int)
    requires years <= later
    ensures 0.10 <= RecursiveDiscount(years) <= 0.25
    ensures RecursiveDiscount(later) <= RecursiveDiscount(years)
    ensures years >= 4 ==> RecursiveDiscount(years) == 0.10
    ensures RecursiveDiscount(2) == 0.20 && RecursiveDiscount(3) == 0.15
  {
  }

  /** A pricing tier; `isFree` is set on the starter tier only. */
  datatype Tier = Tier(id: string, name: string, monthlyPrice: real, yearlyPrice: real, isFree: bool)

  const Starter := Tier("STARTER", "Starter", 0.0, 0.0, true)
  const Professional := Tier("PROFESSIONAL", "Professional", 9.0, 9.0 * 12.0 * (1.0 - RecursiveDiscount(2)), false)
  const Enterprise := Tier("ENTERPRISE", "Enterprise", 99.0, 99.0 * 12.0 * (1.0 - RecursiveDiscount(3)), false)
  const Tiers := [Starter, Professional, Enterprise]

  /** `calculatePrice(tier)` under the current billing cycle. */
  function CalculatePrice(tier: Tier, cycle: Cycle): (r: real)
    ensures tier.isFree ==> r == 0.0
    ensures !tier.isFree && cycle == Monthly ==> r == tier.monthlyPrice
    ensures !tier.isFree && cycle == Yearly ==> r == tier.yearlyPrice
  {
    if tier.isFree then 0.0
    else if cycle == Monthly then tier.monthlyPrice
    else tier.yearlyPrice
  }

  /** `Math.round`. */
  function Round(x: real): int {
    (x + 0.5).Floor
  }

  /** `calculateSavings(tier)`: the yearly saving against twelve monthly payments, in
      whole percent; `None` stands for the non-finite result (NaN, or plus or minus
      Infinity when the yearly price is not zero) of a paid tier with no monthly price. */
  function CalculateSavings(tier: Tier): (r: Option<int>)
    ensures tier.isFree ==> r == Some(0)
    ensures r.None? <==> !tier.isFree && tier.monthlyPrice == 0.0
  {
    if tier.isFree then Some(0)
    else if tier.monthlyPrice == 0.0 then None
    else
      var monthlyTotal := tier.monthlyPrice * 12.0;
      Some(Round((monthlyTotal - tier.yearlyPrice) / monthlyTotal * 100.0))
  }

  /** A paid tier whose yearly price lies between nothing and twelve monthly payments
      shows a saving between 0% and 100%. */
  lemma SavingsArePercentages(tier: Tier)
    requires !tier.isFree && tier.monthlyPrice > 0.0
    requires 0.0 <= tier.yearlyPrice <= tier.monthlyPrice * 12.0
    ensures CalculateSavings(tier).Some? && 0 <= CalculateSavings(tier).value <= 100
  {
    var total := tier.monthlyPrice * 12.0;
    var ratio := (total - tier.yearlyPrice) / total;
    assert 0.0 <= ratio <= 1.0 by {
      assert total - tier.yearlyPrice <= total;
      assert 0.0 <= total - tier.yearlyPrice;
    }
    assert 0.0 <= ratio * 100.0 <= 100.0;
    assert Round(ratio * 100.0) <= 100 by {
      assert (ratio * 100.0 + 0.5).Floor as real <= ratio * 100.0 + 0.5;
    }
  }

  /** A tier priced at a multi-year discount saves exactly that discount. */
  lemma {:induction false} SavingsIsDiscount(monthly: real, years: int)
    requires monthly > 0.0
    ensures var tier := Tier("", "", monthly, monthly * 12.0 * (1.0 - RecursiveDiscount(years)), false);
            CalculateSavings(tier) == Some(Round(RecursiveDiscount(years) * 100.0))
  {
    var d := RecursiveDiscount(years);
    var total := monthly * 12.0;
    calc {
      (total - total * (1.0 - d)) / total * 100.0;
      (total * d) / total * 100.0;
      { assert (total * d) / total == d; }
      d * 100.0;
    }
    var tier := Tier("", "", monthly, total * (1.0 - d), false);
    assert CalculateSavings(tier) == Some(Round((total - total * (1.0 - d)) / total * 100.0));
  }

  /** The tiers save 0%, 20% and 15%; no tier reaches the "Save up to 45%" of the
      billing toggle, since a discount never exceeds 25%. */
  lemma SavingsOfTiers()
    ensures CalculateSavings(Starter) == Some(0)
    ensures CalculateSavings(Professional) == Some(20)
    ensures CalculateSavings(Enterprise) == Some(15)
    ensures forall i :: 0 <= i < |Tiers| ==> CalculateSavings(Tiers[i]).Some? && CalculateSavings(Tiers[i]).value < 45
  {
    DiscountBounds(2, 3);
    SavingsIsDiscount(9.0, 2);
    SavingsIsDiscount(99.0, 3);
    assert Round(20.0) == 20 && Round(15.0) == 15;
  }

  /** Where a tier's button leads. */
  datatype CtaTarget = Register | CheckoutPath(plan: string, cycle: string) | Nowhere

  /** `handleCtaClick(tier)`. */
  function HandleCtaClick(tier: Tier, cycle: Cycle): (r: CtaTarget)
    ensures r == Register <==> tier.id == "STARTER"
    ensures r.CheckoutPath? <==> tier.id == "PROFESSIONAL" || tier.id == "ENTERPRISE"
    ensures r.CheckoutPath? ==>
              r.cycle == CycleName(cycle) && (r.plan == "pro" <==> tier.id == "PROFESSIONAL")
              && (r.plan == "enterprise" <==> tier.id == "ENTERPRISE")
  {
    if tier.id == "STARTER" then Register
    else if tier.id == "PROFESSIONAL" then CheckoutPath("pro", CycleName(cycle))
    else if tier.id == "ENTERPRISE" then CheckoutPath("enterprise", CycleName(cycle))
    else Nowhere
  }

  /** The URL the page navigates to. */
  function TargetUrl(t: CtaTarget): Option<string> {
    match t
    case Register => Some("/register")
    case CheckoutPath(plan, cycle) => Some("/checkout?plan=" + plan + "&cycle=" + cycle)
    case Nowhere => None
  }

  /** Following a paid tier's button, either checkout page shows that tier for the cycle
      chosen here, at the monthly price when monthly, but at 81 and 891 a year where
      this page shows 86.4 and 1009.8. */
  lemma CtaLeadsToCheckout(tier: Tier, cycle: Cycle, user: User, ids: PlanIds)
    requires tier == Professional || tier == Enterprise
    ensures var t := HandleCtaClick(tier, cycle);
            var s := PageLoad(Some(t.plan), Some(t.cycle), Some(user), ids);
            t.CheckoutPath? && s.Ready? && s.plan.name == tier.name && s.plan.billingCycle == CycleName(cycle)
            && (cycle == Monthly ==> s.plan.price == Some(CalculatePrice(tier, cycle)))
            && (cycle == Yearly ==> s.plan.price.Some? && s.plan.price.value < CalculatePrice(tier, cycle))
  {
    DiscountBounds(2, 3);
    var t := HandleCtaClick(tier, cycle);
    PageLoadOutcome(Some(t.plan), Some(t.cycle), Some(user), ids);
  }

  /** The starter tier's button goes to registration, not to checkout. */
  lemma StarterGoesToRegister(cycle: Cycle)
    ensures TargetUrl(HandleCtaClick(Starter, cycle)) == Some("/register")
    ensures CalculatePrice(Starter, cycle) == 0.0
  {
  }

  /** The page's state: the billing cycle shown. */
  class PricingPageState {
    var billingCycle: Cycle

    constructor ()
      ensures billingCycle == Monthly
    {
      billingCycle := Monthly;
    }

    /** The billing toggle. */
    method Toggle()
      modifies this
      ensures billingCycle == Flip(old(billingCycle))
    {
      billingCycle := if billingCycle == Monthly then Yearly else Monthly;
    }
  }

  /** Toggling twice restores the cycle, and the toggle changes every paid tier's price
      from its monthly to its yearly figure. */
  lemma ToggleTwice(c: Cycle)
    ensures Flip(Flip(c)) == c && Flip(c) != c
    ensures CalculatePrice(Professional, Flip(Monthly)) == Professional.yearlyPrice
  {
  }
}

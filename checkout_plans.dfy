/** What both checkout pages do on load: read `plan` and `cycle` from the query
    string, look the plan up in a fixed table, derive the displayed price, and send
    the visitor back to the pricing page or to the login page when that fails. The two
    pages differ only in the ids their table gives the plans. */
module CheckoutPlans {
  import opened Js

  /** The signed-in Supabase user, reduced to what the pages send. */
  datatype User = User(id: string, email: Option<string>)

  /** An entry of the page's `plans` table; the starter entry has no per-cycle prices. */
  datatype PlanEntry = PlanEntry(id: string, name: string, monthlyPrice: Option<real>, yearlyPrice: Option<real>)

  /** The plan the page shows; `price` is undefined for the starter plan. */
  datatype SelectedPlan = SelectedPlan(id: string, name: string, price: Option<real>, billingCycle: string)

  /** The ids a page's table gives to the starter, professional and enterprise plans. */
  datatype PlanIds = PlanIds(starter: string, professional: string, enterprise: string)

  /** What `stripe.redirectToCheckout` resolves to. */
  datatype RedirectResult = Redirected | RedirectFailed(message: string)

  /** The awaited `stripePromise`: Stripe.js failed to load, or a client whose redirect
      takes the (possibly undefined) session id. */
  datatype StripeJs = NotLoaded | Loaded(redirect: Option<string> -> RedirectResult)

  /** The outcome of loading the page. */
  datatype PageStart = ToPricing | ToLogin(plan: SelectedPlan) | Ready(plan: SelectedPlan, user: User)

  /** `plans[planId]`, with yearly prices at a 25% discount on twelve months. */
  function PlanTable(planId: string, ids: PlanIds): (r: Option<PlanEntry>)
    ensures r.Some? <==> planId == "starter" || planId == "pro" || planId == "enterprise"
  {
    if planId == "starter" then Some(PlanEntry(ids.starter, "Starter", None, None))
    else if planId == "pro" then Some(PlanEntry(ids.professional, "Professional", Some(9.0), Some(9.0 * 12.0 * 0.75)))
    else if planId == "enterprise" then Some(PlanEntry(ids.enterprise, "Enterprise", Some(99.0), Some(99.0 * 12.0 * 0.75)))
    else None
  }

  /** The plan shown for a table entry: the monthly price for "monthly", the yearly price
      for any other cycle. */
  function Selected(entry: PlanEntry, cycle: string): SelectedPlan {
    SelectedPlan(entry.id, entry.name, if cycle == "monthly" then entry.monthlyPrice else entry.yearlyPrice, cycle)
  }

  /** The page's effect: a missing or unknown plan goes to /pricing before the user is
      looked at; otherwise the plan is set and a visitor without a session goes to /login. */
  function PageLoad(planParam: Option<string>, cycleParam: Option<string>, user: Option<User>, ids: PlanIds)
    : (r: PageStart)
    ensures r == ToPricing <==> !Truthy(planParam) || PlanTable(planParam.value, ids).None?
    ensures r.Ready? <==> r != ToPricing && user.Some?
    ensures r.Ready? ==> r.user == user.value
    ensures r != ToPricing ==> r.plan.billingCycle == OrElse(cycleParam, "monthly")
                               && r.plan.id == PlanTable(planParam.value, ids).value.id
  {
    var cycle := OrElse(cycleParam, "monthly");
    if !Truthy(planParam) then ToPricing
    else match PlanTable(planParam.value, ids)
      case None => ToPricing
      case Some(entry) =>
        if user.None? then ToLogin(Selected(entry, cycle)) else Ready(Selected(entry, cycle), user.value)
  }

  /** `plan.id === 'starter' || plan.price === 0`. */
  function IsFree(plan: SelectedPlan): (r: bool)
    ensures plan.id == "starter" ==> r
    ensures plan.id != "starter" ==> (r <==> plan.price == Some(0.0))
  {
    plan.id == "starter" || plan.price == Some(0.0)
  }

  /** The page shows a plan exactly for the three known plan names; the cycle defaults
      to "monthly"; the starter plan has no price and the paid plans cost 9 and 99 a
      month, 81 and 891 a year, any cycle other than "monthly" counting as yearly. */
  lemma PageLoadOutcome(planParam: Option<string>, cycleParam: Option<string>, user: Option<User>, ids: PlanIds)
    ensures var s := PageLoad(planParam, cycleParam, user, ids);
            (s == ToPricing <==> !(planParam == Some("starter") || planParam == Some("pro") || planParam == Some("enterprise")))
            && (s.Ready? <==> s != ToPricing && user.Some?)
            && (s != ToPricing ==>
                  var p := s.plan;
                  var monthly := p.billingCycle == "monthly";
                  p.billingCycle == OrElse(cycleParam, "monthly")
                  && (planParam == Some("starter") ==> p.id == ids.starter && p.price.None?)
                  && (planParam == Some("pro") ==> p.id == ids.professional && p.price == Some(if monthly then 9.0 else 81.0))
                  && (planParam == Some("enterprise") ==> p.id == ids.enterprise && p.price == Some(if monthly then 99.0 else 891.0)))
  {
  }

  /** A paid plan is never free, whatever the cycle, unless its id is "starter". */
  lemma PaidPlansAreNotFree(planParam: Option<string>, cycleParam: Option<string>, user: Option<User>, ids: PlanIds)
    requires PageLoad(planParam, cycleParam, user, ids) != ToPricing
    ensures var p := PageLoad(planParam, cycleParam, user, ids).plan;
            IsFree(p) <==> p.id == "starter"
  {
  }
}

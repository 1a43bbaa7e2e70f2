/** The price tables of the three stand-alone checkout handlers. Each builds
    `priceMap = { pro: { monthly, yearly }, enterprise: { monthly, yearly } }` from the
    environment (the root server adds `starter`) and looks it up with the plan and
    cycle exactly as the client sent them. */
module LegacyPrices {
  import opened Js

  /** The `STRIPE_*_PRICE_ID` environment variables; an unset variable is `None`. */
  datatype PriceEnv = PriceEnv(
    starter: Option<string>,
    proMonthly: Option<string>,
    proYearly: Option<string>,
    enterpriseMonthly: Option<string>,
    enterpriseYearly: Option<string>)

  /** The inner object of one plan. */
  datatype CyclePrices = CyclePrices(monthly: Option<string>, yearly: Option<string>)

  /** `priceMap[planId]`: present exactly for the two lower-case plan keys. */
  function PlanPrices(env: PriceEnv, planId: Option<string>): (r: Option<CyclePrices>)
    ensures r.Some? <==> planId == Some("pro") || planId == Some("enterprise")
  {
    if planId == Some("pro") then Some(CyclePrices(env.proMonthly, env.proYearly))
    else if planId == Some("enterprise") then Some(CyclePrices(env.enterpriseMonthly, env.enterpriseYearly))
    else None
  }

  /** `prices[billingCycle]`: present exactly for the two lower-case cycle keys. */
  function CyclePrice(prices: CyclePrices, billingCycle: Option<string>): (r: Option<string>)
    ensures (billingCycle != Some("monthly") && billingCycle != Some("yearly")) ==> r.None?
  {
    if billingCycle == Some("monthly") then prices.monthly
    else if billingCycle == Some("yearly") then prices.yearly
    else None
  }

  /** `priceMap[planId]?.[billingCycle]`. */
  function NestedPrice(env: PriceEnv, planId: Option<string>, billingCycle: Option<string>): (r: Option<string>)
    ensures r.Some? ==> (planId == Some("pro") || planId == Some("enterprise"))
                        && (billingCycle == Some("monthly") || billingCycle == Some("yearly"))
  {
    match PlanPrices(env, planId)
    case None => None
    case Some(prices) => CyclePrice(prices, billingCycle)
  }

  /** The variable each key pair selects; any other pair selects nothing. */
  function ConfiguredPrice(env: PriceEnv, planId: string, billingCycle: string): Option<string> {
    match (planId, billingCycle)
    case ("pro", "monthly") => env.proMonthly
    case ("pro", "yearly") => env.proYearly
    case ("enterprise", "monthly") => env.enterpriseMonthly
    case ("enterprise", "yearly") => env.enterpriseYearly
    case _ => None
  }

  /** The nested lookup agrees with the flat table of the four configured prices; in
      particular only exact lower-case keys find a price. */
  lemma NestedPriceIsConfiguredPrice(env: PriceEnv, planId: Option<string>, billingCycle: Option<string>)
    ensures NestedPrice(env, planId, billingCycle)
            == (if planId.Some? && billingCycle.Some? then ConfiguredPrice(env, planId.value, billingCycle.value) else None)
    ensures NestedPrice(env, planId, billingCycle).Some? ==>
              (planId == Some("pro") || planId == Some("enterprise"))
              && (billingCycle == Some("monthly") || billingCycle == Some("yearly"))
  {
  }
}

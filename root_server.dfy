/** The Express server at the repository root: a start-up check of the secret key and
    a checkout handler that also sells the starter plan, as a one-time payment. */
module RootServer {
  import opened Js
  import opened Http
  import opened StripeApi
  import opened LegacyPrices

  /** Start-up: the process exits unless `STRIPE_SECRET_KEY` is set and starts with "sk_". */
  function StartupCheck(secretKey: Option<string>): (r: Result<string>)
    ensures r.Ok? <==> Truthy(secretKey) && StartsWith(secretKey.value, "sk_")
    ensures r.Ok? ==> r.value == secretKey.value
  {
    if !Truthy(secretKey) then Err("STRIPE_SECRET_KEY is missing from .env.server")
    else if !StartsWith(secretKey.value, "sk_") then Err("STRIPE_SECRET_KEY should start with \"sk_\"")
    else Ok(secretKey.value)
  }

  /** The handler's answers. */
  datatype RootReply = PriceNotConfigured(message: string) | RootSession(sessionId: string, url: string) | RootError(message: string)

  function RootStatus(r: RootReply): int {
    match r
    case PriceNotConfigured(_) => 400
    case RootSession(_, _) => 200
    case RootError(_) => 500
  }

  const DefaultFrontend := "http://localhost:3000"

  function Shown(s: Option<string>): string {
    if s.Some? then s.value else "undefined"
  }

  /** The price: the single starter price for "starter", whatever the cycle; otherwise
      `priceMap[planId]?.[billingCycle]`. */
  function RootPrice(env: PriceEnv, planId: Option<string>, billingCycle: Option<string>): Option<string> {
    if planId == Some("starter") then env.starter else NestedPrice(env, planId, billingCycle)
  }

  function RootParams(body: CheckoutBody, frontendUrl: Option<string>, priceId: string): CheckoutParams {
    var base := OrElse(frontendUrl, DefaultFrontend);
    CheckoutParams(
      customerEmail := body.userEmail,
      clientReferenceId := body.userId,
      priceId := priceId,
      mode := if body.planId == Some("starter") then Payment else Subscription,
      successUrl := base + "/dashboard?session_id={CHECKOUT_SESSION_ID}",
      cancelUrl := base + "/pricing",
      metadata := Some(Metadata(body.userId, body.planId, body.billingCycle, None)))
  }

  /** The `/api/create-checkout-session` handler; `frontendUrl` is `FRONTEND_URL`. */
  function RootCheckout(env: PriceEnv, frontendUrl: Option<string>, body: CheckoutBody, create: SessionCreator)
    : (r: RootReply)
    ensures r.PriceNotConfigured? <==> !Truthy(RootPrice(env, body.planId, body.billingCycle))
    ensures r.RootSession? ==> Truthy(RootPrice(env, body.planId, body.billingCycle))
  {
    var price := RootPrice(env, body.planId, body.billingCycle);
    if !Truthy(price) then
      PriceNotConfigured("Price not configured for plan: " + Shown(body.planId) + " (" + Shown(body.billingCycle) + ")")
    else match create(RootParams(body, frontendUrl, price.value))
      case Created(id, url) => RootSession(id, url)
      case CreateFailed(m) => RootError(m)
  }

  /** The starter plan is a one-time payment at the starter price for either cycle, and
      the paid plans are subscriptions at the price of their exact lower-case keys. */
  lemma RootPriceAndMode(env: PriceEnv, frontendUrl: Option<string>, body: CheckoutBody)
    ensures body.planId == Some("starter") ==> RootPrice(env, body.planId, body.billingCycle) == env.starter
    ensures body.planId != Some("starter") ==>
              RootPrice(env, body.planId, body.billingCycle)
              == (if body.planId.Some? && body.billingCycle.Some?
                  then ConfiguredPrice(env, body.planId.value, body.billingCycle.value) else None)
    ensures forall priceId :: (RootParams(body, frontendUrl, priceId).mode == Payment <==> body.planId == Some("starter"))
  {
    NestedPriceIsConfiguredPrice(env, body.planId, body.billingCycle);
  }

  /** The handler calls Stripe exactly when a non-empty price is found, and answers
      with Stripe's session and URL when it succeeds. */
  lemma RootCheckoutOutcome(env: PriceEnv, frontendUrl: Option<string>, body: CheckoutBody, create: SessionCreator)
    ensures var r := RootCheckout(env, frontendUrl, body, create);
            var price := RootPrice(env, body.planId, body.billingCycle);
            (r.PriceNotConfigured? <==> !Truthy(price))
            && (r.RootSession? <==> Truthy(price) && create(RootParams(body, frontendUrl, price.value)).Created?)
            && (r.RootSession? ==> r.sessionId == create(RootParams(body, frontendUrl, price.value)).sessionId
                                   && r.url == create(RootParams(body, frontendUrl, price.value)).url)
  {
  }

  /** A session answered to the client is the one Stripe created from the found price,
      with both URLs on `FRONTEND_URL` (or localhost:3000) whatever the client sent. */
  lemma SessionRequest(env: PriceEnv, frontendUrl: Option<string>, body: CheckoutBody, create: SessionCreator)
    requires RootCheckout(env, frontendUrl, body, create).RootSession?
    ensures var price := RootPrice(env, body.planId, body.billingCycle);
            var p := RootParams(body, frontendUrl, price.value);
            var base := OrElse(frontendUrl, "http://localhost:3000");
            create(p).Created? && Some(p.priceId) == price && p.clientReferenceId == body.userId
            && p.successUrl == base + "/dashboard?session_id={CHECKOUT_SESSION_ID}"
            && p.cancelUrl == base + "/pricing"
            && p.metadata == Some(Metadata(body.userId, body.planId, body.billingCycle, None))
  {
    RootCheckoutOutcome(env, frontendUrl, body, create);
  }
}

/** The stand-alone Express server under `server/`: its CORS policy and its own
    `/api/create-checkout-session` handler, which looks prices up by the lower-case
    plan and cycle the client sends. */
module ExpressServer {
  import opened Js
  import opened Http
  import opened StripeApi
  import opened CorsMiddleware
  import opened AuthMiddleware
  import opened LegacyPrices

  const ProductionOrigins := ["https://lumina-ai-green.vercel.app", "https://lumina-ai.vercel.app"]

  /** The `origin` option: open outside production; in production a missing origin or
      one of the two deployments; otherwise `callback(new Error(...))` with no verdict. */
  function ServerOriginDecision(isProduction: bool, origin: Option<string>): (c: CorsCallback)
    ensures Allows(c) <==> !isProduction || !Truthy(origin) || origin.value in ProductionOrigins
    ensures !Allows(c) ==> c == CorsCallback(Some(NotAllowed), None)
  {
    if !isProduction then CorsCallback(None, Some(true))
    else if !Truthy(origin) || origin.value in ProductionOrigins then CorsCallback(None, Some(true))
    else CorsCallback(Some(NotAllowed), None)
  }

  /** In production this server is stricter than the API's CORS middleware given the
      same list: everything it lets through the middleware does too, but not the
      local development origins. */
  lemma ProductionPolicyIsStricter(origin: Option<string>)
    ensures Allows(ServerOriginDecision(true, origin)) ==> Allows(OriginDecision(origin, ProductionOrigins))
    ensures !Allows(ServerOriginDecision(true, Some("http://localhost:3000")))
            && Allows(OriginDecision(Some("http://localhost:3000"), ProductionOrigins))
  {
    assert "http://localhost:3000" !in ProductionOrigins by {
      assert "http://localhost:3000"[7] != "https://lumina-ai-green.vercel.app"[7];
      assert "http://localhost:3000"[7] != "https://lumina-ai.vercel.app"[7];
    }
  }

  /** The handler's answers. */
  datatype ServerReply =
    | PlanNotFound(message: string)
    | CycleNotFound(message: string)
    | SessionStarted(sessionId: string)
    | ServerError(message: string)

  function ServerStatus(r: ServerReply): int {
    match r
    case PlanNotFound(_) => 400
    case CycleNotFound(_) => 400
    case SessionStarted(_) => 200
    case ServerError(_) => 500
  }

  const DefaultBase := "http://localhost:3000"

  /** A value in a template literal: a missing one prints as "undefined". */
  function Shown(s: Option<string>): string {
    if s.Some? then s.value else "undefined"
  }

  function PlanNotFoundMessage(planId: Option<string>): string {
    "Invalid plan or billing cycle. Plan \"" + Shown(planId) + "\" not found. Available: pro, enterprise"
  }

  function CycleNotFoundMessage(planId: Option<string>, billingCycle: Option<string>): string {
    "Invalid billing cycle \"" + Shown(billingCycle) + "\" for plan \"" + Shown(planId) + "\". Available: monthly, yearly"
  }

  /** The session this handler asks Stripe for: the client's URLs when given, else URLs
      on the request's origin; the metadata carries the plan as sent. */
  function ServerParams(body: CheckoutBody, origin: Option<string>, priceId: string): CheckoutParams {
    var base := OrElse(origin, DefaultBase);
    CheckoutParams(
      customerEmail := body.userEmail,
      clientReferenceId := body.userId,
      priceId := priceId,
      mode := Subscription,
      successUrl := OrElse(body.successUrl, base + "/dashboard?session_id={CHECKOUT_SESSION_ID}"),
      cancelUrl := OrElse(body.cancelUrl, base + "/pricing"),
      metadata := Some(Metadata(body.userId, body.planId, body.billingCycle, None)))
  }

  /** The `/api/create-checkout-session` handler. */
  function ServerCheckout(env: PriceEnv, body: CheckoutBody, origin: Option<string>, create: SessionCreator)
    : (r: ServerReply)
    ensures body.planId != Some("pro") && body.planId != Some("enterprise") ==> r == PlanNotFound(PlanNotFoundMessage(body.planId))
    ensures r.CycleNotFound? <==> PlanPrices(env, body.planId).Some? && !Truthy(NestedPrice(env, body.planId, body.billingCycle))
    ensures r.SessionStarted? ==> Truthy(NestedPrice(env, body.planId, body.billingCycle))
  {
    match PlanPrices(env, body.planId)
    case None => PlanNotFound(PlanNotFoundMessage(body.planId))
    case Some(prices) =>
      var price := CyclePrice(prices, body.billingCycle);
      if !Truthy(price) then CycleNotFound(CycleNotFoundMessage(body.planId, body.billingCycle))
      else match create(ServerParams(body, origin, price.value))
        case Created(id, _) => SessionStarted(id)
        case CreateFailed(m) => ServerError(m)
  }

  /** A session is started exactly when the plan and cycle name a configured price and
      Stripe accepts the parameters built from that price; its metadata then records
      the lower-case plan. An unknown plan is reported before the cycle is examined. */
  lemma ServerCheckoutOutcome(env: PriceEnv, body: CheckoutBody, origin: Option<string>, create: SessionCreator)
    ensures var r := ServerCheckout(env, body, origin, create);
            (body.planId != Some("pro") && body.planId != Some("enterprise") <==> r == PlanNotFound(PlanNotFoundMessage(body.planId)))
            && (r.SessionStarted? <==>
                  Truthy(NestedPrice(env, body.planId, body.billingCycle))
                  && create(ServerParams(body, origin, NestedPrice(env, body.planId, body.billingCycle).value)).Created?)
            && (r.SessionStarted? ==>
                  (body.planId == Some("pro") || body.planId == Some("enterprise"))
                  && (body.billingCycle == Some("monthly") || body.billingCycle == Some("yearly")))
  {
    NestedPriceIsConfiguredPrice(env, body.planId, body.billingCycle);
  }

  /** Every body that passes `validatePaymentData` finds its price here whenever the
      four price variables are set: the middleware and this handler use the same keys. */
  lemma ValidatedBodiesFindPrice(env: PriceEnv, body: CheckoutBody, origin: Option<string>, create: SessionCreator)
    requires ValidatePaymentData(body).Next?
    requires Truthy(env.proMonthly) && Truthy(env.proYearly) && Truthy(env.enterpriseMonthly) && Truthy(env.enterpriseYearly)
    ensures var r := ServerCheckout(env, body, origin, create);
            r.SessionStarted? || r.ServerError?
  {
    ValidatedPlansAreLowerCase(body);
  }

  /** A started session is the one Stripe created from the configured price: a
      subscription whose URLs are the client's when given, else on the request's origin
      (or localhost:3000), and whose metadata holds the plan and cycle as sent. */
  lemma StartedSessionRequest(env: PriceEnv, body: CheckoutBody, origin: Option<string>, create: SessionCreator)
    requires ServerCheckout(env, body, origin, create).SessionStarted?
    ensures var price := NestedPrice(env, body.planId, body.billingCycle);
            var p := ServerParams(body, origin, price.value);
            var base := OrElse(origin, "http://localhost:3000");
            create(p).Created? && create(p).sessionId == ServerCheckout(env, body, origin, create).sessionId
            && Some(p.priceId) == price && p.mode == Subscription && p.clientReferenceId == body.userId
            && p.metadata == Some(Metadata(body.userId, body.planId, body.billingCycle, None))
            && p.successUrl == OrElse(body.successUrl, base + "/dashboard?session_id={CHECKOUT_SESSION_ID}")
            && p.cancelUrl == OrElse(body.cancelUrl, base + "/pricing")
  {
    ServerCheckoutOutcome(env, body, origin, create);
  }
}

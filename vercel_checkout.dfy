/** The serverless function `api/create-checkout-session`: a CORS preflight answer,
    a method check and the nested price lookup. Its sessions carry no metadata. */
module VercelCheckout {
  import opened Js
  import opened Http
  import opened StripeApi
  import opened LegacyPrices
  import opened PaymentController

  datatype VercelReply =
    | Preflight(headers: seq<(string, string)>)
    | MethodNotAllowed
    | InvalidPlanOrCycle
    | VercelSession(sessionId: string, url: string)
    | VercelError(message: string)

  function VercelStatus(r: VercelReply): int {
    match r
    case Preflight(_) => 200
    case MethodNotAllowed => 405
    case InvalidPlanOrCycle => 400
    case VercelSession(_, _) => 200
    case VercelError(_) => 500
  }

  const PreflightHeaders := [
    ("Access-Control-Allow-Origin", "*"),
    ("Access-Control-Allow-Methods", "POST, OPTIONS"),
    ("Access-Control-Allow-Headers", "Content-Type")]

  const DefaultFrontend := "https://your-domain.vercel.app"

  /** The TypeError of destructuring a request without a parsed body. */
  const BodyMissing := "Cannot destructure property 'userId' of 'req.body' as it is undefined."

  function VercelParams(body: CheckoutBody, frontendUrl: Option<string>, priceId: string): CheckoutParams {
    var base := OrElse(frontendUrl, DefaultFrontend);
    CheckoutParams(body.userEmail, body.userId, priceId, Subscription,
                   base + "/dashboard?session_id={CHECKOUT_SESSION_ID}", base + "/pricing", None)
  }

  /** The handler for one request with the given method and (possibly absent) body: a
      POST without a body fails in the `try`, a POST whose plan and cycle find no truthy
      price is 400, and otherwise Stripe's answer decides between the session and 500. */
  function VercelHandler(httpMethod: string, env: PriceEnv, frontendUrl: Option<string>, body: Option<CheckoutBody>,
                         create: SessionCreator): (r: VercelReply)
    ensures httpMethod == "POST" && body.None? ==> r == VercelError(BodyMissing)
    ensures httpMethod == "POST" && body.Some? && !Truthy(NestedPrice(env, body.value.planId, body.value.billingCycle))
            ==> r == InvalidPlanOrCycle
    ensures httpMethod == "POST" && body.Some? && Truthy(NestedPrice(env, body.value.planId, body.value.billingCycle))
            ==> var outcome := create(VercelParams(body.value, frontendUrl,
                                                   NestedPrice(env, body.value.planId, body.value.billingCycle).value));
                (outcome.CreateFailed? ==> r == VercelError(outcome.message))
                && (outcome.Created? ==> r == VercelSession(outcome.sessionId, outcome.url))
  {
    if httpMethod == "OPTIONS" then Preflight(PreflightHeaders)
    else if httpMethod != "POST" then MethodNotAllowed
    else if body.None? then VercelError(BodyMissing)
    else
      var price := NestedPrice(env, body.value.planId, body.value.billingCycle);
      if !Truthy(price) then InvalidPlanOrCycle
      else match create(VercelParams(body.value, frontendUrl, price.value))
        case Created(id, url) => VercelSession(id, url)
        case CreateFailed(m) => VercelError(m)
  }

  /** Method dispatch: a preflight is answered 200 with the three CORS headers and any
      other method than POST with 405, before anything else is looked at. */
  lemma MethodDispatch(httpMethod: string, env: PriceEnv, frontendUrl: Option<string>, body: Option<CheckoutBody>,
                       create: SessionCreator)
    ensures var r := VercelHandler(httpMethod, env, frontendUrl, body, create);
            (httpMethod == "OPTIONS" <==> r == Preflight(PreflightHeaders))
            && (httpMethod != "OPTIONS" && httpMethod != "POST" <==> r == MethodNotAllowed)
            && (r.VercelSession? ==> httpMethod == "POST" && body.Some?
                                     && Truthy(NestedPrice(env, body.value.planId, body.value.billingCycle)))
  {
  }

  /** The function sets no metadata, so a session it creates never updates the user
      table: the webhook finds no user id in the completed checkout, and the verify
      path finds none in the retrieved session. */
  lemma VercelSessionsNeverReachUserTable(body: CheckoutBody, frontendUrl: Option<string>, priceId: string,
                                         e: Event, s: RetrievedSession)
    requires e.payload.SessionObject? && e.payload.session.metadata == VercelParams(body, frontendUrl, priceId).metadata
    requires s.metadata == VercelParams(body, frontendUrl, priceId).metadata
    ensures WebhookWrite(e).None?
    ensures VerifyWrite(StripeService.Projection(s)) == Ok(None)
  {
  }

  /** A session answered to the client is the one Stripe created from the configured
      price, a subscription with the URLs on `FRONTEND_URL` or the fixed default and no
      metadata. */
  lemma SessionRequest(env: PriceEnv, frontendUrl: Option<string>, body: CheckoutBody, create: SessionCreator)
    requires VercelHandler("POST", env, frontendUrl, Some(body), create).VercelSession?
    ensures var price := NestedPrice(env, body.planId, body.billingCycle);
            var p := VercelParams(body, frontendUrl, price.value);
            var base := OrElse(frontendUrl, "https://your-domain.vercel.app");
            var r := VercelHandler("POST", env, frontendUrl, Some(body), create);
            create(p) == Created(r.sessionId, r.url) && Some(p.priceId) == price
            && p.mode == Subscription && p.clientReferenceId == body.userId && p.metadata.None?
            && p.successUrl == base + "/dashboard?session_id={CHECKOUT_SESSION_ID}"
            && p.cancelUrl == base + "/pricing"
  {
  }
}

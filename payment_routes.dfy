/** The payment router: `POST /create-checkout-session` runs `validatePaymentData`
    and then the controller's `createCheckoutSession`. */
module PaymentRoutes {
  import opened Js
  import opened Http
  import opened StripeApi
  import opened StripeService
  import opened AuthMiddleware
  import opened PaymentController

  /** A request either stops at the middleware or reaches the controller. */
  datatype RouteOutcome = Rejected(verdict: Verdict) | Forwarded(step: CheckoutStep)

  /** `router.post('/create-checkout-session', validatePaymentData, createCheckoutSession)`. */
  function CreateCheckoutRoute(svc: Service, body: CheckoutBody, ctx: RequestContext, create: SessionCreator)
    : (r: RouteOutcome)
    ensures r.Forwarded? <==> ValidatePaymentData(body).Next?
    ensures r.Rejected? ==> r.verdict == ValidatePaymentData(body)
    ensures r.Forwarded? ==> r.step == CheckoutDecision(svc, body, ctx, create)
  {
    match ValidatePaymentData(body)
    case Reject(e, a) => Rejected(Reject(e, a))
    case Next => Forwarded(CheckoutDecision(svc, body, ctx, create))
  }

  /** The status of the route's answer; a free-plan write is answered 200 when it succeeds. */
  function RouteStatus(r: RouteOutcome): int {
    match r
    case Rejected(v) => VerdictStatus(v)
    case Forwarded(Answer(reply)) => CheckoutStatus(reply)
    case Forwarded(WriteStarter(_)) => 200
  }

  lemma LowerCaseIsItsOwnLowerCase(c: string)
    requires c == "monthly" || c == "yearly"
    ensures ToLower(c) == c
  {
    ToLowerMatches(c, c);
  }

  /** The middleware admits only "pro" and "enterprise", which the controller then
      refuses: "pro" upper-cases to "PRO", not a plan the controller knows, and
      "enterprise" reaches the Stripe service under a key its price table lacks. So no
      request through this route creates a session or activates the free plan. */
  lemma RouteRejectsEveryRequest(svc: Service, body: CheckoutBody, ctx: RequestContext, create: SessionCreator)
    ensures var r := CreateCheckoutRoute(svc, body, ctx, create);
            (RouteStatus(r) == 400 || RouteStatus(r) == 500)
            && (r.Forwarded? ==>
                  (body.planId == Some("pro") && r.step == Answer(InvalidPlan(Some("pro"), "PRO")))
                  || (body.planId == Some("enterprise")
                      && r.step == Answer(CheckoutError(InvalidPlanBilling(Some("enterprise"), body.billingCycle)))))
  {
    if ValidatePaymentData(body).Next? {
      ValidatedPlansAreLowerCase(body);
      NormalizationIsCaseInsensitive(body.planId, body.billingCycle);
      LowerCaseIsItsOwnLowerCase(body.billingCycle.value);
      if body.planId == Some("pro") {
        ProUpper();
      } else {
        EnterpriseUpper();
        PaidCheckoutAlwaysFails(svc, body, ctx, create);
      }
    }
  }
}

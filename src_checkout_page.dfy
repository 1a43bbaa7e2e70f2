/** The checkout page under `src/pages`: it names the paid plans "PROFESSIONAL" and
    "ENTERPRISE", upper-cases plan and cycle before posting them to the API server,
    and has no separate path for the free plan. */
module SrcCheckoutPage {
  import opened Js
  import opened Http
  import opened StripeApi
  import opened StripeService
  import opened CheckoutPlans
  import opened AuthMiddleware
  import opened LegacyPrices
  import ExpressServer
  import opened PaymentController

  const Ids := PlanIds("starter", "PROFESSIONAL", "ENTERPRISE")

  /** The JSON body `handleCheckout` posts; `origin` is `window.location.origin`. */
  function CheckoutRequest(user: User, plan: SelectedPlan, origin: string): CheckoutBody {
    CheckoutBody(Some(user.id), Some(ToUpper(plan.id)), Some(ToUpper(plan.billingCycle)), user.email,
                 Some(origin + "/dashboard"), Some(origin + "/pricing"))
  }

  /** The outcome of the `fetch`: the server's answer (`response.ok`, `response.status`,
      the body as text, and the `sessionId` of the body read as JSON), or a rejected
      request (a network failure or a refused cross-origin call) with its error message. */
  datatype Response =
    | Response(ok: bool, status: nat, text: string, sessionId: Option<string>)
    | Rejected(message: string)

  /** The message of the error the `try` block throws, or `None` when the redirect to
      Stripe goes through. */
  function Thrown(resp: Response, stripe: StripeJs): Option<string> {
    if resp.Rejected? then Some(resp.message)
    else if !resp.ok then Some(OrElse(Some(resp.text), "Server error: " + NatToString(resp.status)))
    else if !Truthy(resp.sessionId) then Some("No session ID received")
    else match stripe
      case NotLoaded => Some("Stripe failed to load")
      case Loaded(redirect) =>
        match redirect(resp.sessionId)
        case Redirected => None
        case RedirectFailed(m) => Some(m)
  }

  /** The `error` state after `handleCheckout`: empty after a successful redirect, else
      the thrown message, or "Checkout failed" when that message is empty. */
  function CheckoutErrorText(resp: Response, stripe: StripeJs): string {
    match Thrown(resp, stripe)
    case None => ""
    case Some(m) => OrElse(Some(m), "Checkout failed")
  }

  /** The page shows an error exactly when it did not reach Stripe's checkout; a failed
      request with an empty body is reported with its status, and a rejected request
      with its own message. */
  lemma ErrorUnlessRedirected(resp: Response, stripe: StripeJs)
    ensures CheckoutErrorText(resp, stripe) == "" <==>
              resp.Response? && resp.ok && Truthy(resp.sessionId) && stripe.Loaded?
              && stripe.redirect(resp.sessionId) == Redirected
    ensures resp.Response? && !resp.ok && resp.text == "" ==>
              CheckoutErrorText(resp, stripe) == "Server error: " + NatToString(resp.status)
    ensures resp.Response? && resp.ok && !Truthy(resp.sessionId) ==>
              CheckoutErrorText(resp, stripe) == "No session ID received"
    ensures resp.Rejected? ==> CheckoutErrorText(resp, stripe) == OrElse(Some(resp.message), "Checkout failed")
  {
    if resp.Response? && !resp.ok && resp.text == "" {
      assert "Server error: " + NatToString(resp.status) != "";
    }
  }

  /** The checkout page's state and its checkout action. */
  class CheckoutPage {
    var loading: bool
    var error: string

    constructor ()
      ensures !loading && error == ""
    {
      loading := false;
      error := "";
    }

    /** `handleCheckout`: nothing without a user and a plan; otherwise one request, and
        the error state it leads to, with loading cleared at the end. */
    method HandleCheckout(user: Option<User>, plan: Option<SelectedPlan>, origin: string,
                          post: CheckoutBody -> Response, stripe: StripeJs)
      returns (sent: Option<CheckoutBody>)
      modifies this
      ensures user.None? || plan.None? ==> sent.None? && loading == old(loading) && error == old(error)
      ensures user.Some? && plan.Some? ==>
                sent == Some(CheckoutRequest(user.value, plan.value, origin))
                && !loading && error == CheckoutErrorText(post(sent.value), stripe)
    {
      if user.None? || plan.None? {
        return None;
      }
      loading := true;
      error := "";
      var body := CheckoutRequest(user.value, plan.value, origin);
      sent := Some(body);
      var resp := post(body);
      var thrown := Thrown(resp, stripe);
      if thrown.Some? {
        error := OrElse(Some(thrown.value), "Checkout failed");
      }
      loading := false;
    }
  }

  /** The upper-cased plan never matches the middleware's lower-case plan names, so
      every request of this page is refused before the controller. */
  lemma RequestRejectedByMiddleware(user: User, plan: SelectedPlan, origin: string)
    ensures ValidatePaymentData(CheckoutRequest(user, plan, origin)).Reject?
  {
    ToUpperIdempotent(plan.id);
    assert IsLowerChar("pro"[0]) && IsLowerChar("enterprise"[0]);
  }

  /** The stand-alone server's table is keyed by lower-case plans: it answers every
      request of this page with "plan not found". */
  lemma RequestUnknownToExpressServer(env: PriceEnv, user: User, plan: SelectedPlan, origin: string,
                                      requestOrigin: Option<string>, create: SessionCreator)
    ensures var body := CheckoutRequest(user, plan, origin);
            ExpressServer.ServerCheckout(env, body, requestOrigin, create)
            == ExpressServer.PlanNotFound(ExpressServer.PlanNotFoundMessage(body.planId))
  {
    ToUpperIdempotent(plan.id);
    assert IsLowerChar("pro"[0]) && IsLowerChar("enterprise"[0]);
  }

  lemma StarterUpper()
    ensures ToUpper("starter") == "STARTER"
  {
    assert EqualsIgnoreCase("starter", "STARTER");
    ToUpperMatches("starter", "STARTER");
  }

  /** What the controller's normalisation makes of this page's request: the upper-cased
      plan stays as it is, and the lower-case cycle comes back. */
  lemma {:induction false} NormalizedRequest(user: User, plan: SelectedPlan, origin: string)
    requires plan.id != "" && NoUpperCase(plan.billingCycle)
    ensures NormalizedPlan(CheckoutRequest(user, plan, origin).planId) == ToUpper(plan.id)
    ensures NormalizedCycle(CheckoutRequest(user, plan, origin).billingCycle) == plan.billingCycle
  {
    ToUpperIdempotent(plan.id);
    LowerOfUpper(plan.billingCycle);
  }

  /** Posted to the controller directly, the free plan's request is accepted and
      activates STARTER for the user. */
  lemma {:induction false} StarterAtController(svc: Service, cycleParam: string, user: User, origin: string,
                                               ctx: RequestContext, create: SessionCreator)
    requires cycleParam == "monthly" || cycleParam == "yearly"
    ensures var plan := PageLoad(Some("starter"), Some(cycleParam), Some(user), Ids).plan;
            CheckoutDecision(svc, CheckoutRequest(user, plan, origin), ctx, create) == WriteStarter(Some(user.id))
  {
    var plan := PageLoad(Some("starter"), Some(cycleParam), Some(user), Ids).plan;
    PageLoadOutcome(Some("starter"), Some(cycleParam), Some(user), Ids);
    CycleNamesAreLowerCase();
    NormalizedRequest(user, plan, origin);
    StarterUpper();
  }

  /** Posted to the controller directly, either paid plan's request is accepted by its
      validation and ends in the Stripe service's price error for the page's own plan
      and cycle parameters. */
  lemma {:induction false} PaidAtController(svc: Service, planParam: string, cycleParam: string, user: User, origin: string,
                                            ctx: RequestContext, create: SessionCreator)
    requires planParam == "pro" || planParam == "enterprise"
    requires cycleParam == "monthly" || cycleParam == "yearly"
    ensures var plan := PageLoad(Some(planParam), Some(cycleParam), Some(user), Ids).plan;
            CheckoutDecision(svc, CheckoutRequest(user, plan, origin), ctx, create)
            == Answer(CheckoutError(InvalidPlanBilling(Some(planParam), Some(cycleParam))))
  {
    var plan := PageLoad(Some(planParam), Some(cycleParam), Some(user), Ids).plan;
    PageLoadOutcome(Some(planParam), Some(cycleParam), Some(user), Ids);
    var body := CheckoutRequest(user, plan, origin);
    CycleNamesAreLowerCase();
    KeysAreUpperCase();
    assert plan.id in PlanKeys;
    NormalizedRequest(user, plan, origin);
    ToUpperIdentity(plan.id);
    NormalizationIsCaseInsensitive(body.planId, body.billingCycle);
    PaidCheckoutAlwaysFails(svc, body, ctx, create);
  }
}

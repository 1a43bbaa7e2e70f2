/** The checkout page under `pages/`: it names the plans "starter", "pro" and
    "enterprise", activates the free plan itself in the `profiles` table, and posts
    paid plans unchanged to the same-origin `/api/create-checkout-session`. */
module LegacyCheckoutPage {
  import opened Js
  import opened Http
  import opened StripeApi
  import opened CheckoutPlans
  import opened AuthMiddleware
  import opened LegacyPrices
  import opened UserStore

  const Ids := PlanIds("starter", "pro", "enterprise")

  const DefaultError := "An error occurred during checkout. Please try again."

  /** Where the page navigates, with the message it passes along. */
  datatype Navigation = Navigation(path: string, message: string)

  /** The JSON body posted for a paid plan. */
  function CheckoutRequest(user: User, plan: SelectedPlan): CheckoutBody {
    CheckoutBody(Some(user.id), Some(plan.id), Some(plan.billingCycle), user.email, None, None)
  }

  /** The outcome of the `fetch`: the `sessionId` and `error` of the response body, or a
      rejected request (a network failure) with its error message. */
  datatype Response =
    | Response(sessionId: Option<string>, error: Option<string>)
    | Rejected(message: string)

  /** The message thrown on the paid path, or `None` when the redirect goes through. A
      response without a session id is still handed to the redirect. */
  function PaidThrown(resp: Response, stripe: StripeJs): Option<string> {
    if resp.Rejected? then Some(resp.message)
    else if Truthy(resp.error) then Some(resp.error.value)
    else match stripe
      case NotLoaded => Some("Stripe failed to load")
      case Loaded(redirect) =>
        match redirect(resp.sessionId)
        case Redirected => None
        case RedirectFailed(m) => Some(m)
  }

  /** The `error` state after the catch block: the message, or the default text. */
  function Caught(thrown: Option<string>): string {
    match thrown
    case None => ""
    case Some(m) => OrElse(Some(m), DefaultError)
  }

  /** An error is shown on the paid path exactly when the redirect did not go through;
      an error in the response body is shown as sent, and a rejected request with its
      own message or the default text. */
  lemma PaidErrorUnlessRedirected(resp: Response, stripe: StripeJs)
    ensures Caught(PaidThrown(resp, stripe)) == "" <==>
              resp.Response? && !Truthy(resp.error) && stripe.Loaded? && stripe.redirect(resp.sessionId) == Redirected
    ensures resp.Response? && Truthy(resp.error) ==> Caught(PaidThrown(resp, stripe)) == resp.error.value
    ensures resp.Rejected? ==> Caught(PaidThrown(resp, stripe)) == OrElse(Some(resp.message), DefaultError)
  {
    assert DefaultError != "";
  }

  /** The page's state and its checkout action. */
  class CheckoutPage {
    var loading: bool
    var error: string
    var navigation: Option<Navigation>

    constructor ()
      ensures !loading && error == "" && navigation.None?
    {
      loading := false;
      error := "";
      navigation := None;
    }

    /** `handleCheckout`. A free plan updates the user's `profiles` row and goes to the
        dashboard, or shows the refusal; a paid plan posts one request and redirects. */
    method HandleCheckout(db: Database, user: Option<User>, plan: Option<SelectedPlan>, now: int,
                          failure: Option<string>, post: CheckoutBody -> Response, stripe: StripeJs)
      returns (sent: Option<CheckoutBody>)
      modifies this, db
      ensures db.users == old(db.users)
      ensures user.None? || plan.None? ==>
                sent.None? && db.profiles == old(db.profiles)
                && loading == old(loading) && error == old(error) && navigation == old(navigation)
      ensures user.Some? && plan.Some? && IsFree(plan.value) ==>
                sent.None? && !loading
                && db.profiles == (if failure.Some? then old(db.profiles)
                                   else ProfilePlanSet(old(db.profiles), user.value.id, plan.value.id, now))
                && error == Caught(failure)
                && navigation == (if failure.Some? then old(navigation)
                                  else Some(Navigation("/dashboard", "Successfully subscribed to " + plan.value.name + " plan!")))
      ensures user.Some? && plan.Some? && !IsFree(plan.value) ==>
                sent == Some(CheckoutRequest(user.value, plan.value)) && !loading
                && db.profiles == old(db.profiles) && navigation == old(navigation)
                && error == Caught(PaidThrown(post(sent.value), stripe))
    {
      if user.None? || plan.None? {
        return None;
      }
      loading := true;
      error := "";
      var u := user.value;
      var p := plan.value;
      if IsFree(p) {
        db.SetProfilePlan(u.id, p.id, now, failure);
        if failure.Some? {
          error := Caught(failure);
        } else {
          navigation := Some(Navigation("/dashboard", "Successfully subscribed to " + p.name + " plan!"));
        }
        sent := None;
      } else {
        var body := CheckoutRequest(u, p);
        sent := Some(body);
        var resp := post(body);
        error := Caught(PaidThrown(resp, stripe));
      }
      loading := false;
    }
  }

  /** A paid plan chosen on this page passes `validatePaymentData` whenever the user has
      an e-mail and the cycle is one of the two offered ones. */
  lemma PaidRequestPassesValidation(planParam: string, cycleParam: string, user: User)
    requires planParam == "pro" || planParam == "enterprise"
    requires cycleParam == "monthly" || cycleParam == "yearly"
    requires Truthy(user.email) && user.id != ""
    ensures var plan := PageLoad(Some(planParam), Some(cycleParam), Some(user), Ids).plan;
            ValidatePaymentData(CheckoutRequest(user, plan)).Next?
  {
  }

  /** The page passes any other non-empty cycle through from the query string: the plan is
      shown at its yearly price, but the request it posts fails `validatePaymentData`. */
  lemma OtherCycleFailsValidation(planParam: string, cycleParam: string, user: User)
    requires planParam == "pro" || planParam == "enterprise"
    requires cycleParam != "" && cycleParam != "monthly" && cycleParam != "yearly"
    ensures var s := PageLoad(Some(planParam), Some(cycleParam), Some(user), Ids);
            s.Ready? && s.plan.billingCycle == cycleParam
            && ValidatePaymentData(CheckoutRequest(user, s.plan)).Reject?
  {
  }

  /** The serverless function and the stand-alone server find a price for every paid
      plan of this page once the four price variables are set. */
  lemma PaidRequestFindsPrice(planParam: string, cycleParam: string, user: User, env: PriceEnv)
    requires planParam == "pro" || planParam == "enterprise"
    requires cycleParam == "monthly" || cycleParam == "yearly"
    requires Truthy(env.proMonthly) && Truthy(env.proYearly) && Truthy(env.enterpriseMonthly) && Truthy(env.enterpriseYearly)
    ensures var plan := PageLoad(Some(planParam), Some(cycleParam), Some(user), Ids).plan;
            var body := CheckoutRequest(user, plan);
            Truthy(NestedPrice(env, body.planId, body.billingCycle))
            && NestedPrice(env, body.planId, body.billingCycle) == ConfiguredPrice(env, planParam, cycleParam)
  {
    var plan := PageLoad(Some(planParam), Some(cycleParam), Some(user), Ids).plan;
    PageLoadOutcome(Some(planParam), Some(cycleParam), Some(user), Ids);
    NestedPriceIsConfiguredPrice(env, Some(planParam), Some(cycleParam));
  }

  /** The free plan is recorded in `profiles` under the lower-case id "starter". */
  lemma FreePlanRecordsStarter(cycleParam: Option<string>, user: User, profiles: map<string, ProfileRow>, now: int)
    requires user.id in profiles
    ensures var plan := PageLoad(Some("starter"), cycleParam, Some(user), Ids).plan;
            IsFree(plan) && ProfilePlanSet(profiles, user.id, plan.id, now)[user.id].subscriptionPlan == Some("starter")
  {
  }
}

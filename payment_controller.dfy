/** The server's payment controller: checkout creation, session verification, the
    Stripe webhook and the subscription read-out. Each handler is a pure decision
    followed, where the source writes, by one call into the `users` table. */
module PaymentController {
  import opened Js
  import opened Http
  import opened StripeApi
  import opened StripeService
  import opened UserStore

  // ---------------------------------------------------------------------------
  // createCheckoutSession
  // ---------------------------------------------------------------------------

  /** The answers of `createCheckoutSession`. */
  datatype CheckoutReply =
    | InvalidPlan(received: Option<string>, normalized: string)
    | InvalidBillingCycle(received: Option<string>, normalized: string)
    | StarterOk
    | StarterFailed
    | InvalidPlanForStripe(normalized: string)
    | SessionCreated(sessionId: string)
    | CheckoutError(message: string)

  function CheckoutStatus(r: CheckoutReply): int {
    match r
    case InvalidPlan(_, _) => 400
    case InvalidBillingCycle(_, _) => 400
    case StarterOk => 200
    case StarterFailed => 500
    case InvalidPlanForStripe(_) => 400
    case SessionCreated(_) => 200
    case CheckoutError(_) => 500
  }

  const ValidPlans := ["STARTER", "PROFESSIONAL", "ENTERPRISE"]
  const ValidBilling := ["monthly", "yearly"]

  /** `(planId || '').toUpperCase()` and `(billingCycle || '').toLowerCase()`. */
  function NormalizedPlan(planId: Option<string>): string { ToUpper(OrElse(planId, "")) }
  function NormalizedCycle(billingCycle: Option<string>): string { ToLower(OrElse(billingCycle, "")) }

  /** The raw plan spells one of the three plans in some mix of cases. */
  predicate SpellsPlan(raw: string) {
    EqualsIgnoreCase(raw, "STARTER") || EqualsIgnoreCase(raw, "PROFESSIONAL") || EqualsIgnoreCase(raw, "ENTERPRISE")
  }

  predicate SpellsCycle(raw: string) {
    EqualsIgnoreCase(raw, "monthly") || EqualsIgnoreCase(raw, "yearly")
  }

  /** Normalisation accepts exactly the case-insensitive spellings of the listed values. */
  lemma NormalizationIsCaseInsensitive(planId: Option<string>, billingCycle: Option<string>)
    ensures var raw := OrElse(planId, "");
            (NormalizedPlan(planId) in ValidPlans <==> SpellsPlan(raw))
            && (NormalizedPlan(planId) == "STARTER" <==> EqualsIgnoreCase(raw, "STARTER"))
            && (NormalizedPlan(planId) == "PROFESSIONAL" <==> EqualsIgnoreCase(raw, "PROFESSIONAL"))
            && (NormalizedPlan(planId) == "ENTERPRISE" <==> EqualsIgnoreCase(raw, "ENTERPRISE"))
    ensures var raw := OrElse(billingCycle, "");
            (NormalizedCycle(billingCycle) in ValidBilling <==> SpellsCycle(raw))
            && (NormalizedCycle(billingCycle) == "monthly" <==> EqualsIgnoreCase(raw, "monthly"))
            && (NormalizedCycle(billingCycle) == "yearly" <==> EqualsIgnoreCase(raw, "yearly"))
  {
    var raw := OrElse(planId, "");
    assert NoLowerCase("STARTER") && NoLowerCase("PROFESSIONAL") && NoLowerCase("ENTERPRISE");
    ToUpperMatches(raw, "STARTER");
    ToUpperMatches(raw, "PROFESSIONAL");
    ToUpperMatches(raw, "ENTERPRISE");
    var cycle := OrElse(billingCycle, "");
    assert NoUpperCase("monthly") && NoUpperCase("yearly");
    ToLowerMatches(cycle, "monthly");
    ToLowerMatches(cycle, "yearly");
  }

  lemma CycleNamesAreLowerCase()
    ensures NoUpperCase("monthly") && NoUpperCase("yearly")
  {
  }

  /** The environment of one request: its Origin header, `config.frontendUrl`, and
      `new URL(s).origin` as a partial function (None where the constructor throws). */
  datatype RequestContext = RequestContext(origin: Option<string>, frontendUrl: string, urlOrigin: string -> Option<string>)

  /** The origin of the body's `successUrl`, when it is given and parses as a URL. */
  function ParsedOrigin(body: CheckoutBody, ctx: RequestContext): Option<string> {
    if Truthy(body.successUrl) then ctx.urlOrigin(body.successUrl.value) else None
  }

  /** The base of the redirect URLs: the origin of a parseable `successUrl`, else the
      request's Origin, else the configured front-end URL. */
  function BaseUrl(body: CheckoutBody, ctx: RequestContext): (r: string)
    ensures ParsedOrigin(body, ctx).Some? ==> r == ParsedOrigin(body, ctx).value
    ensures ParsedOrigin(body, ctx).None? && Truthy(ctx.origin) ==> r == ctx.origin.value
    ensures ParsedOrigin(body, ctx).None? && !Truthy(ctx.origin) ==> r == ctx.frontendUrl
  {
    if Truthy(body.successUrl) && ctx.urlOrigin(body.successUrl.value).Some? then
      ctx.urlOrigin(body.successUrl.value).value
    else
      OrElse(ctx.origin, ctx.frontendUrl)
  }

  const SuccessPath := "/checkout/success?session_id={CHECKOUT_SESSION_ID}"

  function SuccessUrl(body: CheckoutBody, ctx: RequestContext): string {
    BaseUrl(body, ctx) + SuccessPath
  }

  function CancelUrl(body: CheckoutBody, ctx: RequestContext): string {
    OrElse(body.cancelUrl, BaseUrl(body, ctx) + "/pricing")
  }

  /** `stripePlanMap[normalizedPlanId]`. */
  function StripePlanId(normalized: string): (r: Option<string>)
    ensures r.Some? <==> normalized == "PROFESSIONAL" || normalized == "ENTERPRISE"
  {
    if normalized == "PROFESSIONAL" then Some("pro")
    else if normalized == "ENTERPRISE" then Some("enterprise")
    else None
  }

  /** What the handler does next: answer, or perform the free-plan write first. */
  datatype CheckoutStep = Answer(reply: CheckoutReply) | WriteStarter(userId: Option<string>)

  /** The argument the controller hands to the Stripe service for a paid plan. */
  function PaidCheckoutData(body: CheckoutBody, ctx: RequestContext, stripePlan: string, cycle: string): CheckoutData {
    CheckoutData(body.userId, Some(stripePlan), Some(cycle), body.userEmail, SuccessUrl(body, ctx), CancelUrl(body, ctx))
  }

  /** The decisions of `createCheckoutSession`, in the order the source takes them. */
  function CheckoutDecision(svc: Service, body: CheckoutBody, ctx: RequestContext, create: SessionCreator)
    : (r: CheckoutStep)
    ensures NormalizedPlan(body.planId) !in ValidPlans ==> r == Answer(InvalidPlan(body.planId, NormalizedPlan(body.planId)))
    ensures NormalizedPlan(body.planId) in ValidPlans && NormalizedCycle(body.billingCycle) !in ValidBilling
            ==> r == Answer(InvalidBillingCycle(body.billingCycle, NormalizedCycle(body.billingCycle)))
    ensures r.WriteStarter? <==> NormalizedPlan(body.planId) == "STARTER" && NormalizedCycle(body.billingCycle) in ValidBilling
    ensures r.WriteStarter? ==> r.userId == body.userId
    ensures r.Answer? && r.reply.SessionCreated? ==>
              NormalizedPlan(body.planId) in {"PROFESSIONAL", "ENTERPRISE"} && NormalizedCycle(body.billingCycle) in ValidBilling
  {
    var plan := NormalizedPlan(body.planId);
    var cycle := NormalizedCycle(body.billingCycle);
    if plan !in ValidPlans then Answer(InvalidPlan(body.planId, plan))
    else if cycle !in ValidBilling then Answer(InvalidBillingCycle(body.billingCycle, cycle))
    else if plan == "STARTER" then WriteStarter(body.userId)
    else match StripePlanId(plan)
      case None => Answer(InvalidPlanForStripe(plan))
      case Some(stripePlan) =>
        match StripeService.CreateCheckoutSession(svc, PaidCheckoutData(body, ctx, stripePlan, cycle), create)
        case Ok(session) => Answer(SessionCreated(session.sessionId))
        case Err(m) => Answer(CheckoutError(m))
  }

  /** Validation: an unknown plan is rejected before the cycle is looked at; then an
      unknown cycle is rejected; any casing of the valid values passes both checks. */
  lemma CheckoutValidation(svc: Service, body: CheckoutBody, ctx: RequestContext, create: SessionCreator)
    ensures var s := CheckoutDecision(svc, body, ctx, create);
            var raw := OrElse(body.planId, "");
            var rawCycle := OrElse(body.billingCycle, "");
            (!SpellsPlan(raw) <==> s == Answer(InvalidPlan(body.planId, NormalizedPlan(body.planId))))
            && (SpellsPlan(raw) && !SpellsCycle(rawCycle)
                <==> s == Answer(InvalidBillingCycle(body.billingCycle, NormalizedCycle(body.billingCycle))))
            && (EqualsIgnoreCase(raw, "STARTER") && SpellsCycle(rawCycle) <==> s == WriteStarter(body.userId))
  {
    NormalizationIsCaseInsensitive(body.planId, body.billingCycle);
  }

  /** The guard at `stripePlanMap` never fires: after validation and the STARTER branch
      the plan is always PROFESSIONAL or ENTERPRISE. */
  lemma NoInvalidPlanForStripe(svc: Service, body: CheckoutBody, ctx: RequestContext, create: SessionCreator)
    ensures !(CheckoutDecision(svc, body, ctx, create).Answer?
              && CheckoutDecision(svc, body, ctx, create).reply.InvalidPlanForStripe?)
  {
  }

  /** What the Stripe service receives for a paid plan: the user and e-mail as sent, the
      Stripe plan and cycle, and redirect URLs on the origin of a parseable `successUrl`,
      else on the request's Origin, else on the configured front end; a client's
      `cancelUrl` wins over the computed one. */
  lemma PaidCheckoutUrls(body: CheckoutBody, ctx: RequestContext, stripePlan: string, cycle: string)
    ensures var data := PaidCheckoutData(body, ctx, stripePlan, cycle);
            var base := if ParsedOrigin(body, ctx).Some? then ParsedOrigin(body, ctx).value
                        else if Truthy(ctx.origin) then ctx.origin.value
                        else ctx.frontendUrl;
            data.userId == body.userId && data.userEmail == body.userEmail
            && data.planId == Some(stripePlan) && data.billingCycle == Some(cycle)
            && data.successUrl == base + "/checkout/success?session_id={CHECKOUT_SESSION_ID}"
            && (Truthy(body.cancelUrl) ==> data.cancelUrl == body.cancelUrl.value)
            && (!Truthy(body.cancelUrl) ==> data.cancelUrl == base + "/pricing")
  {
  }

  /** The body's `successUrl` reaches the redirect URLs only through its parsed origin:
      two bodies that differ only there and parse to the same origin get the same URLs,
      and a `successUrl` that is empty or does not parse counts as none at all. */
  lemma RedirectUrlsUseOnlyParsedOrigin(body: CheckoutBody, other: CheckoutBody, ctx: RequestContext)
    requires other == body.(successUrl := other.successUrl)
    ensures ParsedOrigin(body, ctx) == ParsedOrigin(other, ctx) ==>
              SuccessUrl(body, ctx) == SuccessUrl(other, ctx) && CancelUrl(body, ctx) == CancelUrl(other, ctx)
    ensures ParsedOrigin(body, ctx).None? ==>
              SuccessUrl(body, ctx) == SuccessUrl(body.(successUrl := None), ctx)
              && CancelUrl(body, ctx) == CancelUrl(body.(successUrl := None), ctx)
  {
  }

  /** Every paid checkout fails: the controller passes "pro"/"enterprise" and a lower-case
      cycle to `getPriceId`, whose keys are upper-case, so the service throws before any
      Stripe call and the answer is 500 with the lookup's message. */
  lemma PaidCheckoutAlwaysFails(svc: Service, body: CheckoutBody, ctx: RequestContext, create: SessionCreator)
    requires SpellsPlan(OrElse(body.planId, "")) && SpellsCycle(OrElse(body.billingCycle, ""))
    requires !EqualsIgnoreCase(OrElse(body.planId, ""), "STARTER")
    ensures var stripePlan := if EqualsIgnoreCase(OrElse(body.planId, ""), "PROFESSIONAL") then "pro" else "enterprise";
            CheckoutDecision(svc, body, ctx, create)
              == Answer(CheckoutError(InvalidPlanBilling(Some(stripePlan), Some(NormalizedCycle(body.billingCycle)))))
  {
    NormalizationIsCaseInsensitive(body.planId, body.billingCycle);
    var plan := NormalizedPlan(body.planId);
    var cycle := NormalizedCycle(body.billingCycle);
    var stripePlan := StripePlanId(plan).value;
    assert IsLowerChar(stripePlan[0]);
    GetPriceIdCaseSensitive(svc, stripePlan, cycle);
  }

  /** Hence the controller never creates a checkout session, whatever Stripe would answer. */
  lemma CheckoutNeverCreatesSession(svc: Service, body: CheckoutBody, ctx: RequestContext, create: SessionCreator)
    ensures !(CheckoutDecision(svc, body, ctx, create).Answer?
              && CheckoutDecision(svc, body, ctx, create).reply.SessionCreated?)
  {
    var raw := OrElse(body.planId, "");
    NormalizationIsCaseInsensitive(body.planId, body.billingCycle);
    if SpellsPlan(raw) && SpellsCycle(OrElse(body.billingCycle, "")) && !EqualsIgnoreCase(raw, "STARTER") {
      PaidCheckoutAlwaysFails(svc, body, ctx, create);
    }
  }

  /** `createCheckoutSession` as a handler: the decision, then for STARTER one update of
      that user's row (500 when the write is refused). */
  method CreateCheckoutSessionHandler(db: Database, svc: Service, body: CheckoutBody, ctx: RequestContext,
                                      create: SessionCreator, now: int, failure: Option<string>)
    returns (reply: CheckoutReply)
    modifies db
    ensures var s := CheckoutDecision(svc, body, ctx, create);
            (s.Answer? ==> reply == s.reply && db.users == old(db.users))
            && (s.WriteStarter? && failure.Some? ==> reply == StarterFailed && db.users == old(db.users))
            && (s.WriteStarter? && failure.None? ==>
                  reply == StarterOk && db.users == StarterActivated(old(db.users), s.userId, now))
    ensures db.profiles == old(db.profiles)
  {
    var step := CheckoutDecision(svc, body, ctx, create);
    match step
    case Answer(r) =>
      reply := r;
    case WriteStarter(userId) =>
      db.ActivateStarter(userId, now, failure);
      reply := if failure.Some? then StarterFailed else StarterOk;
  }

  // ---------------------------------------------------------------------------
  // verifySession
  // ---------------------------------------------------------------------------

  /** The answers of `verifySession`. */
  datatype VerifyReply =
    | Upgraded(result: Verified)
    | InvalidSessionId(message: string)
    | PaymentIncomplete(message: string)
    | VerifyFailure(message: string)

  function VerifyStatus(r: VerifyReply): int {
    match r
    case Upgraded(_) => 200
    case InvalidSessionId(_) => 400
    case PaymentIncomplete(_) => 400
    case VerifyFailure(_) => 500
  }

  /** The message of the TypeError thrown by `result.planId.toUpperCase()` on a session
      without a plan in its metadata. */
  const PlanIdUndefined := "Cannot read properties of undefined (reading 'toUpperCase')"

  /** One call of `updateUserSubscription`. */
  datatype SubscriptionWrite = SubscriptionWrite(userId: string, planId: Option<string>, data: SubscriptionData)

  function FieldOf(o: Option<string>): JsField {
    if o.Some? then Str(o.value) else Undefined
  }

  /** `session.subscription?.current_period_end` of a retrieved session. */
  function PeriodEndOf(s: RetrievedSession): Option<int> {
    if s.subscription.Some? then s.subscription.value.currentPeriodEnd else None
  }

  /** The write the verify path makes: none without a user id; a TypeError when the
      plan is missing; otherwise the upper-cased plan with the expanded ids. */
  function VerifyWrite(v: Verified): (r: Result<Option<SubscriptionWrite>>)
    ensures r.Ok? && r.value.Some? ==> Some(r.value.value.userId) == v.userId && v.planId.Some?
                                       && r.value.value.planId == Some(ToUpper(v.planId.value))
    ensures !Truthy(v.userId) <==> r == Ok(None)
    ensures Truthy(v.userId) && v.planId.None? ==> r == Err(PlanIdUndefined)
    ensures Truthy(v.userId) && v.planId.Some? ==>
              r == Ok(Some(SubscriptionWrite(v.userId.value, Some(ToUpper(v.planId.value)),
                                             SubscriptionData(FieldOf(v.customerId), FieldOf(v.subscriptionId),
                                                              v.userEmail, PeriodEndOf(v.session)))))
  {
    if !Truthy(v.userId) then Ok(None)
    else if v.planId.None? then Err(PlanIdUndefined)
    else Ok(Some(SubscriptionWrite(v.userId.value, Some(ToUpper(v.planId.value)),
      SubscriptionData(FieldOf(v.customerId), FieldOf(v.subscriptionId), v.userEmail, PeriodEndOf(v.session)))))
  }

  /** The controller's `catch`: Stripe's invalid-request errors and unpaid sessions give
      400, everything else 500. */
  function VerifyCatch(kind: Option<ErrorKind>, message: string): (r: VerifyReply)
    ensures VerifyStatus(r) == 400 <==> kind == Some(InvalidRequestError) || Contains(message, "Payment not completed")
    ensures !r.Upgraded?
  {
    if kind == Some(InvalidRequestError) then InvalidSessionId(message)
    else if Contains(message, "Payment not completed") then PaymentIncomplete(message)
    else VerifyFailure(message)
  }

  datatype VerifyStep = VerifyAnswer(reply: VerifyReply) | VerifyThenWrite(write: SubscriptionWrite, result: Verified)

  /** The decisions of `verifySession`: the service's verdict, then the write, which only
      a paid session whose metadata names a user leads to. */
  function VerifyDecision(svc: Service, sessionId: Option<string>, retrieve: SessionRetriever): (r: VerifyStep)
    ensures r.VerifyThenWrite? ==>
              r.result.paymentStatus == "paid" && Some(r.write.userId) == r.result.userId
              && r.result.planId.Some? && r.write.planId == Some(ToUpper(r.result.planId.value))
    ensures r.VerifyAnswer? && r.reply.Upgraded? ==> r.reply.result.paymentStatus == "paid" && !Truthy(r.reply.result.userId)
    ensures VerifySession(svc, sessionId, retrieve).VerifyFailed? ==> r.VerifyAnswer? && !r.reply.Upgraded?
  {
    match VerifySession(svc, sessionId, retrieve)
    case VerifyFailed(e) =>
      VerifyAnswer(VerifyCatch(if e.RetrieveError? then Some(e.kind) else None, VerifyErrorMessage(e)))
    case VerifiedOk(v) =>
      match VerifyWrite(v)
      case Err(m) => VerifyAnswer(VerifyCatch(None, m))
      case Ok(None) => VerifyAnswer(Upgraded(v))
      case Ok(Some(w)) => VerifyThenWrite(w, v)
  }

  /** An unpaid session is answered 400 and writes nothing; a missing id is answered
      500 without consulting Stripe. */
  lemma VerifyRejections(svc: Service, sessionId: Option<string>, retrieve: SessionRetriever)
    ensures !Truthy(sessionId) ==> VerifyDecision(svc, sessionId, retrieve) == VerifyAnswer(VerifyFailure("Session ID is required"))
    ensures Truthy(sessionId) && retrieve(sessionId.value).Retrieved?
            && retrieve(sessionId.value).session.paymentStatus != "paid"
            ==> VerifyDecision(svc, sessionId, retrieve)
                == VerifyAnswer(PaymentIncomplete("Payment not completed: " + retrieve(sessionId.value).session.paymentStatus))
  {
    if !Truthy(sessionId) {
      var m := "Session ID is required";
      MissingFirstChar(m, "Payment not completed");
    } else if retrieve(sessionId.value).Retrieved? {
      ContainsPrefix("Payment not completed", ": " + retrieve(sessionId.value).session.paymentStatus);
      assert "Payment not completed: " + retrieve(sessionId.value).session.paymentStatus
          == "Payment not completed" + (": " + retrieve(sessionId.value).session.paymentStatus);
    }
  }

  /** `verifySession` as a handler. */
  method VerifySessionHandler(db: Database, svc: Service, sessionId: Option<string>, retrieve: SessionRetriever,
                              now: int, failure: Option<string>)
    returns (reply: VerifyReply)
    modifies db
    ensures match VerifyDecision(svc, sessionId, retrieve)
            case VerifyAnswer(r) => reply == r && db.users == old(db.users)
            case VerifyThenWrite(w, v) =>
              (failure.Some? ==> reply == VerifyCatch(None, failure.value) && db.users == old(db.users))
              && (failure.None? ==> reply == Upgraded(v) && db.users == Upserted(old(db.users), w.userId, w.planId, w.data, now))
    ensures db.profiles == old(db.profiles)
  {
    var step := VerifyDecision(svc, sessionId, retrieve);
    match step
    case VerifyAnswer(r) =>
      reply := r;
    case VerifyThenWrite(w, v) =>
      db.UpdateUserSubscription(w.userId, w.planId, w.data, now, failure);
      reply := if failure.Some? then VerifyCatch(None, failure.value) else Upgraded(v);
  }

  // ---------------------------------------------------------------------------
  // handleWebhook
  // ---------------------------------------------------------------------------

  /** The answers of `handleWebhook`; `WebhookError(m)` is the text "Webhook Error: m". */
  datatype WebhookReply = SecretNotConfigured | WebhookError(message: string) | Received

  function WebhookStatus(r: WebhookReply): int {
    if r.Received? then 200 else 400
  }

  const CheckoutCompleted := "checkout.session.completed"

  /** The write a webhook event causes: only a completed checkout whose metadata names a
      user, with the plan exactly as stored in the metadata. The session in an event holds
      the subscription as an id, so no period end reaches the store, and no e-mail is passed. */
  function WebhookWrite(e: Event): (r: Option<SubscriptionWrite>)
    ensures r.Some? <==> e.eventType == CheckoutCompleted && e.payload.SessionObject?
                         && Truthy(MetadataOrEmpty(e.payload.session.metadata).userId)
    ensures r.Some? ==> Some(r.value.userId) == MetadataOrEmpty(e.payload.session.metadata).userId
                        && r.value.data.customerId == e.payload.session.customer
                        && r.value.data.subscriptionId == e.payload.session.subscription
                        && r.value.planId == MetadataOrEmpty(e.payload.session.metadata).planId
                        && r.value.data.userEmail.None? && r.value.data.periodEnd.None?
  {
    if e.eventType == CheckoutCompleted && e.payload.SessionObject?
       && Truthy(MetadataOrEmpty(e.payload.session.metadata).userId)
    then
      var session := e.payload.session;
      var metadata := MetadataOrEmpty(session.metadata);
      Some(SubscriptionWrite(metadata.userId.value, metadata.planId,
                             SubscriptionData(session.customer, session.subscription, None, None)))
    else None
  }

  datatype WebhookStep = WebhookAnswer(reply: WebhookReply) | AckAfterWrite(write: SubscriptionWrite)

  /** The decisions of `handleWebhook`: the secret, the signature check, then the write. */
  function WebhookDecision(secret: Option<string>, rawBody: string, signature: Option<string>,
                           construct: EventConstructor): (r: WebhookStep)
    ensures !Truthy(secret) ==> r == WebhookAnswer(SecretNotConfigured)
    ensures r.AckAfterWrite? ==>
              Truthy(secret) && construct(rawBody, signature, secret.value).Constructed?
              && construct(rawBody, signature, secret.value).event.eventType == CheckoutCompleted
              && WebhookWrite(construct(rawBody, signature, secret.value).event) == Some(r.write)
  {
    if !Truthy(secret) then WebhookAnswer(SecretNotConfigured)
    else match construct(rawBody, signature, secret.value)
      case ConstructFailed(m) => WebhookAnswer(WebhookError(m))
      case Constructed(e) =>
        match WebhookWrite(e)
        case None => WebhookAnswer(Received)
        case Some(w) => AckAfterWrite(w)
  }

  /** Only an authenticated completed checkout with a user id leads to a write; every
      other authenticated event is acknowledged; a missing secret or a bad event is 400. */
  lemma WebhookDispatch(secret: Option<string>, rawBody: string, signature: Option<string>, construct: EventConstructor)
    ensures var s := WebhookDecision(secret, rawBody, signature, construct);
            (!Truthy(secret) ==> s == WebhookAnswer(SecretNotConfigured))
            && (Truthy(secret) && construct(rawBody, signature, secret.value).ConstructFailed?
                ==> s == WebhookAnswer(WebhookError(construct(rawBody, signature, secret.value).message)))
            && (s.AckAfterWrite? <==> Truthy(secret) && construct(rawBody, signature, secret.value).Constructed?
                                      && WebhookWrite(construct(rawBody, signature, secret.value).event).Some?)
            && (Truthy(secret) && construct(rawBody, signature, secret.value).Constructed?
                && construct(rawBody, signature, secret.value).event.eventType != CheckoutCompleted
                ==> s == WebhookAnswer(Received))
  {
  }

  /** `handleWebhook` as a handler; a refused write surfaces as a 400 "Webhook Error". */
  method HandleWebhook(db: Database, secret: Option<string>, rawBody: string, signature: Option<string>,
                       construct: EventConstructor, now: int, failure: Option<string>)
    returns (reply: WebhookReply)
    modifies db
    ensures match WebhookDecision(secret, rawBody, signature, construct)
            case WebhookAnswer(r) => reply == r && db.users == old(db.users)
            case AckAfterWrite(w) =>
              (failure.Some? ==> reply == WebhookError(failure.value) && db.users == old(db.users))
              && (failure.None? ==> reply == Received && db.users == Upserted(old(db.users), w.userId, w.planId, w.data, now))
    ensures db.profiles == old(db.profiles)
  {
    var step := WebhookDecision(secret, rawBody, signature, construct);
    match step
    case WebhookAnswer(r) =>
      reply := r;
    case AckAfterWrite(w) =>
      db.UpdateUserSubscription(w.userId, w.planId, w.data, now, failure);
      reply := if failure.Some? then WebhookError(failure.value) else Received;
  }

  // ---------------------------------------------------------------------------
  // The two write paths
  // ---------------------------------------------------------------------------

  /** Upper-casing changes nothing exactly when there is no lower-case letter. */
  lemma {:induction false} ToUpperIdentity(p: string)
    ensures ToUpper(p) == p <==> NoLowerCase(p)
  {
    if NoLowerCase(p) {
      assert forall i :: 0 <= i < |p| ==> ToUpper(p)[i] == p[i];
    }
  }

  lemma ProUpper()
    ensures ToUpper("pro") == "PRO"
  {
    assert EqualsIgnoreCase("pro", "PRO");
    ToUpperMatches("pro", "PRO");
  }

  lemma EnterpriseUpper()
    ensures ToUpper("enterprise") == "ENTERPRISE"
  {
    assert EqualsIgnoreCase("enterprise", "ENTERPRISE");
    ToUpperMatches("enterprise", "ENTERPRISE");
  }

  /** The verify path stores `planMap[planId.toUpperCase()]`, the webhook `planMap[planId]`:
      they agree exactly for plans without lower-case letters and for "enterprise". For
      "pro", the plan the other handlers put in the metadata, verify stores "PRO" and the
      webhook "PROFESSIONAL". */
  lemma {:induction false} StoredPlanDependsOnPath(p: string)
    ensures PlanMap(Some(ToUpper(p))) == PlanMap(Some(p)) <==> NoLowerCase(p) || p == "enterprise"
    ensures PlanMap(Some(ToUpper("pro"))) == Some("PRO") && PlanMap(Some("pro")) == Some("PROFESSIONAL")
  {
    ProUpper();
    ToUpperIdentity(p);
    if p == "enterprise" {
      EnterpriseUpper();
    } else if !NoLowerCase(p) {
      var u := ToUpper(p);
      ToUpperIdempotent(p);
      assert IsLowerChar("pro"[0]) && IsLowerChar("enterprise"[0]);
      assert u != "pro" && u != "enterprise";
      if p == "pro" {
        assert PlanMap(Some(u)) == Some("PRO");
      } else {
        assert NoLowerCase("PROFESSIONAL") && NoLowerCase("ENTERPRISE");
        assert p != "PROFESSIONAL" && p != "ENTERPRISE";
        assert NoLowerCase(PlanMap(Some(u)).value);
      }
    }
  }

  /** A paid session whose metadata says plan "pro", seen once by the verify path and
      once by the webhook: the plan left in the table is the one of whichever write came
      last, "PROFESSIONAL" after the webhook and "PRO" after verify. */
  lemma ArrivalOrderDecidesStoredPlan(
    svc: Service, sessionId: string, retrieve: SessionRetriever,
    secret: string, rawBody: string, signature: Option<string>, construct: EventConstructor,
    users: map<string, UserRow>, t1: int, t2: int)
    requires sessionId != "" && secret != ""
    requires retrieve(sessionId).Retrieved?
    requires var s := retrieve(sessionId).session;
             s.paymentStatus == "paid" && s.metadata.Some?
             && Truthy(s.metadata.value.userId) && s.metadata.value.planId == Some("pro")
    requires construct(rawBody, signature, secret).Constructed?
    requires var e := construct(rawBody, signature, secret).event;
             e.eventType == CheckoutCompleted && e.payload.SessionObject?
             && e.payload.session.metadata == retrieve(sessionId).session.metadata
    ensures VerifyDecision(svc, Some(sessionId), retrieve).VerifyThenWrite?
    ensures WebhookDecision(Some(secret), rawBody, signature, construct).AckAfterWrite?
    ensures var v := VerifyDecision(svc, Some(sessionId), retrieve).write;
            var h := WebhookDecision(Some(secret), rawBody, signature, construct).write;
            v.userId == h.userId
            && Upserted(Upserted(users, v.userId, v.planId, v.data, t1), h.userId, h.planId, h.data, t2)[h.userId].subscription
               == Some("PROFESSIONAL")
            && Upserted(Upserted(users, h.userId, h.planId, h.data, t1), v.userId, v.planId, v.data, t2)[v.userId].subscription
               == Some("PRO")
  {
    StoredPlanDependsOnPath("pro");
  }

  // ---------------------------------------------------------------------------
  // getUserSubscription
  // ---------------------------------------------------------------------------

  datatype SubscriptionView = SubscriptionView(
    subscription: string,
    status: string,
    currentPeriodEnd: Option<int>,
    isActive: bool)

  datatype ViewReply = View(view: SubscriptionView) | ViewError

  /** `getUserSubscription`: the defaulted plan and status of the user's row (500 when
      `.single()` finds no row). */
  function GetUserSubscription(users: map<string, UserRow>, userId: string): (r: ViewReply)
    ensures userId !in users <==> r == ViewError
    ensures r.View? ==> r.view.subscription == OrElse(users[userId].subscription, "STARTER")
                        && r.view.status == OrElse(users[userId].subscriptionStatus, "inactive")
                        && r.view.currentPeriodEnd == users[userId].currentPeriodEnd
  {
    if userId !in users then ViewError
    else
      var row := users[userId];
      View(SubscriptionView(
        subscription := OrElse(row.subscription, "STARTER"),
        status := OrElse(row.subscriptionStatus, "inactive"),
        currentPeriodEnd := row.currentPeriodEnd,
        isActive := row.subscriptionStatus == Some("active")
                    || (row.subscription != Some("STARTER") && !Truthy(row.subscriptionStatus))))
  }

  /** After any successful subscription write the user reads back as active, with the
      mapped plan whenever one was given. */
  lemma ViewAfterUpsert(users: map<string, UserRow>, userId: string, planId: Option<string>, data: SubscriptionData, now: int)
    ensures var r := GetUserSubscription(Upserted(users, userId, planId, data, now), userId);
            r.View? && r.view.isActive && r.view.status == "active"
            && (Truthy(PlanMap(planId)) ==> r.view.subscription == PlanMap(planId).value)
  {
  }

  /** `is_active` tests the raw column, not the defaulted value: a row with neither plan
      nor status reads back as plan STARTER, status "inactive", and yet active. */
  lemma EmptyRowReadsActive(users: map<string, UserRow>, userId: string)
    requires userId in users && users[userId].subscription.None? && users[userId].subscriptionStatus.None?
    ensures GetUserSubscription(users, userId) == View(SubscriptionView("STARTER", "inactive", users[userId].currentPeriodEnd, true))
  {
  }

  /** A view is active exactly when the status is "active", or when no status is stored
      and the raw plan column is not "STARTER". */
  lemma ActiveIffStatusOrPaidPlan(users: map<string, UserRow>, userId: string)
    requires userId in users
    ensures var r := GetUserSubscription(users, userId);
            r.View? && (r.view.isActive <==> r.view.status == "active"
                                             || (users[userId].subscription != Some("STARTER") && r.view.status == "inactive"
                                                 && !Truthy(users[userId].subscriptionStatus)))
  {
  }
}

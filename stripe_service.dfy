/** The server's Stripe service: price lookup, checkout-session parameters and
    session verification. The Stripe client is an oracle passed to each call. */
module StripeService {
  import opened Js
  import opened StripeApi

  /** The `config.stripe` entries the service reads; each comes from the environment. */
  datatype StripeConfig = StripeConfig(
    secretKey: Option<string>,
    starterPriceId: Option<string>,
    proMonthlyPriceId: Option<string>,
    proYearlyPriceId: Option<string>,
    enterpriseMonthlyPriceId: Option<string>,
    enterpriseYearlyPriceId: Option<string>)

  /** A constructed service: the Stripe client built from a configured secret key. */
  datatype Service = Service(secretKey: string, config: StripeConfig)

  const SecretKeyMissing := "Stripe secret key is not configured"

  /** The constructor refuses to build a service without a secret key. */
  function NewService(config: StripeConfig): (r: Result<Service>)
    ensures r.Ok? <==> Truthy(config.secretKey)
    ensures r.Ok? ==> r.value == Service(config.secretKey.value, config)
    ensures r.Err? ==> r.message == SecretKeyMissing
  {
    if !Truthy(config.secretKey) then Err(SecretKeyMissing)
    else Ok(Service(config.secretKey.value, config))
  }

  /** The price table's keys, exactly as written (case-sensitive). */
  const PlanKeys: set<string> := {"STARTER", "PROFESSIONAL", "ENTERPRISE"}
  const CycleKeys: set<string> := {"MONTHLY", "YEARLY"}

  /** `priceMap[planId]?.[billingCycle]`: the configured entry, or `None` when either
      key is absent from the table. */
  function PriceEntry(config: StripeConfig, planId: string, billingCycle: string): (e: Option<string>)
    ensures planId !in PlanKeys || billingCycle !in CycleKeys ==> e == None
  {
    match (planId, billingCycle)
    case ("STARTER", "MONTHLY") => config.starterPriceId
    case ("STARTER", "YEARLY") => config.starterPriceId
    case ("PROFESSIONAL", "MONTHLY") => config.proMonthlyPriceId
    case ("PROFESSIONAL", "YEARLY") => config.proYearlyPriceId
    case ("ENTERPRISE", "MONTHLY") => config.enterpriseMonthlyPriceId
    case ("ENTERPRISE", "YEARLY") => config.enterpriseYearlyPriceId
    case _ => None
  }

  /** A JavaScript value in a template literal: a missing one prints as "undefined". */
  function Shown(s: Option<string>): string {
    if s.Some? then s.value else "undefined"
  }

  function InvalidPlanBilling(planId: Option<string>, billingCycle: Option<string>): string {
    "Invalid plan/billing: " + Shown(planId) + "/" + Shown(billingCycle)
      + ". Available: STARTER, PROFESSIONAL, ENTERPRISE"
  }

  /** `getPriceId`: a two-level lookup that throws unless it finds a non-empty price. */
  function GetPriceId(svc: Service, planId: Option<string>, billingCycle: Option<string>): (r: Result<string>)
    ensures r.Ok? <==> planId.Some? && billingCycle.Some?
                       && planId.value in PlanKeys && billingCycle.value in CycleKeys
                       && Truthy(PriceEntry(svc.config, planId.value, billingCycle.value))
    ensures r.Ok? ==> r.value != "" && Some(r.value) == PriceEntry(svc.config, planId.value, billingCycle.value)
    ensures r.Err? ==> r.message == InvalidPlanBilling(planId, billingCycle)
  {
    var entry := if planId.Some? && billingCycle.Some? then PriceEntry(svc.config, planId.value, billingCycle.value) else None;
    if Truthy(entry) then Ok(entry.value) else Err(InvalidPlanBilling(planId, billingCycle))
  }

  /** Only upper-case keys resolve: a plan or cycle containing a lower-case letter
      (such as "pro", "enterprise" or "monthly") is always rejected. */
  lemma GetPriceIdCaseSensitive(svc: Service, planId: string, billingCycle: string)
    requires !NoLowerCase(planId) || !NoLowerCase(billingCycle)
    ensures GetPriceId(svc, Some(planId), Some(billingCycle)).Err?
  {
    KeysAreUpperCase();
  }

  lemma KeysAreUpperCase()
    ensures forall p :: p in PlanKeys ==> NoLowerCase(p)
    ensures forall c :: c in CycleKeys ==> NoLowerCase(c)
  {
    assert NoLowerCase("STARTER") && NoLowerCase("PROFESSIONAL") && NoLowerCase("ENTERPRISE");
    assert NoLowerCase("MONTHLY") && NoLowerCase("YEARLY");
  }

  /** The starter plan has one price for both billing cycles. */
  lemma StarterPriceIgnoresCycle(svc: Service)
    ensures var monthly := GetPriceId(svc, Some("STARTER"), Some("MONTHLY"));
            var yearly := GetPriceId(svc, Some("STARTER"), Some("YEARLY"));
            (monthly.Ok? <==> Truthy(svc.config.starterPriceId))
            && (yearly.Ok? <==> Truthy(svc.config.starterPriceId))
            && (monthly.Ok? ==> monthly.value == yearly.value == svc.config.starterPriceId.value)
  {
  }

  /** The argument of `createCheckoutSession`. */
  datatype CheckoutData = CheckoutData(
    userId: Option<string>,
    planId: Option<string>,
    billingCycle: Option<string>,
    userEmail: Option<string>,
    successUrl: string,
    cancelUrl: string)

  /** The session parameters sent to Stripe, once the price has been resolved. */
  function SessionParams(svc: Service, data: CheckoutData): (r: Result<CheckoutParams>)
    ensures r.Err? <==> GetPriceId(svc, data.planId, data.billingCycle).Err?
    ensures r.Err? ==> r.message == InvalidPlanBilling(data.planId, data.billingCycle)
    ensures r.Ok? ==> r.value.priceId == GetPriceId(svc, data.planId, data.billingCycle).value
    ensures r.Ok? ==> r.value.mode == Subscription && r.value.clientReferenceId == data.userId
                      && r.value.customerEmail == data.userEmail
                      && r.value.successUrl == data.successUrl && r.value.cancelUrl == data.cancelUrl
    ensures r.Ok? ==> r.value.metadata == Some(Metadata(data.userId, data.planId, data.billingCycle, data.userEmail))
  {
    match GetPriceId(svc, data.planId, data.billingCycle)
    case Err(m) => Err(m)
    case Ok(priceId) =>
      Ok(CheckoutParams(
        customerEmail := data.userEmail,
        clientReferenceId := data.userId,
        priceId := priceId,
        mode := Subscription,
        successUrl := data.successUrl,
        cancelUrl := data.cancelUrl,
        metadata := Some(Metadata(data.userId, data.planId, data.billingCycle, data.userEmail))))
  }

  datatype CreatedSession = CreatedSession(sessionId: string, url: string)

  /** `createCheckoutSession`: resolve the price, then ask Stripe for a session. */
  function CreateCheckoutSession(svc: Service, data: CheckoutData, create: SessionCreator): (r: Result<CreatedSession>)
    ensures SessionParams(svc, data).Err? ==> r == Err(SessionParams(svc, data).message)
    ensures r.Ok? ==> SessionParams(svc, data).Ok?
                      && create(SessionParams(svc, data).value) == Created(r.value.sessionId, r.value.url)
  {
    match SessionParams(svc, data)
    case Err(m) => Err(m)
    case Ok(params) =>
      match create(params)
      case Created(id, url) => Ok(CreatedSession(id, url))
      case CreateFailed(m) => Err(m)
  }

  /** An unresolvable plan/cycle pair never reaches Stripe: the answer is the same
      whatever the Stripe client would have done. */
  lemma NoSessionWithoutPrice(svc: Service, data: CheckoutData, create1: SessionCreator, create2: SessionCreator)
    requires GetPriceId(svc, data.planId, data.billingCycle).Err?
    ensures CreateCheckoutSession(svc, data, create1) == CreateCheckoutSession(svc, data, create2)
    ensures CreateCheckoutSession(svc, data, create1).Err?
  {
  }

  /** The object `verifySession` returns. */
  datatype Verified = Verified(
    session: RetrievedSession,
    userId: Option<string>,
    planId: Option<string>,
    billingCycle: Option<string>,
    userEmail: Option<string>,
    subscriptionId: Option<string>,
    customerId: Option<string>,
    amountPaid: real,
    currency: Option<string>,
    paymentStatus: string,
    status: Option<string>,
    subscriptionStatus: Option<string>)

  /** Why `verifySession` throws. */
  datatype VerifyError =
    | SessionIdRequired
    | RetrieveError(kind: ErrorKind, message: string)
    | PaymentNotCompleted(paymentStatus: string)

  function VerifyErrorMessage(e: VerifyError): string {
    match e
    case SessionIdRequired => "Session ID is required"
    case RetrieveError(_, m) => m
    case PaymentNotCompleted(s) => "Payment not completed: " + s
  }

  datatype VerifyOutcome = VerifiedOk(result: Verified) | VerifyFailed(error: VerifyError)

  /** `session.metadata` with an empty record standing for a missing one, so that
      `session.metadata?.key` is the field of the result. */
  function MetadataOrEmpty(m: Option<Metadata>): Metadata {
    if m.Some? then m.value else Metadata(None, None, None, None)
  }

  /** `amount_total / 100`, or 0 when the total is absent or zero. */
  function AmountPaid(amountTotal: Option<int>): real {
    if amountTotal.Some? && amountTotal.value != 0 then amountTotal.value as real / 100.0 else 0.0
  }

  /** The projection of a paid session onto the result record: the metadata fields (all
      undefined without metadata), the ids and status of the expanded objects, and the
      total in major units. */
  function Projection(s: RetrievedSession): (r: Verified)
    ensures r.session == s && r.paymentStatus == s.paymentStatus && r.status == s.status && r.currency == s.currency
    ensures s.metadata.Some? ==> r.userId == s.metadata.value.userId && r.planId == s.metadata.value.planId
                                 && r.billingCycle == s.metadata.value.billingCycle
                                 && r.userEmail == s.metadata.value.userEmail
    ensures s.metadata.None? ==> r.userId.None? && r.planId.None? && r.billingCycle.None? && r.userEmail.None?
    ensures s.subscription.Some? ==> r.subscriptionId == Some(s.subscription.value.id)
                                     && r.subscriptionStatus == Some(s.subscription.value.status)
    ensures s.subscription.None? ==> r.subscriptionId.None? && r.subscriptionStatus.None?
    ensures s.customer.Some? ==> r.customerId == Some(s.customer.value.id)
    ensures s.customer.None? ==> r.customerId.None?
    ensures s.amountTotal.Some? ==> r.amountPaid * 100.0 == s.amountTotal.value as real
    ensures s.amountTotal.None? ==> r.amountPaid == 0.0
  {
    Verified(
      session := s,
      userId := MetadataOrEmpty(s.metadata).userId,
      planId := MetadataOrEmpty(s.metadata).planId,
      billingCycle := MetadataOrEmpty(s.metadata).billingCycle,
      userEmail := MetadataOrEmpty(s.metadata).userEmail,
      subscriptionId := if s.subscription.Some? then Some(s.subscription.value.id) else None,
      customerId := if s.customer.Some? then Some(s.customer.value.id) else None,
      amountPaid := AmountPaid(s.amountTotal),
      currency := s.currency,
      paymentStatus := s.paymentStatus,
      status := s.status,
      subscriptionStatus := if s.subscription.Some? then Some(s.subscription.value.status) else None)
  }

  /** `verifySession`: require an id, retrieve the session, require it to be paid. */
  function VerifySession(svc: Service, sessionId: Option<string>, retrieve: SessionRetriever): (r: VerifyOutcome)
    ensures !Truthy(sessionId) ==> r == VerifyFailed(SessionIdRequired)
    ensures r.VerifiedOk? ==> Truthy(sessionId) && retrieve(sessionId.value) == Retrieved(r.result.session)
                              && r.result.paymentStatus == "paid"
  {
    if !Truthy(sessionId) then VerifyFailed(SessionIdRequired)
    else match retrieve(sessionId.value)
      case RetrieveFailed(kind, m) => VerifyFailed(RetrieveError(kind, m))
      case Retrieved(s) =>
        if s.paymentStatus != "paid" then VerifyFailed(PaymentNotCompleted(s.paymentStatus))
        else VerifiedOk(Projection(s))
  }

  /** A retrieved session is accepted exactly when its payment status is "paid", and then
      the result copies the metadata and the expanded ids. */
  lemma VerifySessionOfRetrieved(svc: Service, sessionId: string, retrieve: SessionRetriever)
    requires sessionId != "" && retrieve(sessionId).Retrieved?
    ensures var s := retrieve(sessionId).session;
            var r := VerifySession(svc, Some(sessionId), retrieve);
            (r.VerifiedOk? <==> s.paymentStatus == "paid")
            && (r.VerifyFailed? ==> r.error == PaymentNotCompleted(s.paymentStatus))
            && (r.VerifiedOk? ==>
                  r.result == Projection(s)
                  && (s.metadata.Some? ==>
                        r.result.userId == s.metadata.value.userId
                        && r.result.planId == s.metadata.value.planId
                        && r.result.billingCycle == s.metadata.value.billingCycle
                        && r.result.userEmail == s.metadata.value.userEmail)
                  && (s.metadata.None? ==> r.result.userId.None? && r.result.planId.None?)
                  && (s.subscription.Some? ==> r.result.subscriptionId == Some(s.subscription.value.id))
                  && (s.subscription.None? ==> r.result.subscriptionId.None?)
                  && (s.customer.Some? ==> r.result.customerId == Some(s.customer.value.id))
                  && (s.customer.None? ==> r.result.customerId.None?)
                  && (s.amountTotal.Some? ==> r.result.amountPaid * 100.0 == s.amountTotal.value as real)
                  && (r.result.amountPaid == 0.0 <==> s.amountTotal.None? || s.amountTotal.value == 0))
  {
  }
}

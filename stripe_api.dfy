/** The parts of the Stripe SDK that the payment code touches, as plain values.
    The SDK calls themselves (`checkout.sessions.create`, `checkout.sessions.retrieve`,
    `webhooks.constructEvent`) are oracles: function-typed parameters whose answers
    the model does not constrain. */
module StripeApi {
  import opened Js

  datatype Mode = Payment | Subscription

  /** The metadata attached to a checkout session; a missing key reads back as `undefined`. */
  datatype Metadata = Metadata(
    userId: Option<string>,
    planId: Option<string>,
    billingCycle: Option<string>,
    userEmail: Option<string>)

  /** The arguments of `stripe.checkout.sessions.create` that the handlers choose.
      Every handler also sends `payment_method_types: ['card']` and one line item of
      quantity 1 with `priceId`; those constants are not repeated here. */
  datatype CheckoutParams = CheckoutParams(
    customerEmail: Option<string>,
    clientReferenceId: Option<string>,
    priceId: string,
    mode: Mode,
    successUrl: string,
    cancelUrl: string,
    metadata: Option<Metadata>)

  /** What `checkout.sessions.create` answers: a session, or a thrown Stripe error. */
  datatype CreateOutcome = Created(sessionId: string, url: string) | CreateFailed(message: string)

  type SessionCreator = CheckoutParams -> CreateOutcome

  /** The expanded objects of a retrieved session (`expand: ['subscription', 'customer']`). */
  datatype SubscriptionObject = SubscriptionObject(id: string, status: string, currentPeriodEnd: Option<int>)
  datatype CustomerObject = CustomerObject(id: string)

  datatype RetrievedSession = RetrievedSession(
    id: string,
    paymentStatus: string,
    status: Option<string>,
    metadata: Option<Metadata>,
    subscription: Option<SubscriptionObject>,
    customer: Option<CustomerObject>,
    amountTotal: Option<int>,
    currency: Option<string>)

  /** `StripeInvalidRequestError` is the one error type the controller tells apart. */
  datatype ErrorKind = InvalidRequestError | OtherError

  datatype RetrieveOutcome = Retrieved(session: RetrievedSession) | RetrieveFailed(kind: ErrorKind, message: string)

  type SessionRetriever = string -> RetrieveOutcome

  /** A checkout session as delivered inside a webhook event: `customer` and
      `subscription` are ids (or null), not expanded objects. */
  datatype EventSession = EventSession(id: string, metadata: Option<Metadata>, customer: JsField, subscription: JsField)

  datatype EventObject = SessionObject(session: EventSession) | OtherObject(id: string)

  datatype Event = Event(eventType: string, payload: EventObject)

  /** What `Stripe.webhooks.constructEvent` does with a raw body, a signature header and
      the endpoint secret: an authenticated event, or a thrown verification error. */
  datatype ConstructOutcome = Constructed(event: Event) | ConstructFailed(message: string)

  type EventConstructor = (string, Option<string>, string) -> ConstructOutcome
}

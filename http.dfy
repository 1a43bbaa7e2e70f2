/** The JSON body that the checkout clients post to `/api/create-checkout-session`.
    Every field may be missing. */
module Http {
  import opened Js

  datatype CheckoutBody = CheckoutBody(
    userId: Option<string>,
    planId: Option<string>,
    billingCycle: Option<string>,
    userEmail: Option<string>,
    successUrl: Option<string>,
    cancelUrl: Option<string>)
}

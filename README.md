# Lumina AI checkout and subscription logic, modelled in Dafny

Lumina AI sells three plans: Starter (free), Professional and Enterprise. Each paid plan can be billed monthly or yearly. Payments go through Stripe Checkout, and a user's plan is kept in the Supabase `users` and `profiles` tables. This project models the code that decides what happens to a checkout request and to the stored plan:

- **The API server under `server/`:**
  - the `validatePaymentData` guard and the `authenticate` pass-through;
  - the CORS origin predicate;
  - the payment controller: checkout creation, session verification, the Stripe webhook, the subscription read-out and the `users` upsert;
  - the Stripe service: the price table, the session parameters and the session check;
  - the route that puts the guard in front of the controller.
- **The three older checkout handlers:** `server/server.js`, the root `server.js` and the serverless `api/create-checkout-session.js`.
- **The client code that produces or reads plan names:**
  - both checkout pages, with their plan tables, the request they post and their error handling;
  - the pricing page's discounts, savings, buttons and billing toggle;
  - the dashboard's subscription and account panel.

Stripe and Supabase stay outside the model:

- `checkout.sessions.create`, `checkout.sessions.retrieve`, `webhooks.constructEvent`, `fetch`, Stripe.js's `redirectToCheckout` and `new URL(..).origin` are function-typed parameters. The model places no constraint on their answers.
- The two tables are maps held by the class `UserStore.Database`. Each write takes a `failure` parameter that stands for a refused query.
- Clocks are integer parameters (`now`).

JavaScript details are modelled where they decide a branch:

- truthiness and `||` defaults (`Js.Truthy`, `Js.OrElse`);
- `undefined` printed inside template literals;
- `toUpperCase` and `toLowerCase`;
- a key left out of an update (`Js.JsField`).

The layers disagree with one another. The model keeps the code as written and proves the consequences:

- **Paid checkouts never succeed through the controller.** The controller sends the Stripe service a lower-case plan ('pro', 'enterprise') and cycle, but the service's price table has only upper-case keys. Every paid checkout that passes validation therefore ends in "Invalid plan/billing" (`PaymentController.PaidCheckoutAlwaysFails`).
- **The route rejects every request.** The guard admits only lower-case 'pro' and 'enterprise'. The controller upper-cases 'pro' to 'PRO', which is not one of its plans, and 'enterprise' fails as above (`PaymentRoutes.RouteRejectsEveryRequest`).
- **The two write paths store different plans for the same session.** The verify path stores 'PRO' for a 'pro' session and the webhook stores 'PROFESSIONAL', so the plan left in `users` depends on which write comes last (`PaymentController.ArrivalOrderDecidesStoredPlan`).
- **The dashboard would show every server-stored plan as free.** The server stores 'pro' and 'enterprise' under upper-case names, but the dashboard's plan table has only lower-case keys. If the panel is given the plan stored in `users`, it shows the free Starter card whichever path wrote the plan (`SubscriptionAccount.StoredPlanShowsFreeCard`).
- **The `src/` checkout page never gets through.** It upper-cases the plan, so the guard and the stand-alone server refuse all of its requests.
- **Sessions from the serverless function never reach the `users` table.** The function sets no metadata, so neither write path finds a user id.
- **Yearly prices disagree between pages.** The pricing page's yearly prices (86.4 and 1009.8) differ from the checkout pages' (81 and 891). No tier reaches the advertised "Save up to 45%".

## Model

| member | source | states |
|---|---|---|
| Js.OrElse | server/controllers/paymentController.js:146-147 | the or-default on strings: the value when it is a non-empty string, else the fallback |
| Js.ToUpperMatches | server/controllers/paymentController.js:146 | for a target without lower-case letters, `s.toUpperCase()` equals it exactly when `s` spells it in any case |
| Js.ToLowerMatches | server/controllers/paymentController.js:147 | for a target without upper-case letters, `s.toLowerCase()` equals it exactly when `s` spells it in any case |
| Js.ToUpperIdempotent | server/controllers/paymentController.js:146 | an upper-cased string has no lower-case letter and upper-casing it again changes nothing |
| Js.LowerOfUpper | src/pages/CheckoutPage.tsx:90-111 | lower-casing undoes upper-casing on a string without upper-case letters |
| Js.MissingFirstChar | server/controllers/paymentController.js:300 | a string lacking the first character of a pattern does not contain the pattern |
| Js.ContainsPrefix | server/controllers/paymentController.js:300 | a message that starts with a text contains it |
| StripeService.NewService | server/services/stripeService.js:5-8 | the service is constructed exactly when the secret key is configured, otherwise the construction throws |
| StripeService.GetPriceId | server/services/stripeService.js:12-45 | a price is returned exactly for a plan in STARTER/PROFESSIONAL/ENTERPRISE and a cycle in MONTHLY/YEARLY whose configured price is non-empty; it is that price; otherwise the error 'Invalid plan/billing' with both inputs |
| StripeService.GetPriceIdCaseSensitive | server/services/stripeService.js:16-42 | a plan or cycle with any lower-case letter is never resolved |
| StripeService.StarterPriceIgnoresCycle | server/services/stripeService.js:17-20 | STARTER resolves to the same starter price for MONTHLY and YEARLY, and only when it is configured |
| StripeService.SessionParams | server/services/stripeService.js:47-67 | the session parameters fail exactly when the price fails; otherwise mode subscription, client reference the user id, the resolved price, the caller's URLs and metadata {userId, planId, billingCycle, userEmail} |
| StripeService.CreateCheckoutSession | server/services/stripeService.js:47-70 | an unresolvable price gives its error without calling Stripe; a session is returned only when Stripe created it from those parameters |
| StripeService.NoSessionWithoutPrice | server/services/stripeService.js:49-52 | when the price cannot be resolved the outcome is an error and does not depend on Stripe at all |
| StripeService.Projection | server/services/stripeService.js:91-104 | the result keeps the session, its payment status, status and currency; it copies the four metadata fields (all undefined without metadata), the expanded subscription id and status and the customer id (undefined when not expanded), and amountPaid is amount_total / 100, or 0 when amount_total is absent |
| StripeService.VerifySession | server/services/stripeService.js:72-105 | a missing or empty id fails with 'Session ID is required' before retrieval; success means the retrieved session's payment status is exactly 'paid' |
| StripeService.VerifySessionOfRetrieved | server/services/stripeService.js:76-104 | for a retrieved session: failure iff payment status is not 'paid', with 'Payment not completed: <status>'; on success the projection, with the metadata fields, the subscription and customer ids or undefined, and amountPaid = amount_total / 100, zero iff amount_total is absent or zero |
| AuthMiddleware.Authenticate | server/middleware/auth.js:2-6 | every request is passed on |
| AuthMiddleware.ValidatePaymentData | server/middleware/auth.js:8-33 | the request is passed on exactly when all four fields are non-empty, the plan is 'pro' or 'enterprise' and the cycle 'monthly' or 'yearly' |
| AuthMiddleware.ValidationOrder | server/middleware/auth.js:11-30 | missing fields are reported first with all four names, then an invalid plan, then an invalid cycle, each with its own message and allowed list |
| AuthMiddleware.ValidatedPlansAreLowerCase | server/middleware/auth.js:18-30 | a request that passes has a lower-case plan and cycle, never STARTER, PROFESSIONAL or ENTERPRISE |
| CorsMiddleware.OriginDecision | server/middleware/cors.js:5-16 | an origin is allowed iff it is missing, one of the two localhost origins, or configured; a blocked origin gets (error, false) |
| CorsMiddleware.LocalOriginsAlwaysAllowed | server/middleware/cors.js:7-10 | localhost:3000, localhost:5173 and a missing origin are allowed whatever the configuration |
| CorsMiddleware.AllowedOriginsMonotone | server/middleware/cors.js:12-16 | adding configured origins never blocks an origin that was allowed |
| UserStore.PlanMap | server/controllers/paymentController.js:25-32 | 'pro' and 'PROFESSIONAL' become PROFESSIONAL, 'enterprise' and 'ENTERPRISE' become ENTERPRISE, any other id is kept |
| UserStore.PlanMapIdempotent | server/controllers/paymentController.js:25-32 | mapping a plan twice gives the same as mapping it once |
| UserStore.Upserted | server/controllers/paymentController.js:13-100 | after the upsert the user has a row, status 'active' and the update time, every other row unchanged; a new row gets the e-mail or 'unknown@email.com', the mapped plan, the two Stripe ids (null kept as null), no period end and the creation time; an existing row keeps its e-mail and creation time, takes the mapped plan only when there is one, each Stripe id only when the key is present, and the period end only when it is truthy |
| UserStore.StarterActivated | server/controllers/paymentController.js:184-193 | the STARTER write sets that user's existing row to STARTER and active and changes nothing else; no row is created |
| UserStore.ProfilePlanSet | pages/CheckoutPage.tsx:85-95 | the free plan write sets the matching `profiles` row's plan, status 'active' and `updated_at`, keeps its other columns, creates no row and leaves every other row |
| UserStore.AccountUpserted | components/dashboard/SubscriptionAccount.tsx:74-87 | the account upsert stores the four settings and `updated_at` for the user; an existing row keeps its plan columns, a new row has none; other rows are left |
| UserStore.Database.UpdateUserSubscription | server/controllers/paymentController.js:13-135 | the `users` table becomes the upsert of the old one, or stays as it was when the write is refused; `profiles` is untouched |
| UserStore.Database.ActivateStarter | server/controllers/paymentController.js:184-196 | the `users` table becomes the STARTER update of the old one, or stays when the write is refused |
| UserStore.Database.SetProfilePlan | pages/CheckoutPage.tsx:85-95 | `profiles` becomes the free-plan update of the old one, or stays when refused; `users` is untouched |
| UserStore.Database.UpsertAccount | components/dashboard/SubscriptionAccount.tsx:76-85 | `profiles` becomes the account upsert of the old one, or stays when refused |
| UserStore.UpsertKeepsEmail | server/controllers/paymentController.js:43-100 | a known user's e-mail is never changed; a new row's e-mail falls back to 'unknown@email.com' |
| UserStore.UpsertTwice | server/controllers/paymentController.js:43-100 | repeating a write leaves the table as after one write, except when the first inserted a row and the session has a period end, which only the update records |
| PaymentController.NormalizationIsCaseInsensitive | server/controllers/paymentController.js:146-158 | the normalised plan is STARTER, PROFESSIONAL or ENTERPRISE iff the raw plan spells it in any case, and likewise for 'monthly' and 'yearly' |
| PaymentController.StripePlanId | server/controllers/paymentController.js:228-239 | only PROFESSIONAL and ENTERPRISE have a Stripe plan id |
| PaymentController.BaseUrl | server/controllers/paymentController.js:207-216 | the base is the origin of a truthy, parseable successUrl; else the truthy Origin header; else `config.frontendUrl` |
| PaymentController.CheckoutDecision | server/controllers/paymentController.js:138-263 | an invalid normalised plan is answered first, then an invalid cycle; the STARTER write happens iff the plan normalises to STARTER with a valid cycle, for the body's user; a session only for PROFESSIONAL or ENTERPRISE |
| PaymentController.CheckoutValidation | server/controllers/paymentController.js:146-204 | an unknown plan gives 400 before the cycle is examined, then an unknown cycle 400; a STARTER request in any case becomes the STARTER write for that user |
| PaymentController.NoInvalidPlanForStripe | server/controllers/paymentController.js:233-239 | the controller's own 'Invalid plan for Stripe' answer is unreachable |
| PaymentController.PaidCheckoutUrls | server/controllers/paymentController.js:207-222 | the Stripe service gets the user, e-mail, plan and cycle as passed; the success URL is `/checkout/success?session_id={CHECKOUT_SESSION_ID}` on the parsed successUrl origin, else the truthy Origin, else `config.frontendUrl`; the cancel URL is the client's or `/pricing` on that base |
| PaymentController.RedirectUrlsUseOnlyParsedOrigin | server/controllers/paymentController.js:207-222 | the success and cancel URLs depend on successUrl only through its parsed origin, and an empty or unparseable successUrl gives the same URLs as none |
| PaymentController.PaidCheckoutAlwaysFails | server/controllers/paymentController.js:228-260 | every paid plan that passes validation is answered with the service's 'Invalid plan/billing' error for 'pro' or 'enterprise' and the lower-case cycle |
| PaymentController.CheckoutNeverCreatesSession | server/controllers/paymentController.js:138-263 | no request makes the controller answer with a session id |
| PaymentController.CreateCheckoutSessionHandler | server/controllers/paymentController.js:138-263 | the reply follows the decision; the STARTER path writes the user's row or answers 500 when refused; nothing else is written |
| PaymentController.VerifyWrite | server/controllers/paymentController.js:274-281 | no write without a truthy user id; with one and no plan, the TypeError of `planId.toUpperCase()`; with one and a plan, a write for that user with the upper-cased plan, the customer and subscription ids, the e-mail and the subscription's period end |
| PaymentController.VerifyCatch | server/controllers/paymentController.js:291-307 | the status is 400 iff the error is Stripe's invalid request error or its message contains 'Payment not completed'; an error never reports an upgrade |
| PaymentController.VerifyDecision | server/controllers/paymentController.js:265-309 | a write follows only a paid session whose metadata names the user, with the upper-cased plan; an upgrade without a write only for a paid session without a user id; a failed verification is never an upgrade |
| PaymentController.VerifyRejections | server/controllers/paymentController.js:265-307 | a missing id is answered 'Session ID is required'; an unpaid session is answered 400 without writing |
| PaymentController.VerifySessionHandler | server/controllers/paymentController.js:265-309 | the reply and the `users` table follow the decision: an upgrade only after the upsert went through |
| PaymentController.WebhookWrite | server/controllers/paymentController.js:326-345 | a write happens iff the event is checkout.session.completed on a session whose metadata has a truthy user id; it writes that user with the raw metadata plan and the session's customer and subscription ids, with no e-mail and no period end |
| PaymentController.WebhookDecision | server/controllers/paymentController.js:311-368 | an unset secret is answered first; a write follows only an event that passed the signature check, is a completed checkout, and is the event's own write |
| PaymentController.WebhookDispatch | server/controllers/paymentController.js:311-368 | an unset secret or a failed signature check gives 400; other event types are acknowledged without a write |
| PaymentController.HandleWebhook | server/controllers/paymentController.js:311-368 | the reply and the `users` table follow the dispatch; `{received: true}` only after the write went through |
| PaymentController.ToUpperIdentity | server/controllers/paymentController.js:279 | upper-casing leaves a plan unchanged iff it has no lower-case letter |
| PaymentController.StoredPlanDependsOnPath | server/controllers/paymentController.js:276-345 | the two paths store the same plan iff it has no lower-case letter or is 'enterprise'; for 'pro' verify stores PRO and the webhook PROFESSIONAL |
| PaymentController.ArrivalOrderDecidesStoredPlan | server/controllers/paymentController.js:274-345 | for one paid 'pro' session, verify then webhook leaves PROFESSIONAL, webhook then verify leaves PRO |
| PaymentController.GetUserSubscription | server/controllers/paymentController.js:371-394 | an unknown user is an error; otherwise the plan defaults to STARTER and the status to 'inactive' |
| PaymentController.ViewAfterUpsert | server/controllers/paymentController.js:371-394 | after an upsert the read-out is active with the mapped plan |
| PaymentController.EmptyRowReadsActive | server/controllers/paymentController.js:383-389 | a row without plan or status reads STARTER, 'inactive' and yet active |
| PaymentController.ActiveIffStatusOrPaidPlan | server/controllers/paymentController.js:383-389 | the read-out is active iff the status is 'active', or the plan is not STARTER and no status is stored |
| PaymentRoutes.RouteRejectsEveryRequest | server/routes/paymentRoutes.js:8 | through the guard, every checkout request is answered 400 or 500: 'pro' as invalid plan PRO, 'enterprise' as the price error |
| PaymentRoutes.CreateCheckoutRoute | server/routes/paymentRoutes.js:8 | a request reaches the controller iff `validatePaymentData` passes it, and the middleware's verdict is the answer otherwise |
| LegacyPrices.PlanPrices | server/server.js:102-111 | the price table has entries only for 'pro' and 'enterprise' |
| LegacyPrices.NestedPrice | api/create-checkout-session.js:23-38 | a price is found only for the lower-case plans 'pro' or 'enterprise' with 'monthly' or 'yearly' |
| LegacyPrices.NestedPriceIsConfiguredPrice | api/create-checkout-session.js:23-38 | the nested lookup finds exactly the configured price of a lower-case plan and cycle, and nothing for other keys |
| ExpressServer.ServerOriginDecision | server/server.js:33-54 | outside production every origin is allowed; in production only a missing origin or one of the two deployments, else an error with no verdict |
| ExpressServer.ProductionPolicyIsStricter | server/server.js:33-54 | in production this server allows nothing the middleware would block on the same list, and blocks localhost |
| ExpressServer.ServerCheckout | server/server.js:79-171 | an unknown plan is 'plan not found'; 'cycle not found' iff the plan is known and its cycle has no truthy price; a session only with a truthy price |
| ExpressServer.ServerCheckoutOutcome | server/server.js:79-171 | an unknown plan gets 'plan not found' before the cycle is looked at; a session is started iff the price is configured and Stripe accepts |
| ExpressServer.StartedSessionRequest | server/server.js:96-162 | a started session is a subscription at the looked-up price, with the client's URLs or ones on the origin, and metadata without e-mail |
| ExpressServer.ValidatedBodiesFindPrice | server/server.js:122-139 | every body the guard passes finds a price once the four prices are set |
| RootServer.StartupCheck | server.js:16-24 | the server starts iff the secret key is set and starts with 'sk_' |
| RootServer.RootCheckout | server.js:36-107 | 'Price not configured' iff no truthy price is found; a session only with a truthy price |
| RootServer.RootPriceAndMode | server.js:44-81 | 'starter' is the starter price in either cycle and the only one-time payment; the others use the nested table |
| RootServer.RootCheckoutOutcome | server.js:36-107 | no price gives 400 'Price not configured…'; Stripe is called exactly when a price is found and its session is returned |
| RootServer.SessionRequest | server.js:70-95 | a returned session is at the found price, with both URLs on FRONTEND_URL whatever the client sent |
| VercelCheckout.MethodDispatch | api/create-checkout-session.js:4-15 | OPTIONS gets the preflight headers, any method besides POST gets 405, a session needs POST and a configured price |
| VercelCheckout.VercelHandler | api/create-checkout-session.js:4-68 | a POST without a body is the 500 TypeError; a POST whose plan and cycle find no truthy price is 400 'Invalid plan or billing cycle'; otherwise Stripe's failure is the 500 with its message and its session the 200 answer |
| VercelCheckout.SessionRequest | api/create-checkout-session.js:41-59 | a returned session is a subscription at the configured price with no metadata and URLs on FRONTEND_URL or the fixed default |
| VercelCheckout.VercelSessionsNeverReachUserTable | api/create-checkout-session.js:41-52 | neither the webhook nor the verify path writes for such a session |
| CheckoutPlans.PlanTable | src/pages/CheckoutPage.tsx:41-64 | only 'starter', 'pro' and 'enterprise' are plans |
| CheckoutPlans.PageLoad | src/pages/CheckoutPage.tsx:31-76 | the page goes to /pricing iff the plan is missing or not in its table; it is ready iff it did not and there is a user; the shown plan has the table's id and the cycle or 'monthly' |
| CheckoutPlans.IsFree | src/pages/CheckoutPage.tsx:155 | a plan is free when its id is 'starter', and otherwise iff its price is 0 |
| CheckoutPlans.PageLoadOutcome | src/pages/CheckoutPage.tsx:31-76 | a missing or unknown plan goes to /pricing; the cycle defaults to 'monthly'; the price is 9 or 99 monthly and 81 or 891 for any other cycle; starter has none |
| CheckoutPlans.PaidPlansAreNotFree | src/pages/CheckoutPage.tsx:155 | a loaded plan is free iff its id is 'starter' |
| SrcCheckoutPage.CheckoutPage.HandleCheckout | src/pages/CheckoutPage.tsx:79-142 | nothing happens without a user and a plan; otherwise the upper-cased request is posted once, the error is that of the answer or of the rejected request, and loading is cleared |
| SrcCheckoutPage.ErrorUnlessRedirected | src/pages/CheckoutPage.tsx:113-141 | an error is shown iff the redirect to Stripe did not happen; an empty failed body shows 'Server error: <status>'; a rejected request shows its message, or 'Checkout failed' when that is empty |
| SrcCheckoutPage.RequestRejectedByMiddleware | src/pages/CheckoutPage.tsx:90-111 | every request of this page fails the guard |
| SrcCheckoutPage.RequestUnknownToExpressServer | src/pages/CheckoutPage.tsx:90-111 | the stand-alone server answers every request of this page with 'plan not found' |
| SrcCheckoutPage.StarterAtController | src/pages/CheckoutPage.tsx:42-111 | for the 'monthly' or 'yearly' cycle the pricing page links to, the starter request sent to the controller directly becomes the STARTER write for the user |
| SrcCheckoutPage.PaidAtController | src/pages/CheckoutPage.tsx:42-111 | for the 'monthly' or 'yearly' cycle the pricing page links to, a paid request sent to the controller directly ends in the 500 'Invalid plan/billing' error for the page's own lower-case plan and cycle parameters |
| LegacyCheckoutPage.CheckoutPage.HandleCheckout | pages/CheckoutPage.tsx:77-140 | a free plan updates only the `profiles` row and never posts; a paid plan posts its lower-case request once and shows the error of the answer or of the rejected request; loading is cleared on every outcome |
| LegacyCheckoutPage.PaidErrorUnlessRedirected | pages/CheckoutPage.tsx:117-139 | an error is shown iff the redirect did not happen; a response `error` is shown as sent; a rejected request shows its message or the default text |
| LegacyCheckoutPage.PaidRequestPassesValidation | pages/CheckoutPage.tsx:104-115 | for the 'monthly' or 'yearly' cycle the pricing page links to and a user with an id and an e-mail, the page's paid request passes the guard |
| LegacyCheckoutPage.PaidRequestFindsPrice | pages/CheckoutPage.tsx:104-115 | for the 'monthly' or 'yearly' cycle the pricing page links to, the older handlers find the configured price of the page's paid request |
| LegacyCheckoutPage.OtherCycleFailsValidation | pages/CheckoutPage.tsx:31-115 | any other non-empty cycle in the query is shown at the yearly price and posted as sent, and the guard rejects that request |
| LegacyCheckoutPage.FreePlanRecordsStarter | pages/CheckoutPage.tsx:85-95 | the free plan is recorded as 'starter' |
| PricingPage.DiscountBounds | src/pages/PricingPage.tsx:29-33 | the discount lies in [0.10, 0.25], never grows with the years and is 0.10 from four years on |
| PricingPage.RecursiveDiscount | src/pages/PricingPage.tsx:29-33 | the discount is between 10% and 25%, and 25% for at most one year |
| PricingPage.SavingsIsDiscount | src/pages/PricingPage.tsx:127-133 | a tier priced at a multi-year discount saves exactly that discount |
| PricingPage.SavingsOfTiers | src/pages/PricingPage.tsx:36-133 | the tiers save 0, 20 and 15 percent, all under the advertised 45 |
| PricingPage.CalculatePrice | src/pages/PricingPage.tsx:121-124 | a free tier costs 0; a paid tier its monthly or its yearly price, as the toggle says |
| PricingPage.CalculateSavings | src/pages/PricingPage.tsx:127-133 | a free tier saves 0%; the saving is not a finite number (NaN, or plus or minus Infinity when the yearly price is not 0) iff a paid tier has no monthly price |
| PricingPage.SavingsArePercentages | src/pages/PricingPage.tsx:127-133 | a paid tier whose yearly price is at most twelve monthly payments saves between 0% and 100% |
| PricingPage.HandleCtaClick | src/pages/PricingPage.tsx:146-168 | STARTER goes to registration; PROFESSIONAL and ENTERPRISE go to checkout as 'pro' and 'enterprise' with the shown cycle; any other tier nowhere |
| PricingPage.CtaLeadsToCheckout | src/pages/PricingPage.tsx:146-168 | a paid tier's button opens the checkout page on that plan and cycle; the monthly price agrees and the yearly price there is lower |
| PricingPage.StarterGoesToRegister | src/pages/PricingPage.tsx:146-150 | the starter button goes to /register and its price is 0 |
| PricingPage.PricingPageState.Toggle | src/pages/PricingPage.tsx:216 | the toggle flips the billing cycle |
| PricingPage.ToggleTwice | src/pages/PricingPage.tsx:216 | toggling twice restores the cycle |
| SubscriptionAccount.PlanCard | components/dashboard/SubscriptionAccount.tsx:89-215 | the paid cards show exactly for 'pro' and 'enterprise'; the upgrade button appears iff "Billed monthly" does not |
| SubscriptionAccount.GetPlanDetails | components/dashboard/SubscriptionAccount.tsx:89-125 | one of the three cards, and a card other than the free one iff the plan is 'pro' or 'enterprise' |
| SubscriptionAccount.ServerPlansShowFreeCard | components/dashboard/SubscriptionAccount.tsx:123-127 | any upper-case plan shows the free card together with "Billed monthly" and the manage button |
| SubscriptionAccount.StoredPlanShowsFreeCard | components/dashboard/SubscriptionAccount.tsx:123-127 | whatever plan a webhook or verify write names, the stored plan shows the free card |
| SubscriptionAccount.VerifiedPlanShowsFreeCard | components/dashboard/SubscriptionAccount.tsx:123-127 | a plan written by the verify path, upper-cased first, shows the free card together with "Billed monthly", for every plan id including the empty one |
| SubscriptionAccount.SaveLoadRoundTrip | components/dashboard/SubscriptionAccount.tsx:56-87 | saving then loading gives the form back iff timezone, language and currency are non-empty |
| SubscriptionAccount.LoadedDetails | components/dashboard/SubscriptionAccount.tsx:64-71 | each field is the row's column when non-empty, else its default, so timezone, language and currency are never empty |
| SubscriptionAccount.AccountPanel.LoadAccountDetails | components/dashboard/SubscriptionAccount.tsx:56-72 | a found row replaces the form with its columns or their defaults; otherwise nothing changes |
| SubscriptionAccount.AccountPanel.SaveAccountDetails | components/dashboard/SubscriptionAccount.tsx:74-87 | the form is upserted into `profiles` and loading ends false |
| SubscriptionAccount.AccountPanel.ToggleNotification | components/dashboard/SubscriptionAccount.tsx:403 | exactly that switch flips |
| SubscriptionAccount.Toggled | components/dashboard/SubscriptionAccount.tsx:403 | one switch flips and the others keep their values; an absent switch becomes on |
| SubscriptionAccount.ToggleTwice | components/dashboard/SubscriptionAccount.tsx:403 | toggling a present switch twice restores all switches |

## Left out

- Case mapping is ASCII only. JavaScript's `toUpperCase` and `toLowerCase` also map non-ASCII letters, and every constant they are compared with is ASCII.
- Lookups by a key inherited from `Object.prototype` are not modelled, for example a plan named 'toString' in `planMap`, the page plan tables or `getPlanDetails`. The model treats such a key as missing.
- Floating-point arithmetic is not modelled. Prices and discounts are exact reals, `Math.round` is `floor(x + 0.5)`, and `amount_total / 100` is exact. `toFixed` formatting is not modelled.
- PricingPage: the five-year discount table (lines 136-142) is display only.
- Time is an integer. ISO date strings and `new Date(... * 1000)` are not modelled.
- Logging and `console` output are left out.
- Supabase failures are one `failure` parameter per write. The error-code branches and the retry-without-select fallback in `updateUserSubscription` (server/controllers/paymentController.js:102-125) are not modelled.
- UserStore.Database.UpdateUserSubscription: a read error for an existing row is not modelled. The source sends such a row down the insert path; the model inserts only when no row exists.
- Verify and webhook writes are modelled only in sequential orders. The code has no locking, so interleavings are not modelled.
- The Stripe SDK, HMAC signature checking, `fetch`, Stripe.js and `new URL(...).origin` are oracles. The model does not check their internals.
- The Stripe constants every handler sends are not repeated in the model: `payment_method_types: ['card']` and one line item of quantity 1.
- The root `server.js` CORS set-up, with its fixed origin, is wiring and is left out.
- Health and test endpoints, `api/test-checkout.js` and the diagnostic scripts are left out.
- SubscriptionAccount: the panel's `user.subscription` is taken to be the `users.subscription` column. No modelled code passes that column to the panel: the app reads the user from local storage, and registration stores the `?plan=` query in the sign-up metadata.
- SubscriptionAccount: the simulated invoice list, the billing-portal `window.open` and the navigation to /pricing are left out, as is all rendering.
- The checkout pages' `checkUser` is modelled only as its result, a user or none. The asynchronous ordering of the session check against the plan state is not modelled.
- The checkout pages do not model a response body that fails to parse as JSON. A rejected `fetch` is modelled, as the `Rejected` response.
- The serverless function's module-level Stripe client is left out.
- JSON fields that are not strings, such as numbers or objects sent as `planId`, are not modelled. Request fields are optional strings.
- The `profiles` columns that no modelled code reads are not modelled.

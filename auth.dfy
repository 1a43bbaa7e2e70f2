/** The Express middleware in front of the checkout controller: a pass-through
    `authenticate` and the guard `validatePaymentData`. */
module AuthMiddleware {
  import opened Js
  import opened Http

  /** What a middleware does with a request: call `next()`, or answer 400 itself. */
  datatype Verdict = Next | Reject(error: string, allowed: seq<string>)

  function VerdictStatus(v: Verdict): (status: int)
    ensures v.Reject? <==> status == 400
  {
    if v.Reject? then 400 else 200
  }

  /** `authenticate` has no logic yet: every request goes on. */
  function Authenticate(body: CheckoutBody): (v: Verdict)
    ensures v.Next?
  {
    Next
  }

  const RequiredFields := ["userId", "planId", "billingCycle", "userEmail"]
  const AllowedPlans := ["pro", "enterprise"]
  const AllowedCycles := ["monthly", "yearly"]

  /** `validatePaymentData`: presence, then plan, then cycle; the first failure answers. */
  function ValidatePaymentData(body: CheckoutBody): (v: Verdict)
    ensures v.Next? <==> Truthy(body.userId) && Truthy(body.planId) && Truthy(body.billingCycle)
                         && Truthy(body.userEmail)
                         && body.planId.value in AllowedPlans && body.billingCycle.value in AllowedCycles
  {
    if !Truthy(body.userId) || !Truthy(body.planId) || !Truthy(body.billingCycle) || !Truthy(body.userEmail) then
      Reject("Missing required fields", RequiredFields)
    else if body.planId.value !in AllowedPlans then
      Reject("Invalid planId", AllowedPlans)
    else if body.billingCycle.value !in AllowedCycles then
      Reject("Invalid billingCycle", AllowedCycles)
    else
      Next
  }

  /** The checks run in order and only the first failure is reported: a missing field
      hides a bad plan, and a bad plan hides a bad cycle. */
  lemma ValidationOrder(body: CheckoutBody)
    ensures var v := ValidatePaymentData(body);
            var missing := !Truthy(body.userId) || !Truthy(body.planId) || !Truthy(body.billingCycle) || !Truthy(body.userEmail);
            (missing ==> v == Reject("Missing required fields", ["userId", "planId", "billingCycle", "userEmail"]))
            && (!missing && body.planId.value !in AllowedPlans ==> v == Reject("Invalid planId", ["pro", "enterprise"]))
            && ((!missing && body.planId.value in AllowedPlans && body.billingCycle.value !in AllowedCycles)
                ==> v == Reject("Invalid billingCycle", ["monthly", "yearly"]))
  {
  }

  /** The plan check is case-sensitive: only the exact lower-case spellings pass, so the
      controller's own names "STARTER" and "PROFESSIONAL" never get through. */
  lemma ValidatedPlansAreLowerCase(body: CheckoutBody)
    requires ValidatePaymentData(body).Next?
    ensures body.planId == Some("pro") || body.planId == Some("enterprise")
    ensures body.billingCycle == Some("monthly") || body.billingCycle == Some("yearly")
    ensures body.planId != Some("STARTER") && body.planId != Some("PROFESSIONAL") && body.planId != Some("ENTERPRISE")
  {
  }
}

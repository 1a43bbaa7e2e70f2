/** The Supabase tables the payment code writes: `users` (written by the server) and
    `profiles` (written by the browser), each a map keyed by user id. A write that the
    database refuses is a `failure` parameter carrying the error's message. */
module UserStore {
  import opened Js

  /** A `users` row; every column is nullable. Times are seconds since the epoch. */
  datatype UserRow = UserRow(
    email: Option<string>,
    subscription: Option<string>,
    subscriptionStatus: Option<string>,
    stripeCustomerId: Option<string>,
    stripeSubscriptionId: Option<string>,
    currentPeriodEnd: Option<int>,
    createdAt: Option<int>,
    updatedAt: Option<int>)

  /** A `profiles` row, reduced to the columns the pages read or write. */
  datatype ProfileRow = ProfileRow(
    subscriptionPlan: Option<string>,
    subscriptionStatus: Option<string>,
    companyName: Option<string>,
    timezone: Option<string>,
    language: Option<string>,
    currency: Option<string>,
    updatedAt: Option<int>)

  /** The third argument of `updateUserSubscription`: the two Stripe ids as they will be
      serialised, the e-mail, and `subscriptionData.session?.subscription?.current_period_end`. */
  datatype SubscriptionData = SubscriptionData(
    customerId: JsField,
    subscriptionId: JsField,
    userEmail: Option<string>,
    periodEnd: Option<int>)

  const UnknownEmail := "unknown@email.com"

  /** `planMap[planId] || planId`. */
  function PlanMap(planId: Option<string>): (r: Option<string>)
    ensures r == Some("PROFESSIONAL") <==> planId == Some("pro") || planId == Some("PROFESSIONAL")
    ensures r == Some("ENTERPRISE") <==> planId == Some("enterprise") || planId == Some("ENTERPRISE")
    ensures planId.Some? && planId.value != "pro" && planId.value != "enterprise" ==> r == planId
    ensures planId.None? <==> r.None?
  {
    match planId
    case None => None
    case Some(p) =>
      if p == "pro" || p == "PROFESSIONAL" then Some("PROFESSIONAL")
      else if p == "enterprise" || p == "ENTERPRISE" then Some("ENTERPRISE")
      else Some(p)
  }

  /** Mapping a plan twice is mapping it once. */
  lemma PlanMapIdempotent(planId: Option<string>)
    ensures PlanMap(PlanMap(planId)) == PlanMap(planId)
  {
  }

  /** A column after an update that sends `f`: an undefined key is not sent. */
  function Assigned(column: Option<string>, f: JsField): (r: Option<string>)
    ensures f.Undefined? ==> r == column
    ensures !f.Undefined? ==> r == OptionOf(f)
  {
    match f
    case Undefined => column
    case Null => None
    case Str(s) => Some(s)
  }

  /** The row `updateUserSubscription` inserts for an unknown user. */
  function InsertedRow(plan: Option<string>, data: SubscriptionData, now: int): UserRow {
    UserRow(
      email := Some(OrElse(data.userEmail, UnknownEmail)),
      subscription := plan,
      subscriptionStatus := Some("active"),
      stripeCustomerId := OptionOf(data.customerId),
      stripeSubscriptionId := OptionOf(data.subscriptionId),
      currentPeriodEnd := None,
      createdAt := Some(now),
      updatedAt := Some(now))
  }

  /** `current_period_end` is added to the update only when it is truthy. */
  predicate HasPeriodEnd(data: SubscriptionData) {
    data.periodEnd.Some? && data.periodEnd.value != 0
  }

  /** The row `updateUserSubscription` leaves behind for a known user. */
  function UpdatedRow(row: UserRow, plan: Option<string>, data: SubscriptionData, now: int): UserRow {
    row.(
      subscription := if plan.Some? then plan else row.subscription,
      subscriptionStatus := Some("active"),
      stripeCustomerId := Assigned(row.stripeCustomerId, data.customerId),
      stripeSubscriptionId := Assigned(row.stripeSubscriptionId, data.subscriptionId),
      currentPeriodEnd := if HasPeriodEnd(data) then data.periodEnd else row.currentPeriodEnd,
      updatedAt := Some(now))
  }

  /** The `users` table after a successful `updateUserSubscription(userId, planId, data)`. */
  function Upserted(users: map<string, UserRow>, userId: string, planId: Option<string>, data: SubscriptionData, now: int)
    : (r: map<string, UserRow>)
    ensures r.Keys == users.Keys + {userId}
    ensures forall u :: u in users && u != userId ==> r[u] == users[u]
    ensures r[userId].subscriptionStatus == Some("active") && r[userId].updatedAt == Some(now)
    ensures PlanMap(planId).Some? ==> r[userId].subscription == PlanMap(planId)
    ensures userId !in users ==>
              r[userId].email == Some(OrElse(data.userEmail, UnknownEmail))
              && r[userId].subscription == PlanMap(planId)
              && r[userId].stripeCustomerId == OptionOf(data.customerId)
              && r[userId].stripeSubscriptionId == OptionOf(data.subscriptionId)
              && r[userId].currentPeriodEnd.None? && r[userId].createdAt == Some(now)
    ensures userId in users ==>
              r[userId].email == users[userId].email && r[userId].createdAt == users[userId].createdAt
              && (PlanMap(planId).None? ==> r[userId].subscription == users[userId].subscription)
              && r[userId].stripeCustomerId == Assigned(users[userId].stripeCustomerId, data.customerId)
              && r[userId].stripeSubscriptionId == Assigned(users[userId].stripeSubscriptionId, data.subscriptionId)
              && r[userId].currentPeriodEnd == (if HasPeriodEnd(data) then data.periodEnd
                                                else users[userId].currentPeriodEnd)
  {
    var plan := PlanMap(planId);
    if userId in users then users[userId := UpdatedRow(users[userId], plan, data, now)]
    else users[userId := InsertedRow(plan, data, now)]
  }

  /** The `users` table after the free-plan write: an update of the matching row only;
      an unknown or missing id matches no row and changes nothing. */
  function StarterActivated(users: map<string, UserRow>, userId: Option<string>, now: int): (r: map<string, UserRow>)
    ensures r.Keys == users.Keys
    ensures forall u :: u in users && Some(u) != userId ==> r[u] == users[u]
    ensures userId.Some? && userId.value in users ==>
              r[userId.value] == users[userId.value].(subscription := Some("STARTER"),
                                                       subscriptionStatus := Some("active"),
                                                       updatedAt := Some(now))
  {
    if userId.Some? && userId.value in users then
      users[userId.value := users[userId.value].(subscription := Some("STARTER"),
                                                 subscriptionStatus := Some("active"),
                                                 updatedAt := Some(now))]
    else users
  }

  /** The `profiles` table after the free-plan write of the older checkout page. */
  function ProfilePlanSet(profiles: map<string, ProfileRow>, userId: string, planId: string, now: int)
    : (r: map<string, ProfileRow>)
    ensures r.Keys == profiles.Keys
    ensures forall u :: u in profiles && u != userId ==> r[u] == profiles[u]
    ensures userId in profiles ==>
              r[userId] == profiles[userId].(subscriptionPlan := Some(planId),
                                             subscriptionStatus := Some("active"),
                                             updatedAt := Some(now))
  {
    if userId in profiles then
      profiles[userId := profiles[userId].(subscriptionPlan := Some(planId),
                                           subscriptionStatus := Some("active"),
                                           updatedAt := Some(now))]
    else profiles
  }

  /** The `profiles` table after `upsert({id, company_name, timezone, language, currency, updated_at})`. */
  function AccountUpserted(profiles: map<string, ProfileRow>, userId: string,
                           companyName: string, timezone: string, language: string, currency: string, now: int)
    : (r: map<string, ProfileRow>)
    ensures r.Keys == profiles.Keys + {userId}
    ensures forall u :: u in profiles && u != userId ==> r[u] == profiles[u]
    ensures r[userId].companyName == Some(companyName) && r[userId].timezone == Some(timezone)
            && r[userId].language == Some(language) && r[userId].currency == Some(currency)
    ensures r[userId].updatedAt == Some(now)
    ensures userId in profiles ==> r[userId].subscriptionPlan == profiles[userId].subscriptionPlan
                                   && r[userId].subscriptionStatus == profiles[userId].subscriptionStatus
    ensures userId !in profiles ==> r[userId].subscriptionPlan.None? && r[userId].subscriptionStatus.None?
  {
    var base := if userId in profiles then profiles[userId] else ProfileRow(None, None, None, None, None, None, None);
    profiles[userId := base.(companyName := Some(companyName), timezone := Some(timezone),
                             language := Some(language), currency := Some(currency), updatedAt := Some(now))]
  }

  class Database {
    var users: map<string, UserRow>
    var profiles: map<string, ProfileRow>

    constructor (users: map<string, UserRow>, profiles: map<string, ProfileRow>)
      ensures this.users == users && this.profiles == profiles
    {
      this.users := users;
      this.profiles := profiles;
    }

    /** `updateUserSubscription`: read the user's row, then insert a new row or update
        the existing one; a refused write throws and leaves the table as it was. */
    method UpdateUserSubscription(userId: string, planId: Option<string>, data: SubscriptionData, now: int,
                                  failure: Option<string>)
      modifies this
      ensures users == if failure.Some? then old(users) else Upserted(old(users), userId, planId, data, now)
      ensures profiles == old(profiles)
    {
      var subscriptionPlan := PlanMap(planId);
      if userId !in users {
        if failure.Some? {
          return;
        }
        users := users[userId := InsertedRow(subscriptionPlan, data, now)];
        return;
      }
      var row := users[userId];
      if subscriptionPlan.Some? {
        row := row.(subscription := subscriptionPlan);
      }
      row := row.(subscriptionStatus := Some("active"),
                  stripeCustomerId := Assigned(row.stripeCustomerId, data.customerId),
                  stripeSubscriptionId := Assigned(row.stripeSubscriptionId, data.subscriptionId),
                  updatedAt := Some(now));
      if HasPeriodEnd(data) {
        row := row.(currentPeriodEnd := data.periodEnd);
      }
      if failure.Some? {
        return;
      }
      users := users[userId := row];
    }

    /** The free STARTER activation of the checkout controller. */
    method ActivateStarter(userId: Option<string>, now: int, failure: Option<string>)
      modifies this
      ensures users == if failure.Some? then old(users) else StarterActivated(old(users), userId, now)
      ensures profiles == old(profiles)
    {
      if failure.None? && userId.Some? && userId.value in users {
        var row := users[userId.value];
        users := users[userId.value := row.(subscription := Some("STARTER"),
                                            subscriptionStatus := Some("active"),
                                            updatedAt := Some(now))];
      }
    }

    /** `profiles.update({subscription_plan, subscription_status: 'active', updated_at}).eq('id', userId)`. */
    method SetProfilePlan(userId: string, planId: string, now: int, failure: Option<string>)
      modifies this
      ensures profiles == if failure.Some? then old(profiles) else ProfilePlanSet(old(profiles), userId, planId, now)
      ensures users == old(users)
    {
      if failure.None? && userId in profiles {
        var row := profiles[userId];
        profiles := profiles[userId := row.(subscriptionPlan := Some(planId),
                                            subscriptionStatus := Some("active"),
                                            updatedAt := Some(now))];
      }
    }

    /** `profiles.upsert(...)` of the account settings form. */
    method UpsertAccount(userId: string, companyName: string, timezone: string, language: string, currency: string,
                         now: int, failure: Option<string>)
      modifies this
      ensures profiles == if failure.Some? then old(profiles)
                          else AccountUpserted(old(profiles), userId, companyName, timezone, language, currency, now)
      ensures users == old(users)
    {
      if failure.None? {
        var row := if userId in profiles then profiles[userId] else ProfileRow(None, None, None, None, None, None, None);
        row := row.(companyName := Some(companyName), timezone := Some(timezone),
                    language := Some(language), currency := Some(currency), updatedAt := Some(now));
        profiles := profiles[userId := row];
      }
    }
  }

  /** The upsert never changes a known user's e-mail, and a new row's e-mail falls back
      to the placeholder when none is supplied. */
  lemma UpsertKeepsEmail(users: map<string, UserRow>, userId: string, planId: Option<string>, data: SubscriptionData, now: int)
    ensures var r := Upserted(users, userId, planId, data, now);
            (userId in users ==> r[userId].email == users[userId].email)
            && (userId !in users ==> r[userId].email == Some(OrElse(data.userEmail, UnknownEmail)))
  {
  }

  /** Applying the same write twice at the same time leaves the same table as applying it
      once, except that a first write that inserted the row never records the period end:
      the second one adds it. */
  lemma {:induction false} UpsertTwice(users: map<string, UserRow>, userId: string, planId: Option<string>,
                                       data: SubscriptionData, now: int)
    ensures var once := Upserted(users, userId, planId, data, now);
            var twice := Upserted(once, userId, planId, data, now);
            (userId in users || !HasPeriodEnd(data) <==> twice == once)
  {
    var plan := PlanMap(planId);
    var once := Upserted(users, userId, planId, data, now);
    var twice := Upserted(once, userId, planId, data, now);
    PlanMapIdempotent(planId);
    assert twice[userId] == UpdatedRow(once[userId], plan, data, now);
    if userId !in users && HasPeriodEnd(data) {
      assert twice[userId].currentPeriodEnd != once[userId].currentPeriodEnd;
    } else {
      var row := once[userId];
      assert UpdatedRow(row, plan, data, now) == row;
      assert twice == once;
    }
  }
}

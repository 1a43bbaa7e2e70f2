/** The dashboard's subscription and account panel: the plan card derived from the
    user's stored plan, the account settings form with its `profiles` round trip,
    and the notification switches. */
module SubscriptionAccount {
  import opened Js
  import opened UserStore

  /** The card shown for a plan. */
  datatype PlanDetails = PlanDetails(name: string, price: string, period: string, nextBilling: string)

  const FreeDetails := PlanDetails("Starter", "$0", "month", "Never (Free Forever)")
  const ProDetails := PlanDetails("Professional", "$9", "month", "Mar 15, 2024")
  const EnterpriseDetails := PlanDetails("Enterprise", "$99", "month", "Custom billing")

  /** `getPlanDetails(plan)`: the entry for "free", "starter", "pro" or "enterprise",
      and the free entry for anything else, a missing plan included. */
  function GetPlanDetails(plan: Option<string>): (r: PlanDetails)
    ensures r == FreeDetails || r == ProDetails || r == EnterpriseDetails
    ensures r != FreeDetails <==> plan == Some("pro") || plan == Some("enterprise")
  {
    if plan == Some("pro") then ProDetails
    else if plan == Some("enterprise") then EnterpriseDetails
    else FreeDetails
  }

  /** The Upgrade button replaces the Manage button for the two free plan names. */
  predicate ShowsUpgrade(subscription: Option<string>) {
    subscription == Some("free") || subscription == Some("starter")
  }

  /** "Billed monthly" is shown under the price for any other plan. */
  predicate ShowsBilledMonthly(subscription: Option<string>) {
    subscription != Some("free") && subscription != Some("starter")
  }

  /** The card shows the paid plans' details exactly for their lower-case names, and
      the page offers either an upgrade or "Billed monthly", never both. */
  lemma PlanCard(plan: Option<string>)
    ensures GetPlanDetails(plan) == ProDetails <==> plan == Some("pro")
    ensures GetPlanDetails(plan) == EnterpriseDetails <==> plan == Some("enterprise")
    ensures ShowsUpgrade(plan) <==> !ShowsBilledMonthly(plan)
    ensures ShowsUpgrade(plan) ==> GetPlanDetails(plan) == FreeDetails
  {
  }

  /** A plan name without lower-case letters, as the server stores paid plans, gives the
      card "Starter, $0, Free Forever" while the page also says "Billed monthly" and
      offers to manage the subscription instead of upgrading. */
  lemma {:induction false} ServerPlansShowFreeCard(plan: string)
    requires plan != "" && NoLowerCase(plan)
    ensures GetPlanDetails(Some(plan)) == FreeDetails
    ensures !ShowsUpgrade(Some(plan)) && ShowsBilledMonthly(Some(plan))
  {
    assert IsLowerChar("pro"[0]) && IsLowerChar("enterprise"[0]);
    assert IsLowerChar("free"[0]) && IsLowerChar("starter"[0]);
  }

  /** Whatever plan a write names, the store maps "pro" and "enterprise" to their
      upper-case names, so no row the webhook or the verify path writes with a plan ever
      shows a paid card. */
  lemma StoredPlanShowsFreeCard(users: map<string, UserRow>, userId: string, raw: string,
                                data: SubscriptionData, now: int)
    ensures var stored := Upserted(users, userId, Some(raw), data, now)[userId].subscription;
            stored.Some? && GetPlanDetails(stored) == FreeDetails
  {
  }

  /** In particular a subscription written by the verify path, whose plan is upper-cased
      before the write, shows the free card together with "Billed monthly". */
  lemma VerifiedPlanShowsFreeCard(users: map<string, UserRow>, userId: string, planId: string,
                                  data: SubscriptionData, now: int)
    ensures var stored := Upserted(users, userId, Some(ToUpper(planId)), data, now)[userId].subscription;
            stored.Some? && GetPlanDetails(stored) == FreeDetails && ShowsBilledMonthly(stored)
  {
    ToUpperIdempotent(planId);
    var u := ToUpper(planId);
    assert NoLowerCase("PROFESSIONAL") && NoLowerCase("ENTERPRISE");
    var stored := PlanMap(Some(u)).value;
    if stored != "" {
      assert NoLowerCase(stored);
      ServerPlansShowFreeCard(stored);
    }
  }

  /** The account settings form. */
  datatype AccountDetails = AccountDetails(companyName: string, timezone: string, language: string, currency: string)

  const DefaultDetails := AccountDetails("", "UTC", "English", "USD")

  /** The form after `loadAccountDetails` found a row: each column, or its default. */
  function LoadedDetails(row: ProfileRow): (r: AccountDetails)
    ensures Truthy(row.companyName) ==> r.companyName == row.companyName.value
    ensures Truthy(row.timezone) ==> r.timezone == row.timezone.value
    ensures Truthy(row.language) ==> r.language == row.language.value
    ensures Truthy(row.currency) ==> r.currency == row.currency.value
    ensures !Truthy(row.companyName) ==> r.companyName == DefaultDetails.companyName
    ensures !Truthy(row.timezone) ==> r.timezone == DefaultDetails.timezone
    ensures !Truthy(row.language) ==> r.language == DefaultDetails.language
    ensures !Truthy(row.currency) ==> r.currency == DefaultDetails.currency
    ensures r.timezone != "" && r.language != "" && r.currency != ""
  {
    AccountDetails(OrElse(row.companyName, ""), OrElse(row.timezone, "UTC"),
                   OrElse(row.language, "English"), OrElse(row.currency, "USD"))
  }

  /** Saving the form and loading it back gives the same form exactly when no field with
      a default was left empty: an empty timezone, language or currency comes back as
      its default. */
  lemma SaveLoadRoundTrip(profiles: map<string, ProfileRow>, userId: string, d: AccountDetails, now: int)
    ensures var saved := AccountUpserted(profiles, userId, d.companyName, d.timezone, d.language, d.currency, now);
            LoadedDetails(saved[userId]) == d <==> d.timezone != "" && d.language != "" && d.currency != ""
  {
  }

  /** The notification switches and their initial values. */
  const InitialNotifications: map<string, bool> :=
    map["email" := true, "billing" := true, "reports" := false, "insights" := true, "security" := true, "marketing" := false]

  /** The panel's state. */
  class AccountPanel {
    var loading: bool
    var accountDetails: AccountDetails
    var notifications: map<string, bool>

    constructor ()
      ensures !loading && accountDetails == DefaultDetails && notifications == InitialNotifications
    {
      loading := false;
      accountDetails := DefaultDetails;
      notifications := InitialNotifications;
    }

    /** `loadAccountDetails`: the user's row when `.single()` finds one, else no change. */
    method LoadAccountDetails(db: Database, userId: string)
      modifies this
      ensures userId in db.profiles ==> accountDetails == LoadedDetails(db.profiles[userId])
      ensures userId !in db.profiles ==> accountDetails == old(accountDetails)
      ensures loading == old(loading) && notifications == old(notifications)
    {
      if userId in db.profiles {
        accountDetails := LoadedDetails(db.profiles[userId]);
      }
    }

    /** `saveAccountDetails`: one upsert of the form; a refused write is ignored. */
    method SaveAccountDetails(db: Database, userId: string, now: int, failure: Option<string>)
      modifies this, db
      ensures db.profiles == if failure.Some? then old(db.profiles)
                             else AccountUpserted(old(db.profiles), userId, accountDetails.companyName,
                                                  accountDetails.timezone, accountDetails.language,
                                                  accountDetails.currency, now)
      ensures db.users == old(db.users)
      ensures !loading && accountDetails == old(accountDetails) && notifications == old(notifications)
    {
      loading := true;
      var d := accountDetails;
      db.UpsertAccount(userId, d.companyName, d.timezone, d.language, d.currency, now, failure);
      loading := false;
    }

    /** The company name field; the timezone and language selects work the same way. */
    method SetCompanyName(value: string)
      modifies this
      ensures accountDetails == old(accountDetails).(companyName := value)
      ensures loading == old(loading) && notifications == old(notifications)
    {
      accountDetails := accountDetails.(companyName := value);
    }

    method SetTimezone(value: string)
      modifies this
      ensures accountDetails == old(accountDetails).(timezone := value)
      ensures loading == old(loading) && notifications == old(notifications)
    {
      accountDetails := accountDetails.(timezone := value);
    }

    method SetLanguage(value: string)
      modifies this
      ensures accountDetails == old(accountDetails).(language := value)
      ensures loading == old(loading) && notifications == old(notifications)
    {
      accountDetails := accountDetails.(language := value);
    }

    /** A switch: `{...prev, [key]: !prev[key]}`; a key not yet present becomes true. */
    method ToggleNotification(key: string)
      modifies this
      ensures notifications == Toggled(old(notifications), key)
      ensures loading == old(loading) && accountDetails == old(accountDetails)
    {
      var current := key in notifications && notifications[key];
      notifications := notifications[key := !current];
    }
  }

  /** The switches after one toggle of `key`. */
  function Toggled(n: map<string, bool>, key: string): (r: map<string, bool>)
    ensures r.Keys == n.Keys + {key}
    ensures forall k :: k in n && k != key ==> r[k] == n[k]
    ensures key in n ==> r[key] == !n[key]
    ensures key !in n ==> r[key]
  {
    n[key := !(key in n && n[key])]
  }

  /** Toggling a switch twice restores the switches when it was present; a switch that
      was absent is left behind as false. */
  lemma ToggleTwice(n: map<string, bool>, key: string)
    ensures key in n ==> Toggled(Toggled(n, key), key) == n
    ensures key !in n ==> Toggled(Toggled(n, key), key) == n[key := false]
  {
  }
}

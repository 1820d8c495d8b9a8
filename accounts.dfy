// The user model of modules/authentication/models.py: the Stripe customer
// id and credit balance the billing code updates, the one-to-one
// subscription created by the post-save hook, the initials shown in the
// interface, and the merged "current plan" dictionary of `get_subscription`.
module Accounts {
  import opened Wrappers
  import opened Text
  import opened Catalog
  import opened BillingLookups
  import opened BillingModels

  datatype AccountError =
    | NoSubscription            // `self.subscription` on a user without one raises
    | NoPlanForKey(key: string) // `{**None}` raises TypeError
    | ShortUsername             // `username[1]` raises IndexError

  const PLAN_KEYS: set<string> := {
    "key", "name", "icon", "description", "price", "stripe_price_id", "show", "lifetime", "included", "not_included"}

  /** `plan.get(k)` for one of the catalogue's dictionary keys. */
  function PlanField(p: Plan, k: string): Option<Value>
  {
    if k == "key" then (if p.key.Some? then Some(VStr(p.key.value)) else None)
    else if k == "name" then (if p.name.Some? then Some(VStr(p.name.value)) else None)
    else if k == "icon" then (if p.icon.Some? then Some(VStr(p.icon.value)) else None)
    else if k == "description" then (if p.description.Some? then Some(VStr(p.description.value)) else None)
    else if k == "price" then (if p.price.Some? then Some(VPrice(p.price.value)) else None)
    else if k == "stripe_price_id" then (if p.stripePriceId.Some? then Some(VStr(p.stripePriceId.value)) else None)
    else if k == "show" then (if p.show.Some? then Some(VBool(p.show.value)) else None)
    else if k == "lifetime" then (if p.lifetime.Some? then Some(VBool(p.lifetime.value)) else None)
    else if k == "included" then (if p.included.Some? then Some(VStrList(p.included.value)) else None)
    else if k == "not_included" then (if p.notIncluded.Some? then Some(VStrList(p.notIncluded.value)) else None)
    else None
  }

  /** The catalogue entry as the dictionary it is in CONFIG/billing.py: its present keys only. */
  function PlanDict(p: Plan): (d: map<string, Value>)
    ensures forall k :: k in d <==> k in PLAN_KEYS && PlanField(p, k).Some?
    ensures forall k :: k in d ==> d[k] == PlanField(p, k).value
  {
    map k | k in PLAN_KEYS && PlanField(p, k).Some? :: PlanField(p, k).value
  }

  /** The plan key `get_subscription` looks up: the stored one while active, else `default`. */
  function EffectiveKey(s: SubscriptionState, now: int): (k: string)
    ensures s.IsActive(now) ==> k == s.key
    ensures !s.IsActive(now) ==> k == DEFAULT_KEY
  {
    if s.IsActive(now) then s.key else DEFAULT_KEY
  }

  /** `{**row, **meta}` followed by `update({key: v})`. */
  function Merge(row: map<string, Value>, meta: map<string, Value>, key: string, v: Value): (m: map<string, Value>)
    ensures m.Keys == row.Keys + meta.Keys + {key}
    ensures m[key] == v
    ensures forall k :: k in meta && k != key ==> m[k] == meta[k]
    ensures forall k :: k in row && k !in meta && k != key ==> m[k] == row[k]
  {
    row + meta + map[key := v]
  }

  /**
   * The body of `get_subscription`: `{**to_dict(), **metadata}` with `key`
   * then set to the effective key; catalogue values win over the row's.
   */
  function MergedPlan(s: SubscriptionState, plans: seq<Plan>, now: int): (r: Result<map<string, Value>, AccountError>)
    ensures r.Err? <==> PlanByKey(plans, EffectiveKey(s, now)).None?
    ensures r.Err? ==> r.error == NoPlanForKey(EffectiveKey(s, now))
    ensures r.Ok? ==> "key" in r.value && r.value["key"] == VStr(EffectiveKey(s, now))
    ensures r.Ok? ==>
      var meta := PlanDict(PlanByKey(plans, EffectiveKey(s, now)).value);
      var row := ToDict(s, now);
      && r.value.Keys == row.Keys + meta.Keys + {"key"}
      && (forall k :: k in meta && k != "key" ==> r.value[k] == meta[k])
      && (forall k :: k in row && k !in meta && k != "key" ==> r.value[k] == row[k])
  {
    var key := EffectiveKey(s, now);
    match PlanByKey(plans, key)
    case None => Err(NoPlanForKey(key))
    case Some(plan) => Ok(Merge(ToDict(s, now), PlanDict(plan), "key", VStr(key)))
  }

  class User {
    const id: nat
    const username: string
    const firstName: string
    const lastName: string
    var stripeCustomerId: Option<string>
    var creditsBalance: int
    /** The reverse one-to-one relation; `null` until the post-save hook has run. */
    var subscription: Subscription?

    constructor (id: nat, username: string, firstName: string, lastName: string)
      ensures this.id == id && this.username == username
      ensures this.firstName == firstName && this.lastName == lastName
      ensures stripeCustomerId.None? && creditsBalance == 0 && subscription == null
    {
      this.id := id;
      this.username := username;
      this.firstName := firstName;
      this.lastName := lastName;
      stripeCustomerId := None;
      creditsBalance := 0;
      subscription := null;
    }

    /**
     * `get_initials`: two capital letters, from the first and last names when
     * both are set, otherwise from the first two letters of the username.
     */
    function GetInitials(): (r: Result<string, AccountError>)
      ensures r.Ok? ==> |r.value| == 2 && forall i :: 0 <= i < 2 ==> !('a' <= r.value[i] <= 'z')
      ensures firstName != "" && lastName != "" ==> r == Ok(Upper([firstName[0], lastName[0]]))
      ensures !(firstName != "" && lastName != "") ==>
        (r.Ok? <==> |username| >= 2) && (r.Ok? ==> r.value == Upper(username[..2]))
    {
      if firstName != "" && lastName != "" then Ok(Upper([firstName[0], lastName[0]]))
      else if |username| >= 2 then Ok(Upper([username[0], username[1]]))
      else Err(ShortUsername)
    }

    /** `has_credits`. */
    predicate HasCredits(amount: int)
      reads this
    {
      creditsBalance >= amount
    }

    /** A user who has enough credits for an amount has enough for any smaller one, and every user has enough for nothing. */
    lemma HasCreditsDownward(smaller: int, amount: int)
      requires smaller <= amount && HasCredits(amount)
      ensures HasCredits(smaller)
      ensures creditsBalance >= 0 ==> HasCredits(0)
    {
    }

    /** `get_subscription`, with `now` the current Unix time in whole seconds. */
    function GetSubscription(plans: seq<Plan>, now: int): (r: Result<map<string, Value>, AccountError>)
      reads this, subscription
      ensures subscription == null ==> r == Err(NoSubscription)
      ensures subscription != null ==> r == MergedPlan(subscription.State(), plans, now)
    {
      if subscription == null then Err(NoSubscription)
      else MergedPlan(subscription.State(), plans, now)
    }
  }

  /**
   * With the shipped catalogue, a subscription that is not active reads as the
   * free tier, and keeps its own `lifetime` flag because the free tier has none.
   */
  lemma ShippedInactiveIsFreeTier(s: SubscriptionState, now: int)
    requires !s.IsActive(now)
    ensures MergedPlan(s, SUBSCRIPTIONS, now).Ok?
    ensures "key" in MergedPlan(s, SUBSCRIPTIONS, now).value
    ensures MergedPlan(s, SUBSCRIPTIONS, now).value["key"] == VStr(DEFAULT_KEY)
    ensures MergedPlan(s, SUBSCRIPTIONS, now).value["name"] == VStr("Free tier")
    ensures MergedPlan(s, SUBSCRIPTIONS, now).value["lifetime"] == VBool(s.lifetime)
  {
    assert SUBSCRIPTIONS[0].key == Some(DEFAULT_KEY);
    assert PlanByKey(SUBSCRIPTIONS, DEFAULT_KEY) == Some(SUBSCRIPTIONS[0]);
  }

  /** An active lifetime subscription reads as the lifetime plan, flag included. */
  lemma ShippedActiveLifetime(s: SubscriptionState, now: int)
    requires s.IsActive(now) && s.key == "lifetime"
    ensures MergedPlan(s, SUBSCRIPTIONS, now).Ok?
    ensures MergedPlan(s, SUBSCRIPTIONS, now).value["key"] == VStr("lifetime")
    ensures MergedPlan(s, SUBSCRIPTIONS, now).value["lifetime"] == VBool(true)
  {
    assert SUBSCRIPTIONS[1].key == Some("lifetime");
    assert PlanByKey(SUBSCRIPTIONS, "lifetime") == Some(SUBSCRIPTIONS[1]);
  }
}

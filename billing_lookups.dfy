// Catalogue lookups of modules/billing/utils.py: first-match searches over
// the plan and package lists by key or by Stripe price id, and the
// combined price-id lookup that prefers plans over packages.
module BillingLookups {
  import opened Wrappers
  import opened Catalog

  /** The position of the first element satisfying `p`. */
  function FirstMatch<T>(xs: seq<T>, p: T -> bool): (r: Option<nat>)
    ensures r.Some? ==> r.value < |xs| && p(xs[r.value])
    ensures r.Some? ==> forall j :: 0 <= j < r.value ==> !p(xs[j])
    ensures r.None? ==> forall j :: 0 <= j < |xs| ==> !p(xs[j])
  {
    if |xs| == 0 then None
    else if p(xs[0]) then Some(0)
    else
      match FirstMatch(xs[1..], p)
      case None => None
      case Some(i) => Some(i + 1)
  }

  /**
   * `VALID_SUBSCRIPTION_KEYS`: the keys of the plans, in catalogue order. A
   * plan without a key is skipped here; the code raises `KeyError` for it
   * when the module is imported.
   */
  function ValidSubscriptionKeys(plans: seq<Plan>): (keys: seq<string>)
    ensures forall k :: k in keys <==> exists i :: 0 <= i < |plans| && plans[i].key == Some(k)
  {
    if |plans| == 0 then []
    else
      var rest := ValidSubscriptionKeys(plans[1..]);
      assert forall i :: 1 <= i < |plans| ==> plans[i] == plans[1..][i - 1];
      match plans[0].key
      case None => rest
      case Some(k) => [k] + rest
  }

  /** `get_subscription_by_key`: the first plan whose `key` equals `key`. */
  function PlanByKey(plans: seq<Plan>, key: string): (r: Option<Plan>)
    ensures r.None? <==> forall i :: 0 <= i < |plans| ==> plans[i].key != Some(key)
    ensures r.Some? ==> exists i :: (0 <= i < |plans| && plans[i] == r.value && plans[i].key == Some(key) &&
        forall j :: 0 <= j < i ==> plans[j].key != Some(key))
  {
    match FirstMatch(plans, (p: Plan) => p.key == Some(key))
    case None => None
    case Some(i) => Some(plans[i])
  }

  /**
   * `get_subscription_by_price_id`: the first plan whose `stripe_price_id`
   * equals `priceId`; `plan.get('stripe_price_id') == None` holds for a plan
   * without a price id, so a lookup with `None` finds the first such plan.
   */
  function PlanByPriceId(plans: seq<Plan>, priceId: Option<string>): (r: Option<Plan>)
    ensures r.None? <==> forall i :: 0 <= i < |plans| ==> plans[i].stripePriceId != priceId
    ensures r.Some? ==> exists i :: (0 <= i < |plans| && plans[i] == r.value && plans[i].stripePriceId == priceId &&
        forall j :: 0 <= j < i ==> plans[j].stripePriceId != priceId)
  {
    match FirstMatch(plans, (p: Plan) => p.stripePriceId == priceId)
    case None => None
    case Some(i) => Some(plans[i])
  }

  /** `get_credit_package_by_key`. */
  function PackageByKey(packages: seq<CreditPackage>, key: string): (r: Option<CreditPackage>)
    ensures r.None? <==> forall i :: 0 <= i < |packages| ==> packages[i].key != Some(key)
    ensures r.Some? ==> exists i :: (0 <= i < |packages| && packages[i] == r.value && packages[i].key == Some(key) &&
        forall j :: 0 <= j < i ==> packages[j].key != Some(key))
  {
    match FirstMatch(packages, (p: CreditPackage) => p.key == Some(key))
    case None => None
    case Some(i) => Some(packages[i])
  }

  /** `get_credit_package_by_price_id`. */
  function PackageByPriceId(packages: seq<CreditPackage>, priceId: Option<string>): (r: Option<CreditPackage>)
    ensures r.None? <==> forall i :: 0 <= i < |packages| ==> packages[i].stripePriceId != priceId
    ensures r.Some? ==> exists i :: (0 <= i < |packages| && packages[i] == r.value && packages[i].stripePriceId == priceId &&
        forall j :: 0 <= j < i ==> packages[j].stripePriceId != priceId)
  {
    match FirstMatch(packages, (p: CreditPackage) => p.stripePriceId == priceId)
    case None => None
    case Some(i) => Some(packages[i])
  }

  method GetSubscriptionByKey(plans: seq<Plan>, key: string) returns (r: Option<Plan>)
    ensures r == PlanByKey(plans, key)
  {
    var i := 0;
    while i < |plans|
      invariant 0 <= i <= |plans|
      invariant forall j :: 0 <= j < i ==> plans[j].key != Some(key)
    {
      if plans[i].key == Some(key) {
        return Some(plans[i]);
      }
      i := i + 1;
    }
    return None;
  }

  method GetSubscriptionByPriceId(plans: seq<Plan>, priceId: Option<string>) returns (r: Option<Plan>)
    ensures r == PlanByPriceId(plans, priceId)
  {
    var i := 0;
    while i < |plans|
      invariant 0 <= i <= |plans|
      invariant forall j :: 0 <= j < i ==> plans[j].stripePriceId != priceId
    {
      if plans[i].stripePriceId == priceId {
        return Some(plans[i]);
      }
      i := i + 1;
    }
    return None;
  }

  method GetCreditPackageByKey(packages: seq<CreditPackage>, key: string) returns (r: Option<CreditPackage>)
    ensures r == PackageByKey(packages, key)
  {
    var i := 0;
    while i < |packages|
      invariant 0 <= i <= |packages|
      invariant forall j :: 0 <= j < i ==> packages[j].key != Some(key)
    {
      if packages[i].key == Some(key) {
        return Some(packages[i]);
      }
      i := i + 1;
    }
    return None;
  }

  method GetCreditPackageByPriceId(packages: seq<CreditPackage>, priceId: Option<string>) returns (r: Option<CreditPackage>)
    ensures r == PackageByPriceId(packages, priceId)
  {
    var i := 0;
    while i < |packages|
      invariant 0 <= i <= |packages|
      invariant forall j :: 0 <= j < i ==> packages[j].stripePriceId != priceId
    {
      if packages[i].stripePriceId == priceId {
        return Some(packages[i]);
      }
      i := i + 1;
    }
    return None;
  }

  /** What a Stripe price id is for: `(data, type)` of `get_data_and_type_for_price_id`. */
  datatype PriceMatch = SubscriptionMatch(plan: Plan) | PackageMatch(package: CreditPackage) | NoMatch

  /**
   * `get_data_and_type_for_price_id`: plans are searched first; a match
   * counts only when the matched dictionary is truthy (not empty).
   */
  function DataAndTypeForPriceId(plans: seq<Plan>, packages: seq<CreditPackage>, priceId: Option<string>): (r: PriceMatch)
    ensures r.SubscriptionMatch? <==> PlanByPriceId(plans, priceId).Some? && !PlanByPriceId(plans, priceId).value.IsEmpty()
    ensures r.SubscriptionMatch? ==> Some(r.plan) == PlanByPriceId(plans, priceId)
    ensures r.PackageMatch? ==> Some(r.package) == PackageByPriceId(packages, priceId) && !r.package.IsEmpty()
    ensures r.NoMatch? <==>
      (PlanByPriceId(plans, priceId).None? || PlanByPriceId(plans, priceId).value.IsEmpty()) &&
      (PackageByPriceId(packages, priceId).None? || PackageByPriceId(packages, priceId).value.IsEmpty())
  {
    var plan := PlanByPriceId(plans, priceId);
    if plan.Some? && !plan.value.IsEmpty() then SubscriptionMatch(plan.value)
    else
      var package := PackageByPriceId(packages, priceId);
      if package.Some? && !package.value.IsEmpty() then PackageMatch(package.value)
      else NoMatch
  }

  /** With the shipped catalogue, `None` finds the free `default` plan. */
  lemma NoPriceIdFindsDefault()
    ensures PlanByPriceId(SUBSCRIPTIONS, None) == Some(SUBSCRIPTIONS[0])
    ensures SUBSCRIPTIONS[0].key == Some("default")
    ensures DataAndTypeForPriceId(SUBSCRIPTIONS, CREDIT_PACKAGES, None) == SubscriptionMatch(SUBSCRIPTIONS[0])
  {
    assert SUBSCRIPTIONS[0].stripePriceId == None;
  }

  /**
   * The shipped catalogue gives every price id at most one meaning: a price id
   * found among the plans is no package's, and a package price id is no plan's.
   */
  lemma {:induction false} ShippedPriceIdsUnambiguous(priceId: Option<string>)
    ensures PlanByPriceId(SUBSCRIPTIONS, priceId).Some? ==> PackageByPriceId(CREDIT_PACKAGES, priceId).None?
    ensures PackageByPriceId(CREDIT_PACKAGES, priceId).Some? ==>
      DataAndTypeForPriceId(SUBSCRIPTIONS, CREDIT_PACKAGES, priceId) == PackageMatch(PackageByPriceId(CREDIT_PACKAGES, priceId).value)
  {
    ShippedPriceIdsDistinct();
    ShippedLifetimeAndCredits();
  }
}

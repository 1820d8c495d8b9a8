// The billing views of modules/billing/views.py that decide something:
// subscribing to a plan and buying a credit package, which check the key
// and then send the user on to the checkout view with the Stripe price id,
// and cancelling the current subscription.
module BillingViews {
  import opened Wrappers
  import opened Catalog
  import opened BillingLookups
  import opened BillingModels
  import opened Accounts
  import opened Store
  import opened AccountBilling
  import opened Responses
  import PaymentsViews

  const INVALID_SUBSCRIPTION_KEY: string := "Invalid subscription key"
  const ALREADY_SUBSCRIBED: string := "You are already subscribed to this subscription"
  const INVALID_PRICE_ID: string := "Invalid price ID"
  const CANCELLED: string := "You've successfully cancelled your subscription. You will not be charged again."
  const CANCEL_FAILED: string :=
    "Failed to cancel subscription. Please try again. If the problem persists, contact support."

  /** `request.user`: the anonymous user, or a signed-in one with what `get_subscription()` gives. */
  datatype Visitor = Anonymous | SignedIn(current: Result<map<string, Value>, AccountError>)

  function VisitorOf(user: User?, plans: seq<Plan>, now: int): (v: Visitor)
    reads user, if user != null then {user.subscription} else {}
    ensures v.Anonymous? <==> user == null
    ensures user != null ==> v.current == user.GetSubscription(plans, now)
  {
    if user == null then Anonymous else SignedIn(user.GetSubscription(plans, now))
  }

  /** The exception a failing `get_subscription` raises. */
  function Raise(e: AccountError): (x: Raised)
    ensures e.NoSubscription? <==> x.DoesNotExist?
    ensures e.NoPlanForKey? <==> x.TypeError?
  {
    match e
    case NoSubscription => DoesNotExist("subscription")
    case NoPlanForKey(_) => TypeError
    case ShortUsername => IndexError
  }

  /**
   * The Stripe price a subscribe request is for, when its key passes the two
   * guards of `dispatch`: a catalogue plan with a truthy `stripe_price_id`,
   * and a key among `VALID_SUBSCRIPTION_KEYS`.
   */
  function SubscribablePrice(plans: seq<Plan>, key: string): (p: Option<string>)
    ensures p.Some? <==>
      PlanByKey(plans, key).Some? && PaymentsViews.Truthy(PlanByKey(plans, key).value.stripePriceId) &&
      key in ValidSubscriptionKeys(plans)
    ensures p.Some? ==> Some(p.value) == PlanByKey(plans, key).value.stripePriceId
  {
    var data := PlanByKey(plans, key);
    if data.None? || data.value.IsEmpty() || !PaymentsViews.Truthy(data.value.stripePriceId) then None
    else if key !in ValidSubscriptionKeys(plans) then None
    else data.value.stripePriceId
  }

  /**
   * Both lists come from the same catalogue, so a key the lookup finds is
   * always among `VALID_SUBSCRIPTION_KEYS`: the second guard never fires.
   */
  lemma {:induction false} KeyCheckRedundant(plans: seq<Plan>, key: string)
    requires PlanByKey(plans, key).Some?
    ensures key in ValidSubscriptionKeys(plans)
  {
    var i :| 0 <= i < |plans| && plans[i] == PlanByKey(plans, key).value && plans[i].key == Some(key);
  }

  /** The step after the guards: a visitor already on the plan is sent back, anyone else on to checkout. */
  function CurrentPlanCheck(key: string, price: string, current: Result<map<string, Value>, AccountError>): (r: Response)
    ensures current.Err? ==> r == Failed(Raise(current.error))
    ensures r.RedirectToCheckout? <==> current.Ok? && "key" in current.value && current.value["key"] != VStr(key)
    ensures r.RedirectToCheckout? ==> r.priceId == Some(price)
    ensures r == BackToBilling(FlashInfo(ALREADY_SUBSCRIBED)) <==>
      current.Ok? && "key" in current.value && current.value["key"] == VStr(key)
  {
    match current
    case Err(e) => Failed(Raise(e))
    case Ok(d) =>
      if "key" !in d then Failed(KeyError("key"))
      else if d["key"] == VStr(key) then BackToBilling(FlashInfo(ALREADY_SUBSCRIBED))
      else RedirectToCheckout(Some(price))
  }

  /**
   * `SubscripeToSubscription.dispatch` as written: the guards run before
   * `super().dispatch`, the login check, so an anonymous visitor with a
   * subscribable key reaches `request.user.get_subscription()`, which the
   * anonymous user does not have.
   */
  function SubscribeOutcomeAsWritten(plans: seq<Plan>, key: string, v: Visitor): (r: Response)
    ensures SubscribablePrice(plans, key).None? ==> r == BackToBilling(FlashError(INVALID_SUBSCRIPTION_KEY))
    ensures SubscribablePrice(plans, key).Some? && v.Anonymous? ==> r == Failed(AttributeError("get_subscription"))
    ensures SubscribablePrice(plans, key).Some? && v.SignedIn? ==>
      r == CurrentPlanCheck(key, SubscribablePrice(plans, key).value, v.current)
  {
    match SubscribablePrice(plans, key)
    case None => BackToBilling(FlashError(INVALID_SUBSCRIPTION_KEY))
    case Some(price) =>
      match v
      case Anonymous => Failed(AttributeError("get_subscription"))
      case SignedIn(current) => CurrentPlanCheck(key, price, current)
  }

  /** The two paid plans of the shipped catalogue pass both guards, with their own price ids. */
  lemma ShippedSubscribablePrices()
    ensures SubscribablePrice(SUBSCRIPTIONS, "monthly") == SUBSCRIPTIONS[2].stripePriceId
    ensures SubscribablePrice(SUBSCRIPTIONS, "lifetime") == SUBSCRIPTIONS[1].stripePriceId
  {
    assert PlanByKey(SUBSCRIPTIONS, "monthly") == Some(SUBSCRIPTIONS[2]) by {
      assert SUBSCRIPTIONS[2].key == Some("monthly");
    }
    assert PlanByKey(SUBSCRIPTIONS, "lifetime") == Some(SUBSCRIPTIONS[1]) by {
      assert SUBSCRIPTIONS[1].key == Some("lifetime");
    }
    KeyCheckRedundant(SUBSCRIPTIONS, "monthly");
    KeyCheckRedundant(SUBSCRIPTIONS, "lifetime");
  }

  /** The shipped monthly plan, asked for by a visitor who is not signed in, ends in a server error. */
  lemma AnonymousSubscribeFails()
    ensures SubscribeOutcomeAsWritten(SUBSCRIPTIONS, "monthly", Anonymous) == Failed(AttributeError("get_subscription"))
    ensures SubscribeOutcomeAsWritten(SUBSCRIPTIONS, "monthly", Anonymous).Status() == 500
  {
    ShippedSubscribablePrices();
  }

  /**
   * The view with the login check first, as `LoginRequiredMixin` intends:
   * a visitor who is not signed in is sent to log in whatever the key, and a
   * signed-in one gets what the view as written gives.
   */
  function SubscribeOutcome(plans: seq<Plan>, key: string, v: Visitor): (r: Response)
    ensures v.Anonymous? ==> r == RedirectToLogin
    ensures v.SignedIn? ==> r == SubscribeOutcomeAsWritten(plans, key, v)
  {
    match v
    case Anonymous => RedirectToLogin
    case SignedIn(current) =>
      match SubscribablePrice(plans, key)
      case None => BackToBilling(FlashError(INVALID_SUBSCRIPTION_KEY))
      case Some(price) => CurrentPlanCheck(key, price, current)
  }

  /** No key and no catalogue lets the corrected view fail a visitor who is not signed in. */
  lemma AnonymousSubscribeLogsIn(plans: seq<Plan>, key: string)
    ensures !SubscribeOutcome(plans, key, Anonymous).Failed?
    ensures SubscribeOutcome(plans, key, Anonymous).Status() == 302
  {
  }

  /**
   * An accepted subscribe goes to checkout with the plan's own price id,
   * and only for a visitor whose current plan is another one.
   */
  lemma {:induction false} AcceptedSubscribe(plans: seq<Plan>, key: string, v: Visitor)
    requires SubscribeOutcome(plans, key, v).RedirectToCheckout?
    ensures v.SignedIn? && v.current.Ok? && v.current.value["key"] != VStr(key)
    ensures PlanByKey(plans, key).Some?
    ensures SubscribeOutcome(plans, key, v).priceId == PlanByKey(plans, key).value.stripePriceId
    ensures PaymentsViews.Truthy(SubscribeOutcome(plans, key, v).priceId)
  {
    assert SubscribablePrice(plans, key).Some?;
  }

  /** A signed-in user whose active subscription is on the plan asked for is told so and sent back. */
  lemma {:induction false} CurrentPlanTurnedBack(s: SubscriptionState, plans: seq<Plan>, now: int)
    requires s.IsActive(now) && SubscribablePrice(plans, s.key).Some?
    ensures SubscribeOutcome(plans, s.key, SignedIn(MergedPlan(s, plans, now))) == BackToBilling(FlashInfo(ALREADY_SUBSCRIBED))
  {
    assert EffectiveKey(s, now) == s.key;
  }

  /**
   * The shipped free plan has no Stripe price, so nobody can subscribe to
   * it; a key outside the catalogue is refused the same way.
   */
  lemma {:induction false} ShippedUnsubscribableKeys(key: string, current: Result<map<string, Value>, AccountError>)
    requires key == "default" || (key != "lifetime" && key != "monthly")
    ensures SubscribeOutcome(SUBSCRIPTIONS, key, SignedIn(current)) == BackToBilling(FlashError(INVALID_SUBSCRIPTION_KEY))
  {
    if key == "default" {
      assert PlanByKey(SUBSCRIPTIONS, key) == Some(SUBSCRIPTIONS[0]);
    } else {
      assert PlanByKey(SUBSCRIPTIONS, key).None?;
    }
  }

  /**
   * A signed-in user on the free tier asking for the monthly plan reaches a
   * recurring checkout, and one asking for the lifetime plan a one-time
   * payment.
   */
  lemma {:induction false} ShippedSubscribeReachesCheckout(s: SubscriptionState, now: int)
    requires !s.IsActive(now)
    ensures SubscribeOutcome(SUBSCRIPTIONS, "monthly", SignedIn(MergedPlan(s, SUBSCRIPTIONS, now))) ==
            RedirectToCheckout(SUBSCRIPTIONS[2].stripePriceId)
    ensures PaymentsViews.CheckoutModeFor(SUBSCRIPTIONS, CREDIT_PACKAGES, SUBSCRIPTIONS[2].stripePriceId) ==
            Some(PaymentsViews.SubscriptionMode)
    ensures SubscribeOutcome(SUBSCRIPTIONS, "lifetime", SignedIn(MergedPlan(s, SUBSCRIPTIONS, now))) ==
            RedirectToCheckout(SUBSCRIPTIONS[1].stripePriceId)
    ensures PaymentsViews.CheckoutModeFor(SUBSCRIPTIONS, CREDIT_PACKAGES, SUBSCRIPTIONS[1].stripePriceId) ==
            Some(PaymentsViews.PaymentMode)
  {
    ShippedInactiveIsFreeTier(s, now);
    ShippedSubscribablePrices();
    PaymentsViews.ShippedPlanModes();
    FreeTierSubscribes(SUBSCRIPTIONS, "monthly", MergedPlan(s, SUBSCRIPTIONS, now));
    FreeTierSubscribes(SUBSCRIPTIONS, "lifetime", MergedPlan(s, SUBSCRIPTIONS, now));
  }

  /** A visitor whose current plan is the free tier goes to checkout for any other subscribable key. */
  lemma FreeTierSubscribes(plans: seq<Plan>, key: string, current: Result<map<string, Value>, AccountError>)
    requires SubscribablePrice(plans, key).Some?
    requires current.Ok? && "key" in current.value && current.value["key"] == VStr(DEFAULT_KEY)
    requires key != DEFAULT_KEY
    ensures SubscribeOutcome(plans, key, SignedIn(current)) == RedirectToCheckout(SubscribablePrice(plans, key))
  {
  }

  /** The view instance: `dispatch` stores the plan it looked up for `get`. */
  class SubscribeToSubscription {
    var subscriptionData: Option<Plan>

    constructor ()
      ensures subscriptionData.None?
    {
      subscriptionData := None;
    }

    /** `get`: on to the checkout view with the plan's `stripe_price_id`. */
    method Get() returns (r: Response)
      requires subscriptionData.Some?
      ensures r == RedirectToCheckout(subscriptionData.value.stripePriceId)
    {
      r := RedirectToCheckout(subscriptionData.value.stripePriceId);
    }

    /** `dispatch(request, subscription_key=key)` with the login check first; `user` is null when not signed in. */
    method Dispatch(key: string, user: User?, plans: seq<Plan>, now: int) returns (r: Response)
      modifies this
      ensures user != null ==> subscriptionData == PlanByKey(plans, key)
      ensures user == null ==> subscriptionData == old(subscriptionData)
      ensures r == SubscribeOutcome(plans, key, VisitorOf(user, plans, now))
    {
      if user == null {
        r := RedirectToLogin;
      } else {
        subscriptionData := GetSubscriptionByKey(plans, key);
        if subscriptionData.None? || subscriptionData.value.IsEmpty() ||
           !PaymentsViews.Truthy(subscriptionData.value.stripePriceId) {
          r := BackToBilling(FlashError(INVALID_SUBSCRIPTION_KEY));
        } else if key !in ValidSubscriptionKeys(plans) {
          r := BackToBilling(FlashError(INVALID_SUBSCRIPTION_KEY));
        } else {
          var current := user.GetSubscription(plans, now);
          if current.Err? {
            r := Failed(Raise(current.error));
          } else if "key" !in current.value {
            r := Failed(KeyError("key"));
          } else if current.value["key"] == VStr(key) {
            r := BackToBilling(FlashInfo(ALREADY_SUBSCRIBED));
          } else {
            r := Get();
          }
        }
      }
    }
  }

  /**
   * `PurchaseCreditsPackage`: an unknown package key is refused before the
   * login check; a known one sends a signed-in user on to checkout with the
   * package's `stripe_price_id`.
   */
  function PurchaseOutcome(packages: seq<CreditPackage>, key: string, signedIn: bool): (r: Response)
    ensures PackageByKey(packages, key).None? ==> r == BackToBilling(FlashError(INVALID_PRICE_ID))
    ensures PackageByKey(packages, key).Some? && !signedIn ==> r == RedirectToLogin
    ensures PackageByKey(packages, key).Some? && signedIn ==>
      r == RedirectToCheckout(PackageByKey(packages, key).value.stripePriceId)
  {
    var data := PackageByKey(packages, key);
    if data.None? || data.value.IsEmpty() then BackToBilling(FlashError(INVALID_PRICE_ID))
    else if !signedIn then RedirectToLogin
    else RedirectToCheckout(data.value.stripePriceId)
  }

  /** Every shipped package can be bought, and its price id opens a one-time payment. */
  lemma ShippedPackagesPurchasable()
    ensures forall j :: 0 <= j < |CREDIT_PACKAGES| ==>
      PurchaseOutcome(CREDIT_PACKAGES, CREDIT_PACKAGES[j].key.value, true) == RedirectToCheckout(CREDIT_PACKAGES[j].stripePriceId) &&
      PaymentsViews.CheckoutModeFor(SUBSCRIPTIONS, CREDIT_PACKAGES, CREDIT_PACKAGES[j].stripePriceId) == Some(PaymentsViews.PaymentMode)
  {
    forall j | 0 <= j < |CREDIT_PACKAGES|
      ensures PurchaseOutcome(CREDIT_PACKAGES, CREDIT_PACKAGES[j].key.value, true) == RedirectToCheckout(CREDIT_PACKAGES[j].stripePriceId)
      ensures PaymentsViews.CheckoutModeFor(SUBSCRIPTIONS, CREDIT_PACKAGES, CREDIT_PACKAGES[j].stripePriceId) == Some(PaymentsViews.PaymentMode)
    {
      ShippedPackageFoundByKey(j);
      PaymentsViews.ShippedPackageMode(j);
    }
  }

  /** Looking a shipped package up by its own key finds that package. */
  lemma ShippedPackageFoundByKey(j: nat)
    requires j < |CREDIT_PACKAGES|
    ensures PackageByKey(CREDIT_PACKAGES, CREDIT_PACKAGES[j].key.value) == Some(CREDIT_PACKAGES[j])
  {
    ShippedKeysDistinct();
    var p := PackageByKey(CREDIT_PACKAGES, CREDIT_PACKAGES[j].key.value);
    var i :| 0 <= i < |CREDIT_PACKAGES| && CREDIT_PACKAGES[i] == p.value && CREDIT_PACKAGES[i].key == Some(CREDIT_PACKAGES[j].key.value);
    assert i == j;
  }

  /** The view instance: `dispatch` stores the package it looked up for `get`. */
  class PurchaseCreditsPackage {
    var creditPackageData: Option<CreditPackage>

    constructor ()
      ensures creditPackageData.None?
    {
      creditPackageData := None;
    }

    method Get() returns (r: Response)
      requires creditPackageData.Some?
      ensures r == RedirectToCheckout(creditPackageData.value.stripePriceId)
    {
      r := RedirectToCheckout(creditPackageData.value.stripePriceId);
    }

    /** `dispatch(request, credit_package_key=key)`, with `super().dispatch` the login check and then `get`. */
    method Dispatch(key: string, signedIn: bool, packages: seq<CreditPackage>) returns (r: Response)
      modifies this
      ensures creditPackageData == PackageByKey(packages, key)
      ensures r == PurchaseOutcome(packages, key, signedIn)
    {
      creditPackageData := GetCreditPackageByKey(packages, key);
      if creditPackageData.None? || creditPackageData.value.IsEmpty() {
        r := BackToBilling(FlashError(INVALID_PRICE_ID));
      } else if !signedIn {
        r := RedirectToLogin;
      } else {
        r := Get();
      }
    }
  }

  /** The reply of `CancelSubscription.post` once `cancel_subscription()` has answered. */
  function CancelReply(cancelled: bool): (r: Response)
    ensures r.Redirect? && r.target == MANAGE_BILLING
    ensures r.flash == Some(FlashInfo(CANCELLED)) <==> cancelled
    ensures r.flash == Some(FlashError(CANCEL_FAILED)) <==> !cancelled
  {
    if cancelled then BackToBilling(FlashInfo(CANCELLED)) else BackToBilling(FlashError(CANCEL_FAILED))
  }

  /**
   * `CancelSubscription.post`: asks Stripe to cancel at period end when the
   * subscription has a Stripe id, and reports which happened; a visitor who
   * is not signed in is sent to log in, and a user without a subscription
   * row gets the exception.
   */
  method CancelPost(db: Database, user: User?) returns (r: Response)
    modifies db`outbound
    ensures user == null ==> r == RedirectToLogin && db.outbound == old(db.outbound)
    ensures user != null && user.subscription == null ==>
      r == Failed(DoesNotExist("subscription")) && db.outbound == old(db.outbound)
    ensures user != null && user.subscription != null ==>
      var id := user.subscription.stripeSubscriptionId;
      r == CancelReply(PaymentsViews.Truthy(id)) &&
      db.outbound == old(db.outbound) + (if PaymentsViews.Truthy(id) then [CancelAtPeriodEnd(id.value)] else [])
  {
    if user == null {
      r := RedirectToLogin;
    } else if user.subscription == null {
      r := Failed(DoesNotExist("subscription"));
    } else {
      var cancelled := CancelSubscription(db, user);
      r := CancelReply(cancelled);
    }
  }
}

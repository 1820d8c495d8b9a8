// The views of modules/payments/views.py: `SetupCheckoutForPrice`, which
// picks the Stripe checkout mode for a price id before the login check and
// then creates a one-line checkout session, and `StripeWebhook.post`, which
// turns a request into a verified event, runs the registered handlers and
// answers with a status.
module PaymentsViews {
  import opened Wrappers
  import opened Catalog
  import opened BillingLookups
  import opened Store
  import opened Responses
  import WebhookRouter
  import Webhooks
  import WebhookHandlers

  const NOTHING_TO_BUY: string :=
    "Looks like you're trying to purchase or subscribe to something that doesn't exist. Please try again."

  datatype CheckoutMode = PaymentMode | SubscriptionMode

  /** The `mode` Stripe is given. */
  function ModeName(m: CheckoutMode): (s: string)
    ensures s == "payment" <==> m == PaymentMode
    ensures s == "subscription" <==> m == SubscriptionMode
  {
    match m
    case PaymentMode => "payment"
    case SubscriptionMode => "subscription"
  }

  /** `not price_id` fails for `None` and for the empty string. */
  predicate Truthy(priceId: Option<string>)
  {
    priceId.Some? && priceId.value != ""
  }

  /**
   * The branches of `dispatch`: no checkout for a falsy or unknown price id;
   * a credit package, or a plan with `lifetime` true, is a one-time
   * payment; any other plan is a recurring subscription.
   */
  function CheckoutModeFor(plans: seq<Plan>, packages: seq<CreditPackage>, priceId: Option<string>): (m: Option<CheckoutMode>)
    ensures m.None? <==> !Truthy(priceId) || DataAndTypeForPriceId(plans, packages, priceId).NoMatch?
    ensures m == Some(SubscriptionMode) <==>
      Truthy(priceId) && PlanByPriceId(plans, priceId).Some? && !PlanByPriceId(plans, priceId).value.IsEmpty() &&
      !PlanByPriceId(plans, priceId).value.IsLifetime()
    ensures m == Some(PaymentMode) <==>
      Truthy(priceId) &&
      (DataAndTypeForPriceId(plans, packages, priceId).PackageMatch? ||
       (DataAndTypeForPriceId(plans, packages, priceId).SubscriptionMatch? &&
        DataAndTypeForPriceId(plans, packages, priceId).plan.IsLifetime()))
  {
    if !Truthy(priceId) then None
    else
      match DataAndTypeForPriceId(plans, packages, priceId)
      case NoMatch => None
      case PackageMatch(_) => Some(PaymentMode)
      case SubscriptionMatch(plan) => if plan.IsLifetime() then Some(PaymentMode) else Some(SubscriptionMode)
  }

  /**
   * The shipped catalogue: the monthly plan is a subscription, the lifetime
   * plan and every package a payment, and no price id at all, which would
   * find the free plan, is refused by the `not price_id` test.
   */
  lemma ShippedCheckoutModes()
    ensures CheckoutModeFor(SUBSCRIPTIONS, CREDIT_PACKAGES, SUBSCRIPTIONS[2].stripePriceId) == Some(SubscriptionMode)
    ensures CheckoutModeFor(SUBSCRIPTIONS, CREDIT_PACKAGES, SUBSCRIPTIONS[1].stripePriceId) == Some(PaymentMode)
    ensures forall j :: 0 <= j < |CREDIT_PACKAGES| ==>
      CheckoutModeFor(SUBSCRIPTIONS, CREDIT_PACKAGES, CREDIT_PACKAGES[j].stripePriceId) == Some(PaymentMode)
    ensures DataAndTypeForPriceId(SUBSCRIPTIONS, CREDIT_PACKAGES, None).SubscriptionMatch?
    ensures CheckoutModeFor(SUBSCRIPTIONS, CREDIT_PACKAGES, None).None?
  {
    ShippedPlanModes();
    forall j | 0 <= j < |CREDIT_PACKAGES|
      ensures CheckoutModeFor(SUBSCRIPTIONS, CREDIT_PACKAGES, CREDIT_PACKAGES[j].stripePriceId) == Some(PaymentMode)
    {
      ShippedPackageMode(j);
    }
    NoPriceIdFindsDefault();
  }

  lemma ShippedPlanModes()
    ensures CheckoutModeFor(SUBSCRIPTIONS, CREDIT_PACKAGES, SUBSCRIPTIONS[2].stripePriceId) == Some(SubscriptionMode)
    ensures CheckoutModeFor(SUBSCRIPTIONS, CREDIT_PACKAGES, SUBSCRIPTIONS[1].stripePriceId) == Some(PaymentMode)
  {
    assert PlanByPriceId(SUBSCRIPTIONS, SUBSCRIPTIONS[2].stripePriceId) == Some(SUBSCRIPTIONS[2]);
    assert PlanByPriceId(SUBSCRIPTIONS, SUBSCRIPTIONS[1].stripePriceId) == Some(SUBSCRIPTIONS[1]);
  }

  lemma ShippedPackageMode(j: nat)
    requires j < |CREDIT_PACKAGES|
    ensures CheckoutModeFor(SUBSCRIPTIONS, CREDIT_PACKAGES, CREDIT_PACKAGES[j].stripePriceId) == Some(PaymentMode)
  {
    ShippedPriceIdsUnambiguous(CREDIT_PACKAGES[j].stripePriceId);
    ShippedPriceIdsDistinct();
    assert PackageByPriceId(CREDIT_PACKAGES, CREDIT_PACKAGES[j].stripePriceId).Some?;
  }

  /** `settings.PLATFORM_URL` and the paths `reverse` gives for the two return pages. */
  datatype Site = Site(platformUrl: string, completePath: string, cancelledPath: string)

  const SESSION_QUERY: string := "?session_id={CHECKOUT_SESSION_ID}"

  /** The session `get` creates: one line, the price with quantity 1, in the chosen mode, for the customer. */
  function SessionFor(priceId: Option<string>, mode: CheckoutMode, site: Site, customerId: string): (s: CheckoutSession)
    ensures s.lineItems == [CheckoutLine(priceId, 1)]
    ensures s.mode == ModeName(mode) && s.customer == customerId
    ensures s.successUrl == site.platformUrl + site.completePath + SESSION_QUERY
    ensures s.cancelUrl == site.platformUrl + site.cancelledPath
  {
    CheckoutSession([CheckoutLine(priceId, 1)], ModeName(mode),
                    site.platformUrl + site.completePath + SESSION_QUERY,
                    site.platformUrl + site.cancelledPath, customerId)
  }

  /**
   * What a request to `SetupCheckoutForPrice` gets: the price checks run
   * before the login check, so an unknown price sends even a visitor who is
   * not signed in back to billing; everyone else signed in goes to Stripe.
   */
  function SetupCheckoutOutcome(plans: seq<Plan>, packages: seq<CreditPackage>, priceId: Option<string>,
                                signedIn: bool, site: Site, customerId: string): (r: Response)
    ensures CheckoutModeFor(plans, packages, priceId).None? ==> r == BackToBilling(FlashError(NOTHING_TO_BUY))
    ensures CheckoutModeFor(plans, packages, priceId).Some? && !signedIn ==> r == RedirectToLogin
    ensures CheckoutModeFor(plans, packages, priceId).Some? && signedIn ==>
      r.RedirectToStripe? && r.session.lineItems == [CheckoutLine(priceId, 1)] &&
      r.session.mode == ModeName(CheckoutModeFor(plans, packages, priceId).value)
    ensures r.RedirectToStripe? <==> signedIn && CheckoutModeFor(plans, packages, priceId).Some?
  {
    match CheckoutModeFor(plans, packages, priceId)
    case None => BackToBilling(FlashError(NOTHING_TO_BUY))
    case Some(mode) => if signedIn then RedirectToStripe(SessionFor(priceId, mode, site, customerId)) else RedirectToLogin
  }

  /** The view instance: `dispatch` stores the price id and, once it is accepted, the mode. */
  class SetupCheckoutForPrice {
    var priceId: Option<string>
    var mode: Option<CheckoutMode>

    constructor ()
      ensures priceId.None? && mode.None?
    {
      priceId := None;
      mode := None;
    }

    /** `get`, reached only after `dispatch` has set the mode; `customerId` is the Stripe customer's id. */
    method Get(site: Site, customerId: string) returns (r: Response)
      requires mode.Some?
      ensures r == RedirectToStripe(SessionFor(priceId, mode.value, site, customerId))
    {
      r := RedirectToStripe(SessionFor(priceId, mode.value, site, customerId));
    }

    /** `dispatch(request, price_id=…)`, with `super().dispatch` the login check and then `get`. */
    method Dispatch(kwPriceId: Option<string>, signedIn: bool, plans: seq<Plan>, packages: seq<CreditPackage>,
                    site: Site, customerId: string) returns (r: Response)
      modifies this
      ensures priceId == kwPriceId
      ensures mode == (if CheckoutModeFor(plans, packages, kwPriceId).Some? then CheckoutModeFor(plans, packages, kwPriceId) else old(mode))
      ensures r == SetupCheckoutOutcome(plans, packages, kwPriceId, signedIn, site, customerId)
    {
      priceId := kwPriceId;
      var found := DataAndTypeForPriceId(plans, packages, priceId);
      if !Truthy(priceId) || found.NoMatch? {
        r := BackToBilling(FlashError(NOTHING_TO_BUY));
      } else {
        if found.PackageMatch? {
          mode := Some(PaymentMode);
        } else {
          mode := if found.plan.IsLifetime() then Some(PaymentMode) else Some(SubscriptionMode);
        }
        if signedIn {
          r := Get(site, customerId);
        } else {
          r := RedirectToLogin;
        }
      }
    }
  }

  /** What `stripe.Webhook.construct_event` makes of the payload and signature. */
  datatype Verification = InvalidPayload | InvalidSignature | Verified(event: Webhooks.Event)

  /** The response `post` gives, the tables it leaves, and the handlers it ran. */
  datatype WebhookReply = WebhookReply(response: Response, state: Tables, called: seq<Webhooks.Handler>)

  /** A handler's exception as it escapes the view. */
  function Escaped(e: Webhooks.HandlerError): (x: Raised)
    ensures e.IndexError? <==> x.IndexError?
    ensures e.KeyError? ==> x == KeyError(e.key)
  {
    match e
    case IndexError => IndexError
    case KeyError(k) => KeyError(k)
  }

  const SIGNATURE_HEADER: string := "HTTP_STRIPE_SIGNATURE"

  /**
   * `StripeWebhook.post`: a missing signature header raises; a payload or
   * signature that fails verification is answered with 400 before any
   * handler runs; a verified event goes to the handlers registered for its
   * type and is answered with 200 unless one of them raises. The changes of
   * the handlers before the one that raised stay saved.
   */
  function WebhookOutcome(sigHeader: Option<string>, v: Verification, handlers: map<string, seq<Webhooks.Handler>>,
                          lineItems: seq<Webhooks.LineItem>, plans: seq<Plan>, packages: seq<CreditPackage>, t: Tables): (o: WebhookReply)
    ensures sigHeader.None? ==> o == WebhookReply(Failed(KeyError(SIGNATURE_HEADER)), t, [])
    ensures sigHeader.Some? && v == InvalidPayload ==> o == WebhookReply(Reply(400, "Invalid payload"), t, [])
    ensures sigHeader.Some? && v == InvalidSignature ==> o == WebhookReply(Reply(400, "Invalid signature"), t, [])
    ensures o.response.Reply? && o.response.status == 400 ==> o.state == t && o.called == []
    ensures sigHeader.Some? && v.Verified? ==>
      var hs := if v.event.eventType in handlers then handlers[v.event.eventType] else [];
      var d := Webhooks.HandleEventSpec(hs, v.event, lineItems, plans, packages, t);
      o.state == d.state && o.called == d.called &&
      (o.response == Reply(200, "") <==> d.failure.None?) &&
      (d.failure.Some? ==> o.response == Failed(Escaped(d.failure.value)))
  {
    if sigHeader.None? then WebhookReply(Failed(KeyError(SIGNATURE_HEADER)), t, [])
    else
      match v
      case InvalidPayload => WebhookReply(Reply(400, "Invalid payload"), t, [])
      case InvalidSignature => WebhookReply(Reply(400, "Invalid signature"), t, [])
      case Verified(e) =>
        var hs := if e.eventType in handlers then handlers[e.eventType] else [];
        var d := Webhooks.HandleEventSpec(hs, e, lineItems, plans, packages, t);
        match d.failure
        case None => WebhookReply(Reply(200, ""), d.state, d.called)
        case Some(err) => WebhookReply(Failed(Escaped(err)), d.state, d.called)
  }

  /** An event of a type nobody registered for is acknowledged with 200 and changes nothing. */
  lemma UnregisteredEventAcknowledged(e: Webhooks.Event, handlers: map<string, seq<Webhooks.Handler>>, sig: string,
                                      lineItems: seq<Webhooks.LineItem>, plans: seq<Plan>, packages: seq<CreditPackage>, t: Tables)
    requires e.eventType !in handlers
    ensures WebhookOutcome(Some(sig), Verified(e), handlers, lineItems, plans, packages, t) == WebhookReply(Reply(200, ""), t, [])
  {
  }

  /**
   * With the shipped registrations, a verified event answered with 200 ran
   * every handler registered for its type exactly once, in registration
   * order.
   */
  lemma ShippedEventHandledOnce(e: Webhooks.Event, sig: string,
                                lineItems: seq<Webhooks.LineItem>, plans: seq<Plan>, packages: seq<CreditPackage>, t: Tables)
    requires e.eventType in Webhooks.SHIPPED_HANDLERS
    requires WebhookOutcome(Some(sig), Verified(e), Webhooks.SHIPPED_HANDLERS, lineItems, plans, packages, t).response == Reply(200, "")
    ensures WebhookOutcome(Some(sig), Verified(e), Webhooks.SHIPPED_HANDLERS, lineItems, plans, packages, t).called ==
            Webhooks.SHIPPED_HANDLERS[e.eventType]
    ensures var c := WebhookOutcome(Some(sig), Verified(e), Webhooks.SHIPPED_HANDLERS, lineItems, plans, packages, t).called;
            forall i, j :: 0 <= i < j < |c| ==> c[i] != c[j]
  {
  }

  /**
   * The view's `post` run against the database: the response, the new
   * tables and the handlers run are those `WebhookOutcome` describes.
   */
  method Post(reg: WebhookRouter.Registry<Webhooks.Handler>, db: Database, sigHeader: Option<string>, v: Verification,
              lineItems: seq<Webhooks.LineItem>, plans: seq<Plan>, packages: seq<CreditPackage>)
    returns (r: Response, called: seq<Webhooks.Handler>)
    requires db.Valid()
    modifies db`invoices, db`outbound, db`creditActions, db.users, db.Subscriptions()
    ensures db.Valid() && WebhookHandlers.SameLinks(db)
    ensures WebhookReply(r, db.Snapshot(), called) ==
            WebhookOutcome(sigHeader, v, reg.handlers, lineItems, plans, packages, old(db.Snapshot()))
  {
    called := [];
    if sigHeader.None? {
      r := Failed(KeyError(SIGNATURE_HEADER));
    } else if v == InvalidPayload {
      r := Reply(400, "Invalid payload");
    } else if v == InvalidSignature {
      r := Reply(400, "Invalid signature");
    } else {
      var failure;
      called, failure := WebhookHandlers.HandleEvent(reg, db, v.event, lineItems, plans, packages);
      r := if failure.None? then Reply(200, "") else Failed(Escaped(failure.value));
    }
  }
}

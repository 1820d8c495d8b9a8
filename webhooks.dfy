// The seven Stripe webhook handlers of modules/payments/webhooks.py, as
// transformations of the stored tables. Each returns the tables it leaves
// behind, or the exception it raises before saving anything. The Stripe
// line-item fetch of a checkout session is an input; the invoice it asks
// Stripe for is recorded as an outbound request.
module Webhooks {
  import opened Wrappers
  import opened Text
  import opened Catalog
  import opened BillingLookups
  import opened BillingModels
  import opened Store
  import opened CreditLedger
  import opened WebhookRouter

  /** `items.data[i]`: the id of its `price`, `None` when it has no `price` key. */
  datatype SubscriptionItem = SubscriptionItem(priceId: Option<string>)

  /** `lines.data[i].period`. */
  datatype InvoiceLine = InvoiceLine(periodStart: int, periodEnd: int)

  /**
   * `event['data']['object']`, the fields the handlers read. One record
   * serves the customer, invoice, subscription and checkout-session objects.
   */
  datatype EventObject = EventObject(
    id: string,
    customer: Option<string>,
    status: string,
    startDate: int,
    currentPeriodStart: int,
    currentPeriodEnd: int,
    cancelAtPeriodEnd: bool,
    items: seq<SubscriptionItem>,
    lines: seq<InvoiceLine>,
    number: string,
    hostedInvoiceUrl: Option<string>,
    created: int)

  datatype Event = Event(eventType: string, data: EventObject)

  /** A checkout line item: the id of its `price`, `None` when it has no `price` key. */
  datatype LineItem = LineItem(price: Option<string>)

  /** The exceptions the handlers can raise. */
  datatype HandlerError = IndexError | KeyError(key: string)

  datatype Handler =
    | DeleteCustomer
    | PaidInvoice
    | CreateOrUpdateSubscription
    | DeleteSubscription
    | AddInvoice
    | CreateOnetimeSubscription
    | AddCreditsToUser

  /** `4102441200`, 2100-01-01: the period end of a lifetime purchase. */
  const LIFETIME_PERIOD_END: int := 4102441200

  /** The `stripe_customer_id` a handler looks its user up by. */
  function CustomerOf(h: Handler, o: EventObject): Option<string>
  {
    if h == DeleteCustomer then Some(o.id) else o.customer
  }

  /** `User.objects.filter(stripe_customer_id=c).first()`, in primary-key order. */
  function UserIndex(rows: seq<UserRow>, customer: Option<string>): (r: Option<nat>)
    ensures r.Some? ==> r.value < |rows| && rows[r.value].customerId == customer
  {
    UserIndexFrom(rows, customer, 0)
  }

  /** The first position at or after `k` holding `customer`. */
  function UserIndexFrom(rows: seq<UserRow>, customer: Option<string>, k: nat): (r: Option<nat>)
    ensures r.Some? ==> k <= r.value < |rows| && rows[r.value].customerId == customer
    decreases |rows| - k
  {
    if k >= |rows| then None
    else if rows[k].customerId == customer then Some(k)
    else UserIndexFrom(rows, customer, k + 1)
  }

  /** `UserIndex` finds the first row with the customer id, and finds none exactly when no row has it. */
  lemma {:induction false} UserIndexIsFirstMatch(rows: seq<UserRow>, customer: Option<string>)
    ensures UserIndex(rows, customer) == FirstMatch(rows, (u: UserRow) => u.customerId == customer)
    ensures UserIndex(rows, customer).Some? ==>
      forall j :: 0 <= j < UserIndex(rows, customer).value ==> rows[j].customerId != customer
    ensures UserIndex(rows, customer).None? <==> forall j :: 0 <= j < |rows| ==> rows[j].customerId != customer
  {
    UserIndexFromScans(rows, customer, 0);
    var f := FirstMatch(rows, (u: UserRow) => u.customerId == customer);
    if f.Some? {
      assert rows[f.value].customerId == customer;
    }
  }

  /** The lookup only sees the customer ids: tables that agree on them find the same row. */
  lemma {:induction false} UserIndexSameIds(a: seq<UserRow>, b: seq<UserRow>, customer: Option<string>, k: nat)
    requires |a| == |b| && forall j :: 0 <= j < |a| ==> a[j].customerId == b[j].customerId
    ensures UserIndexFrom(a, customer, k) == UserIndexFrom(b, customer, k)
    decreases |a| - k
  {
    if k < |a| {
      UserIndexSameIds(a, b, customer, k + 1);
    }
  }

  lemma {:induction false} UserIndexFromScans(rows: seq<UserRow>, customer: Option<string>, k: nat)
    ensures UserIndexFrom(rows, customer, k).Some? ==>
      forall j :: k <= j < UserIndexFrom(rows, customer, k).value ==> rows[j].customerId != customer
    ensures UserIndexFrom(rows, customer, k).None? ==> forall j :: k <= j < |rows| ==> rows[j].customerId != customer
    decreases |rows| - k
  {
    if k < |rows| && rows[k].customerId != customer {
      UserIndexFromScans(rows, customer, k + 1);
    }
  }

  function WithSubscription(t: Tables, i: nat, s: SubscriptionState): Tables
    requires i < |t.users|
  {
    t.(users := t.users[i := t.users[i].(subscription := s)])
  }

  /**
   * `create_stripe_invoice_for_price_for_user(user, price_id, mark_paid=True)`:
   * nothing when the user has no (or an empty) customer id.
   */
  function InvoiceRequest(customerId: Option<string>, priceId: string): (r: seq<StripeRequest>)
    ensures |r| <= 1
    ensures |r| == 1 <==> customerId.Some? && customerId.value != ""
    ensures |r| == 1 ==> r[0] == InvoiceForPrice(customerId.value, priceId, true)
  {
    if customerId.Some? && customerId.value != "" then [InvoiceForPrice(customerId.value, priceId, true)] else []
  }

  /** `delete_customer` (`customer.deleted`). */
  function DeleteCustomerSpec(t: Tables, o: EventObject): Tables
  {
    match UserIndex(t.users, Some(o.id))
    case None => t
    case Some(i) => t.(users := t.users[i := t.users[i].(customerId := None)])
  }

  /** `paid_invoice` (`invoice.paid`): the first line's period, unless the subscription is lifetime. */
  function PaidInvoiceSpec(t: Tables, o: EventObject): Result<Tables, HandlerError>
  {
    match UserIndex(t.users, o.customer)
    case None => Ok(t)
    case Some(i) =>
      var s := t.users[i].subscription;
      if s.lifetime then Ok(t)
      else if |o.lines| == 0 then Err(IndexError)
      else Ok(WithSubscription(t, i, s.(currentPeriodStart := o.lines[0].periodStart, currentPeriodEnd := o.lines[0].periodEnd)))
  }

  /**
   * The plan `create_or_update_subscription` resolves from the first item's
   * price; `None` when the lookup raised or found nothing (both return).
   */
  function ItemPlan(o: EventObject, plans: seq<Plan>): Option<Plan>
  {
    if |o.items| == 0 || o.items[0].priceId.None? then None
    else
      var p := PlanByPriceId(plans, o.items[0].priceId);
      if p.None? || p.value.IsEmpty() then None else p
  }

  /** The subscription a created/updated event describes (`lifetime` forced off). */
  function FromStripe(key: string, o: EventObject): SubscriptionState
  {
    SubscriptionState(key, Some(o.id), Some(o.status), o.startDate, o.currentPeriodStart, o.currentPeriodEnd,
                      o.cancelAtPeriodEnd, false)
  }

  /** `create_or_update_subscription` (`customer.subscription.created` and `.updated`). */
  function CreateOrUpdateSpec(t: Tables, o: EventObject, plans: seq<Plan>): Result<Tables, HandlerError>
  {
    match ItemPlan(o, plans)
    case None => Ok(t)
    case Some(plan) =>
      match UserIndex(t.users, o.customer)
      case None => Ok(t)
      case Some(i) =>
        if plan.key.None? then Err(KeyError("key"))
        else Ok(WithSubscription(t, i, FromStripe(plan.key.value, o)))
  }

  /** `delete_subscription` (`customer.subscription.deleted`). */
  function DeleteSubscriptionSpec(t: Tables, o: EventObject): Tables
  {
    match UserIndex(t.users, o.customer)
    case None => t
    case Some(i) => WithSubscription(t, i, t.users[i].subscription.ResetToDefault())
  }

  /** `add_invoice` (`invoice.finalized`). */
  function AddInvoiceSpec(t: Tables, o: EventObject): Tables
  {
    match UserIndex(t.users, o.customer)
    case None => t
    case Some(i) => t.(invoices := t.invoices + [StripeInvoice(t.users[i].id, o.id, o.number, o.hostedInvoiceUrl)])
  }

  /** The price id of the first line item, `None` when there is no line item or it has no price. */
  function FirstPrice(lineItems: seq<LineItem>): Option<string>
  {
    if |lineItems| == 0 then None else lineItems[0].price
  }

  /** The plan `create_onetime_subscription` acts on: a non-empty plan flagged lifetime. */
  function LifetimePlan(lineItems: seq<LineItem>, plans: seq<Plan>): Option<Plan>
  {
    if FirstPrice(lineItems).None? then None
    else
      var p := PlanByPriceId(plans, FirstPrice(lineItems));
      if p.None? || p.value.IsEmpty() || !p.value.IsLifetime() then None else p
  }

  /** The subscription a lifetime purchase grants. */
  function Lifetime(key: string, created: int): SubscriptionState
  {
    SubscriptionState(key, None, Some("active"), created, created, LIFETIME_PERIOD_END, false, true)
  }

  /** `create_onetime_subscription` (`checkout.session.completed`). */
  function CreateOnetimeSpec(t: Tables, o: EventObject, lineItems: seq<LineItem>, plans: seq<Plan>): Result<Tables, HandlerError>
  {
    match LifetimePlan(lineItems, plans)
    case None => Ok(t)
    case Some(plan) =>
      match UserIndex(t.users, o.customer)
      case None => Ok(t)
      case Some(i) => GrantLifetimeSpec(t, i, plan, o.created, FirstPrice(lineItems).value)
  }

  /**
   * What `create_onetime_subscription` does to the user in position `i`:
   * the lifetime subscription under the plan's key, then the paid invoice.
   */
  function GrantLifetimeSpec(t: Tables, i: nat, plan: Plan, created: int, priceId: string): Result<Tables, HandlerError>
    requires i < |t.users|
  {
    if plan.key.None? then Err(KeyError("key"))
    else
      var t1 := WithSubscription(t, i, Lifetime(plan.key.value, created));
      Ok(t1.(outbound := t.outbound + InvoiceRequest(t.users[i].customerId, priceId)))
  }

  /** The package `add_credits_to_user` acts on: a non-empty package for the first line item's price. */
  function BoughtPackage(lineItems: seq<LineItem>, packages: seq<CreditPackage>): Option<CreditPackage>
  {
    if FirstPrice(lineItems).None? then None
    else
      var p := PackageByPriceId(packages, FirstPrice(lineItems));
      if p.None? || p.value.IsEmpty() then None else p
  }

  /** The ledger text `Bought {credits} credits for {currency_symbol} {value} `. */
  function PurchaseReason(credits: int, symbol: string, value: string): (r: string)
    ensures StartsWith(r, "Bought " + IntToString(credits))
  {
    "Bought " + IntToString(credits) + " credits for " + symbol + " " + value + " "
  }

  /**
   * The credit count and reason of a package, or the `KeyError` reading
   * `credits`, `price`, `currency_symbol` or `value` raises, in that order.
   */
  function CreditsAndReason(p: CreditPackage): Result<(int, string), HandlerError>
  {
    if p.credits.None? then Err(KeyError("credits"))
    else if p.price.None? then Err(KeyError("price"))
    else if p.price.value.currencySymbol.None? then Err(KeyError("currency_symbol"))
    else if p.price.value.value.None? then Err(KeyError("value"))
    else Ok((p.credits.value, PurchaseReason(p.credits.value, p.price.value.currencySymbol.value, p.price.value.value.value)))
  }

  /** `add_credits_to_user` (`checkout.session.completed`). */
  function AddCreditsSpec(t: Tables, o: EventObject, lineItems: seq<LineItem>, packages: seq<CreditPackage>): Result<Tables, HandlerError>
  {
    match BoughtPackage(lineItems, packages)
    case None => Ok(t)
    case Some(p) =>
      match UserIndex(t.users, o.customer)
      case None => Ok(t)
      case Some(i) => CreditPurchaseSpec(t, i, p, FirstPrice(lineItems).value)
  }

  /**
   * What `add_credits_to_user` does to the user in position `i`: the
   * package's credits with their ledger row, then the paid invoice.
   */
  function CreditPurchaseSpec(t: Tables, i: nat, p: CreditPackage, priceId: string): Result<Tables, HandlerError>
    requires i < |t.users|
  {
    match CreditsAndReason(p)
    case Err(e) => Err(e)
    case Ok(cr) =>
      var u := t.users[i];
      var after := u.creditsBalance + cr.0;
      Ok(Tables(
        t.users[i := u.(creditsBalance := after)],
        t.creditActions + [CreditAction(u.id, cr.0, cr.1, u.creditsBalance, after)],
        t.invoices,
        t.outbound + InvoiceRequest(u.customerId, priceId)))
  }

  /** One handler applied to the tables. */
  function Apply(h: Handler, o: EventObject, lineItems: seq<LineItem>, plans: seq<Plan>, packages: seq<CreditPackage>, t: Tables): Result<Tables, HandlerError>
  {
    match h
    case DeleteCustomer => Ok(DeleteCustomerSpec(t, o))
    case PaidInvoice => PaidInvoiceSpec(t, o)
    case CreateOrUpdateSubscription => CreateOrUpdateSpec(t, o, plans)
    case DeleteSubscription => Ok(DeleteSubscriptionSpec(t, o))
    case AddInvoice => Ok(AddInvoiceSpec(t, o))
    case CreateOnetimeSubscription => CreateOnetimeSpec(t, o, lineItems, plans)
    case AddCreditsToUser => AddCreditsSpec(t, o, lineItems, packages)
  }

  function Step(o: EventObject, lineItems: seq<LineItem>, plans: seq<Plan>, packages: seq<CreditPackage>): (Handler, Tables) -> Result<Tables, HandlerError>
  {
    (h: Handler, t: Tables) => Apply(h, o, lineItems, plans, packages, t)
  }

  /** `handle_event(event)` with the handlers registered for its type. */
  function HandleEventSpec(hs: seq<Handler>, e: Event, lineItems: seq<LineItem>, plans: seq<Plan>, packages: seq<CreditPackage>, t: Tables): Dispatched<Handler, Tables, HandlerError>
  {
    Dispatch(hs, Step(e.data, lineItems, plans, packages), t)
  }

  /** The registrations the decorators of the module make when it is imported. */
  const SHIPPED_HANDLERS: map<string, seq<Handler>> := map[
    "customer.deleted" := [DeleteCustomer],
    "invoice.paid" := [PaidInvoice],
    "customer.subscription.updated" := [CreateOrUpdateSubscription],
    "customer.subscription.created" := [CreateOrUpdateSubscription],
    "customer.subscription.deleted" := [DeleteSubscription],
    "invoice.finalized" := [AddInvoice],
    "checkout.session.completed" := [CreateOnetimeSubscription, AddCreditsToUser]]

  /** Every handler leaves all tables unchanged when nobody has the customer id it looks up. */
  lemma NoUserNoChange(h: Handler, o: EventObject, lineItems: seq<LineItem>, plans: seq<Plan>, packages: seq<CreditPackage>, t: Tables)
    requires forall j :: 0 <= j < |t.users| ==> t.users[j].customerId != CustomerOf(h, o)
    ensures Apply(h, o, lineItems, plans, packages, t) == Ok(t)
  {
    assert UserIndex(t.users, CustomerOf(h, o)).None?;
  }

  /**
   * Replaying a created/updated event gives the same tables as applying it
   * once: it only overwrites fields, and the row it finds is the same.
   */
  lemma {:induction false} CreateOrUpdateIdempotent(t: Tables, o: EventObject, plans: seq<Plan>)
    requires CreateOrUpdateSpec(t, o, plans).Ok?
    ensures CreateOrUpdateSpec(CreateOrUpdateSpec(t, o, plans).value, o, plans) == CreateOrUpdateSpec(t, o, plans)
  {
    var t1 := CreateOrUpdateSpec(t, o, plans).value;
    if ItemPlan(o, plans).Some? && UserIndex(t.users, o.customer).Some? {
      var i := UserIndex(t.users, o.customer).value;
      assert forall j :: 0 <= j < |t.users| ==> t1.users[j].customerId == t.users[j].customerId;
      UserIndexSameIds(t.users, t1.users, o.customer, 0);
      var key := ItemPlan(o, plans).value.key.value;
      assert t1.users[i].subscription == FromStripe(key, o);
      assert t1.users[i := t1.users[i].(subscription := FromStripe(key, o))] == t1.users;
    }
  }

  /** `invoice.finalized` adds exactly one invoice, for the matched user, carrying the payload's id, number and URL. */
  lemma AddInvoiceAppendsOne(t: Tables, o: EventObject)
    ensures var t1 := AddInvoiceSpec(t, o);
      && t1.users == t.users && t1.creditActions == t.creditActions && t1.outbound == t.outbound
      && (UserIndex(t.users, o.customer).Some? ==>
            t1.invoices == t.invoices + [StripeInvoice(t.users[UserIndex(t.users, o.customer).value].id, o.id, o.number, o.hostedInvoiceUrl)])
      && (UserIndex(t.users, o.customer).None? ==> t1.invoices == t.invoices)
  {
  }

  /**
   * With the shipped catalogue, at most one of the two checkout handlers
   * changes anything: no price id is both a plan's and a package's.
   */
  lemma {:induction false} ShippedCheckoutExclusive(t: Tables, o: EventObject, lineItems: seq<LineItem>)
    ensures CreateOnetimeSpec(t, o, lineItems, SUBSCRIPTIONS) == Ok(t) || AddCreditsSpec(t, o, lineItems, CREDIT_PACKAGES) == Ok(t)
  {
    if LifetimePlan(lineItems, SUBSCRIPTIONS).Some? {
      ShippedPriceIdsUnambiguous(FirstPrice(lineItems));
      assert BoughtPackage(lineItems, CREDIT_PACKAGES).None?;
    }
  }

  /** There is no deduplication: replaying a credit purchase credits the package a second time. */
  lemma {:induction false} CreditsReplayCreditsAgain(t: Tables, o: EventObject, lineItems: seq<LineItem>, packages: seq<CreditPackage>, i: nat, p: CreditPackage, credits: int)
    requires UserIndex(t.users, o.customer) == Some(i)
    requires BoughtPackage(lineItems, packages) == Some(p)
    requires p.credits == Some(credits) && p.price.Some? && p.price.value.currencySymbol.Some? && p.price.value.value.Some?
    ensures AddCreditsSpec(t, o, lineItems, packages).Ok?
    ensures var t1 := AddCreditsSpec(t, o, lineItems, packages).value;
      && AddCreditsSpec(t1, o, lineItems, packages).Ok?
      && AddCreditsSpec(t1, o, lineItems, packages).value.users[i].creditsBalance == t.users[i].creditsBalance + 2 * credits
      && |AddCreditsSpec(t1, o, lineItems, packages).value.creditActions| == |t.creditActions| + 2
  {
    var t1 := AddCreditsSpec(t, o, lineItems, packages).value;
    assert forall j :: 0 <= j < |t.users| ==> t1.users[j].customerId == t.users[j].customerId;
    UserIndexSameIds(t.users, t1.users, o.customer, 0);
  }

  /** Only the users change: the ledger, the invoices and the requests to Stripe stay as they were. */
  predicate UsersOnly(t: Tables, t1: Tables)
  {
    t1.creditActions == t.creditActions && t1.invoices == t.invoices && t1.outbound == t.outbound && |t1.users| == |t.users|
  }

  /** `customer.deleted` clears the customer id of the first user holding the deleted one, and changes nothing else. */
  lemma DeleteCustomerClearsId(t: Tables, o: EventObject)
    ensures var t1 := DeleteCustomerSpec(t, o);
      && UsersOnly(t, t1)
      && (forall j :: 0 <= j < |t.users| ==>
            t1.users[j] == t.users[j] || (t.users[j].customerId == Some(o.id) && t1.users[j] == t.users[j].(customerId := None)))
      && (UserIndex(t.users, Some(o.id)).Some? ==> t1.users[UserIndex(t.users, Some(o.id)).value].customerId.None?)
  {
  }

  /**
   * `invoice.paid` raises `IndexError` only for an invoice without lines;
   * otherwise at most the matched user's period changes, to the first
   * line's, and never for a lifetime subscription.
   */
  lemma PaidInvoiceSetsPeriod(t: Tables, o: EventObject)
    ensures PaidInvoiceSpec(t, o).Err? ==> PaidInvoiceSpec(t, o) == Err(IndexError) && |o.lines| == 0
    ensures PaidInvoiceSpec(t, o).Ok? ==>
      var t1 := PaidInvoiceSpec(t, o).value;
      && UsersOnly(t, t1)
      && forall j :: 0 <= j < |t.users| ==>
           t1.users[j] == t.users[j] ||
           (t.users[j].customerId == o.customer && !t.users[j].subscription.lifetime && |o.lines| > 0 &&
            t1.users[j] == t.users[j].(subscription := t.users[j].subscription.(currentPeriodStart := o.lines[0].periodStart, currentPeriodEnd := o.lines[0].periodEnd)))
  {
  }

  /**
   * `customer.subscription.created`/`.updated` raises only the `KeyError` of
   * a keyless plan; otherwise at most the matched user's subscription
   * changes, to the one the event describes under the plan's key.
   */
  lemma CreateOrUpdateOverwrites(t: Tables, o: EventObject, plans: seq<Plan>)
    ensures CreateOrUpdateSpec(t, o, plans).Err? ==> CreateOrUpdateSpec(t, o, plans) == Err(KeyError("key"))
    ensures CreateOrUpdateSpec(t, o, plans).Ok? ==>
      var t1 := CreateOrUpdateSpec(t, o, plans).value;
      && UsersOnly(t, t1)
      && forall j :: 0 <= j < |t.users| ==>
           t1.users[j] == t.users[j] ||
           (t.users[j].customerId == o.customer && ItemPlan(o, plans).Some? && ItemPlan(o, plans).value.key.Some? &&
            t1.users[j] == t.users[j].(subscription := FromStripe(ItemPlan(o, plans).value.key.value, o)))
  {
  }

  /** `customer.subscription.deleted` resets at most the matched user's subscription, and changes nothing else. */
  lemma DeleteSubscriptionResets(t: Tables, o: EventObject)
    ensures var t1 := DeleteSubscriptionSpec(t, o);
      && UsersOnly(t, t1)
      && forall j :: 0 <= j < |t.users| ==>
           t1.users[j] == t.users[j] ||
           (t.users[j].customerId == o.customer && t1.users[j] == t.users[j].(subscription := t.users[j].subscription.ResetToDefault()))
  {
  }

  /**
   * A lifetime checkout raises only the `KeyError` of a keyless plan;
   * otherwise at most the matched user gets the lifetime subscription, with
   * at most one invoice request added, and the ledger and invoices stay.
   */
  lemma CreateOnetimeGrants(t: Tables, o: EventObject, lineItems: seq<LineItem>, plans: seq<Plan>)
    ensures CreateOnetimeSpec(t, o, lineItems, plans).Err? ==> CreateOnetimeSpec(t, o, lineItems, plans) == Err(KeyError("key"))
    ensures CreateOnetimeSpec(t, o, lineItems, plans).Ok? ==>
      var t1 := CreateOnetimeSpec(t, o, lineItems, plans).value;
      && t1.creditActions == t.creditActions && t1.invoices == t.invoices
      && |t.outbound| <= |t1.outbound| <= |t.outbound| + 1 && t1.outbound[..|t.outbound|] == t.outbound
      && |t1.users| == |t.users|
      && forall j :: 0 <= j < |t.users| ==>
           t1.users[j] == t.users[j] ||
           (t.users[j].customerId == o.customer && LifetimePlan(lineItems, plans).Some? && LifetimePlan(lineItems, plans).value.key.Some? &&
            t1.users[j] == t.users[j].(subscription := Lifetime(LifetimePlan(lineItems, plans).value.key.value, o.created)))
  {
  }

  /**
   * A credit checkout raises only a `KeyError` of the package; otherwise at
   * most the matched user's balance grows by the package's credits, with at
   * most one ledger row and one invoice request added.
   */
  lemma AddCreditsCredits(t: Tables, o: EventObject, lineItems: seq<LineItem>, packages: seq<CreditPackage>)
    ensures AddCreditsSpec(t, o, lineItems, packages).Err? ==> AddCreditsSpec(t, o, lineItems, packages).error.KeyError?
    ensures AddCreditsSpec(t, o, lineItems, packages).Ok? ==>
      var t1 := AddCreditsSpec(t, o, lineItems, packages).value;
      && t1.invoices == t.invoices
      && |t.creditActions| <= |t1.creditActions| <= |t.creditActions| + 1 && t1.creditActions[..|t.creditActions|] == t.creditActions
      && |t.outbound| <= |t1.outbound| <= |t.outbound| + 1 && t1.outbound[..|t.outbound|] == t.outbound
      && |t1.users| == |t.users|
      && forall j :: 0 <= j < |t.users| ==>
           t1.users[j] == t.users[j] ||
           (t.users[j].customerId == o.customer && BoughtPackage(lineItems, packages).Some? && BoughtPackage(lineItems, packages).value.credits.Some? &&
            t1.users[j] == t.users[j].(creditsBalance := t.users[j].creditsBalance + BoughtPackage(lineItems, packages).value.credits.value))
  {
  }

  /** Primary keys are unique, and every balance is what the user's ledger rows add up to. */
  ghost predicate Reconciled(t: Tables)
  {
    && (forall i, j :: 0 <= i < j < |t.users| ==> t.users[i].id != t.users[j].id)
    && (forall i :: 0 <= i < |t.users| ==>
          t.users[i].creditsBalance == LedgerBalance(t.creditActions, t.users[i].id) &&
          Chained(t.creditActions, t.users[i].id))
  }

  /** Every handler run that does not raise keeps the ledger reconciled with the balances. */
  lemma {:induction false} ApplyKeepsReconciled(h: Handler, o: EventObject, lineItems: seq<LineItem>, plans: seq<Plan>, packages: seq<CreditPackage>, t: Tables)
    requires Reconciled(t) && Apply(h, o, lineItems, plans, packages, t).Ok?
    ensures Reconciled(Apply(h, o, lineItems, plans, packages, t).value)
  {
    var t1 := Apply(h, o, lineItems, plans, packages, t).value;
    if h == AddCreditsToUser && t1 != t {
      var p := BoughtPackage(lineItems, packages).value;
      var i := UserIndex(t.users, o.customer).value;
      var cr := CreditsAndReason(p).value;
      var u := t.users[i];
      var a := CreditAction(u.id, cr.0, cr.1, u.creditsBalance, u.creditsBalance + cr.0);
      assert t1.creditActions == t.creditActions + [a];
      RecordKeepsChain(t.creditActions, a);
      forall j | 0 <= j < |t1.users|
        ensures t1.users[j].creditsBalance == LedgerBalance(t1.creditActions, t1.users[j].id)
        ensures Chained(t1.creditActions, t1.users[j].id)
      {
        if j != i {
          RecordLeavesOthers(t.creditActions, a, t.users[j].id);
        }
      }
    } else if h != AddCreditsToUser {
      SameLedgerAndBalances(h, o, lineItems, plans, packages, t);
    }
  }

  /** The handlers other than the credit purchase change neither the ledger nor any user's id or balance. */
  lemma SameLedgerAndBalances(h: Handler, o: EventObject, lineItems: seq<LineItem>, plans: seq<Plan>, packages: seq<CreditPackage>, t: Tables)
    requires h != AddCreditsToUser && Apply(h, o, lineItems, plans, packages, t).Ok?
    ensures var t1 := Apply(h, o, lineItems, plans, packages, t).value;
      t1.creditActions == t.creditActions && |t1.users| == |t.users| &&
      forall j :: 0 <= j < |t.users| ==> t1.users[j].id == t.users[j].id && t1.users[j].creditsBalance == t.users[j].creditsBalance
  {
    match h {
      case DeleteCustomer =>
      case PaidInvoice =>
      case CreateOrUpdateSubscription =>
      case DeleteSubscription =>
      case AddInvoice =>
      case CreateOnetimeSubscription =>
    }
  }

  /** Hence a whole `handle_event`, whether or not a handler raised, leaves the ledger reconciled. */
  lemma {:induction false} DispatchKeepsReconciled(hs: seq<Handler>, o: EventObject, lineItems: seq<LineItem>, plans: seq<Plan>, packages: seq<CreditPackage>, t: Tables)
    requires Reconciled(t)
    ensures Reconciled(Dispatch(hs, Step(o, lineItems, plans, packages), t).state)
    decreases |hs|
  {
    if |hs| > 0 {
      var step := Step(o, lineItems, plans, packages);
      var r := step(hs[0], t);
      if r.Ok? {
        ApplyKeepsReconciled(hs[0], o, lineItems, plans, packages, t);
        DispatchKeepsReconciled(hs[1..], o, lineItems, plans, packages, r.value);
      }
    }
  }

  /** An event type with no registered handler calls nothing and changes nothing. */
  lemma UnregisteredTypeIsIgnored(e: Event, lineItems: seq<LineItem>, plans: seq<Plan>, packages: seq<CreditPackage>, t: Tables)
    requires e.eventType !in SHIPPED_HANDLERS
    ensures var hs := if e.eventType in SHIPPED_HANDLERS then SHIPPED_HANDLERS[e.eventType] else [];
      HandleEventSpec(hs, e, lineItems, plans, packages, t) == Dispatched(t, [], None)
  {
  }
}

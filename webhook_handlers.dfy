// The webhook handlers of modules/payments/webhooks.py run against the
// stored objects, each proved to leave the tables its specification in
// module Webhooks describes, and the registry and dispatch loop of
// modules/payments/webhook_handler.py that calls them.
module WebhookHandlers {
  import opened Wrappers
  import opened Catalog
  import opened BillingLookups
  import opened BillingModels
  import opened Accounts
  import opened Store
  import opened CreditLedger
  import opened AccountBilling
  import opened WebhookRouter
  import opened Webhooks

  /** `get_user_by_stripe_customer_id` (and the `filter(...).first()` the handlers write out). */
  method UserByStripeCustomerId(db: Database, customer: Option<string>) returns (user: User?)
    requires db.Valid()
    ensures UserIndex(db.Table(), customer).None? ==> user == null
    ensures UserIndex(db.Table(), customer).Some? ==> user == db.users[UserIndex(db.Table(), customer).value]
  {
    var i := 0;
    while i < |db.users|
      invariant 0 <= i <= |db.users|
      invariant UserIndexFrom(db.Table(), customer, i) == UserIndex(db.Table(), customer)
    {
      if db.users[i].stripeCustomerId == customer {
        return db.users[i];
      }
      i := i + 1;
    }
    return null;
  }

  /**
   * `create_stripe_invoice_for_price_for_user`: asks Stripe for an invoice
   * of one `priceId` item (finalized, and paid out of band with `markPaid`),
   * or does nothing when the user has no customer id.
   */
  method CreateStripeInvoiceForPriceForUser(db: Database, user: User, priceId: string, markPaid: bool)
    requires db.Valid()
    modifies db`outbound
    ensures db.Valid()
    ensures user.stripeCustomerId.Some? && user.stripeCustomerId.value != "" ==>
      db.Snapshot() == old(db.Snapshot()).(outbound := old(db.outbound) + [InvoiceForPrice(user.stripeCustomerId.value, priceId, markPaid)])
    ensures !(user.stripeCustomerId.Some? && user.stripeCustomerId.value != "") ==> db.Snapshot() == old(db.Snapshot())
  {
    if user.stripeCustomerId.Some? && user.stripeCustomerId.value != "" {
      db.Send(InvoiceForPrice(user.stripeCustomerId.value, priceId, markPaid));
    }
  }

  /** A handler's outcome: the tables it leaves, or the exception it raised. */
  function AsResult(t: Tables, failure: Option<HandlerError>): Result<Tables, HandlerError>
  {
    if failure.Some? then Err(failure.value) else Ok(t)
  }

  /** The subscription rows stay the same objects (handlers never re-link them). */
  twostate predicate SameLinks(db: Database)
    reads db, db.users
  {
    db.users == old(db.users) &&
    forall j :: 0 <= j < |db.users| ==> db.users[j].subscription == old(db.users[j].subscription)
  }

  /** `delete_customer`. */
  method DeleteCustomerHandler(db: Database, o: EventObject)
    requires db.Valid()
    modifies db.users
    ensures db.Valid() && SameLinks(db)
    ensures db.Snapshot() == DeleteCustomerSpec(old(db.Snapshot()), o)
  {
    ghost var t0 := db.Snapshot();
    var user := UserByStripeCustomerId(db, Some(o.id));
    assert db.Table() == t0.users;
    if user != null {
      ghost var i := UserIndex(t0.users, Some(o.id)).value;
      db.SaveStripeCustomerId(user, i, None);
    }
  }

  /** `paid_invoice`. */
  method PaidInvoiceHandler(db: Database, o: EventObject) returns (failure: Option<HandlerError>)
    requires db.Valid()
    modifies db.Subscriptions()
    ensures db.Valid() && SameLinks(db)
    ensures AsResult(db.Snapshot(), failure) == PaidInvoiceSpec(old(db.Snapshot()), o)
    ensures failure.Some? ==> db.Snapshot() == old(db.Snapshot())
  {
    ghost var t0 := db.Snapshot();
    var user := UserByStripeCustomerId(db, o.customer);
    assert db.Table() == t0.users;
    if user != null && !user.subscription.lifetime {
      if |o.lines| == 0 {
        return Some(IndexError);
      }
      ghost var i := UserIndex(t0.users, o.customer).value;
      var s := user.subscription.State();
      db.SaveSubscription(user.subscription, i, s.(currentPeriodStart := o.lines[0].periodStart, currentPeriodEnd := o.lines[0].periodEnd));
    }
    return None;
  }

  /** `create_or_update_subscription`. */
  method CreateOrUpdateSubscriptionHandler(db: Database, o: EventObject, plans: seq<Plan>) returns (failure: Option<HandlerError>)
    requires db.Valid()
    modifies db.Subscriptions()
    ensures db.Valid() && SameLinks(db)
    ensures AsResult(db.Snapshot(), failure) == CreateOrUpdateSpec(old(db.Snapshot()), o, plans)
    ensures failure.Some? ==> db.Snapshot() == old(db.Snapshot())
  {
    ghost var t0 := db.Snapshot();
    failure := None;
    if |o.items| > 0 && o.items[0].priceId.Some? {
      var plan := GetSubscriptionByPriceId(plans, o.items[0].priceId);
      assert db.Snapshot() == t0;
      if plan.Some? && !plan.value.IsEmpty() {
        assert ItemPlan(o, plans) == plan;
        var user := UserByStripeCustomerId(db, o.customer);
        assert db.Snapshot() == t0;
        if user != null {
          if plan.value.key.None? {
            failure := Some(KeyError("key"));
          } else {
            ghost var i := UserIndex(t0.users, o.customer).value;
            db.SaveSubscription(user.subscription, i, FromStripe(plan.value.key.value, o));
          }
        }
      }
    }
  }

  /** `delete_subscription`. */
  method DeleteSubscriptionHandler(db: Database, o: EventObject)
    requires db.Valid()
    modifies db.Subscriptions()
    ensures db.Valid() && SameLinks(db)
    ensures db.Snapshot() == DeleteSubscriptionSpec(old(db.Snapshot()), o)
  {
    ghost var t0 := db.Snapshot();
    var user := UserByStripeCustomerId(db, o.customer);
    assert db.Table() == t0.users;
    if user != null {
      ghost var i := UserIndex(t0.users, o.customer).value;
      db.ResetSubscription(user.subscription, i);
    }
  }

  /** `add_invoice`. */
  method AddInvoiceHandler(db: Database, o: EventObject)
    requires db.Valid()
    modifies db`invoices
    ensures db.Valid() && SameLinks(db)
    ensures db.Snapshot() == AddInvoiceSpec(old(db.Snapshot()), o)
  {
    ghost var t0 := db.Snapshot();
    var user := UserByStripeCustomerId(db, o.customer);
    assert db.Table() == t0.users;
    if user != null {
      db.CreateInvoice(StripeInvoice(user.id, o.id, o.number, o.hostedInvoiceUrl));
    }
  }

  /** `create_onetime_subscription`. */
  method CreateOnetimeSubscriptionHandler(db: Database, o: EventObject, lineItems: seq<LineItem>, plans: seq<Plan>)
    returns (failure: Option<HandlerError>)
    requires db.Valid()
    modifies db`outbound, db.Subscriptions()
    ensures db.Valid() && SameLinks(db)
    ensures AsResult(db.Snapshot(), failure) == CreateOnetimeSpec(old(db.Snapshot()), o, lineItems, plans)
    ensures failure.Some? ==> db.Snapshot() == old(db.Snapshot())
  {
    ghost var t0 := db.Snapshot();
    var user := UserByStripeCustomerId(db, o.customer);
    assert db.Snapshot() == t0;
    failure := None;
    if |lineItems| > 0 && lineItems[0].price.Some? {
      var plan := GetSubscriptionByPriceId(plans, lineItems[0].price);
      assert db.Snapshot() == t0;
      if plan.Some? && !plan.value.IsEmpty() && plan.value.IsLifetime() {
        assert LifetimePlan(lineItems, plans) == plan;
        if user != null {
          ghost var i := UserIndex(t0.users, o.customer).value;
          failure := GrantLifetime(db, user, i, plan.value, o.created, lineItems[0].price.value);
        }
      }
    }
  }

  /** The part of `create_onetime_subscription` that acts on the user found in position `i`. */
  method GrantLifetime(db: Database, user: User, ghost i: nat, plan: Plan, created: int, priceId: string)
    returns (failure: Option<HandlerError>)
    requires db.Valid() && i < |db.users| && user == db.users[i]
    modifies db`outbound, db.Subscriptions()
    ensures db.Valid() && SameLinks(db)
    ensures AsResult(db.Snapshot(), failure) == GrantLifetimeSpec(old(db.Snapshot()), i, plan, created, priceId)
    ensures failure.Some? ==> db.Snapshot() == old(db.Snapshot())
  {
    if plan.key.None? {
      return Some(KeyError("key"));
    }
    ghost var t0 := db.Snapshot();
    assert user.stripeCustomerId == t0.users[i].customerId;
    var granted := Lifetime(plan.key.value, created);
    db.SaveSubscription(user.subscription, i, granted);
    ghost var t1 := db.Snapshot();
    CreateStripeInvoiceForPriceForUser(db, user, priceId, true);
    assert db.Snapshot() == t1.(outbound := t0.outbound + InvoiceRequest(t0.users[i].customerId, priceId));
    return None;
  }

  /** `user.add_credits(credits, reason)` for the user in position `i`, as a change of the tables. */
  method CreditUser(db: Database, user: User, ghost i: nat, amount: int, reason: string)
    requires db.Valid() && i < |db.users| && user == db.users[i]
    modifies user`creditsBalance, db`creditActions
    ensures db.Valid()
    ensures db.Snapshot() == old(db.Snapshot()).(
      users := old(db.Table())[i := old(db.Table())[i].(creditsBalance := old(user.creditsBalance) + amount)],
      creditActions := old(db.creditActions) + [CreditAction(user.id, amount, reason, old(user.creditsBalance), old(user.creditsBalance) + amount)])
  {
    ghost var before := db.Table();
    AddCredits(db, user, amount, reason);
    forall j | 0 <= j < |db.users| && j != i ensures Row(db.users[j]) == before[j] {
      assert db.users[j].id != user.id;
    }
    assert db.Table() == before[i := before[i].(creditsBalance := old(user.creditsBalance) + amount)];
  }

  /** `add_credits_to_user`. */
  method AddCreditsToUserHandler(db: Database, o: EventObject, lineItems: seq<LineItem>, packages: seq<CreditPackage>)
    returns (failure: Option<HandlerError>)
    requires db.Valid()
    modifies db`creditActions, db`outbound, db.users
    ensures db.Valid() && SameLinks(db)
    ensures AsResult(db.Snapshot(), failure) == AddCreditsSpec(old(db.Snapshot()), o, lineItems, packages)
    ensures failure.Some? ==> db.Snapshot() == old(db.Snapshot())
  {
    ghost var t0 := db.Snapshot();
    var user := UserByStripeCustomerId(db, o.customer);
    assert db.Snapshot() == t0;
    failure := None;
    if |lineItems| > 0 && lineItems[0].price.Some? {
      var package := GetCreditPackageByPriceId(packages, lineItems[0].price);
      assert db.Snapshot() == t0;
      if package.Some? && !package.value.IsEmpty() {
        assert BoughtPackage(lineItems, packages) == package;
        if user != null {
          ghost var i := UserIndex(t0.users, o.customer).value;
          failure := CreditPurchase(db, user, i, package.value, lineItems[0].price.value);
        }
      }
    }
  }

  /** The part of `add_credits_to_user` that acts on the user found in position `i`. */
  method CreditPurchase(db: Database, user: User, ghost i: nat, package: CreditPackage, priceId: string)
    returns (failure: Option<HandlerError>)
    requires db.Valid() && i < |db.users| && user == db.users[i]
    modifies db`creditActions, db`outbound, db.users
    ensures db.Valid() && SameLinks(db)
    ensures AsResult(db.Snapshot(), failure) == CreditPurchaseSpec(old(db.Snapshot()), i, package, priceId)
    ensures failure.Some? ==> db.Snapshot() == old(db.Snapshot())
  {
    var cr := CreditsAndReason(package);
    if cr.Err? {
      return Some(cr.error);
    }
    ghost var t0 := db.Snapshot();
    ghost var u := t0.users[i];
    assert u == Row(user);
    CreditUser(db, user, i, cr.value.0, cr.value.1);
    ghost var t1 := db.Snapshot();
    CreateStripeInvoiceForPriceForUser(db, user, priceId, true);
    assert db.Snapshot() == t1.(outbound := t0.outbound + InvoiceRequest(u.customerId, priceId));
    return None;
  }

  /** Calls the handler function `h` stands for on the event's object. */
  method RunHandler(db: Database, h: Handler, o: EventObject, lineItems: seq<LineItem>, plans: seq<Plan>, packages: seq<CreditPackage>)
    returns (failure: Option<HandlerError>)
    requires db.Valid()
    modifies db`invoices, db`outbound, db`creditActions, db.users, db.Subscriptions()
    ensures db.Valid() && SameLinks(db)
    ensures AsResult(db.Snapshot(), failure) == Apply(h, o, lineItems, plans, packages, old(db.Snapshot()))
    ensures failure.Some? ==> db.Snapshot() == old(db.Snapshot())
  {
    match h
    case DeleteCustomer =>
      DeleteCustomerHandler(db, o);
      failure := None;
    case PaidInvoice =>
      failure := PaidInvoiceHandler(db, o);
    case CreateOrUpdateSubscription =>
      failure := CreateOrUpdateSubscriptionHandler(db, o, plans);
    case DeleteSubscription =>
      DeleteSubscriptionHandler(db, o);
      failure := None;
    case AddInvoice =>
      AddInvoiceHandler(db, o);
      failure := None;
    case CreateOnetimeSubscription =>
      failure := CreateOnetimeSubscriptionHandler(db, o, lineItems, plans);
    case AddCreditsToUser =>
      failure := AddCreditsToUserHandler(db, o, lineItems, packages);
  }

  /**
   * `handle_event(event)`: the handlers registered for the event's type, in
   * registration order, until one raises. `called` is the handlers that
   * ran, the last of them the one that raised, if any did.
   */
  method HandleEvent(reg: Registry<Handler>, db: Database, e: Event, lineItems: seq<LineItem>, plans: seq<Plan>, packages: seq<CreditPackage>)
    returns (called: seq<Handler>, failure: Option<HandlerError>)
    requires db.Valid()
    modifies db`invoices, db`outbound, db`creditActions, db.users, db.Subscriptions()
    ensures db.Valid() && SameLinks(db)
    ensures Dispatched(db.Snapshot(), called, failure) ==
            HandleEventSpec(reg.RegisteredFor(e.eventType), e, lineItems, plans, packages, old(db.Snapshot()))
  {
    var hs := reg.RegisteredFor(e.eventType);
    ghost var t0 := db.Snapshot();
    ghost var step := Step(e.data, lineItems, plans, packages);
    called := [];
    failure := None;
    var k := 0;
    while k < |hs|
      invariant 0 <= k <= |hs|
      invariant db.Valid() && SameLinks(db)
      invariant called == hs[..k]
      invariant Dispatch(hs[..k], step, t0) == Dispatched(db.Snapshot(), hs[..k], None)
    {
      ghost var before := db.Snapshot();
      var f := RunHandler(db, hs[k], e.data, lineItems, plans, packages);
      assert step(hs[k], before) == AsResult(db.Snapshot(), f);
      assert called + [hs[k]] == hs[..k + 1];
      called := called + [hs[k]];
      if f.Some? {
        DispatchStopsAt(hs, step, t0, k);
        failure := f;
        return;
      }
      DispatchContinues(hs, step, t0, k);
      k := k + 1;
    }
    assert hs[..k] == hs;
  }

  /**
   * Importing modules/payments/webhooks.py: its `@receive` decorators, in
   * the order Python applies them, fill an empty registry with the shipped
   * table.
   */
  method RegisterShippedHandlers(reg: Registry<Handler>)
    requires reg.handlers == map[]
    modifies reg
    ensures reg.handlers == SHIPPED_HANDLERS
  {
    var f: Handler;
    assert reg.RegisteredFor("customer.deleted") == [];
    f := reg.Receive("customer.deleted", DeleteCustomer);
    assert [] + [DeleteCustomer] == [DeleteCustomer];
    assert reg.handlers == map["customer.deleted" := [DeleteCustomer]];
    assert reg.RegisteredFor("invoice.paid") == [];
    f := reg.Receive("invoice.paid", PaidInvoice);
    assert [] + [PaidInvoice] == [PaidInvoice];
    assert reg.handlers == map["customer.deleted" := [DeleteCustomer], "invoice.paid" := [PaidInvoice]];
    assert reg.RegisteredFor("customer.subscription.updated") == [];
    f := reg.Receive("customer.subscription.updated", CreateOrUpdateSubscription);
    assert [] + [CreateOrUpdateSubscription] == [CreateOrUpdateSubscription];
    assert reg.handlers == map["customer.deleted" := [DeleteCustomer], "invoice.paid" := [PaidInvoice], "customer.subscription.updated" := [CreateOrUpdateSubscription]];
    assert reg.RegisteredFor("customer.subscription.created") == [];
    f := reg.Receive("customer.subscription.created", CreateOrUpdateSubscription);
    assert [] + [CreateOrUpdateSubscription] == [CreateOrUpdateSubscription];
    assert reg.handlers == map["customer.deleted" := [DeleteCustomer], "invoice.paid" := [PaidInvoice], "customer.subscription.updated" := [CreateOrUpdateSubscription], "customer.subscription.created" := [CreateOrUpdateSubscription]];
    assert reg.RegisteredFor("customer.subscription.deleted") == [];
    f := reg.Receive("customer.subscription.deleted", DeleteSubscription);
    assert [] + [DeleteSubscription] == [DeleteSubscription];
    assert reg.handlers == map["customer.deleted" := [DeleteCustomer], "invoice.paid" := [PaidInvoice], "customer.subscription.updated" := [CreateOrUpdateSubscription], "customer.subscription.created" := [CreateOrUpdateSubscription], "customer.subscription.deleted" := [DeleteSubscription]];
    assert reg.RegisteredFor("invoice.finalized") == [];
    f := reg.Receive("invoice.finalized", AddInvoice);
    assert [] + [AddInvoice] == [AddInvoice];
    assert reg.handlers == map["customer.deleted" := [DeleteCustomer], "invoice.paid" := [PaidInvoice], "customer.subscription.updated" := [CreateOrUpdateSubscription], "customer.subscription.created" := [CreateOrUpdateSubscription], "customer.subscription.deleted" := [DeleteSubscription], "invoice.finalized" := [AddInvoice]];
    assert reg.RegisteredFor("checkout.session.completed") == [];
    f := reg.Receive("checkout.session.completed", CreateOnetimeSubscription);
    assert [] + [CreateOnetimeSubscription] == [CreateOnetimeSubscription];
    assert reg.handlers == map["customer.deleted" := [DeleteCustomer], "invoice.paid" := [PaidInvoice], "customer.subscription.updated" := [CreateOrUpdateSubscription], "customer.subscription.created" := [CreateOrUpdateSubscription], "customer.subscription.deleted" := [DeleteSubscription], "invoice.finalized" := [AddInvoice], "checkout.session.completed" := [CreateOnetimeSubscription]];
    assert reg.RegisteredFor("checkout.session.completed") == [CreateOnetimeSubscription];
    f := reg.Receive("checkout.session.completed", AddCreditsToUser);
    assert [CreateOnetimeSubscription] + [AddCreditsToUser] == [CreateOnetimeSubscription, AddCreditsToUser];
    assert reg.handlers == map["customer.deleted" := [DeleteCustomer], "invoice.paid" := [PaidInvoice], "customer.subscription.updated" := [CreateOrUpdateSubscription], "customer.subscription.created" := [CreateOrUpdateSubscription], "customer.subscription.deleted" := [DeleteSubscription], "invoice.finalized" := [AddInvoice], "checkout.session.completed" := [CreateOnetimeSubscription, AddCreditsToUser]];
  }
}

// The database the billing code reads and writes: the user table (each
// user with its one-to-one subscription row), the credit ledger, the
// invoice table, and the requests sent to Stripe along the way. Users are
// kept in primary-key order, the order `filter(...).first()` returns them in.
module Store {
  import opened Wrappers
  import opened BillingModels
  import opened Accounts

  /** A call made to the Stripe API (its answer is not modelled). */
  datatype StripeRequest =
    | CancelAtPeriodEnd(subscriptionId: string)                     // Subscription.modify(cancel_at_period_end=True)
    | InvoiceForPrice(customerId: string, priceId: string, markPaid: bool) // create, add item, finalize, pay

  /** The stored values of one user and its subscription. */
  datatype UserRow = UserRow(id: nat, customerId: Option<string>, creditsBalance: int, subscription: SubscriptionState)

  /** The whole observable state, as values. */
  datatype Tables = Tables(
    users: seq<UserRow>,
    creditActions: seq<CreditAction>,
    invoices: seq<StripeInvoice>,
    outbound: seq<StripeRequest>)

  ghost function Row(u: User): UserRow
    reads u, u.subscription
    requires u.subscription != null
  {
    UserRow(u.id, u.stripeCustomerId, u.creditsBalance, u.subscription.State())
  }

  class Database {
    var users: seq<User>
    var creditActions: seq<CreditAction>
    var invoices: seq<StripeInvoice>
    var outbound: seq<StripeRequest>

    /** Every user has its own subscription row, and primary keys are unique. */
    ghost predicate Valid()
      reads this`users, users
    {
      && (forall i :: 0 <= i < |users| ==> users[i].subscription != null)
      && (forall i, j :: 0 <= i < j < |users| ==> users[i].subscription != users[j].subscription)
      && (forall i, j :: 0 <= i < j < |users| ==> users[i].id != users[j].id)
    }

    ghost function Subscriptions(): set<Subscription>
      reads this`users, users
      requires Valid()
    {
      set i | 0 <= i < |users| :: users[i].subscription
    }

    ghost function Table(): (t: seq<UserRow>)
      reads this`users, users, Subscriptions()
      requires Valid()
      ensures |t| == |users|
      ensures forall i :: 0 <= i < |users| ==> t[i] == Row(users[i])
    {
      var us := users;
      seq(|us|, i requires 0 <= i < |us| && us[i].subscription != null
                  reads us, set j | 0 <= j < |us| :: us[j].subscription => Row(us[i]))
    }

    ghost function Snapshot(): Tables
      reads this, users, Subscriptions()
      requires Valid()
    {
      Tables(Table(), creditActions, invoices, outbound)
    }

    constructor ()
      ensures Valid() && users == [] && creditActions == [] && invoices == [] && outbound == []
    {
      users := [];
      creditActions := [];
      invoices := [];
      outbound := [];
    }

    /** `user.stripe_customer_id = v; user.save()` for the user in position `i`. */
    method SaveStripeCustomerId(user: User, ghost i: nat, v: Option<string>)
      requires Valid() && i < |users| && user == users[i]
      modifies user`stripeCustomerId
      ensures Valid()
      ensures Table() == old(Table())[i := old(Table())[i].(customerId := v)]
      ensures Snapshot() == old(Snapshot()).(users := old(Table())[i := old(Table())[i].(customerId := v)])
    {
      ghost var before := Table();
      user.stripeCustomerId := v;
      assert Row(users[i]) == before[i].(customerId := v);
      forall j | 0 <= j < |users| && j != i ensures Row(users[j]) == before[j] {
        assert users[j].id != user.id;
      }
    }

    /** `reset_to_default()` on the subscription of the user in position `i`. */
    method ResetSubscription(sub: Subscription, ghost i: nat)
      requires Valid() && i < |users| && sub == users[i].subscription
      modifies sub
      ensures Valid()
      ensures Table() == old(Table())[i := old(Table())[i].(subscription := old(Table())[i].subscription.ResetToDefault())]
      ensures Snapshot() == old(Snapshot()).(users := Table())
    {
      ghost var before := Table();
      sub.ResetToDefault();
      assert Row(users[i]) == before[i].(subscription := before[i].subscription.ResetToDefault());
      forall j | 0 <= j < |users| && j != i ensures Row(users[j]) == before[j] {
        assert users[j].subscription != sub;
      }
    }

    /** Assigning the subscription fields of the user in position `i` and `save()`. */
    method SaveSubscription(sub: Subscription, ghost i: nat, s: SubscriptionState)
      requires Valid() && i < |users| && sub == users[i].subscription
      modifies sub
      ensures Valid()
      ensures Table() == old(Table())[i := old(Table())[i].(subscription := s)]
      ensures Snapshot() == old(Snapshot()).(users := Table())
    {
      ghost var before := Table();
      sub.Assign(s);
      assert Row(users[i]) == before[i].(subscription := s);
      forall j | 0 <= j < |users| && j != i ensures Row(users[j]) == before[j] {
        assert users[j].subscription != sub;
      }
    }

    /** `StripeInvoice.objects.create(...)`. */
    method CreateInvoice(inv: StripeInvoice)
      requires Valid()
      modifies this`invoices
      ensures Valid()
      ensures Snapshot() == old(Snapshot()).(invoices := old(invoices) + [inv])
    {
      invoices := invoices + [inv];
    }

    /** A request sent to the Stripe API. */
    method Send(r: StripeRequest)
      requires Valid()
      modifies this`outbound
      ensures Valid()
      ensures Snapshot() == old(Snapshot()).(outbound := old(outbound) + [r])
    {
      outbound := outbound + [r];
    }
  }
}

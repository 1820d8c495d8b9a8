// The billing models of modules/billing/models.py: a user's subscription
// (a row whose fields the webhook handlers update in place), and the
// append-only invoice and credit-ledger rows.
module BillingModels {
  import opened Wrappers
  import opened Catalog

  const DEFAULT_KEY: string := "default"

  /** The field values of one `Subscription` row (timestamps in whole Unix seconds). */
  datatype SubscriptionState = SubscriptionState(
    key: string,
    stripeSubscriptionId: Option<string>,
    stripeStatus: Option<string>,
    starts: int,
    currentPeriodStart: int,
    currentPeriodEnd: int,
    cancelAtPeriodEnd: bool,
    lifetime: bool)
  {
    /** `is_default`. */
    predicate IsDefault()
    {
      key == DEFAULT_KEY
    }

    /** `marked_for_cancellation`. */
    predicate MarkedForCancellation()
    {
      cancelAtPeriodEnd && !lifetime && !IsDefault()
    }

    /** `can_be_cancelled`. */
    predicate CanBeCancelled()
    {
      stripeSubscriptionId.Some? && !IsDefault() && !lifetime && !MarkedForCancellation()
    }

    /** `cancels_at`, as the timestamp `datetime.fromtimestamp` is given. */
    function CancelsAt(): Option<int>
    {
      if cancelAtPeriodEnd then Some(currentPeriodEnd) else None
    }

    /** `renews_at`, as the timestamp `datetime.fromtimestamp` is given. */
    function RenewsAt(): Option<int>
    {
      if currentPeriodEnd == 0 then None else Some(currentPeriodEnd)
    }

    /**
     * `is_active`, with `now` the whole seconds of `timezone.now().timestamp()`:
     * for an integer period end, `end > t` and `end > floor(t)` agree.
     */
    predicate IsActive(now: int)
    {
      currentPeriodEnd > now && stripeStatus == Some("active")
    }

    /** `reset_to_default`: every field goes back to its default except `lifetime`. */
    function ResetToDefault(): (r: SubscriptionState)
      ensures r.IsDefault() && !r.CanBeCancelled() && !r.MarkedForCancellation()
      ensures forall now: int :: !r.IsActive(now)
      ensures r.RenewsAt().None? && r.CancelsAt().None?
      ensures r.lifetime == lifetime
      ensures r == NewSubscription(DEFAULT_KEY).(lifetime := lifetime)
    {
      SubscriptionState(DEFAULT_KEY, None, None, 0, 0, 0, false, lifetime)
    }
  }

  /** The row `Subscription.objects.create(user=..., subscription_key=key)` stores: the model defaults. */
  function NewSubscription(key: string): (r: SubscriptionState)
    ensures r.key == key && !r.lifetime && !r.cancelAtPeriodEnd
    ensures forall now: int :: !r.IsActive(now)
    ensures !r.CanBeCancelled() && !r.MarkedForCancellation()
    ensures r.RenewsAt().None? && r.CancelsAt().None?
  {
    SubscriptionState(key, None, None, 0, 0, 0, false, false)
  }

  /** Resetting twice is resetting once. */
  lemma ResetIdempotent(s: SubscriptionState)
    ensures s.ResetToDefault().ResetToDefault() == s.ResetToDefault()
  {
  }

  /**
   * The three states a paid plan can show on the billing page exclude each
   * other: cancellable, already marked for cancellation, or neither; lifetime
   * and default subscriptions are never either.
   */
  lemma CancellationStates(s: SubscriptionState)
    ensures !(s.CanBeCancelled() && s.MarkedForCancellation())
    ensures (s.lifetime || s.IsDefault()) ==> !s.CanBeCancelled() && !s.MarkedForCancellation()
    ensures s.MarkedForCancellation() ==> s.CancelsAt() == Some(s.currentPeriodEnd)
    ensures s.MarkedForCancellation() && s.currentPeriodEnd != 0 ==> s.CancelsAt() == s.RenewsAt()
  {
  }

  /**
   * Which subscriptions the cancel button applies to: exactly the Stripe
   * subscriptions to a renewing paid plan not yet set to end, and these have
   * no cancellation date; a subscription marked for cancellation has one.
   */
  lemma CancellableExactly(s: SubscriptionState)
    ensures s.CanBeCancelled() <==> s.stripeSubscriptionId.Some? && s.key != DEFAULT_KEY && !s.lifetime && !s.cancelAtPeriodEnd
    ensures s.CanBeCancelled() ==> s.CancelsAt().None?
    ensures s.MarkedForCancellation() ==> s.CancelsAt().Some?
  {
  }

  /** An active subscription (at a time after 1970) renews at its period end, which is still ahead. */
  lemma ActiveRenewsLater(s: SubscriptionState, now: int)
    requires s.IsActive(now) && now >= 0
    ensures s.RenewsAt() == Some(s.currentPeriodEnd) && s.RenewsAt().value > now
  {
  }

  /** A subscription active at `now` was active at every earlier instant with the same fields. */
  lemma ActiveUntilPeriodEnd(s: SubscriptionState, now: int, earlier: int)
    requires s.IsActive(now) && earlier <= now
    ensures s.IsActive(earlier)
    ensures !s.IsActive(s.currentPeriodEnd)
  {
  }

  /** A `Subscription` row; the webhook handlers assign its fields one by one. */
  class Subscription {
    var subscriptionKey: string
    var stripeSubscriptionId: Option<string>
    var stripeStatus: Option<string>
    var starts: int
    var currentPeriodStart: int
    var currentPeriodEnd: int
    var cancelAtPeriodEnd: bool
    var lifetime: bool

    function State(): SubscriptionState
      reads this
    {
      SubscriptionState(subscriptionKey, stripeSubscriptionId, stripeStatus, starts,
                        currentPeriodStart, currentPeriodEnd, cancelAtPeriodEnd, lifetime)
    }

    constructor (key: string)
      ensures State() == NewSubscription(key)
    {
      subscriptionKey := key;
      stripeSubscriptionId := None;
      stripeStatus := None;
      starts := 0;
      currentPeriodStart := 0;
      currentPeriodEnd := 0;
      cancelAtPeriodEnd := false;
      lifetime := false;
    }

    /** The handlers' field-by-field assignment of a subscription, followed by `save()`. */
    method Assign(s: SubscriptionState)
      modifies this
      ensures State() == s
    {
      subscriptionKey := s.key;
      stripeSubscriptionId := s.stripeSubscriptionId;
      stripeStatus := s.stripeStatus;
      starts := s.starts;
      currentPeriodStart := s.currentPeriodStart;
      currentPeriodEnd := s.currentPeriodEnd;
      cancelAtPeriodEnd := s.cancelAtPeriodEnd;
      lifetime := s.lifetime;
    }

    /** `reset_to_default` followed by `save()`. */
    method ResetToDefault()
      modifies this
      ensures State() == old(State()).ResetToDefault()
    {
      subscriptionKey := DEFAULT_KEY;
      stripeSubscriptionId := None;
      stripeStatus := None;
      starts := 0;
      currentPeriodStart := 0;
      currentPeriodEnd := 0;
      cancelAtPeriodEnd := false;
    }
  }

  /** A value in the dictionaries `to_dict` and `get_subscription` build. */
  datatype Value =
    | VStr(s: string)
    | VInt(i: int)
    | VBool(b: bool)
    | VNone
    | VStrList(items: seq<string>)
    | VPrice(price: Price)

  function OptStr(o: Option<string>): Value
  {
    match o
    case None => VNone
    case Some(s) => VStr(s)
  }

  function OptInt(o: Option<int>): Value
  {
    match o
    case None => VNone
    case Some(i) => VInt(i)
  }

  const MODEL_FIELDS: set<string> := {
    "subscription_key", "stripe_subscription_id", "stripe_status", "starts",
    "current_period_start", "current_period_end", "cancel_at_period_end", "lifetime"}

  const DERIVED_FIELDS: set<string> := {
    "is_default", "can_be_cancelled", "marked_for_cancellation", "cancels_at", "renews_at", "is_active"}

  /** The stored fields of a `Subscription` row, under their column names. */
  function StoredFields(s: SubscriptionState): (d: map<string, Value>)
    ensures d.Keys == MODEL_FIELDS
    ensures d["subscription_key"] == VStr(s.key) && d["lifetime"] == VBool(s.lifetime)
  {
    map[
      "subscription_key" := VStr(s.key),
      "stripe_subscription_id" := OptStr(s.stripeSubscriptionId),
      "stripe_status" := OptStr(s.stripeStatus),
      "starts" := VInt(s.starts),
      "current_period_start" := VInt(s.currentPeriodStart),
      "current_period_end" := VInt(s.currentPeriodEnd),
      "cancel_at_period_end" := VBool(s.cancelAtPeriodEnd),
      "lifetime" := VBool(s.lifetime)]
  }

  /** The six derived methods of a `Subscription`, evaluated at `now`. */
  function DerivedFields(s: SubscriptionState, now: int): (d: map<string, Value>)
    ensures d.Keys == DERIVED_FIELDS
    ensures d["is_active"] == VBool(s.IsActive(now)) && d["is_default"] == VBool(s.IsDefault())
    ensures d["can_be_cancelled"] == VBool(s.CanBeCancelled())
    ensures d["marked_for_cancellation"] == VBool(s.MarkedForCancellation())
    ensures d["renews_at"] == OptInt(s.RenewsAt()) && d["cancels_at"] == OptInt(s.CancelsAt())
  {
    map[
      "is_default" := VBool(s.IsDefault()),
      "can_be_cancelled" := VBool(s.CanBeCancelled()),
      "marked_for_cancellation" := VBool(s.MarkedForCancellation()),
      "cancels_at" := OptInt(s.CancelsAt()),
      "renews_at" := OptInt(s.RenewsAt()),
      "is_active" := VBool(s.IsActive(now))]
  }

  /**
   * `Subscription.to_dict`: every stored field but `user`, then the value of
   * each of the six derived methods at `now`.
   */
  function ToDict(s: SubscriptionState, now: int): (d: map<string, Value>)
    ensures d.Keys == MODEL_FIELDS + DERIVED_FIELDS
    ensures forall k :: k in MODEL_FIELDS ==> d[k] == StoredFields(s)[k]
    ensures forall k :: k in DERIVED_FIELDS ==> d[k] == DerivedFields(s, now)[k]
  {
    FieldNamesDisjoint();
    StoredFields(s) + DerivedFields(s, now)
  }

  /** No derived method shares its name with a stored field. */
  lemma FieldNamesDisjoint()
    ensures MODEL_FIELDS * DERIVED_FIELDS == {}
    ensures forall k :: k in MODEL_FIELDS ==> k !in DERIVED_FIELDS
  {
  }

  /** A `StripeInvoice` row; `userId` is the owner's primary key. */
  datatype StripeInvoice = StripeInvoice(userId: nat, stripeId: string, number: string, hostedInvoiceUrl: Option<string>)

  /** A `CreditAction` row: one change of a user's credit balance, with the balance before and after. */
  datatype CreditAction = CreditAction(userId: nat, amount: int, action: string, creditsBefore: int, creditsAfter: int)

  /**
   * `ordering = ['-created_at']`: rows are created in list order with
   * non-decreasing `created_at`, so the listing shows the list reversed.
   */
  function NewestFirst<T>(rows: seq<T>): (r: seq<T>)
    ensures |r| == |rows|
    ensures forall k :: 0 <= k < |rows| ==> r[k] == rows[|rows| - 1 - k]
  {
    if |rows| == 0 then [] else [rows[|rows| - 1]] + NewestFirst(rows[..|rows| - 1])
  }

  /** A row created last is listed first, ahead of the earlier listing. */
  lemma {:induction false} NewestFirstAppend<T>(rows: seq<T>, row: T)
    ensures NewestFirst(rows + [row]) == [row] + NewestFirst(rows)
  {
    assert (rows + [row])[..|rows|] == rows;
  }
}

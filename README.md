# Ship With Django: billing ledger, webhook reconciliation and helper rules in Dafny

This project models the core of a Django SaaS starter template. The centre is the billing
ledger and the reconciliation of local subscription and credit state with Stripe's
asynchronous webhook events. Around it sit the small decision and string rules the
template ships:

- **Catalogue and ledger.** The plan and credit-package catalogue of `CONFIG/billing.py` and its first-match lookups by key or Stripe price id (subscriptions win over packages). Adding and consuming credits, each recorded in an append-only `CreditAction` row with the balance before and after.
- **Subscription record.** The `Subscription` row with its integer timestamps and flags (`reset_to_default`, `is_active`, `can_be_cancelled`, `marked_for_cancellation`). The post-save hook that gives every user a default subscription. The merged "current plan" of `User.get_subscription`.
- **Webhooks.** The registry from event type to an ordered handler list, its dispatch loop, and the seven Stripe handlers as state changes over users, subscriptions, invoices and the ledger. Each handler is a method on the stored objects, proved against a pure specification over a snapshot of the tables.
- **Billing views.** The checkout-mode choice and webhook endpoint of the payments views. The subscribe, purchase and cancel views. The subscription gate and credit-charging view mixins.
- **Configuration self test.** The power-on self test, which collects every configuration error.
- **Navigation and tables.** Sub-navigation filtering; the sort, page-size, search and pagination rules of the dynamic table view and its Excel export; the pagination bar and query building of `tables.js`.
- **Small stores and parsers.** The secrets cache (cache, then `.env`, then provider); the configuration-file editor; the setup wizard; the namespaced event helper of `events.js`; `getCookie` (section 5.4 of RFC 6265); crop geometry and "data" URLs (RFC 2397); mail routing, recipients and headers (section 3.6.3 of RFC 5322); the ignore-pattern rules of `test_template.py`.

Stripe, the network, files and the clock are inputs or recorded requests. Python exceptions are `Err` values of a `Result`.

## Model

| member | source | states |
|---|---|---|
| BillingLookups.FirstMatch | modules/billing/utils.py:96-99 | the position found is the first whose element satisfies the test; none means no element does |
| BillingLookups.ValidSubscriptionKeys | modules/billing/utils.py:8 | a key is valid exactly when some plan of the catalogue carries it (a keyless plan is skipped, see Left out) |
| BillingLookups.PlanByKey | modules/billing/utils.py:93-99 | the first plan, in list order, whose key equals the argument; none iff no plan has that key |
| BillingLookups.PlanByPriceId | modules/billing/utils.py:101-106 | the first plan whose price id equals the argument (an absent price id compares equal to None); none iff no plan matches |
| BillingLookups.PackageByKey | modules/billing/utils.py:108-113 | the first credit package with that key; none iff no package has it |
| BillingLookups.PackageByPriceId | modules/billing/utils.py:115-120 | the first credit package with that price id; none iff no package has it |
| BillingLookups.GetSubscriptionByKey | modules/billing/utils.py:93-99 | the for-loop with early return yields the first-match lookup |
| BillingLookups.GetSubscriptionByPriceId | modules/billing/utils.py:101-106 | the for-loop with early return yields the first-match lookup by price id |
| BillingLookups.GetCreditPackageByKey | modules/billing/utils.py:108-113 | the for-loop with early return yields the first-match package lookup |
| BillingLookups.GetCreditPackageByPriceId | modules/billing/utils.py:115-120 | the for-loop with early return yields the first-match package lookup by price id |
| BillingLookups.DataAndTypeForPriceId | modules/billing/utils.py:122-135 | a (truthy) plan match wins even when a package also matches; a package is returned only when no plan matches; otherwise (None, None) |
| BillingLookups.NoPriceIdFindsDefault | modules/billing/utils.py:103-105 | with the shipped catalogue a lookup of price id None finds the free `default` plan |
| BillingLookups.ShippedPriceIdsUnambiguous | modules/billing/utils.py:127-135 | with the shipped catalogue no price id is both a plan's and a package's, so the plan-first tie-break never decides |
| CreditLedger.RecordKeepsChain | modules/billing/utils.py:50-56 | a row whose credits_before is the ledger balance keeps the user's rows chained and moves the ledger balance to its credits_after |
| CreditLedger.RecordLeavesOthers | modules/billing/utils.py:50-56 | a row for one user leaves every other user's ledger balance and chain as they were |
| CreditLedger.AddCreditsToUser | modules/billing/utils.py:32-56 | balance becomes old + amount and exactly one CreditAction (amount, reason, before = old, after = old + amount) is appended; the balance-equals-ledger invariant is kept |
| CreditLedger.ConsumeCreditForUser | modules/billing/utils.py:58-91 | succeeds iff balance >= amount; then the balance drops by exactly amount (never below zero) with one audit row; otherwise balance and ledger are unchanged |
| CreditLedger.CancelSubscriptionForUser | modules/billing/utils.py:10-30 | true iff the Stripe subscription id is truthy; then one cancel-at-period-end request is recorded; no local subscription field changes |
| AccountBilling.AddCredits | modules/authentication/models.py:51-53 | the delegation adds exactly amount with one ledger row, reason defaulting to 'Added credits to account' |
| AccountBilling.ConsumeCredits | modules/authentication/models.py:55-60 | succeeds exactly when has_credits(amount) held before, so has_credits implies the consumption succeeds |
| AccountBilling.CancelSubscription | modules/authentication/models.py:17-19 | the delegation cancels iff the Stripe subscription id is truthy, recording one request |
| Catalog.ShippedDefaultPlan | CONFIG/billing.py:28-39 | exactly one plan is keyed 'default', the first, and it has no Stripe price id and no lifetime flag |
| Catalog.ShippedKeysDistinct | CONFIG/billing.py:28-125 | every plan and package has a key, and keys are pairwise distinct within each list |
| Catalog.ShippedPriceIdsDistinct | CONFIG/billing.py:49-121 | all Stripe price ids are distinct within and across both lists, and every package has one |
| Catalog.ShippedLifetimeAndCredits | CONFIG/billing.py:51-123 | only the 'lifetime' plan is a lifetime plan; every package has a positive credit count; no entry is empty |
| Accounts.PlanDict | CONFIG/billing.py:29-69 | the dictionary view of a plan holds exactly the keys the plan defines, with their values |
| Accounts.EffectiveKey | modules/authentication/models.py:24-27 | the subscription key when the subscription is active, 'default' otherwise |
| Accounts.Merge | modules/authentication/models.py:32-36 | the merged dict has the keys of both plus 'key'; 'key' is the given value, catalogue fields override subscription fields |
| Accounts.MergedPlan | modules/authentication/models.py:21-38 | fails iff the catalogue has no plan for the effective key; otherwise 'key' is the effective key and the other fields come from catalogue over subscription row |
| Accounts.User.constructor | modules/authentication/models.py:4-8 | a new user has balance 0, no Stripe customer id and no subscription |
| Accounts.User.GetInitials | modules/authentication/models.py:40-41 | (ASCII casing) upper-cased first letters of first and last name when both are non-empty, otherwise of the first two username characters; fails on a shorter username |
| Accounts.User.HasCreditsDownward | modules/authentication/models.py:59-60 | a user who has credits for an amount has them for every smaller amount, and a non-negative balance covers 0 |
| Accounts.User.GetSubscription | modules/authentication/models.py:21-38 | a user without a subscription raises; otherwise the merged plan of its subscription |
| Accounts.ShippedInactiveIsFreeTier | modules/authentication/models.py:24-36 | with the shipped catalogue an inactive subscription reads as the 'Free tier' plan keyed 'default', keeping the row's lifetime flag |
| Accounts.ShippedActiveLifetime | modules/authentication/models.py:24-36 | an active lifetime subscription reads as the 'lifetime' plan with lifetime true |
| BillingModels.SubscriptionState.ResetToDefault | modules/billing/models.py:42-50 | the reset state is default, neither cancellable nor marked, never active, renews and cancels at no time, and keeps lifetime |
| BillingModels.NewSubscription | modules/billing/models.py:13-18 | a fresh subscription has all timestamps 0 and both flags false, so it is inactive and neither cancellable nor marked |
| BillingModels.ResetIdempotent | modules/billing/models.py:42-50 | resetting twice equals resetting once |
| BillingModels.CancellationStates | modules/billing/models.py:52-66 | cancellable and marked exclude each other; lifetime or default rules out both; a marked subscription cancels at its period end |
| BillingModels.ActiveUntilPeriodEnd | modules/billing/models.py:68-69 | active at a time means active at every earlier time, and never active at the period end itself |
| BillingModels.CancellableExactly | modules/billing/models.py:52-61 | a subscription can be cancelled iff it has a Stripe id, is not the default plan, not lifetime and not already set to end, and then has no cancellation date; one marked for cancellation has one |
| BillingModels.ActiveRenewsLater | modules/billing/models.py:63-69 | an active subscription renews at its period end, which lies after the current time |
| BillingModels.Subscription.constructor | modules/billing/models.py:5-18 | a created row has the given key and the model defaults |
| BillingModels.Subscription.Assign | modules/payments/webhooks.py:41-51 | saving assigns every field of the given state |
| BillingModels.Subscription.ResetToDefault | modules/billing/models.py:42-50 | the row's new state is the reset of its old state |
| BillingModels.StoredFields | modules/billing/models.py:23-32 | the stored-field part of to_dict has exactly the model fields with the row's values |
| BillingModels.DerivedFields | modules/billing/models.py:25-35 | the method part of to_dict holds exactly the six predicates evaluated on the row |
| BillingModels.ToDict | modules/billing/models.py:23-37 | to_dict is the union of stored and derived fields |
| BillingModels.FieldNamesDisjoint | modules/billing/models.py:24-25 | no stored field name collides with a method name, so neither part overwrites the other |
| BillingModels.NewestFirst | modules/billing/models.py:80-81 | rows are listed newest first: the k-th listed is the k-th from the end of creation order |
| BillingModels.NewestFirstAppend | modules/billing/models.py:96-97 | a newly created row is listed first, before all older ones |
| BillingSignals.CreateSubscription | modules/billing/signals.py:6-8 | a user without a subscription gets a fresh 'default' one; a user who has one is left unchanged |
| BillingSignals.CreateUser | modules/billing/signals.py:6-10 | saving a new user adds one row with balance 0, no customer id and a default subscription, keeping the ledger audit |
| BillingSignals.FreshIdLedger | modules/billing/signals.py:6-10 | a new user id has an empty, consistent ledger |
| WebhookRouter.Registry.constructor | modules/payments/webhook_handler.py:1 | the registry starts with no handlers |
| WebhookRouter.Registry.RegisteredFor | modules/payments/webhook_handler.py:13 | an unregistered type has the empty handler list, a registered one its list |
| WebhookRouter.Registry.Receive | modules/payments/webhook_handler.py:3-9 | appends the function at the end of the type's list (creating it if absent), leaves every other type's list unchanged and returns the function itself |
| WebhookRouter.Dispatch | modules/payments/webhook_handler.py:11-15 | the handlers called are a prefix of the registered list, all of it unless one raised, in which case the raising handler is the last one called |
| WebhookRouter.DispatchAppend | modules/payments/webhook_handler.py:14-15 | running a list of handlers is running the first part, then the rest from where it left off |
| WebhookRouter.DispatchStopsAt | modules/payments/webhook_handler.py:14-15 | a handler that raises ends the dispatch: no later handler runs and the state is the one it was given |
| WebhookRouter.DispatchContinues | modules/payments/webhook_handler.py:14-15 | a handler that returns passes its state on to the next one |
| Store.Database.Table | modules/authentication/models.py:4-8 | the value snapshot has one row per user, each with that user's fields and subscription |
| Store.Database.constructor | modules/billing/models.py:71-97 | an empty database: no users, credit actions, invoices or Stripe requests |
| Store.Database.SaveStripeCustomerId | modules/payments/webhooks.py:15-16 | only the chosen user's stripe_customer_id changes |
| Store.Database.ResetSubscription | modules/billing/models.py:42-50 | only the chosen user's subscription changes, to its reset state |
| Store.Database.SaveSubscription | modules/payments/webhooks.py:41-51 | only the chosen user's subscription changes, to the given state |
| Store.Database.CreateInvoice | modules/payments/webhooks.py:65-70 | exactly one invoice row is appended and nothing else changes |
| Store.Database.Send | modules/payments/utils.py:64-76 | exactly one outbound Stripe request is recorded and nothing else changes |
| Webhooks.UserIndex | modules/payments/utils.py:41-44 | a found index points at a user whose stripe_customer_id equals the event's customer |
| Webhooks.UserIndexFrom | modules/payments/webhooks.py:13 | the scan from a position finds a matching user at or after it |
| Webhooks.UserIndexIsFirstMatch | modules/payments/webhooks.py:13 | `.filter(...).first()` is the first user, in table order, with that customer id; none iff no user has it |
| Webhooks.UserIndexSameIds | modules/payments/webhooks.py:13 | the user found depends only on the customer ids, so handlers that keep ids find the same user |
| Webhooks.UserIndexFromScans | modules/payments/webhooks.py:13 | the scan finds the first match at or after its start, and none means no later user matches |
| Webhooks.InvoiceRequest | modules/payments/utils.py:52-78 | an invoice is requested exactly when the user has a truthy customer id, and then for that customer, price and mark-paid flag |
| Webhooks.PurchaseReason | modules/payments/webhooks.py:117 | the ledger reason begins with "Bought" and the package's credit count |
| Webhooks.NoUserNoChange | modules/payments/webhooks.py:10-121 | when no user has the event's customer id, every handler leaves all state unchanged |
| Webhooks.CreateOrUpdateIdempotent | modules/payments/webhooks.py:29-51 | replaying a created/updated event gives the same state as applying it once |
| Webhooks.AddInvoiceAppendsOne | modules/payments/webhooks.py:60-70 | 'invoice.finalized' for a known customer appends exactly one invoice with the payload's id, number and hosted URL, and changes nothing else |
| Webhooks.DeleteCustomerClearsId | modules/payments/webhooks.py:10-16 | customer.deleted clears the customer id of the first user holding the deleted one; nothing else changes |
| Webhooks.PaidInvoiceSetsPeriod | modules/payments/webhooks.py:18-25 | invoice.paid raises IndexError only without invoice lines; otherwise only the matched non-lifetime user's period changes, to the first line's |
| Webhooks.CreateOrUpdateOverwrites | modules/payments/webhooks.py:27-51 | created/updated raises only KeyError on a keyless plan; otherwise only the matched user's subscription changes, to the event's under the plan key |
| Webhooks.DeleteSubscriptionResets | modules/payments/webhooks.py:53-58 | subscription.deleted resets only the matched user's subscription; nothing else changes |
| Webhooks.CreateOnetimeGrants | modules/payments/webhooks.py:72-101 | a lifetime checkout raises only KeyError on a keyless plan; otherwise only the matched user gets the lifetime subscription and at most one invoice request is added |
| Webhooks.AddCreditsCredits | modules/payments/webhooks.py:103-120 | a credit checkout raises only a KeyError of the package; otherwise only the matched user's balance grows by the package's credits, with at most one ledger row and one invoice request added |
| Webhooks.ShippedCheckoutExclusive | modules/payments/webhooks.py:72-121 | with the shipped catalogue at most one of the two checkout handlers changes state |
| Webhooks.CreditsReplayCreditsAgain | modules/payments/webhooks.py:103-121 | a credit checkout raises the balance by exactly the package's credits with one ledger row, so a replayed event credits again |
| Webhooks.ApplyKeepsReconciled | modules/payments/webhooks.py:10-121 | every handler keeps each user's balance equal to what its ledger rows record |
| Webhooks.DispatchKeepsReconciled | modules/payments/webhook_handler.py:11-15 | dispatching any handler list keeps balances reconciled with the ledger |
| Webhooks.UnregisteredTypeIsIgnored | modules/payments/webhook_handler.py:12-15 | an event type with no shipped handler calls nothing and changes nothing |
| WebhookHandlers.UserByStripeCustomerId | modules/payments/utils.py:41-44 | returns the first user with the customer id, or no user when none has it |
| WebhookHandlers.CreateStripeInvoiceForPriceForUser | modules/payments/utils.py:52-78 | with a truthy customer id the invoice requests are recorded; without one nothing changes |
| WebhookHandlers.DeleteCustomerHandler | modules/payments/webhooks.py:10-16 | the new state is the 'customer.deleted' transformation: only the matching user's customer id becomes None |
| WebhookHandlers.PaidInvoiceHandler | modules/payments/webhooks.py:18-25 | only the matching non-lifetime user's period start and end change, from the first invoice line; a missing line raises with no change |
| WebhookHandlers.CreateOrUpdateSubscriptionHandler | modules/payments/webhooks.py:27-51 | an unresolvable price is a no-op; otherwise the matching user's subscription fields are overwritten from the payload with lifetime false |
| WebhookHandlers.DeleteSubscriptionHandler | modules/payments/webhooks.py:53-58 | the matching user's subscription is reset to default |
| WebhookHandlers.AddInvoiceHandler | modules/payments/webhooks.py:60-70 | the new state is the old one plus one invoice for the matching user |
| WebhookHandlers.CreateOnetimeSubscriptionHandler | modules/payments/webhooks.py:72-101 | acts only when the first line item's price is a lifetime plan and the customer is known; the result is the lifetime-grant transformation |
| WebhookHandlers.GrantLifetime | modules/payments/webhooks.py:85-101 | the subscription becomes active lifetime from `created` to 4102441200 with no Stripe id, and one paid invoice is requested |
| WebhookHandlers.CreditUser | modules/payments/webhooks.py:116-118 | the user's balance grows by the amount with one matching ledger row |
| WebhookHandlers.AddCreditsToUserHandler | modules/payments/webhooks.py:103-121 | acts only when the first line item's price is a credit package and the customer is known; the result is the credit-purchase transformation |
| WebhookHandlers.CreditPurchase | modules/payments/webhooks.py:116-121 | the balance rises by the package's credits with one ledger row, and one paid invoice is requested |
| WebhookHandlers.RunHandler | modules/payments/webhooks.py:10-121 | running a registered handler applies exactly its transformation, and a raising one changes nothing |
| WebhookHandlers.HandleEvent | modules/payments/webhook_handler.py:11-15 | the handlers registered for the event type run once each, in registration order, stopping at the first that raises |
| WebhookHandlers.RegisterShippedHandlers | modules/payments/webhooks.py:10-103 | the decorators register seven handlers under seven event types: created and updated share one function, and checkout completion runs the lifetime handler before the credit handler |
| PaymentsViews.ModeName | modules/payments/views.py:45-48 | the two checkout modes are named 'payment' and 'subscription', and no other name is used |
| PaymentsViews.CheckoutModeFor | modules/payments/views.py:37-50 | no mode for a missing or unknown price id; 'subscription' for a recurring plan; 'payment' for a lifetime plan or a credit package |
| PaymentsViews.ShippedCheckoutModes | modules/payments/views.py:41-48 | with the shipped catalogue: monthly is a subscription, lifetime and every package are payments, and no price id buys nothing |
| PaymentsViews.ShippedPlanModes | modules/payments/views.py:41-48 | the monthly plan's price id opens a subscription checkout and the lifetime plan's a one-time payment |
| PaymentsViews.ShippedPackageMode | modules/payments/views.py:41-48 | each shipped credit package's price id opens a one-time payment |
| PaymentsViews.SessionFor | modules/payments/views.py:23-33 | the checkout session carries exactly one line item, the price with quantity 1, plus the mode, customer and return URLs |
| PaymentsViews.SetupCheckoutOutcome | modules/payments/views.py:37-50 | nothing to buy redirects to billing with an error; otherwise an anonymous user is sent to log in and a signed-in one to Stripe checkout |
| PaymentsViews.SetupCheckoutForPrice.constructor | modules/payments/views.py:16 | a new view has no price id and no mode |
| PaymentsViews.SetupCheckoutForPrice.Get | modules/payments/views.py:19-35 | redirects to the checkout session for the stored price and mode |
| PaymentsViews.SetupCheckoutForPrice.Dispatch | modules/payments/views.py:37-50 | stores the price id, sets the mode only when one is chosen, and answers the checkout outcome |
| PaymentsViews.Escaped | modules/payments/webhook_handler.py:14-15 | a handler's KeyError or IndexError escapes the view as that exception |
| PaymentsViews.WebhookOutcome | modules/payments/views.py:70-91 | a missing signature header raises KeyError; an invalid payload or signature answers 400 with no handler called; a verified event is dispatched once and answers 200 unless a handler raises |
| PaymentsViews.UnregisteredEventAcknowledged | modules/payments/views.py:89-91 | a verified event nobody handles is acknowledged with 200 and changes nothing |
| PaymentsViews.ShippedEventHandledOnce | modules/payments/views.py:89-91 | an acknowledged shipped event ran exactly its registered handlers, each once |
| PaymentsViews.Post | modules/payments/views.py:70-91 | the view's reply, new state and called handlers are those of the webhook outcome |
| Responses.BackToBilling | modules/billing/views.py:64-65 | a refusal is a redirect to manage billing carrying its flash message |
| BillingViews.VisitorOf | modules/billing/views.py:71 | an anonymous request has no user; a signed-in one sees the user's merged plan |
| BillingViews.Raise | modules/authentication/models.py:21-38 | a user without subscription raises DoesNotExist; a missing catalogue plan raises TypeError on the merge |
| BillingViews.SubscribablePrice | modules/billing/views.py:62-65 | a key is subscribable iff the catalogue has a plan for it with a truthy stripe_price_id, which is then the price |
| BillingViews.KeyCheckRedundant | modules/billing/views.py:62-69 | whenever the key lookup succeeds the key is in VALID_SUBSCRIPTION_KEYS, so the second check never refuses |
| BillingViews.CurrentPlanCheck | modules/billing/views.py:71-75 | the user's current key turns the request back with an info message; any other key goes on to checkout with the plan's price |
| BillingViews.SubscribeOutcomeAsWritten | modules/billing/views.py:59-75 | the dispatch as written: an invalid key is refused, and a valid key from an anonymous visitor raises AttributeError before the login check |
| BillingViews.ShippedSubscribablePrices | modules/billing/views.py:62-65 | with the shipped catalogue 'monthly' and 'lifetime' are subscribable at their own price ids |
| BillingViews.AnonymousSubscribeFails | modules/billing/views.py:59-75 | as written, an anonymous request for 'monthly' ends in a server error (500) |
| BillingViews.SubscribeOutcome | modules/billing/views.py:49-75 | corrected: an anonymous visitor is sent to log in; a signed-in one gets the dispatch as written |
| BillingViews.AnonymousSubscribeLogsIn | modules/billing/views.py:49 | corrected, an anonymous request never fails and answers a redirect (302) |
| BillingViews.AcceptedSubscribe | modules/billing/views.py:55-75 | an accepted subscribe comes from a signed-in user on another plan and redirects with that plan's truthy stripe_price_id |
| BillingViews.FreeTierSubscribes | modules/billing/views.py:55-75 | a signed-in visitor on the free tier asking for any other subscribable key is sent to checkout with that plan's price id |
| BillingViews.CurrentPlanTurnedBack | modules/billing/views.py:71-73 | subscribing to the plan one is actively on is turned back with 'already subscribed' |
| BillingViews.ShippedUnsubscribableKeys | modules/billing/views.py:62-65 | with the shipped catalogue 'default' and every unknown key are refused as invalid |
| BillingViews.ShippedSubscribeReachesCheckout | modules/billing/views.py:55-75 | a user without an active plan subscribing to 'monthly' reaches subscription checkout, and to 'lifetime' a one-time payment checkout |
| BillingViews.SubscribeToSubscription.constructor | modules/billing/views.py:49 | a new view holds no subscription data |
| BillingViews.SubscribeToSubscription.Get | modules/billing/views.py:55-57 | redirects to checkout with the stored plan's stripe_price_id |
| BillingViews.SubscribeToSubscription.Dispatch | modules/billing/views.py:59-75 | corrected: stores the looked-up plan for a signed-in user and answers the corrected subscribe outcome |
| BillingViews.PurchaseOutcome | modules/billing/views.py:110-118 | an unknown package key is refused with 'Invalid price ID'; otherwise an anonymous user logs in and a signed-in one goes to checkout with the package's price |
| BillingViews.ShippedPackagesPurchasable | modules/billing/views.py:106-118 | every shipped package key leads a signed-in user to checkout with its own price id |
| BillingViews.ShippedPackageFoundByKey | modules/billing/views.py:111-113 | looking a shipped package up by its own key finds that very package |
| BillingViews.PurchaseCreditsPackage.constructor | modules/billing/views.py:100 | a new view holds no package data |
| BillingViews.PurchaseCreditsPackage.Get | modules/billing/views.py:106-108 | redirects to checkout with the stored package's stripe_price_id |
| BillingViews.PurchaseCreditsPackage.Dispatch | modules/billing/views.py:110-118 | stores the looked-up package and answers the purchase outcome |
| BillingViews.CancelReply | modules/billing/views.py:93-98 | always redirects to manage billing; the success message iff the cancellation went through, the failure message otherwise |
| BillingViews.CancelPost | modules/billing/views.py:91-98 | an anonymous user is sent to log in with no request; otherwise the reply follows cancel_subscription and a Stripe request is recorded only on success |
| BillingMixins.GetRequiredSubscription | modules/billing/mixins.py:10-20 | a string becomes a one-element list, a list is returned unchanged, None and any other type raise ValueError |
| BillingMixins.SubscriptionGate | modules/billing/mixins.py:22-36 | anonymous users log in; a user without subscription is denied; access proceeds iff the raw subscription key is among the required ones |
| BillingMixins.SubscriptionGateFor | modules/billing/mixins.py:22-36 | the gate on a user object is the gate on its subscription row |
| BillingMixins.ExpiredSubscriptionAdmitted | modules/billing/mixins.py:33 | is_active is not consulted: an expired subscription with a required key is admitted although the user's effective plan is 'default' |
| BillingMixins.GateSeesOnlyKey | modules/billing/mixins.py:33 | two subscriptions with the same key get the same decision, whatever their other fields |
| BillingMixins.CreditActionView.constructor | modules/billing/mixins.py:38-41 | the view keeps its configured amount, action, method and failure URL |
| BillingMixins.CreditActionView.GetAmountOfCredits | modules/billing/mixins.py:43-47 | the configured amount, or ValueError when unset |
| BillingMixins.CreditActionView.GetAction | modules/billing/mixins.py:49-53 | the configured action, or ValueError when unset |
| BillingMixins.CreditActionView.GetConsumeCreditsOn | modules/billing/mixins.py:55-62 | 'get' or 'post' in any case, returned lowercased; ValueError when unset or anything else |
| BillingMixins.CreditActionView.GetFailedUrl | modules/billing/mixins.py:70-71 | the configured failure URL, and NotImplementedError when the view gives none |
| BillingMixins.CreditActionView.Decide | modules/billing/mixins.py:76-87 | anonymous users log in; credits are charged only when the method matches and the balance covers the amount; a short balance redirects to the failure URL with no charge |
| BillingMixins.CreditActionView.Dispatch | modules/billing/mixins.py:76-87 | the reply is the decision; an uncharged request leaves balance and ledger alone; a charged one consumes exactly the amount with one ledger row |
| BillingMixins.GetRequestsAreFree | modules/billing/mixins.py:81 | a view charging on POST lets GET requests through without charging |
| BillingMixins.ChargeNeverOverdraws | modules/billing/mixins.py:82-85 | a charge is exactly the configured amount and never takes the balance below zero |
| SelfTest.ModelChoiceOf | modules/post.py:29-57 | BILLING_MODEL is classified as exactly one of the four accepted values or as invalid |
| SelfTest.ManagerChoiceOf | modules/post.py:99-122 | SECRETS_MANAGER is classified as exactly one of the four accepted managers or as unknown |
| SelfTest.Shown | modules/post.py:42 | an entry's key is shown in its messages as the key itself |
| SelfTest.MissingProblems | modules/post.py:39-42 | at most one error per required key |
| SelfTest.MissingStep | modules/post.py:40-42 | checking one more required key adds exactly the error for that key, if it is missing |
| SelfTest.PriceProblems | modules/post.py:44-48 | at most two price errors |
| SelfTest.PriceKeysReported | modules/post.py:44-72 | a 'value' or 'currency_symbol' error is reported iff the price is present and lacks that sub-key |
| SelfTest.PlanEntries | modules/post.py:38 | the plans are checked one entry each, in list order |
| SelfTest.PackageEntries | modules/post.py:62 | the packages are checked one entry each, in list order |
| SelfTest.EachEntryStep | modules/post.py:38-48 | checking one more entry appends exactly that entry's errors |
| SelfTest.BillingChecksFollowModel | modules/post.py:24-73 | invalid model error iff the model is outside the four values; the default-plan and no-plans errors only for subscriptions/both, the no-packages error only for credits/both; 'none' yields no error |
| SelfTest.CatalogCheckFacts | modules/post.py:34-66 | the no-default error iff no plan is keyed 'default'; no-plans iff the list is empty; no-packages iff that list is empty |
| SelfTest.EntryErrorsAreKeyErrors | modules/post.py:38-72 | every per-entry error is a missing key or a missing price sub-key |
| SelfTest.MissingKinds | modules/post.py:40-42 | the required-key loop produces only missing-key errors |
| SelfTest.EachMissingKeyOnce | modules/post.py:39-48 | each missing required key yields exactly one error for its entry, and a present key none |
| SelfTest.MissingOnce | modules/post.py:39-42 | in the required-key loop a key's error appears once if missing and not at all if present |
| SelfTest.CatalogChecksFollowModel | modules/post.py:33-57 | a model that does not sell plans reports the same whatever the plans are, and likewise for packages |
| SelfTest.ShippedCatalogPasses | modules/post.py:24-79 | the shipped BILLING_MODEL and catalogue produce no billing error |
| SelfTest.CompletePlan | modules/post.py:38-48 | a plan with every required key and a complete price produces no error |
| SelfTest.BillingOutcomeAsWritten | modules/post.py:24-79 | as written: when it does not crash, the errors are those of the corrected check |
| SelfTest.KeylessPlanCrashesCheck | modules/post.py:42-50 | a plan lacking 'key' makes the check itself raise KeyError instead of reporting the missing key |
| SelfTest.MissingKeyReported | modules/post.py:39-42 | a missing required key is among the entry's errors |
| SelfTest.MissingKeyListed | modules/post.py:40-42 | a missing required key is among the errors of the required-key loop |
| SelfTest.KeyedCatalogAgrees | modules/post.py:24-79 | when every entry has a key, the check as written reports exactly the corrected errors |
| SelfTest.EmailProblems | modules/post.py:81-94 | smtp passes; sendgrid fails with one error iff its key is None or empty; any other provider gives one invalid-provider error |
| SelfTest.UnsetProblems | modules/post.py:102-130 | an error names a setting iff it is required and None or empty (an undefined name reads as None, see Left out) |
| SelfTest.UnsetStep | modules/post.py:103-110 | checking one more setting adds exactly its error, if unset |
| SelfTest.SecretsProblems | modules/post.py:96-136 | errors correspond exactly to the unset settings of the selected manager, plus an invalid-manager error iff the manager is unknown; 'env' never fails |
| SelfTest.DictSet | modules/post.py:77 | setting a failed test keeps insertion order: an existing name keeps its place, a new one goes last, other entries are unchanged |
| SelfTest.Names | modules/post.py:140 | the failed-test names in dictionary order |
| SelfTest.NameTexts | modules/post.py:140 | the failed tests' names as printed |
| SelfTest.ErrorLinesStep | modules/post.py:144-145 | each error adds exactly its '- ERROR:' line after those before it |
| SelfTest.SectionsStep | modules/post.py:142-146 | each failed test adds exactly its section after those before it |
| SelfTest.Report | modules/post.py:139-149 | the raised message starts with the failure heading and ends with the restart instruction |
| SelfTest.CheckPlans | modules/post.py:33-54 | corrected: the plan loop collects exactly the plan errors |
| SelfTest.CheckPackages | modules/post.py:57-72 | corrected: the package loop collects exactly the package errors |
| SelfTest.CheckEntry | modules/post.py:39-48 | corrected: the per-entry loop collects exactly that entry's errors |
| SelfTest.CheckSettings | modules/post.py:102-130 | the settings checks collect exactly the unset-setting errors |
| SelfTest.SelfTestFailures | modules/post.py:138-149 | only checks with errors are listed as failed, at most three |
| SelfTest.Failures | modules/post.py:75-136 | a check is listed as failed only with a non-empty error list, at most three |
| SelfTest.RecordNew | modules/post.py:75-79 | recording a check appends it to ran_tests and to failed (with its errors) or passed |
| SelfTest.RunRecordsEachCheckOnce | modules/post.py:17-22 | a run records billing, emails and secrets once each in ran_tests, in that order |
| SelfTest.PassedXorFailed | modules/post.py:75-136 | each check is in exactly one of passed and failed |
| SelfTest.PowerOnSelfTest.constructor | modules/post.py:9-13 | all four records start empty |
| SelfTest.PowerOnSelfTest.Record | modules/post.py:75-79 | the records become those of recording the check in the old ones |
| SelfTest.PowerOnSelfTest.TestBilling | modules/post.py:24-79 | corrected: records the billing check with exactly the billing errors |
| SelfTest.PowerOnSelfTest.TestEmails | modules/post.py:81-94 | records the emails check with exactly the email errors |
| SelfTest.PowerOnSelfTest.TestSecrets | modules/post.py:96-136 | records the secrets check with exactly the secrets errors |
| SelfTest.PowerOnSelfTest.RaiseFailOrPass | modules/post.py:138-151 | raises iff some test failed, with the report of the failed tests |
| SelfTest.PowerOnSelfTest.Run | modules/post.py:17-22 | corrected: after a run the records are those of the three checks, and it raises iff some check failed |
| SelfTest.ShippedSettingsPass | modules/post.py:17-22 | with the shipped catalogue, the smtp provider and the env secrets manager the self test passes |
| Subnav.ItemShown | modules/utils/subnav.py:17-29 | when it does not raise, an item is shown iff it meets its superuser and staff flags and its subscription requirement (none, the user's key, or a list holding it); reading the subscription raises only when a string or list requirement meets a user without one |
| Subnav.VisibleItems | modules/utils/subnav.py:13-29 | the visible items are no more than the section's items |
| Subnav.VisibleSubnav | modules/utils/subnav.py:9-36 | the visible sections are no more than the configured ones |
| Subnav.EmbedsAppend | modules/utils/subnav.py:15-29 | appending keeps the output an order-preserving selection of the input |
| Subnav.VisibleItemsSnoc | modules/utils/subnav.py:15-29 | one more item adds it at the end iff it is listed, or raises when it raises |
| Subnav.SubnavSnoc | modules/utils/subnav.py:11-34 | one more section adds its copy at the end iff it is active and has a visible item |
| Subnav.VisibleItemsAreShownInOrder | modules/utils/subnav.py:15-29 | the output items are exactly the listed input items, in input order |
| Subnav.VisibleItemsComplete | modules/utils/subnav.py:15-29 | every listed input item appears in the output |
| Subnav.ListedItemsMeetFlags | modules/utils/subnav.py:16-23 | a listed item is active (a missing flag counts as active) and satisfies its superuser and staff requirements |
| Subnav.SectionsAreCopies | modules/utils/subnav.py:11-34 | each output section is a copy of an active input section, with its items filtered, its other fields copied and at least one item |
| Subnav.SectionsEmbedded | modules/utils/subnav.py:11-34 | the output sections stand, in input order, for distinct input sections, each a filtered copy of the section it stands for |
| Subnav.SectionWithItemsListed | modules/utils/subnav.py:31-34 | an active section with a visible item appears in the output with exactly its visible items |
| Subnav.NoRequirementsNoError | modules/utils/subnav.py:25-29 | without string or list subscription requirements the filter never raises, even for a user without subscription |
| Subnav.GetVisibleSubnavForUser | modules/utils/subnav.py:3-36 | the nested loops compute exactly the visible subnav |
| Subnav.FilterItems | modules/utils/subnav.py:13-29 | the inner loop computes exactly the visible items |
| Subnav.ItemErrorStays | modules/utils/subnav.py:27-28 | once an item raises, the rest of the list does not change the outcome |
| Subnav.SubnavErrorStays | modules/utils/subnav.py:11-34 | once a section raises, the remaining sections do not change the outcome |
| Subnav.ShippedSubnavHidesAdminPanel | CONFIG/subnav.py:4-54 | a visitor who is not a superuser sees every configured item except the admin panel |
| Secrets.ParseValue | modules/secrets/base.py:66-77 | 'True'/'true' give true, 'False'/'false' give false, integer text gives its int, anything else stays text |
| Secrets.ParseValueOfInt | modules/secrets/base.py:74-75 | the decimal text of any int parses back to that int |
| Secrets.NatToStringDigits | modules/secrets/base.py:74-75 | decimal text consists of digits only, so it is never taken for a boolean |
| Secrets.SecretManager.Resolve | modules/secrets/base.py:34-35 | in the environment of the call, the env value, parsed, takes precedence; otherwise the provider value, only when the provider is enabled |
| Secrets.SecretManager.constructor | modules/secrets/base.py:12-19 | the manager keeps its provider flag and secrets and starts with an empty cache |
| Secrets.SecretManager.GetSecretFromEnvFile | modules/secrets/base.py:43-51 | a value found in the given environment is parsed, cached and returned; otherwise nothing is cached |
| Secrets.SecretManager.GetSecretFromProvider | modules/secrets/base.py:53-60 | a provider value is cached and returned; otherwise nothing is cached |
| Secrets.SecretManager.GetSecret | modules/secrets/base.py:24-41 | a cached name is answered from the cache whatever the environment now holds; any other name is resolved, a found value cached, and a miss leaves the cache alone and returns the default or raises |
| Secrets.SecretLookup | modules/secrets/base.py:36-41 | a found secret is returned; a miss returns the default unless it is 'RAISE_EXCEPTION', which raises |
| Secrets.LookupTwice | modules/secrets/base.py:6-41 | once a name is found or cached, a second lookup gives the first answer even in a changed environment; after a miss it resolves the name in the new environment |
| Secrets.StaleAfterChange | modules/secrets/base.py:6-9 | the cache is not refreshed: "K" read as 1 is still 1 after the environment changes it to 2 |
| TableViews.SortField | modules/views/__init__.py:28-40 | the request's sort_field when given, otherwise sort_default |
| TableViews.PerPage | modules/views/__init__.py:42-52 | paginate_by when per_page is absent; otherwise int(per_page), which raises on non-integer text |
| TableViews.SearchTerm | modules/views/__init__.py:24-26 | a search term exists iff the request carries 'search' |
| TableViews.Filtered | modules/views/__init__.py:73-79 | filtering never adds rows |
| TableViews.FilteredKeepsMatches | modules/views/__init__.py:73-79 | a row survives the search iff some search field contains the term |
| TableViews.SearchIgnoresCase | modules/views/__init__.py:73-79 | a field matches a search term iff it matches the upper-cased term |
| TableViews.AmountIsSearched | modules/billing/views.py:32 | an integer field is searched by its decimal text: a credit action of -25 is found by "25" |
| TableViews.AbsentDigitNotFound | modules/billing/views.py:32 | the same credit action is not found by "7", which neither its action nor its amount holds |
| TableViews.Searched | modules/views/__init__.py:73-79 | without a non-empty term and search fields the queryset is left unfiltered |
| TableViews.NumPages | modules/views/__init__.py:85 | the page count is at least 1 and is the least count of pages of per_page rows holding every row |
| TableViews.PageNumber | modules/views/__init__.py:83-92 | the chosen page is within 1..num_pages: page 1 when absent or not an integer, the last page when out of range |
| TableViews.PageRows | modules/views/__init__.py:85-92 | a page holds at most per_page rows, at least one when there are rows, and exactly per_page before the last page |
| TableViews.ProcessedPage | modules/views/__init__.py:66-94 | succeeds iff per_page parses to a positive number; the page then holds the searched rows of the chosen page |
| TableViews.TableData | modules/views/__init__.py:100-112 | the JSON reply carries the processed page and the view's sort default and options |
| TableViews.TotalIgnoresSearch | modules/views/__init__.py:108-111 | 'total' counts the unfiltered queryset while the page count follows the searched rows |
| TableViews.PageRowsMatch | modules/views/__init__.py:73-94 | while searching, every row shown matches the term |
| TableViews.PagesCoverRows | modules/views/__init__.py:85-92 | the first n pages together are the first n times per_page rows |
| TableViews.PagesCoverAll | modules/views/__init__.py:85-92 | all pages together are exactly the rows, in order |
| TableViews.FormatFieldValue | modules/views/__init__.py:133-145 | booleans become 'Yes'/'No' (checked first), None the empty string, other values their text |
| TableViews.ColumnOf | modules/views/__init__.py:153-160 | a name s becomes header s and field s; a dictionary needs both header and field or raises; other values are dropped |
| TableViews.Columns | modules/views/__init__.py:147-162 | never more columns than field specs |
| TableViews.ColumnsFailOnIncompleteDict | modules/views/__init__.py:155-156 | formatting raises iff some dictionary spec lacks header or field |
| TableViews.NamesGiveOwnColumns | modules/views/__init__.py:159-160 | a list of names gives one column per name, in order |
| TableViews.GetFormattedFields | modules/views/__init__.py:147-162 | the loop computes exactly the formatted fields, raising where they raise |
| TableViews.ColumnsErrorStays | modules/views/__init__.py:155-156 | once a spec raises, later specs do not change the outcome |
| TableViews.Headers | modules/views/__init__.py:176 | the header row is the columns' headers, in order |
| TableViews.Cells | modules/views/__init__.py:180 | a data row has one formatted cell per column and fails iff the object lacks a column's field |
| TableViews.DataRows | modules/views/__init__.py:179-180 | one data row per object, each the object's cells |
| TableViews.ExportShape | modules/views/__init__.py:127-180 | no fields raises NotImplementedError; otherwise the export has one row per object plus a header row, each with one cell per field, headers first |
| TableViews.Export | modules/views/__init__.py:168-180 | the export loop computes exactly the export rows |
| TableViews.DataRowsErrorStays | modules/views/__init__.py:179-180 | once an object fails, later objects do not change the outcome |
| TablesJs.PageButton | modules/static/shipwithdjango/js/tables.js:189-203 | a button for a page with an optional caption, marked current iff its page is the current page |
| TablesJs.Range | modules/static/shipwithdjango/js/tables.js:222 | the pages lo..hi, consecutive, empty when lo > hi |
| TablesJs.MiddleButtons | modules/static/shipwithdjango/js/tables.js:222-224 | one uncaptioned button per page from max(2, cp-2) to min(np-1, cp+2) |
| TablesJs.Numbered | modules/static/shipwithdjango/js/tables.js:216-232 | the numbered (uncaptioned) pages among the controls, never more than the controls |
| TablesJs.NumberedAppend | modules/static/shipwithdjango/js/tables.js:216-232 | the numbered pages of appended controls are those of each part, in order |
| TablesJs.NumberedMiddle | modules/static/shipwithdjango/js/tables.js:222-224 | the middle buttons number exactly the middle range |
| TablesJs.NumberedSingle | modules/static/shipwithdjango/js/tables.js:189-192 | one control numbers its page iff it is an uncaptioned button |
| TablesJs.NumberedInner | modules/static/shipwithdjango/js/tables.js:216-232 | the buttons between Previous and Next number page 1, the middle range and the last page |
| TablesJs.NumberedControls | modules/static/shipwithdjango/js/tables.js:212-236 | Previous and Next add no numbered page |
| TablesJs.NumberedPagesIncrease | modules/static/shipwithdjango/js/tables.js:216-232 | numbered pages strictly increase (no duplicates), start with page 1, include the last page iff np > 1, and stay within 1..np |
| TablesJs.OneCurrentButton | modules/static/shipwithdjango/js/tables.js:194-232 | for 1 <= cp <= np exactly one numbered button is the current page |
| TablesJs.InnerUncaptioned | modules/static/shipwithdjango/js/tables.js:216-232 | every control between Previous and Next is an ellipsis or an uncaptioned button |
| TablesJs.PreviousShown | modules/static/shipwithdjango/js/tables.js:212-214 | 'Previous' (to cp-1) appears iff cp > 1, and then first |
| TablesJs.NextShown | modules/static/shipwithdjango/js/tables.js:234-236 | 'Next' (to cp+1) appears iff cp < np, and then last |
| TablesJs.EllipsesInner | modules/static/shipwithdjango/js/tables.js:218-228 | the inner controls hold a leading ellipsis iff cp > 3 and a trailing one iff cp < np-2 |
| TablesJs.EllipsesShown | modules/static/shipwithdjango/js/tables.js:218-228 | the controls hold a leading ellipsis iff cp > 3 and a trailing one iff cp < np-2 |
| TablesJs.ShowingRange | modules/static/shipwithdjango/js/tables.js:244 | both ends of the 'Showing X to Y' range are at most the total |
| TablesJs.ShowingLabel | modules/static/shipwithdjango/js/tables.js:244 | the label reads 'Showing … items' |
| TablesJs.ShowingCountsPageRows | modules/static/shipwithdjango/js/tables.js:244 | with no search, the caption drawn from a reply's total, page number and page size counts exactly the rows of the page the reply carries ("0 to 0" for an empty table) |
| TablesJs.SearchedCaptionCountsWholeTable | modules/static/shipwithdjango/js/tables.js:244 | under a search the caption counts the unfiltered total: two rows, one matching, two a page, read "Showing 1 to 2 of 2 items" above one row |
| TablesJs.OnlyFirstRowMatches | modules/views/__init__.py:73-79 | the search for "a" keeps the row whose action is "a" and drops the one whose action is "b" |
| TablesJs.AddPaginationControls | modules/static/shipwithdjango/js/tables.js:184-236 | the step-by-step appends build exactly the specified controls |
| TablesJs.AppendIf | modules/static/shipwithdjango/js/tables.js:212-236 | a conditional append adds the control iff the condition holds |
| TablesJs.AppendMiddle | modules/static/shipwithdjango/js/tables.js:222-224 | the for-loop appends exactly the middle buttons |
| TablesJs.Params | modules/static/shipwithdjango/js/tables.js:294-318 | no request without sort select and search field; page always set; sort_field iff its value is not 'none'; search iff non-empty; per_page iff its select exists; no other parameter |
| TablesJs.ServerHonoursRequest | modules/static/shipwithdjango/js/tables.js:306-318 | the server answers the requested page when it exists, and a 'none' sort falls back to sort_default |
| TablesJs.SearchAndSortParams | modules/static/shipwithdjango/js/tables.js:294-318 | the parameter building computes exactly the specified query |
| ConfigFile.FormatValue | modules/utils/config.py:4-15 | 'true'/'false' in any case become the booleans True/False; otherwise, when `ast.literal_eval` parses the value, the text its result renders to ("0x10" gives 16), else the value in double quotes |
| ConfigFile.ReadLinesRoundTrip | modules/utils/config.py:40-63 | (newline-translated text) writing back the lines read from a text gives that text |
| ConfigFile.ReadLinesWellFormed | modules/utils/config.py:40-41 | the lines read each end in their only newline, except possibly the last, and none is empty |
| ConfigFile.IndexOfLine | modules/utils/config.py:41 | a read line's only newline is its last character |
| ConfigFile.WriteLinesRoundTrip | modules/utils/config.py:40-63 | reading back the text written from well-formed lines gives those lines |
| ConfigFile.WriteLinesAppend | modules/utils/config.py:62-63 | writing one more line appends its text |
| ConfigFile.NewLine | modules/utils/config.py:53-59 | the assignment line ends in a newline |
| ConfigFile.MatchFrom | modules/utils/config.py:50-55 | the scan from a position finds the first line at or after it whose stripped text starts with "KEY =" or "KEY=" |
| ConfigFile.FirstMatch | modules/utils/config.py:50-55 | the first line that assigns the key; none iff no line does |
| ConfigFile.SetLines | modules/utils/config.py:50-59 | only the first matching line is replaced by "KEY = value\n", all others unchanged and the count kept; with no match one line is appended at the end |
| ConfigFile.UpdateLines | modules/utils/config.py:44-59 | the loop with break computes exactly the updated lines |
| ConfigFile.TrimEndKeepsPrefix | modules/utils/config.py:51 | stripping trailing space keeps everything up to a non-space character |
| ConfigFile.NewLineAssigns | modules/utils/config.py:51-53 | the written line is itself recognised as assigning the key, for a key without surrounding space |
| ConfigFile.TrimStartAppend | modules/utils/config.py:51 | stripping leading space commutes with appending a character |
| ConfigFile.TrimEndSpace | modules/utils/config.py:51 | stripping trailing space ignores an appended space |
| ConfigFile.StripNewline | modules/utils/config.py:51 | a line and the line with its newline strip alike |
| ConfigFile.Terminated | modules/utils/config.py:57-59 | only the last line can change, by gaining a newline |
| ConfigFile.NewLineShape | modules/utils/config.py:53-59 | for a key and value without newlines the assignment is one line |
| ConfigFile.FirstMatchAt | modules/utils/config.py:50-55 | a matching line with none before it is the first match |
| ConfigFile.TerminatedLines | modules/utils/config.py:57-59 | terminating the last line ends every line in a newline and changes no line's match |
| ConfigFile.SetLinesFixedWellFormed | modules/utils/config.py:50-59 | the corrected update keeps the lines well formed |
| ConfigFile.SetLinesFixedFirst | modules/utils/config.py:50-59 | after the corrected update the first line assigning the key is the new assignment |
| ConfigFile.SetConfigTextIdempotent | modules/utils/config.py:50-63 | corrected: setting the same key and value twice gives the same file text as setting it once |
| ConfigFile.SetConfigTextAssigns | modules/utils/config.py:50-63 | corrected: in the rewritten text, the first line that assigns the key is the new assignment |
| ConfigFile.AsWrittenAgreesOnTerminatedText | modules/utils/config.py:57-63 | the code as written and the corrected update give the same text for every file that is empty or ends in a newline |
| ConfigFile.WriteTwoLines | modules/utils/config.py:62-63 | two lines are written as their concatenation |
| ConfigFile.AppendToOneLine | modules/utils/config.py:57-63 | on a one-line text without the key, as written, the assignment is added right after its last character, newline or not |
| ConfigFile.FirstCallGlues | modules/utils/config.py:57-59 | as written, setting B on "A = 1" (no final newline) yields "A = 1B = 2\n" |
| ConfigFile.SecondCallAppends | modules/utils/config.py:50-59 | as written, the glued line is not recognised, so a second call appends another "B = 2" |
| ConfigFile.AppendGluesLastLine | modules/utils/config.py:57-59 | as written, setting the same key and value twice does not give the text of setting it once |
| ConfigFile.SetLinesIdempotent | modules/utils/config.py:50-59 | on lines, setting the same key and value twice equals setting it once |
| ConfigFile.SetConfigValue | modules/utils/config.py:17-63 | corrected: a missing file is a no-op with fail_silently and raises FileNotFoundError otherwise; an existing config file gets the text of the corrected update, and no other file changes |
| ConfigFile.SetConfigValueIdempotent | modules/utils/config.py:17-63 | corrected: calling set_config_value twice with the same arguments leaves the files as calling it once |
| SetupWizard.GetAnswer | modules/utils/management/commands/swd_setup_project.py:168-172 | an answer is present iff the section and the key were recorded, and is then the recorded value |
| SetupWizard.SetAnswer | modules/utils/management/commands/swd_setup_project.py:174-178 | recording adds the section if it was missing and no other section |
| SetupWizard.GetAfterSet | modules/utils/management/commands/swd_setup_project.py:168-178 | a recorded answer reads back, and every other section and key reads as before |
| SetupWizard.Ask | modules/utils/management/commands/swd_setup_project.py:146-166 | an answer consumes at least one input line; it is the default (when truthy) or an allowed value |
| SetupWizard.AskEmptyTakesDefault | modules/utils/management/commands/swd_setup_project.py:159-160 | an empty input with a truthy default gives the default |
| SetupWizard.AskInvalidAsksAgain | modules/utils/management/commands/swd_setup_project.py:162-164 | an input outside the allowed values is rejected and the question asked again |
| SetupWizard.AskTakesFirstAcceptable | modules/utils/management/commands/swd_setup_project.py:146-166 | the answer comes from the first input line that is acceptable, all earlier lines were rejected, and running out of input raises EOFError |
| SetupWizard.Step | modules/utils/management/commands/swd_setup_project.py:189-212 | a config whose show_if answer differs from show_if_value is skipped; otherwise the answer is recorded under the section's config file, or the run stops when input runs out |
| SetupWizard.RunSectionTouchesOwnFile | modules/utils/management/commands/swd_setup_project.py:186-212 | a section records answers only under its own config file |
| SetupWizard.RunSectionRecordsOwnKeys | modules/utils/management/commands/swd_setup_project.py:186-212 | a section records answers only for its own keys |
| SetupWizard.Command.constructor | modules/utils/management/commands/swd_setup_project.py:181 | the command starts with no answers |
| SetupWizard.Command.SetTmpAnswer | modules/utils/management/commands/swd_setup_project.py:174-178 | the new answers are the old ones with this answer recorded, and it reads back |
| SetupWizard.Command.AskSection | modules/utils/management/commands/swd_setup_project.py:186-212 | the loop over one section's configs ends in the answers and remaining input of the section's specification |
| SetupWizard.Command.Handle | modules/utils/management/commands/swd_setup_project.py:180-214 | handle, from no answers, ends where the specification of all sections does |
| SetupWizard.SmtpSkipsSendgridKey | modules/utils/management/commands/swd_setup_project.py:191-198 | accepting the defaults of the emailing section chooses smtp, never asks for the SendGrid key and uses task queues |
| EventsJs.BaseEventIsPrefix | modules/static/shipwithdjango/js/events.js:18-24 | the event without its namespace is the text before the first '.' |
| EventsJs.NamespaceIgnored | modules/static/shipwithdjango/js/events.js:18-24 | events differing only in namespace share one base event |
| EventsJs.AddEventSpec | modules/static/shipwithdjango/js/events.js:17-21 | the base event now maps to the callback, other entries unchanged, and the pair is listened for |
| EventsJs.RemoveEventSpec | modules/static/shipwithdjango/js/events.js:23-26 | the map is unchanged; the listener stored for the base event, if any, is removed, else nothing changes |
| EventsJs.SecondAddShadowsFirst | modules/static/shipwithdjango/js/events.js:17-26 | after two adds under one base event, removal detaches only the second callback; the first stays attached |
| EventsJs.AddThenRemove | modules/static/shipwithdjango/js/events.js:17-26 | removing any namespaced form of the event just added restores the listeners |
| EventsJs.Element.constructor | modules/static/shipwithdjango/js/events.js:12-15 | the element starts with no listeners |
| EventsJs.Element.AddEventListener | modules/static/shipwithdjango/js/events.js:20 | adds the (type, callback) pair once |
| EventsJs.Element.RemoveEventListener | modules/static/shipwithdjango/js/events.js:25 | removes the pair; an undefined callback removes nothing |
| EventsJs.EventHandler.constructor | modules/static/shipwithdjango/js/events.js:12-15 | keeps the element, with an empty function map |
| EventsJs.EventHandler.AddEvent | modules/static/shipwithdjango/js/events.js:17-21 | the handler and element change as the add specification says |
| EventsJs.EventHandler.RemoveEvent | modules/static/shipwithdjango/js/events.js:23-26 | the handler and element change as the remove specification says |
| CookiesJs.FirstPairFrom | modules/static/shipwithdjango/js/i18n.js:13-18 | the first trimmed pair at or after a position whose text starts with "name=", none before it; none iff no such pair |
| CookiesJs.CookieValue | modules/static/shipwithdjango/js/i18n.js:9-22 | no cookie text gives null; a value is the text after "name=" of a trimmed pair; null means no pair starts with "name=" |
| CookiesJs.ValueFollowsName | modules/static/shipwithdjango/js/i18n.js:15-16 | a found value follows "name=" in one of the pairs |
| CookiesJs.GetCookie | modules/static/shipwithdjango/js/i18n.js:9-22 | the loop with break returns the value of the specification |
| CookiesJs.SplitTwo | modules/static/shipwithdjango/js/i18n.js:12 | two pieces without ';' joined by ';' split back into them |
| CookiesJs.StripExamplePairs | modules/static/shipwithdjango/js/i18n.js:14 | trimming removes the space after ';' |
| CookiesJs.PrefixNameSkipped | modules/static/shipwithdjango/js/i18n.js:15-16 | "ab=1" is not taken for "a", and a value may itself contain '=' |
| CookiesJs.SecondExamplePairFound | modules/static/shipwithdjango/js/i18n.js:13-16 | the search passes over "ab=1" and stops at the pair for "a" |
| Images.CropImage | modules/utils/images.py:86-102 | None iff the box's right or bottom edge lies beyond the image; otherwise the box is used as given |
| Images.CropImageWidth | modules/utils/images.py:104-135 | None iff the width exceeds the image's; otherwise a full-height box of that width starting at half the spare width, rounded down |
| Images.CropImageHeight | modules/utils/images.py:137-168 | None iff the height exceeds the image's; otherwise a full-width box of that height starting at half the spare height, rounded down |
| Images.CentredCropsFit | modules/utils/images.py:95-163 | the centred boxes lie inside the image, centred to within one pixel, and crop_image accepts them |
| Images.CropImageChecksOnlyFarEdges | modules/utils/images.py:95-97 | a box with a negative left edge and inverted corners passes the check |
| Images.FileExtension | modules/utils/images.py:194 | (ASCII casing) the extension holds no '.' and no capital ASCII letter; a name without '.' is its own extension, lower-cased |
| Images.ContentType | modules/utils/images.py:196-203 | png, jpg/jpeg and webp get their registered image types; any other extension gives "image/" + extension |
| Images.ContentTypeIsImage | modules/utils/images.py:196-203 | every content type is "image/" followed by a subtype |
| Images.DataUri | modules/utils/images.py:185-205 | every data URL built from an image file is an image one, starting "data:image/" |
| Images.ImageFromDataUri | modules/utils/images.py:170-183 | an error iff the URL does not split into exactly two pieces around ";base64,"; otherwise the file name ends in the text after the last '/' of the header and the payload is the second piece |
| Images.DataUriRoundTrip | modules/utils/images.py:170-205 | reading back the data URL of a file gives its payload, named with the content type's subtype |
| Images.JpgComesBackAsJpeg | modules/utils/images.py:181-199 | a .jpg file comes back with extension jpeg |
| Emails.Route | modules/emails/utils.py:187-197 | SendGrid exactly for the provider "sendgrid", SMTP for every other value; the task queue exactly when the setting is on |
| Emails.RouteSeparatesSettings | modules/emails/utils.py:187-197 | two settings pick the same sender iff they agree on sendgrid-or-not and on the queue |
| Emails.SmtpMessageAsWritten | modules/emails/utils.py:228-250 | as written: fails iff the To list is None |
| Emails.SmtpMessage | modules/emails/utils.py:228-250 | corrected: fails iff the To list is None |
| Emails.SmtpMessageShape | modules/emails/utils.py:228-289 | the envelope is to + cc + bcc exactly; the To header lists to then cc; a Cc header iff there are cc addresses; no Bcc header |
| Emails.BccLeaksAsWritten | modules/emails/utils.py:247-289 | as written, a non-empty Bcc list is a header of the one text sent to every To recipient |
| Emails.BccLeakExample | modules/emails/utils.py:247-289 | as written, one To and one Bcc address: the To recipient's copy carries "Bcc: b@example.com" |
| Emails.AttachmentFileName | modules/emails/utils.py:269 | the file name holds no '/' |
| Emails.AttachmentFileNameIsTail | modules/emails/utils.py:269 | the file name ends the path, after its last '/' or as the whole path |
| Emails.ResolveAttachment | modules/emails/utils.py:258-267 | FileNotFoundError "Attachment X not found." iff the finder gives no path and the path does not exist; otherwise the finder's path, else the path itself |
| Emails.AttachmentPathsResolveEach | modules/emails/utils.py:252-276 | the paths list has one resolved path per attachment in order; the loop raises iff some attachment cannot be resolved |
| Emails.AttachmentPathsSnoc | modules/emails/utils.py:252-276 | one more attachment adds its resolved path, or raises, after those before it |
| Emails.FileNames | modules/emails/utils.py:269-279 | one file name per attachment, in order |
| Emails.SendWithSmtp | modules/emails/utils.py:199-302 | corrected headers: a None To list raises, then a missing attachment raises; with removal requested, a path read twice raises FileNotFoundError (for the first path after a delivery, else for the repeated one); otherwise the result is whether the server took the message, which holds the corrected headers, and exactly the paths read are removed, each once |
| Emails.RemovalIgnoresDelivery | modules/emails/utils.py:282-302 | delivered or not, the call raises alike and the same files are removed; only the returned boolean differs |
| Emails.FirstRepeat | modules/emails/utils.py:292-300 | the first path already seen earlier in the list; none iff the paths are distinct |
| Emails.SamePathTwiceRaises | modules/emails/utils.py:292-300 | two attachments found at the same path make the delivered call raise FileNotFoundError for that path |
| Emails.ResolveAttachments | modules/emails/utils.py:252-280 | the attachment loop gives the specification's paths (or its first error) and the file names |
| Emails.SendEmailWithSmtp | modules/emails/utils.py:199-302 | corrected headers: the method's outcome is the specification's |
| Emails.ErrorStays | modules/emails/utils.py:263-265 | once an attachment raises, later attachments do not change the error |
| Emails.AccountLink | modules/emails/utils.py:45-89 | a truthy current domain prefixes the path, otherwise PLATFORM_URL does |
| Emails.AccountLinkEndsWithPath | modules/emails/utils.py:45-89 | every link ends with the reversed path, after a non-empty domain when one is given |
| IgnorePatterns.Patterns | test_template.py:10-19 | no more patterns than lines, none empty or a comment |
| IgnorePatterns.PatternsSnoc | test_template.py:15-18 | one more line adds its stripped text to the end of the patterns exactly when that text is a pattern |
| IgnorePatterns.PatternsAreKeptLines | test_template.py:15-18 | a text is a pattern iff it is the stripped text of some line and neither empty nor starts with '#' |
| IgnorePatterns.PatternsKeepOrder | test_template.py:15-18 | the patterns of a file are those of its first lines followed by those of the rest |
| IgnorePatterns.ReadIgnorePatterns | test_template.py:10-19 | a missing file gives no patterns; otherwise the loop gives the patterns of its lines |
| IgnorePatterns.MatchesPattern | test_template.py:21-31 | without a "**" splitting the pattern in two, fnmatch on the path or its base name decides |
| IgnorePatterns.DoubleStarMatches | test_template.py:25-30 | any pattern that split('**') cuts into exactly two pieces (other '*' allowed, as in "*.egg-info/**") matches every path starting with the first piece or ending with the second, whatever fnmatch says |
| IgnorePatterns.LeadingDoubleStarMatchesAll | test_template.py:25-30 | a two-piece pattern starting with "**" matches every path |
| IgnorePatterns.EarlyDoubleStarSplitsThree | test_template.py:27-28 | in b + "**" with b not ending in '*', a "**" found before the final one makes split('**') give three or more pieces |
| IgnorePatterns.TrailingDoubleStarMatchesAll | test_template.py:25-30 | a two-piece pattern ending with "**" matches every path, unless its text before the "**" ends in '*' (as in "a***", whose second piece is "*") |
| IgnorePatterns.PycPatternExcludesAll | test_template.py:33-41 | an ignore file holding "**/*.pyc" makes should_include false for every path |
| IgnorePatterns.NormalizePath | test_template.py:36 | same length, every backslash turned into '/', nothing else changed |
| IgnorePatterns.ShouldIncludeLoop | test_template.py:33-41 | the early-returning loop keeps the path iff no pattern matches it as a file or as a directory |
| IgnorePatterns.MorePatternsExcludeMore | test_template.py:33-41 | no patterns keep every path, and a path kept by a list of patterns is kept by each part of it |
| IgnorePatterns.BackslashesDoNotMatter | test_template.py:36 | a path and its normalised form are kept or dropped alike |
| Text.Upper | modules/authentication/models.py:41 | (ASCII casing) same length, each small ASCII letter made a capital, every other character kept |
| Text.Lower | modules/billing/mixins.py:59-62 | (ASCII casing) same length, each ASCII capital made a small letter, every other character kept |
| Text.LowerOfUpper | modules/views/__init__.py:73-79 | lower-casing an upper-cased text gives the lower-cased text, which makes icontains blind to the case of the term |
| Text.ParseDigits | modules/views/__init__.py:42-52 | unsigned int() text: a value iff the text is digits with single underscores between them, and for plain digits their decimal value |
| Text.ParseIntOfIntToString | modules/views/__init__.py:42-52 | int(str(n)) == n for every integer n |
| Text.GroupedTen | modules/views/__init__.py:42-52 | int("1_0") is 10 |
| Text.GroupedNegative | modules/views/__init__.py:42-52 | int("-2_5") is -25 |
| Text.BadGroupingsRefused | modules/views/__init__.py:42-52 | a leading, trailing or doubled underscore makes int() fail |

## Left out

- Stripe API calls (customer create/retrieve, checkout sessions, invoice create/finalize/pay, subscription modify, webhook signature checks): their answers are inputs (line items, a verified or rejected event), and the requests the code makes are recorded in `Store.Database` rather than performed.
- Transport and rendering: the SMTP conversation, SendGrid, MIME bodies, templates, Huey task queues and retries. Whether the SMTP server took the message is a parameter.
- Websockets (consumers, channel layers, `websockets.js`): asynchronous network code.
- Concurrency: the code has no locks or transactions; every operation is modelled as one sequential step.
- File and console I/O: files are text values, `input()` is a sequence of lines (running out stands for `EOFError`), and prompts and console messages are not modelled.
- Date formatting (`formatdate`, `strftime`), the clock (`now` is a parameter), base64 coding (the base64 text is carried as it is), and image pixels and saving (only crop boxes are modelled).
- `fnmatch` and `ast.literal_eval` are parameters: the model states what the code does with their answers, not how they match or parse.
- Floating point and JSON: prices keep their printed text, and `parse_value`'s float and JSON branches give the text unchanged.
- `QuerySet.order_by` sorting: rows are given in query order; the sort field is modelled only as the parameter the view chooses.
- URL reversing: view names stand for URLs.
- CookiesJs.CookieValue: the value is returned as it stands in the cookie text; `decodeURIComponent` is not applied, so a percent-encoded value ("a%20b") differs from the browser's ("a b").
- CookiesJs.GetCookie: returns the same undecoded value as CookiesJs.CookieValue.
- BillingModels.ToDict: leaves out the `id` field that `get_fields()` also returns.
- Secrets.SecretManager.constructor: the provider's secrets are given as a map when the manager is built, instead of being fetched by a subclass.
- Secrets.ParseValue: integers are ASCII decimal text (an optional sign, single underscores between digits, surrounding ASCII whitespace); Python's `int()` also accepts non-ASCII decimal digits and Unicode whitespace, which are kept as text here.
- Subnav.ShippedSubnavHidesAdminPanel: the shipped `GLOBAL_SUBNAV` is taken without the examples section that is added when that app is installed.
- TableViews.ProcessedPage: the contract says only that a page size below 1 fails, not which exception; the function gives ZeroDivisionError for 0 and EmptyPage below 0.
- Text.Upper: cases ASCII letters only; Python's `str.upper()` also cases other letters ("é" becomes "É", "ß" becomes "SS").
- Accounts.User.GetInitials: through Text.Upper, a non-ASCII initial is kept as it is, where Python upper-cases it and may lengthen it ("ß" gives "SS").
- Text.Lower: cases ASCII letters only; this reaches the case-insensitive search of TableViews.FieldContains and the image extension of Images.FileExtension (and through it Images.ContentType and Images.DataUri); the request methods and "true"/"false" it is also applied to are compared with ASCII words that no non-ASCII character lower-cases into.
- Images.FileExtension: through Text.Lower, a non-ASCII extension keeps its capitals ("x.ÉPS" gives "Éps" where Python gives "éps"), and Images.DataUri then carries "image/Éps" into the data URL.
- Text.ParseInt: like Secrets.ParseValue, accepts ASCII decimal text only (an optional sign, single underscores between digits, surrounding ASCII whitespace); non-ASCII digits and Unicode whitespace give no value where Python's `int()` accepts them.
- TableViews.PerPage: through Text.ParseInt, a per_page written with non-ASCII digits raises in the model, where the code takes its value.
- TableViews.PageNumber: through Text.ParseInt, a page written with non-ASCII digits falls back to page 1 in the model, where the code takes its value.
- SelfTest.PowerOnSelfTest.Run: models the corrected self test, which reports a plan without a key; the KeyError the code as written raises is stated only by SelfTest.KeylessPlanCrashesCheck.
- SelfTest.PowerOnSelfTest.TestBilling: the same correction as Run.
- SelfTest.CheckPlans: the corrected plan loop, which reports a plan without a key; the code raises KeyError there (SelfTest.KeylessPlanCrashesCheck, SelfTest.BillingOutcomeAsWritten).
- SelfTest.CheckPackages: the corrected package loop, with the same correction as SelfTest.CheckPlans for a package without a key.
- SelfTest.CheckEntry: the corrected per-entry loop shared by SelfTest.CheckPlans and SelfTest.CheckPackages; its missing-key error is where the code raises KeyError.
- SelfTest.UnsetProblems: a name the secrets configuration does not define reads as None and is reported as unset; the code imports each name explicitly, so such a configuration raises ImportError when the self test module is loaded.
- BillingLookups.ValidSubscriptionKeys: skips a plan without a key; the code builds the list with `subscription['key']` when the module is imported, so such a catalogue raises KeyError before any lookup runs.
- BillingViews.SubscribeToSubscription.Dispatch: answers the corrected outcome BillingViews.SubscribeOutcome, which sends an anonymous visitor to the login page; the code raises AttributeError for an anonymous visitor with a valid key (BillingViews.SubscribeOutcomeAsWritten, BillingViews.AnonymousSubscribeFails).
- ConfigFile.SetConfigValue: writes the corrected update, which puts a new assignment on a line of its own; the code as written glues it to a last line without a newline (ConfigFile.SetConfigTextAsWritten, ConfigFile.AppendGluesLastLine), and the two agree on every text that is empty or ends in a newline (ConfigFile.AsWrittenAgreesOnTerminatedText).
- ConfigFile.ReadLines: the model splits the file's text at "\n" only; the code opens the file in text mode, which first turns "\r\n" and a lone "\r" into "\n", so a CRLF file is written back with "\n" line ends and "A = 1\rB = 2" is two lines there but one here. ConfigFile.ReadLinesRoundTrip, ConfigFile.SetConfigValue and ConfigFile.AppendGluesLastLine hold of the text after that translation, not of the bytes on disk.
- IgnorePatterns.ReadIgnorePatterns: reads the lines through ConfigFile.ReadLines, with the same newline translation left out ("\r" alone does not end a pattern).
- Text.Strip: removes space, tab, newline, carriage return, vertical tab and form feed only; Python and JavaScript also strip other Unicode whitespace.
- Emails.SendWithSmtp: sends the corrected message of Emails.SmtpMessage, without a Bcc header; the code writes one into the text every recipient gets (Emails.SmtpMessageAsWritten, Emails.BccLeaksAsWritten). The aliasing in `to_emails.extend(cc_emails)`, which also changes the caller's list, is not modelled; when a repeated path raises, which files were already removed is not returned.
- Emails.SendEmailWithSmtp: proved equal to Emails.SendWithSmtp, so it too sends the corrected message without a Bcc header; the as-written message is Emails.SmtpMessageAsWritten.
- Malformed webhook payloads: keys the handlers index without a guard are assumed present, so the `KeyError` such an event would raise is not modelled.

## Findings

| source | as written | input that shows it | evidently intended | confidence | as-written member | corrected member |
|---|---|---|---|---|---|---|
| modules/billing/views.py:59-75 | `dispatch` reads the user's plan before the login check of `LoginRequiredMixin` runs | an anonymous GET for the key 'monthly' raises AttributeError (a 500) | an anonymous visitor is sent to the login page | not executed | BillingViews.AnonymousSubscribeFails | BillingViews.AnonymousSubscribeLogsIn |
| modules/post.py:42,50 | the billing check indexes `plan['key']` while reporting a missing key | a plan without 'key' makes the self test raise KeyError | the missing key is reported as an error | not executed | SelfTest.KeylessPlanCrashesCheck | SelfTest.MissingKeyReported |
| modules/utils/config.py:57-59 | the new assignment is appended right after the last line, even when that line has no final newline | text "A = 1", key B, value 2 gives "A = 1B = 2\n"; a second call appends again | the assignment goes on a line of its own, and setting twice equals setting once | not executed | ConfigFile.AppendGluesLastLine | ConfigFile.SetConfigTextIdempotent |
| modules/emails/utils.py:247-248,289 | a Bcc header is written into the message text that is sent to every recipient | To a@example.com, Bcc b@example.com: a's copy carries "Bcc: b@example.com" | blind copies are left out of the header block (section 3.6.3 of RFC 5322) | not executed | Emails.BccLeaksAsWritten | Emails.SmtpMessageShape |

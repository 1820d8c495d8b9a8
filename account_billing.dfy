// The billing methods of the user model in modules/authentication/models.py,
// which delegate to modules/billing/utils.py. They live in a module of their
// own because the ledger depends on the user model.
module AccountBilling {
  import opened Wrappers
  import opened BillingModels
  import opened Accounts
  import opened Store
  import opened CreditLedger

  const DEFAULT_CREDIT_REASON: string := "Added credits to account"

  /** `user.add_credits(amount, reason='Added credits to account')`. */
  method AddCredits(db: Database, user: User, amount: int, reason: string := DEFAULT_CREDIT_REASON)
    modifies user`creditsBalance, db`creditActions
    ensures user.creditsBalance == old(user.creditsBalance) + amount
    ensures db.creditActions == old(db.creditActions) +
      [CreditAction(user.id, amount, reason, old(user.creditsBalance), user.creditsBalance)]
    ensures old(Audited(db)) && db.Valid() && user in db.users ==> Audited(db)
  {
    AddCreditsToUser(db, user, amount, reason);
  }

  /** `user.consume_credits(amount, action)`: succeeds exactly when `has_credits(amount)` held. */
  method ConsumeCredits(db: Database, user: User, amount: int, action: string) returns (ok: bool)
    modifies user`creditsBalance, db`creditActions
    ensures ok == old(user.HasCredits(amount))
    ensures ok ==> user.creditsBalance == old(user.creditsBalance) - amount
    ensures !ok ==> user.creditsBalance == old(user.creditsBalance) && db.creditActions == old(db.creditActions)
    ensures ok ==> db.creditActions == old(db.creditActions) +
                   [CreditAction(user.id, amount, action, old(user.creditsBalance), user.creditsBalance)]
    ensures old(Audited(db)) && db.Valid() && user in db.users ==> Audited(db)
  {
    ok := ConsumeCreditForUser(db, user, amount, action);
  }

  /** `user.cancel_subscription()`. */
  method CancelSubscription(db: Database, user: User) returns (cancelled: bool)
    requires user.subscription != null
    modifies db`outbound
    ensures cancelled <==> user.subscription.stripeSubscriptionId.Some? && user.subscription.stripeSubscriptionId.value != ""
    ensures cancelled ==> db.outbound == old(db.outbound) + [CancelAtPeriodEnd(user.subscription.stripeSubscriptionId.value)]
    ensures !cancelled ==> db.outbound == old(db.outbound)
  {
    cancelled := CancelSubscriptionForUser(db, user);
  }
}

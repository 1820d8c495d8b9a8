// The state-changing helpers of modules/billing/utils.py: adding and
// consuming credits, each recorded as a `CreditAction` row carrying the
// balance before and after, and cancelling a Stripe subscription at the end
// of its period.
module CreditLedger {
  import opened Wrappers
  import opened BillingModels
  import opened Accounts
  import opened Store

  /** The balance the ledger shows for a user: the `credits_after` of its latest row, 0 before any. */
  function LedgerBalance(actions: seq<CreditAction>, userId: nat): int
  {
    if |actions| == 0 then 0
    else if actions[|actions| - 1].userId == userId then actions[|actions| - 1].creditsAfter
    else LedgerBalance(actions[..|actions| - 1], userId)
  }

  /** Each of the user's rows starts from the balance the ledger had reached before it. */
  ghost predicate Chained(actions: seq<CreditAction>, userId: nat)
  {
    |actions| == 0 ||
    (var last := actions[|actions| - 1];
     var earlier := actions[..|actions| - 1];
     Chained(earlier, userId) && (last.userId == userId ==> last.creditsBefore == LedgerBalance(earlier, userId)))
  }

  /** Every user's balance is what its ledger rows add up to. */
  ghost predicate Audited(db: Database)
    reads db`users, db`creditActions, db.users
  {
    forall i :: 0 <= i < |db.users| ==>
      db.users[i].creditsBalance == LedgerBalance(db.creditActions, db.users[i].id) &&
      Chained(db.creditActions, db.users[i].id)
  }

  /**
   * Recording a row that starts from the ledger balance keeps the user's rows
   * chained and moves the ledger balance to the row's `credits_after`.
   */
  lemma {:induction false} RecordKeepsChain(actions: seq<CreditAction>, a: CreditAction)
    requires Chained(actions, a.userId) && a.creditsBefore == LedgerBalance(actions, a.userId)
    ensures Chained(actions + [a], a.userId)
    ensures LedgerBalance(actions + [a], a.userId) == a.creditsAfter
  {
    var s := actions + [a];
    assert s[..|actions|] == actions;
  }

  /** A row for one user leaves every other user's ledger as it was. */
  lemma {:induction false} RecordLeavesOthers(actions: seq<CreditAction>, a: CreditAction, other: nat)
    requires other != a.userId
    ensures LedgerBalance(actions + [a], other) == LedgerBalance(actions, other)
    ensures Chained(actions + [a], other) <==> Chained(actions, other)
  {
    var s := actions + [a];
    assert s[..|actions|] == actions;
  }

  /** `add_credits_to_user`: the balance grows by `amount` and one row records it. */
  method AddCreditsToUser(db: Database, user: User, amount: int, reason: string)
    modifies user`creditsBalance, db`creditActions
    ensures user.creditsBalance == old(user.creditsBalance) + amount
    ensures db.creditActions == old(db.creditActions) +
      [CreditAction(user.id, amount, reason, old(user.creditsBalance), user.creditsBalance)]
    ensures old(Audited(db)) && db.Valid() && user in db.users ==> Audited(db)
  {
    var before := user.creditsBalance;
    user.creditsBalance := user.creditsBalance + amount;
    var after := user.creditsBalance;
    var a := CreditAction(user.id, amount, reason, before, after);
    db.creditActions := db.creditActions + [a];
  }

  /**
   * `consume_credit_for_user`: succeeds exactly when the balance covers
   * `amount`; then the balance drops by `amount` (never below zero) and one
   * row records it; otherwise nothing changes.
   */
  method ConsumeCreditForUser(db: Database, user: User, amount: int, action: string) returns (ok: bool)
    modifies user`creditsBalance, db`creditActions
    ensures ok == old(user.HasCredits(amount))
    ensures ok ==> user.creditsBalance == old(user.creditsBalance) - amount && user.creditsBalance >= 0
    ensures ok ==> db.creditActions == old(db.creditActions) +
                   [CreditAction(user.id, amount, action, old(user.creditsBalance), user.creditsBalance)]
    ensures !ok ==> user.creditsBalance == old(user.creditsBalance) && db.creditActions == old(db.creditActions)
    ensures old(Audited(db)) && db.Valid() && user in db.users ==> Audited(db)
  {
    if user.creditsBalance >= amount {
      var before := user.creditsBalance;
      user.creditsBalance := user.creditsBalance - amount;
      var after := user.creditsBalance;
      var a := CreditAction(user.id, amount, action, before, after);
      db.creditActions := db.creditActions + [a];
        return true;
    }
    return false;
  }

  /**
   * `cancel_subscription_for_user`: with a (non-empty) Stripe subscription id,
   * asks Stripe to cancel at period end and answers true; otherwise answers
   * false. No local field changes either way.
   */
  method CancelSubscriptionForUser(db: Database, user: User) returns (cancelled: bool)
    requires user.subscription != null
    modifies db`outbound
    ensures cancelled <==> user.subscription.stripeSubscriptionId.Some? && user.subscription.stripeSubscriptionId.value != ""
    ensures cancelled ==> db.outbound == old(db.outbound) + [CancelAtPeriodEnd(user.subscription.stripeSubscriptionId.value)]
    ensures !cancelled ==> db.outbound == old(db.outbound)
  {
    var id := user.subscription.stripeSubscriptionId;
    if id.Some? && id.value != "" {
      db.outbound := db.outbound + [CancelAtPeriodEnd(id.value)];
      return true;
    }
    return false;
  }
}

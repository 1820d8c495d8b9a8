// The post-save hook of modules/billing/signals.py: every saved user that
// has no subscription row gets one on the `default` plan.
module BillingSignals {
  import opened Wrappers
  import opened BillingModels
  import opened Accounts
  import opened Store
  import opened CreditLedger

  /** `create_subscription`, run by `post_save` after every save of a user. */
  method CreateSubscription(user: User)
    modifies user`subscription
    ensures old(user.subscription) == null ==>
      user.subscription != null && fresh(user.subscription) && user.subscription.State() == NewSubscription(DEFAULT_KEY)
    ensures old(user.subscription) != null ==> user.subscription == old(user.subscription)
  {
    if user.subscription == null {
      user.subscription := new Subscription(DEFAULT_KEY);
    }
  }

  /**
   * Saving a new user: the row is stored, then the hook gives it its
   * subscription. `id` is the primary key the database assigns.
   */
  method CreateUser(db: Database, id: nat, username: string, firstName: string, lastName: string) returns (user: User)
    requires db.Valid() && Audited(db)
    requires forall i :: 0 <= i < |db.users| ==> db.users[i].id != id
    requires forall k :: 0 <= k < |db.creditActions| ==> db.creditActions[k].userId != id
    modifies db`users
    ensures fresh(user) && db.users == old(db.users) + [user]
    ensures db.Valid() && Audited(db)
    ensures db.Table() == old(db.Table()) + [UserRow(id, None, 0, NewSubscription(DEFAULT_KEY))]
  {
    user := new User(id, username, firstName, lastName);
    CreateSubscription(user);
    db.users := db.users + [user];
    assert db.users[|db.users| - 1] == user;
    assert forall i :: 0 <= i < |old(db.users)| ==> db.users[i] == old(db.users)[i];
    FreshIdLedger(db.creditActions, id);
  }

  /** A primary key nobody had yet has no ledger rows, so its ledger balance is 0 and trivially chained. */
  lemma {:induction false} FreshIdLedger(actions: seq<CreditAction>, id: nat)
    requires forall k :: 0 <= k < |actions| ==> actions[k].userId != id
    ensures LedgerBalance(actions, id) == 0 && Chained(actions, id)
  {
    if |actions| > 0 {
      var earlier := actions[..|actions| - 1];
      assert forall k :: 0 <= k < |earlier| ==> earlier[k] == actions[k];
      FreshIdLedger(earlier, id);
    }
  }
}

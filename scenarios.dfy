/**
 * The repository's test cases, as clients of the store: each method runs the
 * steps of one case on a fresh store and returns what the case inspects.
 */
module Scenarios {
  import opened Records
  import opened ServicePlans
  import opened Subscriptions
  import BackfillMigration

  /** Creating a user provisions a subscription whose history holds one entry, and the user is on the default plan. */
  method UserCreation() returns (historyCount: nat, plan: Result<Plan>)
    ensures historyCount == 1
    ensures plan == Ok(Basic) && plan.value.isDefault
  {
    var db := new Store({});
    db.SaveUser(7, false);
    historyCount := |db.history[7]|;
    plan := db.GetCurrentPlanForUser(7);
  }

  /** Setting the premium flag and saving adds a second entry, the latest one premium, and moves the user to the non-default Premium plan. */
  method PremiumChange() returns (historyCount: nat, latestIsPremium: bool, plan: Result<Plan>)
    ensures historyCount == 2 && latestIsPremium
    ensures plan.Ok? && !plan.value.isDefault && plan.value.name == "Premium"
  {
    var db := new Store({});
    db.SaveUser(7, false);
    var s := db.subs[7];
    db.SaveSubscription(7, true, s.comment, s.expires);
    historyCount := |db.history[7]|;
    latestIsPremium := db.LatestEntry(7).isPremium;
    plan := db.GetCurrentPlanForUser(7);
  }

  /**
   * A user loaded raw from a fixture has no subscription; asking for the
   * plan creates one with default values, once: a second request adds nothing.
   */
  method FixtureUserPlan() returns (hadSubscription: bool, first: Result<Plan>, second: Result<Plan>, subscriptions: nat, historyCount: nat)
    ensures !hadSubscription
    ensures first == Ok(Basic) && second == Ok(Basic)
    ensures subscriptions == 1 && historyCount == 1
  {
    var db := new Store({});
    db.SaveUser(7, true);
    hadSubscription := 7 in db.subs;
    first := db.GetCurrentPlanForUser(7);
    second := db.GetCurrentPlanForUser(7);
    subscriptions := |db.subs|;
    historyCount := |db.history[7]|;
  }

  /** Asking for the plan of a user that does not exist is refused. */
  method UnknownUserPlan() returns (plan: Result<Plan>, subscriptions: nat)
    ensures plan == Err(UnknownUser) && subscriptions == 0
  {
    var db := new Store({1});
    plan := db.GetCurrentPlanForUser(2);
    subscriptions := |db.subs|;
  }

  /** Backfilling three existing users creates three subscriptions with one entry each; reversing deletes them all. */
  method Backfill() returns (subscriptions: nat, entries: nat, afterReverse: nat, entriesAfterReverse: nat)
    ensures subscriptions == 3 && entries == 3
    ensures afterReverse == 0 && entriesAfterReverse == 0
  {
    var db := new Store({1, 2, 3});
    BackfillMigration.Forwards(db);
    subscriptions := |db.subs|;
    entries := |db.history[1]| + |db.history[2]| + |db.history[3]|;
    BackfillMigration.Backwards(db);
    afterReverse := |db.subs|;
    entriesAfterReverse := |db.history|;
  }
}

/**
 * The data migration that gives every user who existed before subscriptions
 * were introduced a default subscription. The migration writes rows through
 * the schema's historical models, on which the live history hook does not
 * fire, so it records each first history entry itself.
 */
module BackfillMigration {
  import opened Records
  import opened Subscriptions

  /**
   * Every subscription in `subs` is a default one created in the clock
   * interval [from, to), and its history is the single entry mirroring it.
   */
  ghost predicate Backfilled(subs: map<UserId, Sub>, history: map<UserId, seq<Entry>>, from: nat, to: nat)
  {
    forall u :: u in subs ==>
      && subs[u] == DefaultSub(subs[u].created)
      && from <= subs[u].created < to
      && u in history && history[u] == [Snapshot(subs[u])]
  }

  /** Backfilling one more user at time `to` extends a backfilled state. */
  lemma BackfillOne(subs: map<UserId, Sub>, history: map<UserId, seq<Entry>>, from: nat, to: nat, u: UserId)
    requires Backfilled(subs, history, from, to) && from <= to
    ensures Backfilled(subs[u := DefaultSub(to)], history[u := [Snapshot(DefaultSub(to))]], from, to + 1)
  {
  }

  /**
   * One user's step of the migration: insert a default subscription, then a
   * history entry that mirrors it.
   */
  method BackfillUser(db: Store, u: UserId)
    requires db.Valid() && u in db.users && u !in db.subs
    modifies db
    ensures db.Valid()
    ensures db.users == old(db.users) && db.clock == old(db.clock) + 1
    ensures db.subs == old(db.subs)[u := DefaultSub(old(db.clock))]
    ensures db.history == old(db.history)[u := [Snapshot(DefaultSub(old(db.clock)))]]
  {
    var r := db.InsertSubscription(u);
    ghost var pending := db.history;
    db.CreateHistoryEntry(u);
    assert pending[u] + [Snapshot(db.subs[u])] == [Snapshot(DefaultSub(old(db.clock)))];
  }

  /**
   * Backfill every user. Right after the schema migration the subscription
   * table is empty; a user who already had a subscription would make the
   * insert violate the one-to-one constraint.
   */
  method Forwards(db: Store)
    requires db.Valid() && db.subs == map[]
    modifies db
    ensures db.Valid()
    ensures db.users == old(db.users)
    ensures db.subs.Keys == db.users && |db.subs| == |db.users|
    ensures db.history.Keys == db.users
    ensures Backfilled(db.subs, db.history, old(db.clock), db.clock)
    ensures db.clock == old(db.clock) + |db.users|
  {
    var todo := db.users;
    while todo != {}
      invariant db.Valid()
      invariant db.users == old(db.users) && todo <= db.users
      invariant db.subs.Keys == db.users - todo
      invariant old(db.clock) <= db.clock
      invariant Backfilled(db.subs, db.history, old(db.clock), db.clock)
      invariant db.clock + |todo| == old(db.clock) + |db.users|
      decreases todo
    {
      var u :| u in todo;
      BackfillOne(db.subs, db.history, old(db.clock), db.clock, u);
      BackfillUser(db, u);
      todo := todo - {u};
    }
  }

  /**
   * Delete every subscription. Each history row belongs to a subscription and
   * is deleted with it, so both tables end empty; users are not touched.
   */
  method Backwards(db: Store)
    requires db.Valid()
    modifies db`subs, db`history
    ensures db.Valid()
    ensures db.subs == map[] && db.history == map[]
    ensures db.users == old(db.users) && db.clock == old(db.clock)
  {
    db.history := map[];
    db.subs := map[];
  }

  /** Applying the migration and then reversing it, from empty tables, leaves them empty again. */
  method ForwardsThenBackwards(db: Store)
    requires db.Valid() && db.subs == map[]
    modifies db
    ensures db.Valid()
    ensures db.users == old(db.users)
    ensures db.subs == old(db.subs) && db.history == old(db.history)
  {
    Forwards(db);
    Backwards(db);
  }
}

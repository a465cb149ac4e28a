/**
 * The subscription store: the user table, the subscription table (one row per
 * user) and the history table (one list of snapshots per subscription), with
 * the two post-save hooks called explicitly where the store writes a row.
 */
module Subscriptions {
  import opened Records
  import opened ServicePlans

  /** What a database write can refuse. */
  datatype StoreError =
    | UnknownUser            // the referenced user does not exist (foreign-key violation)
    | DuplicateSubscription  // the user already has a subscription (one-to-one violation)

  datatype Result<T> = Ok(value: T) | Err(error: StoreError)

  /**
   * `h` is a history `s` can have: written in order, its first entry stamped
   * when `s` was created and its last one a snapshot of `s` as it is now.
   */
  ghost predicate HistoryOf(s: Sub, h: seq<Entry>)
  {
    |h| > 0 && Chronological(h) && h[0].created == s.created && h[|h| - 1] == Snapshot(s)
  }

  /**
   * The integrity rules of the three tables: every subscription belongs to a
   * user, every history to a subscription and every subscription has one;
   * timestamps are in the past; each history records its subscription's writes.
   */
  ghost predicate Consistent(users: set<UserId>, subs: map<UserId, Sub>, history: map<UserId, seq<Entry>>, clock: nat)
  {
    && subs.Keys <= users
    && history.Keys == subs.Keys
    && forall v :: v in subs ==>
      subs[v].created <= subs[v].modified < clock && HistoryOf(subs[v], history[v])
  }

  /** Inserting a default subscription for a user without one, with its first snapshot, keeps the tables consistent. */
  lemma InsertKeepsConsistent(users: set<UserId>, subs: map<UserId, Sub>, history: map<UserId, seq<Entry>>, clock: nat, u: UserId)
    requires Consistent(users, subs, history, clock)
    requires u in users && u !in subs
    ensures Consistent(users, subs[u := DefaultSub(clock)], history[u := [Snapshot(DefaultSub(clock))]], clock + 1)
  {
  }

  /**
   * Writing a subscription at the current time and appending the snapshot of
   * that write keeps the tables consistent, and the snapshot becomes the
   * latest entry of its history.
   */
  lemma RewriteKeepsConsistent(users: set<UserId>, subs: map<UserId, Sub>, history: map<UserId, seq<Entry>>, clock: nat, u: UserId, s': Sub)
    requires Consistent(users, subs, history, clock)
    requires u in subs && s'.created == subs[u].created && s'.modified == clock
    ensures Consistent(users, subs[u := s'], history[u := history[u] + [Snapshot(s')]], clock + 1)
    ensures Latest(history[u] + [Snapshot(s')]) == Snapshot(s')
  {
    LatestIsLast(history[u]);
    AppendNewest(history[u], Snapshot(s'));
  }

  class Store {
    var users: set<UserId>
    var subs: map<UserId, Sub>
    var history: map<UserId, seq<Entry>>
    /** The next timestamp to hand out; every subscription write takes one. */
    var clock: nat

    /** The store invariant: the tables are consistent. */
    ghost predicate Valid()
      reads this
    {
      Consistent(users, subs, history, clock)
    }

    /** The state between a write of `u`'s subscription row and the history hook that follows it. */
    ghost predicate AwaitingHistory(u: UserId)
      reads this
    {
      u in subs && u in history && Consistent(users, subs, history[u := history[u] + [Snapshot(subs[u])]], clock)
    }

    /** A store whose user table holds `existing` and whose other tables are empty. */
    constructor (existing: set<UserId>)
      ensures Valid()
      ensures users == existing && subs == map[] && history == map[] && clock == 0
    {
      users := existing;
      subs := map[];
      history := map[];
      clock := 0;
    }

    /**
     * Insert a subscription row with the default field values for `u`,
     * without the history hook; the database refuses an unknown user and a
     * second subscription for the same user.
     */
    method InsertSubscription(u: UserId) returns (r: Result<()>)
      requires Valid()
      modifies this
      ensures users == old(users)
      ensures u !in old(users) ==> r == Err(UnknownUser)
      ensures u in old(subs) ==> r == Err(DuplicateSubscription)
      ensures r.Ok? <==> u in old(users) && u !in old(subs)
      ensures r.Err? ==> Valid() && subs == old(subs) && history == old(history) && clock == old(clock)
      ensures r.Ok? ==>
        && u in old(users) && u !in old(subs)
        && subs == old(subs)[u := DefaultSub(old(clock))]
        && history == old(history)[u := []]
        && clock == old(clock) + 1
        && AwaitingHistory(u)
    {
      if u !in users {
        return Err(UnknownUser);
      }
      if u in subs {
        return Err(DuplicateSubscription);
      }
      var row := DefaultSub(clock);
      InsertKeepsConsistent(users, subs, history, clock, u);
      assert [] + [Snapshot(row)] == [Snapshot(row)];
      assert history[u := []][u := [Snapshot(row)]] == history[u := [Snapshot(row)]];
      subs := subs[u := row];
      history := history[u := []];
      clock := clock + 1;
      assert subs[u] == row;
      r := Ok(());
    }

    /** Record a snapshot of `u`'s subscription as it was just written: the post-save history hook. */
    method CreateHistoryEntry(u: UserId)
      requires AwaitingHistory(u)
      modifies this`history
      ensures Valid()
      ensures history == old(history)[u := old(history[u]) + [Snapshot(subs[u])]]
    {
      history := history[u := history[u] + [Snapshot(subs[u])]];
    }

    /** Create a subscription for `u` with default values; the history hook fires on the insert. */
    method CreateSubscription(u: UserId) returns (r: Result<()>)
      requires Valid()
      modifies this
      ensures Valid() && users == old(users)
      ensures r.Ok? <==> u in old(users) && u !in old(subs)
      ensures u !in old(users) ==> r == Err(UnknownUser)
      ensures u in old(subs) ==> r == Err(DuplicateSubscription)
      ensures r.Ok? ==> subs == old(subs)[u := DefaultSub(old(clock))]
      ensures r.Ok? ==> history == old(history)[u := [Snapshot(DefaultSub(old(clock)))]]
      ensures r.Ok? ==> clock == old(clock) + 1
      ensures r.Err? ==> subs == old(subs) && history == old(history) && clock == old(clock)
    {
      r := InsertSubscription(u);
      if r.Ok? {
        ghost var pending := history;
        CreateHistoryEntry(u);
        assert pending[u] + [Snapshot(subs[u])] == [Snapshot(DefaultSub(old(clock)))];
      }
    }

    /**
     * Save user `u`. Only the save that creates the user, and only outside a
     * raw fixture load, provisions a default subscription (and, through the
     * history hook, its first history entry).
     */
    method SaveUser(u: UserId, raw: bool)
      requires Valid()
      modifies this
      ensures Valid()
      ensures users == old(users) + {u}
      ensures u !in old(users) && !raw ==>
        && subs == old(subs)[u := DefaultSub(old(clock))]
        && history == old(history)[u := [Snapshot(DefaultSub(old(clock)))]]
        && clock == old(clock) + 1
      ensures u in old(users) || raw ==>
        subs == old(subs) && history == old(history) && clock == old(clock)
    {
      var created := u !in users;
      users := users + {u};
      if created && !raw {
        var r := CreateSubscription(u);
      }
    }

    /**
     * Write `written` over `u`'s subscription row at the current tick, without
     * the history hook; the row keeps its creation time.
     */
    method UpdateSubscription(u: UserId, written: Sub)
      requires Valid() && u in subs
      requires written.created == subs[u].created && written.modified == clock
      modifies this`subs, this`clock
      ensures subs == old(subs)[u := written] && clock == old(clock) + 1
      ensures AwaitingHistory(u)
      ensures Latest(history[u] + [Snapshot(written)]) == Snapshot(written)
    {
      RewriteKeepsConsistent(users, subs, history, clock, u, written);
      subs := subs[u := written];
      clock := clock + 1;
      assert subs[u] == written;
    }

    /**
     * Save `u`'s subscription with new field values: the row takes a fresh
     * modification time and the history hook appends exactly one snapshot of
     * it; no other row of either table changes.
     */
    method SaveSubscription(u: UserId, isPremium: bool, comment: string, expires: Option<Date>)
      requires Valid() && u in subs
      modifies this
      ensures Valid()
      ensures users == old(users) && clock == old(clock) + 1
      ensures subs == old(subs)[u := Sub(expires, comment, old(subs[u].created), old(clock), isPremium)]
      ensures history == old(history)[u := old(history[u]) + [Entry(expires, comment, old(clock), isPremium)]]
      ensures Latest(history[u]) == Snapshot(subs[u])
    {
      var written := Sub(expires, comment, subs[u].created, clock, isPremium);
      UpdateSubscription(u, written);
      CreateHistoryEntry(u);
    }

    /**
     * The plan `u` is on, creating a default subscription first when `u` has
     * none (get-or-create); an unknown user is refused and changes nothing.
     */
    method GetCurrentPlanForUser(u: UserId) returns (r: Result<Plan>)
      requires Valid()
      modifies this
      ensures Valid() && users == old(users)
      ensures u !in old(users) ==>
        r == Err(UnknownUser) && subs == old(subs) && history == old(history) && clock == old(clock)
      ensures u in old(subs) ==>
        && r == Ok(PlanFor(old(subs[u]).isPremium))
        && subs == old(subs) && history == old(history) && clock == old(clock)
      ensures u in old(users) && u !in old(subs) ==>
        && r == Ok(Basic)
        && subs == old(subs)[u := DefaultSub(old(clock))]
        && history == old(history)[u := [Snapshot(DefaultSub(old(clock)))]]
        && clock == old(clock) + 1
      ensures r.Ok? ==> u in subs && r.value in AllPlans && (r.value.isDefault <==> !subs[u].isPremium)
    {
      if u !in subs {
        var c := CreateSubscription(u);
        if c.Err? {
          return Err(c.error);
        }
      }
      r := Ok(PlanFor(subs[u].isPremium));
    }

    /** `u`'s latest history entry: the snapshot of its subscription's current state. */
    function LatestEntry(u: UserId): (e: Entry)
      reads this
      requires Valid() && u in subs
      ensures e in history[u]
      ensures forall x :: x in history[u] ==> x.created <= e.created
      ensures e.isPremium == subs[u].isPremium && e.comment == subs[u].comment && e.expires == subs[u].expires
      ensures e.created == subs[u].modified
    {
      LatestIsLast(history[u]);
      Latest(history[u])
    }

    /** `u`'s history as it is listed, newest first. */
    function HistoryListing(u: UserId): (r: seq<Entry>)
      reads this
      requires Valid() && u in subs
      ensures multiset(r) == multiset(history[u])
      ensures forall i, j :: 0 <= i < j < |r| ==> r[i].created > r[j].created
      ensures r[0] == LatestEntry(u)
    {
      NewestFirstPermutes(history[u]);
      NewestFirstOrdered(history[u]);
      NewestFirst(history[u])
    }
  }
}

# Service plans: a verified model of the subscription store

The `service_plans` application gives each user one service subscription. A
subscription is a premium/basic flag plus a comment and an optional expiry
date. The application also keeps an append-only history of every write to a
subscription.

The model has five modules:

- `ServicePlans` (`plans.dfy`) holds the two constant plan descriptors,
  Basic (the default) and Premium. `PlanFor` maps a subscription's flag to one
  of them.
- `Records` (`records.dfy`) holds the subscription and history rows. It also
  defines the "latest" rule (greatest `created`) and the newest-first listing
  order of history entries.
- `Subscriptions` (`store.dfy`) is a `Store` class with the user table, the
  subscription table, the history table and a clock.
  - Django's post-save receivers become explicit calls. `SaveUser` runs the
    user-creation hook. Every write of a subscription row is followed by
    `CreateHistoryEntry`, the history hook.
  - `Valid()` is the store invariant: every subscription belongs to a known
    user; histories exist exactly for subscriptions; every history is
    chronological, starts at the subscription's creation time and ends with a
    snapshot of the subscription as it is now.
  - There is at most one subscription per user because the subscription table
    is a map keyed by user. Inserting a second one is refused with
    `DuplicateSubscription`.
- `BackfillMigration` (`migration.dfy`) is the data migration that provisions
  subscriptions for users who existed before subscriptions did, and its
  reversal.
- `Scenarios` (`scenarios.dfy`) restates the repository's test cases as
  client methods. Their contracts give the values the tests inspect.

Timestamps are ticks of a store-wide clock. Every subscription write takes a
new tick, so `created` (set on insert) and `modified` (set on every write) are
naturals and strictly increase from write to write. Users are plain
identifiers.

Where the design description and the code differ, the model follows the code:

- Creating a subscription through the user hook does record a first history
  entry. The insert fires the history receiver, and `tests.py:42-48` expects
  a count of 1.
- The backfill migration records one history entry per subscription
  (`0002_...py:15-20`). It does not skip the initial entry. The live hook does
  not fire on the migration's historical models, so the migration writes that
  entry explicitly.

## Model

| member | source | states |
|---|---|---|
| `ServicePlans.PlanFor` | service_plans/models.py:56-61 | the result is one of the two plans, and it is the default plan exactly when the premium flag is off |
| `ServicePlans.PlanForDistinguishesFlags` | service_plans/models.py:56-61 | the flag on gives Premium and the flag off gives Basic; two flags give the same plan only if they are equal |
| `ServicePlans.ExactlyOneDefault` | service_plans/models.py:17-34 | Basic is a plan, is the default, and is the only default plan; Basic has sequence number 1 and Premium 2 |
| `Records.Latest` | service_plans/models.py:94 | the latest entry of a non-empty history belongs to it, and no entry of it has a later creation time |
| `Records.LatestIsLast` | service_plans/models.py:94-95 | in a history written in clock order, the latest entry is the one written last |
| `Records.AppendNewest` | service_plans/models.py:111-118 | appending an entry newer than every existing one keeps the history in order and makes that entry the latest |
| `Records.ChronologicalIncreasing` | service_plans/models.py:95 | in a history written in clock order, every entry is strictly newer than every entry before it |
| `Records.NewestFirst` | service_plans/models.py:95 | the listing has the history's length and shows its entries in reverse write order |
| `Records.NewestFirstPermutes` | service_plans/models.py:95 | the newest-first listing holds exactly the history's entries: a permutation |
| `Records.NewestFirstOrdered` | service_plans/models.py:95 | a listed chronological history is strictly descending by creation time and starts with the latest entry |
| `Subscriptions.InsertKeepsConsistent` | service_plans/models.py:46-54 | inserting a default subscription, with its first snapshot, for a known user who has none keeps every table rule |
| `Subscriptions.RewriteKeepsConsistent` | service_plans/models.py:111-118 | rewriting a subscription at the current tick and appending its snapshot keeps every table rule, and the snapshot becomes the latest entry |
| `Subscriptions.Store.constructor` | service_plans/migrations/0001_initial.py:14-47 | a store holding the given users and no subscription or history row satisfies the invariant |
| `Subscriptions.Store.InsertSubscription` | service_plans/models.py:46-54 | the insert is refused for an unknown user and for a user who already has a subscription, and then nothing changes; otherwise it adds a row with default values (not premium, empty comment, no expiry) stamped with the current tick, and only the history hook is still owed |
| `Subscriptions.Store.CreateHistoryEntry` | service_plans/models.py:111-118 | appends to the written subscription's history one entry holding its expiry, comment and flag, stamped with its modification time; no other history changes, and the invariant is restored |
| `Subscriptions.Store.CreateSubscription` | service_plans/models.py:82-83 | the same refusals as the insert; on success the user has a default subscription whose history is exactly one snapshot of it, and no other row changes |
| `Subscriptions.Store.UpdateSubscription` | service_plans/models.py:47-54 | the row takes the written values at the current tick and keeps its creation time; the clock advances; only the history hook is still owed, and the snapshot it will append becomes the latest entry |
| `Subscriptions.Store.SaveUser` | service_plans/models.py:76-83 | the user is in the user table afterwards; a non-raw creation provisions a default subscription with a one-entry history; a raw creation or a re-save of an existing user leaves both tables unchanged |
| `Subscriptions.Store.SaveSubscription` | service_plans/models.py:111-118 | the subscription takes the new values and a fresh modification time and keeps its creation time; exactly one entry mirroring it is appended to its history; nothing else changes; the latest entry is its snapshot |
| `Subscriptions.Store.GetCurrentPlanForUser` | service_plans/models.py:67-73 | an unknown user is refused with no change; an existing subscription is left untouched and its plan returned; otherwise a default subscription with one history entry is created and Basic returned; a returned plan is the default one exactly when the subscription is not premium |
| `Subscriptions.Store.LatestEntry` | service_plans/models.py:94 | the latest history entry of a subscription has its premium flag, comment and expiry, and is stamped with its modification time |
| `Subscriptions.Store.HistoryListing` | service_plans/models.py:95 | the listed history has exactly the subscription's entries, strictly newest first, starting with the latest entry |
| `BackfillMigration.BackfillOne` | service_plans/migrations/0002_data__create_service_subscriptions_for_existing_users.py:12-20 | adding one more default subscription with its mirroring entry at the current tick keeps the state backfilled |
| `BackfillMigration.BackfillUser` | service_plans/migrations/0002_data__create_service_subscriptions_for_existing_users.py:14-20 | one user gets a default subscription and a history of exactly one entry mirroring it; no other row changes |
| `BackfillMigration.Forwards` | service_plans/migrations/0002_data__create_service_subscriptions_for_existing_users.py:7-20 | users are unchanged; every user has exactly one subscription, so the subscription and user counts are equal; each subscription has default values and a history of exactly one entry mirroring it, stamped within the migration's run |
| `BackfillMigration.Backwards` | service_plans/migrations/0002_data__create_service_subscriptions_for_existing_users.py:23-25 | no subscription and, by cascade, no history entry remains; users are unchanged |
| `BackfillMigration.ForwardsThenBackwards` | service_plans/migrations/0002_data__create_service_subscriptions_for_existing_users.py:7-25 | from empty subscription and history tables, applying then reversing the migration leaves both empty and the users unchanged |
| `Scenarios.UserCreation` | service_plans/tests.py:42-69 | a newly created user has a subscription with one history entry and is on the default Basic plan |
| `Scenarios.PremiumChange` | service_plans/tests.py:50-84 | after the flag is set and saved, the history has two entries, the latest is premium, and the plan is the non-default Premium |
| `Scenarios.FixtureUserPlan` | service_plans/models.py:67-83 | a raw-loaded user has no subscription; two plan requests both return Basic and provision exactly one subscription with one history entry |
| `Scenarios.UnknownUserPlan` | service_plans/models.py:72 | asking for the plan of a user who does not exist is refused and creates nothing |
| `Scenarios.Backfill` | service_plans/migrations/0002_data__create_service_subscriptions_for_existing_users.py:7-25 | backfilling three users gives three subscriptions and three history entries; reversing leaves none of either |

## Left out

- The administrative list and edit view (`admin.py`) is not modelled. That covers filters, search, inline editing, the read-only history inline and the owned-courses count, which depends on a relation outside this application. The app configuration (`apps.py`) is left out too.
- The `__unicode__` display string and the translation of plan names are left out. Names are plain strings.
- Prices and currency are carried as the source's placeholder constants (zero, empty). No pricing is modelled.
- Real date-times are replaced by a strictly increasing natural-number clock. With equal timestamps the "latest" entry would be ambiguous.
- `created` (set on insert) and `modified` (set on every write) take the same tick on insert. The source computes them by two separate clock reads.
- Concurrency and transactions are not modelled. The store is sequential, so the get-or-create race and the atomicity of a row write with its history entry are out of scope.
- Deleting a user, which would cascade to the subscription and its history, is not an operation of this application and is not modelled.
- Writes that bypass the post-save receivers, such as queryset bulk updates, are not modelled. Every write in the model goes through the hook.
- Validation errors of administrative edits are not modelled. Any comment and expiry value is accepted.
- The account-registration HTTP flow exercised by `tests.py:16-40` is external. Only its consequence, the user-creation hook, is modelled.
- `Subscriptions.Store.SaveSubscription` requires an existing subscription. It models `save()` of a row already in the table; saving a new row is the insert path (`InsertSubscription`).
- `Subscriptions.Store.GetCurrentPlanForUser` returns `UnknownUser` for a user missing from the user table, with no change. In the source that case surfaces as a database integrity error from the insert.
- `BackfillMigration.Forwards` requires an empty subscription table, as it is right after the schema migration. Otherwise an insert would violate the one-to-one constraint partway through, and what was already written would depend on the database's transaction support.
- `BackfillMigration.Forwards` visits users in an unspecified order, like the unordered user query. Its contract therefore says only that each subscription's timestamp lies within the run, not which user got which tick.

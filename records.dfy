/**
 * Rows of the two tables: a user's subscription and the snapshots of it
 * kept in its history. Timestamps are ticks of a store-wide clock.
 */
module Records {

  type UserId = nat

  /** A calendar day, as a day number. */
  type Date = nat

  datatype Option<T> = None | Some(value: T)

  /** A row of the subscription table; the owning user is the key it is stored under. */
  datatype Sub = Sub(
    expires: Option<Date>,
    comment: string,
    created: nat,
    modified: nat,
    isPremium: bool)

  /** A row of the history table; the owning subscription is the key its list is stored under. */
  datatype Entry = Entry(
    expires: Option<Date>,
    comment: string,
    created: nat,
    isPremium: bool)

  /** A subscription as the table defaults make it, inserted at time `t`. */
  function DefaultSub(t: nat): Sub
  {
    Sub(None, "", t, t, false)
  }

  /** The history entry recorded for a write of `s`: its fields, stamped with its modification time. */
  function Snapshot(s: Sub): Entry
  {
    Entry(s.expires, s.comment, s.modified, s.isPremium)
  }

  /** Entries in the order they were written: each one is newer than the one before it. */
  ghost predicate Chronological(h: seq<Entry>)
  {
    |h| <= 1 || (Chronological(h[..|h| - 1]) && h[|h| - 2].created < h[|h| - 1].created)
  }

  /** In a chronological history every entry is newer than all entries before it. */
  lemma {:induction false} ChronologicalIncreasing(h: seq<Entry>)
    requires Chronological(h)
    ensures forall i, j :: 0 <= i < j < |h| ==> h[i].created < h[j].created
  {
    if |h| > 1 {
      var init := h[..|h| - 1];
      ChronologicalIncreasing(init);
      forall i, j | 0 <= i < j < |h| ensures h[i].created < h[j].created {
        if j < |h| - 1 {
          assert init[i] == h[i] && init[j] == h[j];
        } else if i < j - 1 {
          assert init[i] == h[i] && init[j - 1] == h[j - 1];
        }
      }
    }
  }

  /** The latest entry of a history: one whose creation time is the greatest. */
  function Latest(h: seq<Entry>): (e: Entry)
    requires |h| > 0
    ensures e in h
    ensures forall x :: x in h ==> x.created <= e.created
  {
    if |h| == 1 then h[0]
    else
      var prev := Latest(h[..|h| - 1]);
      assert forall x :: x in h ==> x in h[..|h| - 1] || x == h[|h| - 1];
      if h[|h| - 1].created >= prev.created then h[|h| - 1] else prev
  }

  /** In a chronological history the latest entry is the one written last. */
  lemma LatestIsLast(h: seq<Entry>)
    requires |h| > 0 && Chronological(h)
    ensures Latest(h) == h[|h| - 1]
  {
  }

  /** Appending an entry newer than all others keeps the history chronological and makes that entry the latest. */
  lemma AppendNewest(h: seq<Entry>, e: Entry)
    requires Chronological(h)
    requires forall x :: x in h ==> x.created < e.created
    ensures Chronological(h + [e])
    ensures Latest(h + [e]) == e
  {
  }

  /** The history in its listing order: newest first. */
  function NewestFirst(h: seq<Entry>): (r: seq<Entry>)
    ensures |r| == |h|
    ensures forall i :: 0 <= i < |h| ==> r[i] == h[|h| - 1 - i]
  {
    if h == [] then [] else [h[|h| - 1]] + NewestFirst(h[..|h| - 1])
  }

  /** Listing a history newest first loses and adds no entry. */
  lemma {:induction false} NewestFirstPermutes(h: seq<Entry>)
    ensures multiset(NewestFirst(h)) == multiset(h)
  {
    if h != [] {
      var init := h[..|h| - 1];
      NewestFirstPermutes(init);
      assert h == init + [h[|h| - 1]];
      assert NewestFirst(h) == [h[|h| - 1]] + NewestFirst(init);
    }
  }

  /** Listing a chronological history newest first sorts it by descending creation time and starts with the latest entry. */
  lemma NewestFirstOrdered(h: seq<Entry>)
    requires Chronological(h)
    ensures forall i, j :: 0 <= i < j < |h| ==> NewestFirst(h)[i].created > NewestFirst(h)[j].created
    ensures |h| > 0 ==> NewestFirst(h)[0] == Latest(h)
  {
    var r := NewestFirst(h);
    ChronologicalIncreasing(h);
    forall i, j | 0 <= i < j < |h| ensures r[i].created > r[j].created {
      assert r[i] == h[|h| - 1 - i] && r[j] == h[|h| - 1 - j];
    }
    if |h| > 0 {
      LatestIsLast(h);
    }
  }
}

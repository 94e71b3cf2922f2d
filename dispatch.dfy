/** The fan-out of `POST /api/notify-new-leave`: one delivery attempt per
    subscribed recipient, in order, with subscriptions the push service
    reports as gone (HTTP 410) deleted from the in-memory table. */
module Dispatch {
  import opened Records

  /** What one `webpush.sendNotification` call comes to: it resolves, it
      rejects with status code 410, or it rejects with anything else. */
  datatype Delivery = Accepted | Gone | Failed

  /** The loop's state: the two counters, the recipients a delivery was
      attempted for (in order), and the subscriptions table as it stands. */
  datatype Tally = Tally(sent: nat, removed: nat, attempted: seq<string>, table: SubscriptionTable)

  /** One iteration of the `for (const managerId of managerIds)` loop. */
  function Deliver(t: Tally, id: string, outcome: string -> Delivery): (t': Tally) {
    if id !in t.table then t
    else match outcome(id)
      case Accepted => t.(sent := t.sent + 1, attempted := t.attempted + [id])
      case Gone => t.(removed := t.removed + 1, attempted := t.attempted + [id], table := t.table - {id})
      case Failed => t.(attempted := t.attempted + [id])
  }

  /** The whole loop over `ids`, starting from counters 0/0 and the table as
      read from disk. */
  function NotifyAll(subs: SubscriptionTable, ids: seq<string>, outcome: string -> Delivery): (t: Tally)
    decreases |ids|
  {
    if ids == [] then Tally(0, 0, [], subs)
    else Deliver(NotifyAll(subs, ids[..|ids| - 1], outcome), ids[|ids| - 1], outcome)
  }

  /** The loop as the handler runs it, on its own copy of the table; what it
      computes is `NotifyAll`. */
  method NotifyMany(recipients: seq<string>, subs: SubscriptionTable, outcome: string -> Delivery)
    returns (sent: nat, removed: nat, attempted: seq<string>, table: SubscriptionTable)
    ensures Tally(sent, removed, attempted, table) == NotifyAll(subs, recipients, outcome)
  {
    sent, removed, attempted, table := 0, 0, [], subs;
    for i := 0 to |recipients|
      invariant Tally(sent, removed, attempted, table) == NotifyAll(subs, recipients[..i], outcome)
    {
      var id := recipients[i];
      if id in table {
        attempted := attempted + [id];
        match outcome(id)
        case Accepted =>
          sent := sent + 1;
        case Gone =>
          table := table - {id};
          removed := removed + 1;
        case Failed =>
      }
      assert recipients[..i + 1][..i] == recipients[..i];
    }
    assert recipients[..|recipients|] == recipients;
  }

  /** The recipients among `ids` whose delivery reports them gone. */
  function GoneIds(ids: seq<string>, outcome: string -> Delivery): (g: set<string>)
    ensures forall id :: id in g <==> id in ids && outcome(id) == Gone
  {
    set id | id in ids && outcome(id) == Gone
  }

  /** The recipients of `ids` that have a subscription in `subs`, in order. */
  function SubscribedAmong(ids: seq<string>, subs: SubscriptionTable): (r: seq<string>)
    ensures forall id :: id in r <==> id in ids && id in subs
    ensures |r| <= |ids|
  {
    if ids == [] then []
    else SubscribedAmong(ids[..|ids| - 1], subs) + (if ids[|ids| - 1] in subs then [ids[|ids| - 1]] else [])
  }

  /** The number of positions of `ids` holding a subscribed recipient whose
      delivery is accepted. */
  function CountAccepted(ids: seq<string>, subs: SubscriptionTable, outcome: string -> Delivery): (n: nat)
    ensures n <= |ids|
  {
    if ids == [] then 0
    else
      var id := ids[|ids| - 1];
      CountAccepted(ids[..|ids| - 1], subs, outcome) + (if id in subs && outcome(id) == Accepted then 1 else 0)
  }

  lemma LastSplit(ids: seq<string>)
    requires ids != []
    ensures ids == ids[..|ids| - 1] + [ids[|ids| - 1]]
    ensures forall id :: id in ids <==> id in ids[..|ids| - 1] || id == ids[|ids| - 1]
  {
  }

  /** Pruning is precise: after the loop a key is absent iff it was absent
      before or it belongs to a recipient whose delivery came back gone.
      The entries of non-recipients, and of recipients whose delivery
      failed otherwise or succeeded, keep their values. */
  lemma {:induction false} PruneExact(subs: SubscriptionTable, ids: seq<string>, outcome: string -> Delivery)
    ensures NotifyAll(subs, ids, outcome).table == subs - GoneIds(ids, outcome)
  {
    if ids != [] {
      var prefix, x := ids[..|ids| - 1], ids[|ids| - 1];
      PruneExact(subs, prefix, outcome);
      LastSplit(ids);
      if outcome(x) == Gone {
        assert GoneIds(ids, outcome) == GoneIds(prefix, outcome) + {x};
      } else {
        assert GoneIds(ids, outcome) == GoneIds(prefix, outcome);
      }
    }
  }

  /** Each removal takes exactly one entry out of the table, so `removed`
      is how many entries the loop deleted. */
  lemma {:induction false} RemovedCount(subs: SubscriptionTable, ids: seq<string>, outcome: string -> Delivery)
    ensures NotifyAll(subs, ids, outcome).removed + |NotifyAll(subs, ids, outcome).table| == |subs|
    ensures NotifyAll(subs, ids, outcome).table.Keys <= subs.Keys
  {
    if ids != [] {
      var prefix, x := ids[..|ids| - 1], ids[|ids| - 1];
      RemovedCount(subs, prefix, outcome);
      var t := NotifyAll(subs, prefix, outcome);
      if x in t.table && outcome(x) == Gone {
        assert (t.table - {x}).Keys == t.table.Keys - {x};
      }
    }
  }

  /** Taking a subset out of a finite set leaves the rest of its elements. */
  lemma SplitCard(whole: set<string>, part: set<string>)
    requires part <= whole
    ensures |whole - part| == |whole| - |part|
  {
  }

  /** A table obtained by deleting `gone` from `subs`, with `removed` counting
      the lost entries: `removed` is the number of deleted keys that were
      present, and it is positive iff the table changed. */
  lemma PrunedTable(subs: SubscriptionTable, table: SubscriptionTable, gone: set<string>, removed: nat)
    requires table == subs - gone
    requires removed + |table| == |subs|
    ensures removed == |subs.Keys * gone|
    ensures removed > 0 <==> table != subs
  {
    var lost := subs.Keys * gone;
    assert table.Keys == subs.Keys - lost;
    SplitCard(subs.Keys, lost);
    if lost == {} {
      assert table == subs;
    } else {
      var k :| k in lost;
      assert k in subs && k !in table;
    }
  }

  /** `removedCount` is the number of recipients that had a subscription and
      came back gone. */
  lemma RemovedAreGone(subs: SubscriptionTable, ids: seq<string>, outcome: string -> Delivery)
    ensures NotifyAll(subs, ids, outcome).removed == |subs.Keys * GoneIds(ids, outcome)|
  {
    var t := NotifyAll(subs, ids, outcome);
    RemovedCount(subs, ids, outcome);
    PruneExact(subs, ids, outcome);
    PrunedTable(subs, t.table, GoneIds(ids, outcome), t.removed);
  }

  /** The table is written back (`removedCount > 0`) exactly when the loop
      changed it. */
  lemma PersistIffRemoved(subs: SubscriptionTable, ids: seq<string>, outcome: string -> Delivery)
    ensures NotifyAll(subs, ids, outcome).removed > 0 <==> NotifyAll(subs, ids, outcome).table != subs
  {
    var t := NotifyAll(subs, ids, outcome);
    RemovedCount(subs, ids, outcome);
    PruneExact(subs, ids, outcome);
    PrunedTable(subs, t.table, GoneIds(ids, outcome), t.removed);
  }

  /** A delivery is attempted for a recipient iff it is in the list and had
      a subscription when the loop started; recipients without one cause no
      attempt. */
  lemma {:induction false} AttemptedMembers(subs: SubscriptionTable, ids: seq<string>, outcome: string -> Delivery)
    ensures forall id :: id in NotifyAll(subs, ids, outcome).attempted <==> id in ids && id in subs
  {
    if ids != [] {
      var prefix, x := ids[..|ids| - 1], ids[|ids| - 1];
      AttemptedMembers(subs, prefix, outcome);
      PruneExact(subs, prefix, outcome);
      LastSplit(ids);
    }
  }

  /** With distinct recipients (as the keys of the users table are), the
      attempts are exactly the subscribed recipients, in list order. */
  lemma {:induction false} AttemptedExact(subs: SubscriptionTable, ids: seq<string>, outcome: string -> Delivery)
    requires Distinct(ids)
    ensures NotifyAll(subs, ids, outcome).attempted == SubscribedAmong(ids, subs)
  {
    if ids != [] {
      var prefix, x := ids[..|ids| - 1], ids[|ids| - 1];
      assert Distinct(prefix);
      AttemptedExact(subs, prefix, outcome);
      PruneExact(subs, prefix, outcome);
      assert x !in prefix;
    }
  }

  /** `sentCount` counts the subscribed recipients whose delivery was
      accepted: such a subscription is never pruned before its turn. */
  lemma {:induction false} SentIsAccepted(subs: SubscriptionTable, ids: seq<string>, outcome: string -> Delivery)
    ensures NotifyAll(subs, ids, outcome).sent == CountAccepted(ids, subs, outcome)
  {
    if ids != [] {
      var prefix, x := ids[..|ids| - 1], ids[|ids| - 1];
      SentIsAccepted(subs, prefix, outcome);
      PruneExact(subs, prefix, outcome);
    }
  }

  /** The counters are bounded: every attempt moves at most one of `sent`
      and `removed`, and there is at most one attempt per recipient. */
  lemma {:induction false} CountersBounded(subs: SubscriptionTable, ids: seq<string>, outcome: string -> Delivery)
    ensures NotifyAll(subs, ids, outcome).sent + NotifyAll(subs, ids, outcome).removed
         <= |NotifyAll(subs, ids, outcome).attempted|
    ensures |NotifyAll(subs, ids, outcome).attempted| <= |SubscribedAmong(ids, subs)| <= |ids|
  {
    if ids != [] {
      var prefix, x := ids[..|ids| - 1], ids[|ids| - 1];
      CountersBounded(subs, prefix, outcome);
      RemovedCount(subs, prefix, outcome);
      var t := NotifyAll(subs, prefix, outcome);
      assert NotifyAll(subs, ids, outcome) == Deliver(t, x, outcome);
      assert |SubscribedAmong(ids, subs)| == |SubscribedAmong(prefix, subs)| + if x in subs then 1 else 0;
    }
  }

  /** A list with no subscribed recipient, the empty list included, gives
      0 sent, 0 removed, no attempt and the table untouched. */
  lemma {:induction false} NothingSubscribed(subs: SubscriptionTable, ids: seq<string>, outcome: string -> Delivery)
    requires forall id | id in ids :: id !in subs
    ensures NotifyAll(subs, ids, outcome) == Tally(0, 0, [], subs)
  {
    if ids != [] {
      NothingSubscribed(subs, ids[..|ids| - 1], outcome);
      LastSplit(ids);
    }
  }
}

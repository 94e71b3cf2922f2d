/** The server's state is the pair of JSON files on disk. Every handler reads
    the file it needs afresh, works on its own in-memory copy of the table and,
    where it changes the table, writes the whole copy back. */
module Server {
  import opened Records
  import opened Store
  import opened Registry
  import opened Recipients
  import opened Dispatch
  import Notify

  /** The users written to users.json at start-up when the file does not exist. */
  const DefaultUsers: UserTable := map[
    "4810" := User("Trà Thị Tuyết Trang", "manager", "Nhân sự"),
    "5035" := User("Lê Văn Luýt", "employee", "Kỹ thuật"),
    "1234" := User("Nguyễn Thị Vân Hiếu", "HR", "Nhân sự")
  ]

  class LeaveServer {
    var usersFile: JsonFile<UserTable>
    var subscriptionsFile: JsonFile<SubscriptionTable>
    /** Every table handed to `writeJSONFile` for subscriptions.json, in
        order, whether or not the write succeeded. */
    ghost var subscriptionWrites: seq<SubscriptionTable>

    /** Start-up: users.json is seeded with the default users when it does
        not exist. A file that exists but cannot be read is left alone. */
    constructor (users: JsonFile<UserTable>, subscriptions: JsonFile<SubscriptionTable>)
      ensures usersFile == if users.Missing? then Stored(DefaultUsers) else users
      ensures subscriptionsFile == subscriptions
      ensures subscriptionWrites == []
    {
      usersFile := if users.Missing? then Stored(DefaultUsers) else users;
      subscriptionsFile := subscriptions;
      subscriptionWrites := [];
    }

    /** `readJSONFile(SUBSCRIPTIONS_FILE, {})` */
    function Subscriptions(): (t: SubscriptionTable)
      reads this
      ensures subscriptionsFile.Stored? ==> t == subscriptionsFile.value
      ensures !subscriptionsFile.Stored? ==> t == map[]
    {
      ReadJSONFile(subscriptionsFile, map[])
    }

    /** `readJSONFile(USERS_FILE, {})` */
    function Users(): (t: UserTable)
      reads this
      ensures usersFile.Stored? ==> t == usersFile.value
      ensures !usersFile.Stored? ==> t == map[]
    {
      ReadJSONFile(usersFile, map[])
    }

    /** `writeJSONFile(SUBSCRIPTIONS_FILE, table)`; its result is ignored by
        every caller. What the next read finds depends on how the write
        ended: the new table, the old one, or (after a truncation) `{}`. */
    method PersistSubscriptions(table: SubscriptionTable, disk: WriteOutcome)
      modifies this
      ensures subscriptionsFile == WriteJSONFile(old(subscriptionsFile), table, disk).0
      ensures subscriptionWrites == old(subscriptionWrites) + [table]
      ensures usersFile == old(usersFile)
      ensures Subscriptions() == match disk
                                 case Written => table
                                 case NotOpened => old(Subscriptions())
                                 case Truncated => map[]
    {
      var (written, _) := WriteJSONFile(subscriptionsFile, table, disk);
      ReadAfterWrite(subscriptionsFile, table, disk, map[]);
      subscriptionsFile := written;
      subscriptionWrites := subscriptionWrites + [table];
    }

    /** `POST /api/subscribe`. An incomplete request is answered 400 and
        touches nothing. Otherwise the user's entry is overwritten, the
        whole table is written back once, and the reply is a success
        whether or not the write went through. When it did, the table
        holds one more entry exactly when the user had none. */
    method Subscribe(req: SubscribeRequest, now: Timestamp, disk: WriteOutcome) returns (reply: Reply)
      modifies this
      ensures usersFile == old(usersFile)
      ensures CheckSubscribe(req).Incomplete? ==>
        && reply == Reply(400, false, MissingFields)
        && subscriptionsFile == old(subscriptionsFile)
        && subscriptionWrites == old(subscriptionWrites)
      ensures CheckSubscribe(req).Complete? ==>
        var c := CheckSubscribe(req);
        var table := Register(old(Subscriptions()), c.userId, c.endpoint, c.keys, now);
        && reply == Reply(200, true, SubscriptionSaved)
        && subscriptionWrites == old(subscriptionWrites) + [table]
        && subscriptionsFile == WriteJSONFile(old(subscriptionsFile), table, disk).0
        && (disk == Written ==> |Subscriptions()| == |old(Subscriptions())| + if c.userId in old(Subscriptions()) then 0 else 1)
    {
      var checked := CheckSubscribe(req);
      if checked.Incomplete? {
        return Reply(400, false, MissingFields);
      }
      var subscriptions := Subscriptions();
      ghost var before := subscriptions;
      subscriptions := subscriptions[checked.userId := Subscription(checked.endpoint, checked.keys, now, now)];
      PersistSubscriptions(subscriptions, disk);
      RegisterSize(before, checked.userId, checked.endpoint, checked.keys, now);
      reply := Reply(200, true, SubscriptionSaved);
    }

    /** `POST /api/notify-new-leave`. The recipients are the managers and HR
        users other than the sender, in the order `Object.keys` gives
        (`keyOrder`); the fan-out runs on the table read from disk, and that
        table is written back once, and only if some subscription was
        pruned. When the write goes through, the table has lost exactly the
        pruned entries. */
    method NotifyNewLeave(sender: string, keyOrder: seq<string>, outcome: string -> Delivery, disk: WriteOutcome)
      returns (reply: Reply, attempted: seq<string>)
      requires EnumeratesKeys(keyOrder, Users())
      modifies this
      ensures usersFile == old(usersFile)
      ensures
        var t := NotifyAll(old(Subscriptions()), Approvers(keyOrder, old(Users()), sender), outcome);
        && reply == Reply(200, true, SentCount(t.sent))
        && attempted == t.attempted
        && subscriptionWrites == old(subscriptionWrites) + (if t.removed > 0 then [t.table] else [])
        && subscriptionsFile == (if t.removed > 0 then WriteJSONFile(old(subscriptionsFile), t.table, disk).0
                                 else old(subscriptionsFile))
        && (disk == Written ==> |Subscriptions()| == |old(Subscriptions())| - t.removed)
    {
      var users := Users();
      var subscriptions := Subscriptions();
      var managerIds := Approvers(keyOrder, users, sender);
      var sentCount, removedCount, pruned;
      sentCount, removedCount, attempted, pruned := NotifyMany(managerIds, subscriptions, outcome);
      RemovedCount(subscriptions, managerIds, outcome);
      PersistIffRemoved(subscriptions, managerIds, outcome);
      if removedCount > 0 {
        PersistSubscriptions(pruned, disk);
      }
      reply := Reply(200, true, SentCount(sentCount));
    }

    /** `POST /api/notify-leave-result`: reads the table, never writes it. */
    method NotifyLeaveResult(userId: string, status: string, reason: Option<string>, transport: Delivery)
      returns (h: Notify.Handled)
      ensures h == Notify.NotifyLeaveResult(Subscriptions(), userId, status, reason, transport)
      ensures h.attempt.None? ==> !h.reply.success
    {
      var subscriptions := Subscriptions();
      h := Notify.NotifyLeaveResult(subscriptions, userId, status, reason, transport);
    }

    /** `POST /api/test-notification`: reads the table, never writes it. */
    method TestNotification(userId: string, transport: Delivery) returns (h: Notify.Handled)
      ensures h == Notify.TestNotification(Subscriptions(), userId, transport)
      ensures h.attempt.None? ==> h.reply.status == 404
    {
      var subscriptions := Subscriptions();
      h := Notify.TestNotification(subscriptions, userId, transport);
    }

    /** `GET /api/health`: the number of keys in each table as read from
        disk; a missing or unreadable file counts as empty. */
    function Health(): (s: Stats)
      reads this
      ensures subscriptionsFile.Stored? ==> s.totalSubscriptions == |subscriptionsFile.value|
      ensures usersFile.Stored? ==> s.totalUsers == |usersFile.value|
      ensures !subscriptionsFile.Stored? ==> s.totalSubscriptions == 0
      ensures !usersFile.Stored? ==> s.totalUsers == 0
    {
      Stats(|Subscriptions()|, |Users()|)
    }

    /** `DELETE /api/unsubscribe/:userId`. A present entry is deleted,
        alone, and the table written back; an absent one is reported with
        `success: false` and nothing is written. */
    method Unsubscribe(userId: string, disk: WriteOutcome) returns (reply: Reply)
      modifies this
      ensures usersFile == old(usersFile)
      ensures userId in old(Subscriptions()) ==>
        && reply == Reply(200, true, Unsubscribed)
        && subscriptionWrites == old(subscriptionWrites) + [old(Subscriptions()) - {userId}]
        && subscriptionsFile == WriteJSONFile(old(subscriptionsFile), old(Subscriptions()) - {userId}, disk).0
        && (disk == Written ==> |Subscriptions()| == |old(Subscriptions())| - 1)
      ensures userId !in old(Subscriptions()) ==>
        && reply == Reply(200, false, NotFound)
        && subscriptionsFile == old(subscriptionsFile)
        && subscriptionWrites == old(subscriptionWrites)
    {
      var subscriptions := Subscriptions();
      if userId in subscriptions {
        RemoveSize(subscriptions, userId);
        subscriptions := subscriptions - {userId};
        PersistSubscriptions(subscriptions, disk);
        reply := Reply(200, true, Unsubscribed);
      } else {
        reply := Reply(200, false, NotFound);
      }
    }
  }

  /** With the default users, a leave request filed by employee 5035 goes to
      the HR user 1234 and the manager 4810, in `Object.keys` order. */
  lemma DefaultRecipients()
    ensures Approvers(["1234", "4810", "5035"], DefaultUsers, "5035") == ["1234", "4810"]
  {
  }

  /** When only 4810 is subscribed and the push service accepts everything,
      a fan-out to 1234 and 4810 makes exactly one attempt, to 4810, and
      counts it as sent. */
  lemma OneSubscribedManager(sub: Subscription)
    ensures NotifyAll(map["4810" := sub], ["1234", "4810"], AcceptAll)
         == Tally(1, 0, ["4810"], map["4810" := sub])
  {
  }

  /** The order `Object.keys` gives for the default users (integer-like keys
      ascending) enumerates them. */
  lemma DefaultKeyOrder()
    ensures EnumeratesKeys(["1234", "4810", "5035"], DefaultUsers)
  {
  }

  /** The push service of the scenario below: it accepts every delivery. */
  function AcceptAll(id: string): (d: Delivery) {
    Accepted
  }

  /** A first start with no data files: user 4810 (a manager) subscribes, the
      employee 5035 files a leave request, and then asks for the result of a
      request without being subscribed. */
  method FirstRunScenario() {
    var server := new LeaveServer(Missing, Missing);
    var now := "2024-05-02T08:00:00.000Z";
    var sub := Subscription("https://push.example/4810", None, now, now);
    var reply := server.Subscribe(
      SubscribeRequest(Some("4810"), Some(PushSubscription(Some(sub.endpoint), None))), now, Written);
    assert reply == Reply(200, true, SubscriptionSaved);
    assert server.Subscriptions() == map["4810" := sub];
    DefaultKeyOrder();
    DefaultRecipients();
    OneSubscribedManager(sub);
    var attempted;
    reply, attempted := server.NotifyNewLeave("5035", ["1234", "4810", "5035"], AcceptAll, Written);
    assert attempted == ["4810"] && reply == Reply(200, true, SentCount(1));
    var h := server.NotifyLeaveResult("5035", "approved", None, Accepted);
    assert h.attempt == None && h.reply == Reply(200, false, NotSubscribed);
  }
}

/** The subscription registry: what `POST /api/subscribe` accepts and how it
    changes the subscriptions table. */
module Registry {
  import opened Records

  /** The `subscription` object of a subscribe request body. */
  datatype PushSubscription = PushSubscription(endpoint: Option<string>, keys: Option<PushKeys>)

  /** The body `{userId, subscription}` of a subscribe request; either
      field may be absent. */
  datatype SubscribeRequest = SubscribeRequest(userId: Option<string>, subscription: Option<PushSubscription>)

  /** The outcome of the handler's guard: rejected, or the three values it
      goes on to store. */
  datatype Checked = Incomplete | Complete(userId: string, endpoint: string, keys: Option<PushKeys>)

  /** The guard `!userId || !subscription || !subscription.endpoint`: a
      request passes exactly when it names a non-empty user id and carries a
      subscription with a non-empty endpoint. The key material is not
      checked. */
  function CheckSubscribe(req: SubscribeRequest): (c: Checked)
    ensures c.Incomplete? <==>
      !Truthy(req.userId) || req.subscription.None? || !Truthy(req.subscription.value.endpoint)
    ensures c.Complete? ==>
      && req.userId == Some(c.userId) && c.userId != ""
      && req.subscription.value.endpoint == Some(c.endpoint) && c.endpoint != ""
      && req.subscription.value.keys == c.keys
  {
    if !Truthy(req.userId) then Incomplete
    else if req.subscription.None? then Incomplete
    else if !Truthy(req.subscription.value.endpoint) then Incomplete
    else Complete(req.userId.value, req.subscription.value.endpoint.value, req.subscription.value.keys)
  }

  /** `subscriptions[userId] = {endpoint, keys, createdAt, updatedAt}`: the
      user's entry is replaced by a fresh record stamped `now` twice, and
      every other entry is left as it was. */
  function Register(table: SubscriptionTable, userId: string, endpoint: string,
                    keys: Option<PushKeys>, now: Timestamp): (r: SubscriptionTable)
    ensures r.Keys == table.Keys + {userId}
    ensures r[userId] == Subscription(endpoint, keys, now, now)
    ensures forall id :: id in table && id != userId ==> r[id] == table[id]
  {
    table[userId := Subscription(endpoint, keys, now, now)]
  }

  /** Subscribing the same user twice leaves one entry, the latest one: the
      first registration leaves no trace. */
  lemma RegisterTwice(table: SubscriptionTable, userId: string,
                      e1: string, k1: Option<PushKeys>, t1: Timestamp,
                      e2: string, k2: Option<PushKeys>, t2: Timestamp)
    ensures Register(Register(table, userId, e1, k1, t1), userId, e2, k2, t2)
         == Register(table, userId, e2, k2, t2)
    ensures Register(Register(table, userId, e1, k1, t1), userId, e2, k2, t2)[userId].endpoint == e2
  {
  }

  /** The table grows by one entry exactly when the user had none before:
      there is never more than one subscription per user. */
  lemma RegisterSize(table: SubscriptionTable, userId: string, endpoint: string,
                        keys: Option<PushKeys>, now: Timestamp)
    ensures |Register(table, userId, endpoint, keys, now)| == |table| + (if userId in table then 0 else 1)
  {
  }

  /** `delete subscriptions[userId]` takes away one entry when there was one
      and leaves every other entry as it was. */
  lemma RemoveSize(table: SubscriptionTable, userId: string)
    requires userId in table
    ensures |table - {userId}| == |table| - 1
    ensures forall id :: id in table && id != userId ==> id in table - {userId} && (table - {userId})[id] == table[id]
  {
  }
}

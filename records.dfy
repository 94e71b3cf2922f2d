/** The records the leave-notification server keeps and the replies its
    HTTP endpoints send back. Both tables are JSON objects keyed by user id. */
module Records {

  datatype Option<T> = None | Some(value: T)

  /** An ISO-8601 timestamp as produced by `new Date().toISOString()`;
      the model never looks inside it. */
  type Timestamp = string

  /** One entry of users.json. `role` is an open string: only "manager"
      and "HR" mean anything to the server. */
  datatype User = User(name: string, role: string, department: string)

  /** The key material a browser hands over with its push subscription;
      the server stores it and passes it to the transport unmodified. */
  datatype PushKeys = PushKeys(p256dh: string, auth: string)

  /** One entry of subscriptions.json. `keys` is whatever the request carried,
      possibly nothing: the subscribe handler does not check it. */
  datatype Subscription = Subscription(
    endpoint: string,
    keys: Option<PushKeys>,
    createdAt: Timestamp,
    updatedAt: Timestamp)

  type UserTable = map<string, User>
  type SubscriptionTable = map<string, Subscription>

  /** The roles that receive a notification when a leave request is filed. */
  predicate IsApprover(role: string) {
    role == "manager" || role == "HR"
  }

  /** JavaScript truthiness of an optional string field of a request body:
      absent and the empty string are both falsy. */
  predicate Truthy(field: Option<string>) {
    field.Some? && field.value != ""
  }

  predicate Distinct<T(==)>(s: seq<T>) {
    forall i, j | 0 <= i < j < |s| :: s[i] != s[j]
  }

  /** The `message` (or `error`) a handler puts in its JSON reply. */
  datatype Message =
    | SubscriptionSaved
    | MissingFields
    | SentCount(count: nat)
    | NotSubscribed
    | NotificationSent
    | TestSent
    | Unsubscribed
    | NotFound
    | SendFailed

  /** An HTTP reply: status code, the `success` flag and the message. */
  datatype Reply = Reply(status: nat, success: bool, message: Message)

  /** The `stats` object of the health endpoint. */
  datatype Stats = Stats(totalSubscriptions: nat, totalUsers: nat)
}

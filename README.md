# Leave-request push notifier: a Dafny model

This project models the server that relays leave-request events to browser push
subscriptions. The server keeps two tables in two JSON files. `users` maps a user
id to a name, a role and a department. `subscriptions` maps a user id to a push
endpoint, its key material and two timestamps. Its HTTP handlers do the following:

- register a subscription (`POST /api/subscribe`);
- fan a "new leave request" notice out to every manager and HR user except the
  sender, and delete the subscriptions the push service reports as gone (HTTP 410)
  (`POST /api/notify-new-leave`);
- notify one employee of a decision (`POST /api/notify-leave-result`), or send
  them a test message (`POST /api/test-notification`);
- delete a subscription (`DELETE /api/unsubscribe/:userId`);
- report the size of both tables (`GET /api/health`).

Modules, one per file:

- `Records` (records.dfy): users, subscriptions, replies.
- `Store` (store.dfy): a file is `Missing`, `Unreadable` (its read or JSON parse
  throws) or `Stored(table)`. `readJSONFile` falls back to its default on the first
  two. A `writeJSONFile` call ends in one of three ways (`WriteOutcome`). It
  replaces the file (`Written`). It fails before the file is opened, which leaves
  the file as it was (`NotOpened`). Or it fails after `fs.writeFileSync`
  truncated the file, which leaves it `Unreadable` (`Truncated`).
- `Registry` (registry.dfy): the subscribe guard and the one-entry overwrite.
- `Recipients` (recipients.dfy): the manager/HR filter over `Object.keys(users)`.
- `Dispatch` (dispatch.dfy): the fan-out loop. `NotifyMany` is the loop itself.
  `NotifyAll` is the function it is proved against. The lemmas about `NotifyAll`
  state what the loop promises.
- `Notify` (notify.dfy): the two single-recipient handlers, as functions of the
  table read from disk.
- `Server` (server.dfy): class `LeaveServer`. It holds the two files as fields, plus
  a ghost log of every write to subscriptions.json. It has one method per handler.
  Each method reads the file, works on a local copy of the table and writes the
  copy back where the source does. `FirstRunScenario` is a verified client. It
  starts with no files, subscribes manager 4810 and files a request as employee
  5035. Exactly one delivery is attempted, and the reply reports one sent.

External inputs are parameters:

- **Push service.** `outcome: string -> Delivery` gives the result of sending to
  each recipient: `Accepted`, `Gone` (status 410) or `Failed` (any other error).
  Recipients are keys of the users table, so they are distinct. A per-recipient
  oracle is therefore as general as a per-attempt one. The single-recipient
  handlers take one `Delivery`.
- **Disk write.** `disk: WriteOutcome` says how the `writeJSONFile` call ended.
- **Clock.** `now` is the timestamp.
- **Key order.** `keyOrder` is the order `Object.keys(users)` returns. It must
  list every key exactly once.

The model keeps these behaviours of the code:

- Unsubscribing an absent user is answered `success: false`, not as a success.
- The subscribe guard checks `subscription.endpoint`, not a part of `keys`. The
  key material is stored unchecked and may be absent.
- notify-leave-result and test-notification never prune. A 410 there goes to the
  500 handler like any other send error.
- Every status except exactly `"approved"` gets the rejection text.
- When subscriptions.json exists but cannot be parsed, subscribe starts from `{}`.
  A successful write then replaces the unreadable file with a one-entry table.

## Model

| member | source | states |
|---|---|---|
| Store.ReadJSONFile | server.js:75-85 | a file that parses gives its contents; a missing file, or one whose read or parse throws, gives the default value and no error |
| Store.WriteJSONFile | server.js:87-95 | the call returns true iff the write succeeded; a successful write stores exactly the data; a failure before the file is opened leaves it as it was; a failure after the truncation leaves it unreadable |
| Store.ReadAfterWrite | server.js:75-95 | reading after a successful write returns what was written, whatever the default; after a write that failed before opening, reads are unchanged; after a truncated write, every read gives the default, so the table is lost |
| Registry.CheckSubscribe | server.js:119-124 | a request is rejected iff the user id is absent or empty, the subscription is absent, or its endpoint is absent or empty; an accepted request yields exactly the request's id, endpoint and keys |
| Registry.Register | server.js:126-133 | after a subscribe, the table's keys are the old keys plus the user; the user's entry is exactly the new endpoint and keys, stamped `now` twice; every other entry is unchanged |
| Registry.RegisterTwice | server.js:126-135 | subscribing the same user twice equals subscribing once with the second request: one entry, holding the latest endpoint |
| Registry.RegisterSize | server.js:126-135 | the table grows by one entry iff the user had no subscription, so there is at most one entry per user |
| Registry.RemoveSize | server.js:330-332 | deleting a present key removes exactly one entry and leaves every other entry as it was |
| Recipients.Approvers | server.js:164-167 | an id is a recipient iff it is among the keys, its role is "manager" or "HR", and it is not the sender; the recipients appear in the order of the keys (they are a subsequence of them); distinct keys give distinct recipients |
| Recipients.ApproversExact | server.js:164-167 | over an enumeration of the users' keys, the recipients are exactly the manager/HR users other than the sender; none is listed twice; the sender is never listed |
| Dispatch.Deliver | server.js:176-207 | one iteration of the loop, by definition: an unsubscribed recipient leaves the state as it is; a subscribed one is recorded as attempted and then counted as sent (accepted), counted as removed and deleted from the table (410), or only recorded (any other error) |
| Dispatch.NotifyAll | server.js:171-209 | the whole loop, by definition: counters 0/0, no attempt and the table read, then `Deliver` for each recipient in order; the lemmas below state what it computes |
| Dispatch.NotifyMany | server.js:171-209 | the for loop over the recipients computes the counters, the attempted deliveries and the pruned table that `NotifyAll` defines |
| Dispatch.PruneExact | server.js:199-206 | after the loop, the table is the old table minus the recipients whose delivery came back gone; entries of non-recipients, and of recipients that succeeded or failed otherwise, keep their values |
| Dispatch.RemovedCount | server.js:199-206 | `removedCount` plus the size of the pruned table equals the size of the table read, and the pruned keys are a subset of the old ones |
| Dispatch.RemovedAreGone | server.js:199-206 | `removedCount` is the number of recipients that had a subscription and came back gone |
| Dispatch.PersistIffRemoved | server.js:211-214 | `removedCount > 0` iff the pruned table differs from the table read, so the table is written back exactly when it changed |
| Dispatch.AttemptedMembers | server.js:175-178 | a delivery is attempted for an id iff it is a recipient that had a subscription; unsubscribed recipients cause no attempt |
| Dispatch.AttemptedExact | server.js:175-196 | with distinct recipients, the attempts are exactly the subscribed recipients, in list order, one each |
| Dispatch.SentIsAccepted | server.js:196-197 | `sentCount` is the number of subscribed recipients whose delivery was accepted |
| Dispatch.CountersBounded | server.js:171-209 | `sentCount + removedCount` is at most the number of attempts; attempts are at most the subscribed recipients, which are at most all recipients |
| Dispatch.NothingSubscribed | server.js:171-209 | an empty recipient list, or one with no subscriptions, gives 0 sent, 0 removed, no attempt and an untouched table |
| Notify.Decide | server.js:247-251 | the approval text is chosen iff status is exactly "approved"; otherwise the rejection body quotes the reason, or a fixed phrase when the reason is absent or empty |
| Notify.NotifyLeaveResult | server.js:237-274 | no subscription: a 200 reply with success false, and no delivery; otherwise one delivery to the stored subscription with the decided notice; success iff the push service accepts, else 500 |
| Notify.TestNotification | server.js:282-305 | no subscription: a 404 reply and no delivery; otherwise one test delivery; success iff the push service accepts, else 500 |
| Notify.SingleAgainstFanOut | server.js:231-274 | the single-recipient path attempts and succeeds exactly when a one-recipient fan-out would; a gone endpoint is pruned by the fan-out but not by this path |
| Server.LeaveServer.Subscriptions | server.js:126 | `readJSONFile(SUBSCRIPTIONS_FILE, {})`: the stored table, or `{}` when subscriptions.json is missing or unreadable |
| Server.LeaveServer.Users | server.js:160 | `readJSONFile(USERS_FILE, {})`: the stored table, or `{}` when users.json is missing or unreadable |
| Server.LeaveServer.constructor | server.js:51-72 | at start-up, users.json is seeded with the three default users only when it is missing; subscriptions.json is left as found |
| Server.LeaveServer.PersistSubscriptions | server.js:87-95 | one write attempt is logged; the next read of subscriptions.json gives the new table after a successful write, the old table after a write that failed before opening, and `{}` after a truncated write; users.json is untouched |
| Server.LeaveServer.Subscribe | server.js:113-151 | an incomplete request gets 400 with no write; otherwise there is exactly one write, of the read table with the user's entry overwritten; the reply is a success; after a successful write, the count grows by one iff the user was new |
| Server.LeaveServer.NotifyNewLeave | server.js:154-228 | the reply reports `NotifyAll`'s sent count for the manager/HR recipients; the pruned table is written once iff something was removed, otherwise the file is untouched; after a successful write, the count drops by the number removed |
| Server.LeaveServer.NotifyLeaveResult | server.js:231-275 | the reply and delivery of `Notify.NotifyLeaveResult` on the table read; no write; without a delivery the reply is never a success |
| Server.LeaveServer.TestNotification | server.js:278-306 | the reply and delivery of `Notify.TestNotification` on the table read; no write; without a delivery the reply is a 404 |
| Server.LeaveServer.Health | server.js:309-322 | each total is the number of keys in the parsed file; a missing or unreadable file counts 0 |
| Server.LeaveServer.Unsubscribe | server.js:325-340 | a present user is removed alone, with one write, and after a successful write the count drops by one; an absent user gets success false and the table is left unchanged, with no write |
| Server.DefaultRecipients | server.js:164-167 | with the default users and sender 5035, the recipients are 1234 (HR) and 4810 (manager) |
| Server.OneSubscribedManager | server.js:171-209 | with only 4810 subscribed and every delivery accepted, a fan-out to 1234 and 4810 makes exactly one attempt, to 4810, and counts 1 sent and 0 removed |

## Left out

- HTTP wiring: routing, middleware, CORS, body parsing, static files, logging and
  `app.listen` (server.js:1-39, 99-110, 343-357). These are framework plumbing.
  `GET /api/vapid-key` only echoes configuration.
- Start-up configuration: dotenv, the VAPID key check that exits the process, and
  `webpush.setVapidDetails` (server.js:13-25). This is environment setup.
- Real file I/O and JSON text. A file is one of three states. A write ends in one
  of three outcomes. An unreadable file is not told apart from a half-written one.
  `JSON.stringify` followed by `JSON.parse` is taken to return the table unchanged.
  A file that parses to something other than an object is not modelled, and
  neither is a table entry that is not an object. In the source only some of these
  cases throw:
  - A subscriptions.json holding `null` makes the handlers that use it throw
    (health included, server.js:318). The exception is notify-new-leave with no
    manager or HR recipient: the lookup at server.js:176 never runs, and the reply
    reports 0 sent (server.js:216-219).
  - A users.json holding `null` makes the handlers that use it throw, and so does
    a `null` entry in users.json (`users[id].role`, server.js:165).
  - A file holding a number does not throw. The source runs outside strict mode,
    so the assignment in subscribe (server.js:128) is silently dropped. Subscribe
    then writes the number back and replies success, and health counts 0.
  - An entry in subscriptions.json that is `null`, `0`, `false` or `""` is falsy.
    notify-leave-result replies "not subscribed" (server.js:240),
    test-notification replies 404 (server.js:285), unsubscribe replies "not found"
    (server.js:330), the fan-out skips it (server.js:178), and health still counts
    it.
  - Any other entry that is not an object is truthy, so a send is attempted and
    fails.
- Request bodies are narrower than in the source. The guard (server.js:119)
  accepts any truthy `subscription.endpoint`, a number or an object included, and
  the handler stores it and `subscription.keys` unchecked (server.js:129-130). The
  model takes the endpoint to be a string and the key material to be a `PushKeys`
  pair. Non-string endpoints and key material of any other shape are not
  modelled. No contract depends on these shapes.
- The `web-push` library. It becomes the `Delivery` outcome of each attempt.
  Payload text is left out: JSON formatting, the emoji titles, icon, vibrate
  pattern, `leaveData?.id || Date.now()`. Only the approved/rejected choice, the
  reason fallback and `data.type` are kept.
- Timestamps. Both `createdAt` and `updatedAt` take one `now`. The source reads
  the clock twice, so the two can differ by a millisecond.
- Request ids are strings. JavaScript's coercion of a missing or numeric `userId`
  in a property lookup (`subscriptions[undefined]`, `4810 !== "4810"`) is not
  modelled.
- Ids that name a member of `Object.prototype` (`toString`, `constructor`,
  `__proto__`, `hasOwnProperty` and the like). In the source, looking up
  `subscriptions[userId]` finds the inherited member even though the table has
  no such key. So `DELETE /api/unsubscribe/toString` deletes nothing, rewrites the
  file unchanged and replies `success: true`. notify-leave-result and
  test-notification for such an id try to send to the inherited function and
  answer 500, not 200 with `success: false` or 404. Subscribing as `__proto__`
  replaces the object's prototype, so no entry is stored but the reply is still a
  success. The same applies to a recipient whose user id is such a name
  (server.js:176). The model's tables are maps, so only own keys are found.
- Server.LeaveServer.NotifyNewLeave: the order of `Object.keys` is a parameter.
  Any order that lists each key once is allowed. The runtime's own ordering is not
  modelled (integer-like keys ascending, then insertion order).
- `process.uptime()` in the health reply. It is a clock reading.
- Concurrency. The model assumes that every handler runs to completion before the
  next one starts. The source does not guarantee this. notify-new-leave `await`s
  each send (server.js:196), so a subscribe can land between its read
  (server.js:161) and its write (server.js:213). That write then drops the new
  entry. This lost update, and any other interleaving of handlers on the same
  file, is not modelled.
- The two service-worker files (public/service-worker.js, service-worker.js). They
  are thin handlers over the browser's cache, client and notification APIs.

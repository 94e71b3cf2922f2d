/** The single-recipient endpoints: `POST /api/notify-leave-result` tells an
    employee the decision on a request, `POST /api/test-notification` sends a
    test message. Neither changes the subscriptions table. */
module Notify {
  import opened Records
  import opened Dispatch

  /** The text shown when a rejection carries no reason. */
  const NoReasonGiven: string := "Không rõ lý do"

  /** The choice between the two title/body pairs: approved, or rejected
      with the reason quoted in the body. */
  datatype Verdict = Approved | Rejected(reason: string)

  /** What a push message announces (its title, body and `data.type`). */
  datatype Notice =
    | LeaveResult(verdict: Verdict, kind: string)
    | TestNotice

  /** One `webpush.sendNotification(subscription, payload)` call. */
  datatype Attempt = Attempt(to: Subscription, notice: Notice)

  /** A handler's reply and the delivery it attempted, if any. */
  datatype Handled = Handled(reply: Reply, attempt: Option<Attempt>)

  /** `status === 'approved'` picks the approval text; every other status,
      not only "rejected", picks the rejection text, whose body falls back to
      a fixed phrase when no reason is given. */
  function Decide(status: string, reason: Option<string>): (v: Verdict)
    ensures v.Approved? <==> status == "approved"
    ensures v.Rejected? ==> v.reason == (if Truthy(reason) then reason.value else NoReasonGiven)
    ensures v.Rejected? ==> v.reason != ""
  {
    if status == "approved" then Approved
    else if Truthy(reason) then Rejected(reason.value)
    else Rejected(NoReasonGiven)
  }

  /** notify-leave-result on the table read from disk. Without a
      subscription no delivery is attempted and the reply is a 200 with
      `success: false`. Otherwise the decision is sent; a rejected send,
      a gone endpoint included, goes to the 500 handler and nothing is pruned. */
  function NotifyLeaveResult(subs: SubscriptionTable, userId: string, status: string,
                             reason: Option<string>, transport: Delivery): (h: Handled)
    ensures h.attempt.None? <==> userId !in subs
    ensures userId !in subs ==> h.reply == Reply(200, false, NotSubscribed)
    ensures userId in subs ==>
      h.attempt == Some(Attempt(subs[userId], LeaveResult(Decide(status, reason), "leave_" + status)))
    ensures h.reply.success <==> userId in subs && transport == Accepted
    ensures userId in subs && transport != Accepted ==> h.reply.status == 500
  {
    if userId !in subs then Handled(Reply(200, false, NotSubscribed), None)
    else
      var attempt := Attempt(subs[userId], LeaveResult(Decide(status, reason), "leave_" + status));
      if transport == Accepted then Handled(Reply(200, true, NotificationSent), Some(attempt))
      else Handled(Reply(500, false, SendFailed), Some(attempt))
  }

  /** test-notification: like notify-leave-result, except that a missing
      subscription is answered with a 404. */
  function TestNotification(subs: SubscriptionTable, userId: string, transport: Delivery): (h: Handled)
    ensures h.attempt.None? <==> userId !in subs
    ensures userId !in subs ==> h.reply == Reply(404, false, NotSubscribed)
    ensures userId in subs ==> h.attempt == Some(Attempt(subs[userId], TestNotice))
    ensures h.reply.success <==> userId in subs && transport == Accepted
    ensures userId in subs && transport != Accepted ==> h.reply.status == 500
  {
    if userId !in subs then Handled(Reply(404, false, NotSubscribed), None)
    else if transport == Accepted then Handled(Reply(200, true, TestSent), Some(Attempt(subs[userId], TestNotice)))
    else Handled(Reply(500, false, SendFailed), Some(Attempt(subs[userId], TestNotice)))
  }

  /** The single-recipient path against a fan-out to that one user: both
      attempt a delivery exactly when the user is subscribed and both
      report success exactly when the push service accepts; but where the
      fan-out would prune a gone endpoint, the single path keeps it. */
  lemma SingleAgainstFanOut(subs: SubscriptionTable, userId: string, status: string,
                            reason: Option<string>, transport: Delivery)
    ensures var h, t := NotifyLeaveResult(subs, userId, status, reason, transport),
                        NotifyAll(subs, [userId], _ => transport);
      && (h.attempt.Some? <==> t.attempted == [userId])
      && (h.reply.success <==> t.sent == 1)
      && (userId in subs && transport == Gone ==> userId !in t.table && !h.reply.success)
  {
  }
}

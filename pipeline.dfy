/**
 * One notification end to end: the record Send stores, the message the
 * publisher builds for it, and what each channel worker does with that
 * message when it is delivered.
 */
module Pipeline {
  import opened Wrappers
  import opened Entities
  import opened Bus
  import opened ChannelWorker
  import NotificationPublisher
  import NotificationsController
  import EmailWorker
  import SmsWorker
  import PushWorker

  /**
   * JsonSerializer.Deserialize on the message body. A body the publisher
   * serialized from a payload decodes to that payload; any other text is
   * handed to decode, which stands for the JSON reader (a payload object,
   * the literal null, or text that makes it throw).
   */
  function Deliver(m: BusMessage, decode: string -> Decoding): (d: Decoding)
    ensures m.body.Json? ==> d == Decoded(m.body.payload)
    ensures m.body.Other? ==> d == decode(m.body.text)
  {
    match m.body
    case Json(p) => Decoded(p)
    case Other(text) => decode(text)
  }

  /** The payload a worker sees for a published record carries the record's id and channel. */
  lemma DeliveredPayloadIsRecord(n: Notification, decode: string -> Decoding)
    ensures Deliver(NotificationPublisher.BuildMessage(n), decode).Decoded?
    ensures Deliver(NotificationPublisher.BuildMessage(n), decode).payload.notificationId == n.id
    ensures Deliver(NotificationPublisher.BuildMessage(n), decode).payload.channel == n.channel
  {
  }

  /**
   * Channel isolation: a message published for an SMS record, when it
   * reaches the Email or Push worker, is completed there without touching
   * the store (as long as the completion itself succeeds).
   */
  lemma SmsMessageIgnoredElsewhere(n: Notification, decode: string -> Decoding, s: Records, delivery: Delivery)
    requires n.channel == Some(SmsWorker.SMS) && delivery.completeSucceeds
    ensures EmailWorker.Handle(s, Deliver(NotificationPublisher.BuildMessage(n), decode), delivery) == Handled(s, Completed)
    ensures DirectHandle(PushWorker.PUSH, s, Deliver(NotificationPublisher.BuildMessage(n), decode), delivery)
              == Handled(s, Completed)
  {
  }

  /**
   * A stored SMS record whose message is handled by the SMS worker, with
   * the database and the completion working, reads back as SENT at the
   * handling time.
   */
  lemma SmsDeliveryCommits(n: Notification, decode: string -> Decoding, s: Records, delivery: Delivery)
    requires n.id in s && s[n.id] == n
    requires n.channel == Some(SmsWorker.SMS) && StoreWorks(delivery) && delivery.completeSucceeds
    ensures var h := DirectHandle(SmsWorker.SMS, s, Deliver(NotificationPublisher.BuildMessage(n), decode), delivery);
            h.outcome == Completed &&
            NotificationsController.GetStatus(h.records, n.id)
              == Ok(NotificationsController.StatusView(n.id, Some(SENT), Some(delivery.now)))
  {
  }

  /**
   * The same for an Email record that does not ask to fail and is not yet
   * SENT: the Email worker commits it as SENT at the handling time.
   */
  lemma EmailDeliveryCommits(n: Notification, decode: string -> Decoding, s: Records, delivery: Delivery)
    requires n.id in s && s[n.id] == n && n.status != Some(SENT)
    requires n.channel == Some(EmailWorker.EMAIL) && StoreWorks(delivery) && delivery.completeSucceeds
    requires !EmailWorker.RequestsFailure(NotificationPublisher.BuildPayload(n))
    ensures var h := EmailWorker.Handle(s, Deliver(NotificationPublisher.BuildMessage(n), decode), delivery);
            h.outcome == Completed &&
            NotificationsController.GetStatus(h.records, n.id)
              == Ok(NotificationsController.StatusView(n.id, Some(SENT), Some(delivery.now)))
  {
  }

  /** A message whose text contains "FAIL" anywhere is the Email worker's failure trigger. */
  lemma FailTriggerText()
    ensures EmailWorker.Contains("FAIL-trigger", EmailWorker.FailMarker)
    ensures EmailWorker.Contains("Please FAIL now", EmailWorker.FailMarker)
    ensures !EmailWorker.Contains("Fail", EmailWorker.FailMarker)
  {
    assert EmailWorker.Contains("FAIL-trigger", EmailWorker.FailMarker) by {
      EmailWorker.ContainsIffOccurs("FAIL-trigger", EmailWorker.FailMarker);
      assert EmailWorker.OccursAt("FAIL-trigger", EmailWorker.FailMarker, 0);
    }
    assert EmailWorker.Contains("Please FAIL now", EmailWorker.FailMarker) by {
      EmailWorker.ContainsIffOccurs("Please FAIL now", EmailWorker.FailMarker);
      assert EmailWorker.OccursAt("Please FAIL now", EmailWorker.FailMarker, 7);
    }
    assert !EmailWorker.Contains("Fail", EmailWorker.FailMarker) by {
      EmailWorker.ContainsIffOccurs("Fail", EmailWorker.FailMarker);
      assert "Fail"[1] != EmailWorker.FailMarker[1];
    }
  }
}

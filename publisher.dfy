/**
 * NotificationPublisher.PublishAsync: the JSON payload, the bus message built
 * around it, and the send to the topic, whose failure is rethrown.
 */
module NotificationPublisher {
  import opened Wrappers
  import opened Entities
  import opened Bus

  const JsonContentType: string := "application/json"
  const TenantIdProperty: string := "TenantId"
  const ChannelProperty: string := "Channel"

  /** The anonymous payload object: six fields copied from the record. */
  function BuildPayload(n: Notification): (p: Payload)
    ensures p.notificationId == n.id && p.notificationType == n.notificationType
    ensures p.channel == n.channel && p.userId == n.userId
    ensures p.message == n.message && p.tenantId == n.tenantId
  {
    Payload(n.id, n.notificationType, n.channel, n.userId, n.message, n.tenantId)
  }

  /** The routing properties the subscriptions filter on. */
  function RoutingProperties(n: Notification): (props: map<string, Option<string>>)
    ensures props.Keys == {TenantIdProperty, ChannelProperty}
    ensures props[TenantIdProperty] == n.tenantId && props[ChannelProperty] == n.channel
  {
    map[TenantIdProperty := n.tenantId][ChannelProperty := n.channel]
  }

  /** The ServiceBusMessage sent for a record. */
  function BuildMessage(n: Notification): (m: BusMessage)
    ensures m.body == Json(BuildPayload(n))
    ensures m.contentType == Some(JsonContentType)
    ensures m.messageId == n.id && m.correlationId == Some(n.id)
    ensures m.properties == RoutingProperties(n)
  {
    BusMessage(Json(BuildPayload(n)), Some(JsonContentType), n.id, Some(n.id), RoutingProperties(n))
  }

  /**
   * The payload carries no status, creation time, processing time or
   * correlation id: records that differ only in those give the same message.
   */
  lemma MessageIgnoresBookkeeping(n: Notification, status: Option<string>, createdAt: Time,
                                  processedAt: Option<Time>, correlationId: Guid)
    ensures var n' := n.(status := status, createdAt := createdAt, processedAt := processedAt,
                         correlationId := correlationId);
            BuildPayload(n') == BuildPayload(n) && BuildMessage(n') == BuildMessage(n)
  {
  }

  /** The message determines the record's id and all six payload fields. */
  lemma MessageDeterminesPayloadFields(n1: Notification, n2: Notification)
    ensures BuildMessage(n1) == BuildMessage(n2) <==>
            (n1.id == n2.id && n1.notificationType == n2.notificationType && n1.channel == n2.channel
             && n1.userId == n2.userId && n1.message == n2.message && n1.tenantId == n2.tenantId)
  {
    if BuildMessage(n1) == BuildMessage(n2) {
      assert BuildMessage(n1).body.payload == BuildMessage(n2).body.payload;
    }
  }

  /**
   * The bus correlation id is the record's id, so the record's own
   * CorrelationId is not carried whenever the two differ.
   */
  lemma CorrelationIsRecordId(n: Notification)
    requires n.correlationId != n.id
    ensures BuildMessage(n).correlationId != Some(n.correlationId)
  {
  }

  /**
   * PublishAsync: builds the message and sends it; a failed send leaves the
   * topic as it was and is reported (rethrown) to the caller.
   */
  method PublishAsync(topic: Topic, n: Notification, sendSucceeds: bool) returns (ok: bool)
    modifies topic
    ensures ok == sendSucceeds
    ensures ok ==> topic.published == old(topic.published) + [BuildMessage(n)]
    ensures !ok ==> topic.published == old(topic.published)
  {
    var payload := BuildPayload(n);
    var properties: map<string, Option<string>> := map[];
    properties := properties[TenantIdProperty := payload.tenantId];
    properties := properties[ChannelProperty := n.channel];
    var busMessage := BusMessage(Json(payload), Some(JsonContentType), n.id, Some(n.id), properties);
    if sendSucceeds {
      topic.published := topic.published + [busMessage];
      ok := true;
    } else {
      ok := false;
    }
  }
}

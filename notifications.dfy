/**
 * NotificationsController: Send creates a PENDING record, saves it, then
 * publishes it; GetStatus looks a record up.
 */
module NotificationsController {
  import opened Wrappers
  import opened Entities
  import opened Bus
  import NotificationPublisher

  /** The anonymous object GetStatus answers with. */
  datatype StatusView = StatusView(id: Guid, status: Option<string>, processedAt: Option<Time>)

  /**
   * GetStatus: NotFound when no record has the id, otherwise the record's
   * id, status and processing time. Reads the store only.
   */
  function GetStatus(s: Records, id: Guid): (r: Response<StatusView>)
    ensures r.Ok? || r.NotFound?
    ensures r.NotFound? <==> id !in s
    ensures r.Ok? ==> r.value == StatusView(s[id].id, s[id].status, s[id].processedAt)
  {
    if id !in s then NotFound else Ok(StatusView(s[id].id, s[id].status, s[id].processedAt))
  }

  /**
   * The record Send builds. freshId and freshCorrelationId are what
   * Guid.NewGuid returns, which is never Guid.Empty; now is DateTime.UtcNow.
   */
  function NewNotification(request: NotificationRequest, freshId: Guid, freshCorrelationId: Guid,
                           now: Time): (n: Notification)
    requires freshId != EmptyGuid && freshCorrelationId != EmptyGuid
    ensures n.id != EmptyGuid && n.correlationId != EmptyGuid
    ensures request.id != EmptyGuid ==> n.id == request.id
    ensures request.id == EmptyGuid ==> n.id == freshId
    ensures request.correlationId != EmptyGuid ==> n.correlationId == request.correlationId
    ensures request.correlationId == EmptyGuid ==> n.correlationId == freshCorrelationId
    ensures n.status == Some(PENDING) && n.processedAt == None && n.createdAt == now
    ensures n.notificationType == Some(request.notificationType) && n.channel == Some(request.channel)
    ensures n.userId == Some(request.userId) && n.message == Some(request.message)
    ensures n.tenantId == Some(request.tenantId)
  {
    Notification(
      id := if request.id == EmptyGuid then freshId else request.id,
      notificationType := Some(request.notificationType),
      channel := Some(request.channel),
      userId := Some(request.userId),
      message := Some(request.message),
      status := Some(PENDING),
      createdAt := now,
      processedAt := None,
      correlationId := if request.correlationId == EmptyGuid then freshCorrelationId else request.correlationId,
      tenantId := Some(request.tenantId))
  }

  /**
   * Send: the record is saved first, then published. Saving a record whose
   * id is already stored fails (primary key), saveSucceeds says whether
   * SaveChangesAsync otherwise reaches the database, and a failed publish is
   * rethrown after the save: each surfaces as an unhandled exception, and in
   * the last case the PENDING record stays in the store with no message in
   * flight.
   */
  method Send(db: NotificationStore, topic: Topic, request: NotificationRequest, freshId: Guid,
              freshCorrelationId: Guid, now: Time, saveSucceeds: bool, sendSucceeds: bool)
    returns (response: Response<Guid>)
    requires freshId != EmptyGuid && freshCorrelationId != EmptyGuid
    modifies db, topic
    ensures var n := NewNotification(request, freshId, freshCorrelationId, now);
            if n.id in old(db.records) || !saveSucceeds then
              response == ServerError && db.records == old(db.records) && topic.published == old(topic.published)
            else
              && db.records == old(db.records)[n.id := n]
              && (sendSucceeds ==> response == Ok(n.id)
                                   && topic.published == old(topic.published) + [NotificationPublisher.BuildMessage(n)])
              && (!sendSucceeds ==> response == ServerError && topic.published == old(topic.published))
  {
    var notification := NewNotification(request, freshId, freshCorrelationId, now);
    // Add + SaveChangesAsync
    if notification.id in db.records || !saveSucceeds {
      return ServerError;
    }
    db.records := db.records[notification.id := notification];
    // PublishAsync
    var published := NotificationPublisher.PublishAsync(topic, notification, sendSucceeds);
    if !published {
      return ServerError;
    }
    response := Ok(notification.id);
  }

  /** Send adds exactly one record, keyed by its id, and keeps the store's invariants. */
  lemma SendKeepsInvariants(s: Records, request: NotificationRequest, freshId: Guid,
                             freshCorrelationId: Guid, now: Time)
    requires freshId != EmptyGuid && freshCorrelationId != EmptyGuid
    requires Keyed(s) && SentHasProcessedAt(s)
    ensures var n := NewNotification(request, freshId, freshCorrelationId, now);
            n.id !in s ==> var s' := s[n.id := n];
              Keyed(s') && SentHasProcessedAt(s') && s'.Keys == s.Keys + {n.id} && |s'| == |s| + 1
  {
    var n := NewNotification(request, freshId, freshCorrelationId, now);
    if n.id !in s {
      var s' := s[n.id := n];
      assert s'.Keys == s.Keys + {n.id};
    }
  }

  /** Right after a successful Send, GetStatus reports the new record as PENDING and unprocessed. */
  lemma StatusAfterSend(s: Records, request: NotificationRequest, freshId: Guid,
                        freshCorrelationId: Guid, now: Time)
    requires freshId != EmptyGuid && freshCorrelationId != EmptyGuid
    ensures var n := NewNotification(request, freshId, freshCorrelationId, now);
            GetStatus(s[n.id := n], n.id) == Ok(StatusView(n.id, Some(PENDING), None))
  {
  }
}

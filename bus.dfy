/**
 * The Service Bus as the core sees it: messages, the topic they are sent to,
 * the lease a worker completes, and a subscription's dead-letter sub-queue.
 */
module Bus {
  import opened Wrappers
  import opened Entities

  /** The fields serialized into the JSON body of a notification message. */
  datatype Payload = Payload(
    notificationId: Guid,
    notificationType: Option<string>,
    channel: Option<string>,
    userId: Option<string>,
    message: Option<string>,
    tenantId: Option<string>)

  /**
   * A message body: either the JSON serialization of a payload, or some
   * other text. The JSON text itself is not modelled.
   */
  datatype Body = Json(payload: Payload) | Other(text: string)

  /** A ServiceBusMessage; application property values are nullable strings. */
  datatype BusMessage = BusMessage(
    body: Body,
    contentType: Option<string>,
    messageId: Guid,
    correlationId: Option<Guid>,
    properties: map<string, Option<string>>)

  /** A message in a dead-letter sub-queue, with what the broker recorded. */
  datatype DeadLetter = DeadLetter(
    message: BusMessage,
    reason: Option<string>,
    errorDescription: Option<string>,
    deliveryCount: nat)

  /** The topic, as the sequence of messages sent to it. */
  class Topic {
    var published: seq<BusMessage>

    constructor ()
      ensures published == []
    {
      published := [];
    }
  }

  /** A subscription's dead-letter sub-queue, oldest first. */
  class DeadLetterQueue {
    var messages: seq<DeadLetter>

    constructor (initial: seq<DeadLetter>)
      ensures messages == initial
    {
      messages := initial;
    }
  }

  /** A received message under lease; completing it removes it from the subscription. */
  class MessageLease {
    var completed: bool

    constructor ()
      ensures !completed
    {
      completed := false;
    }
  }
}

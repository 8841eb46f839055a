/**
 * The persisted notification record, the request that creates it, the
 * keyed store they live in, and the controller responses shared by the API.
 */
module Entities {
  import opened Wrappers

  /** A Guid; 0 stands for Guid.Empty. Its text form is not modelled. */
  type Guid = nat
  const EmptyGuid: Guid := 0

  /** A DateTime, as a tick count. */
  type Time = int

  function Min(a: nat, b: nat): nat {
    if a <= b then a else b
  }

  const PENDING: string := "PENDING"
  const SENT: string := "SENT"
  const FAILED: string := "FAILED"

  /** NotificationMessage: every string property is nullable in the source. */
  datatype Notification = Notification(
    id: Guid,
    notificationType: Option<string>,
    channel: Option<string>,
    userId: Option<string>,
    message: Option<string>,
    status: Option<string>,
    createdAt: Time,
    processedAt: Option<Time>,
    correlationId: Guid,
    tenantId: Option<string>)

  /** NotificationRequest, the body of a POST to the notifications endpoint. */
  datatype NotificationRequest = NotificationRequest(
    id: Guid,
    notificationType: string,
    userId: string,
    channel: string,
    message: string,
    correlationId: Guid,
    tenantId: string)

  type Records = map<Guid, Notification>

  /** Every record is stored under its own id (the primary key). */
  ghost predicate Keyed(s: Records) {
    forall k | k in s :: s[k].id == k
  }

  /** A SENT record always carries the time it was processed. */
  ghost predicate SentHasProcessedAt(s: Records) {
    forall k | k in s && s[k].status == Some(SENT) :: s[k].processedAt.Some?
  }

  /** The Notifications table of the database context. */
  class NotificationStore {
    var records: Records

    constructor (initial: Records)
      ensures records == initial
    {
      records := initial;
    }
  }

  /** What a controller action answers; ServerError is an unhandled exception. */
  datatype Response<+T> = Ok(value: T) | NotFound | BadRequest(text: string) | ServerError
}

# Distributed notification dispatch, modelled in Dafny

The system takes notification requests over HTTP, stores each as a
`NotificationMessage` record with status `PENDING`, and publishes a JSON
payload to a Service Bus topic. Three channel workers (Email, SMS, Push)
handle the messages; each worker skips any message for another channel
that reaches it, and marks the record of its own channel's messages
`SENT` with a processing time. When a step throws, the catch block marks the
record `FAILED` and rethrows, so the bus redelivers the message. Messages the
bus gives up on go to a dead-letter sub-queue. The DLQ controller peeks at
that sub-queue and replays it. The analytics controller counts records for
the admin dashboard, which pages through the 20 most recent ones.

The model has these parts:

- `Entities`: the record, the request, and the store as a map from id to
  record, held by the `NotificationStore` class.
- `Bus`: messages, the topic (a `Topic` class holding the published
  sequence), the dead-letter sub-queue, and the lease a handler completes.
- `NotificationPublisher` and `NotificationsController`: payload and message
  construction, `PublishAsync`, `Send` and `GetStatus`.
- `ChannelWorker`: the SMS/Push handler (one definition for both channels)
  and the catch block. `EmailWorker`, `SmsWorker` and `PushWorker` hold each
  worker's `ProcessMessage`. Each handler is an imperative method proved equal
  to a function of the store, and the properties are lemmas about that
  function.
- `DlqController`: peek and replay, the replay as a loop over the sub-queue.
- `AnalyticsController`: the counts, the per-channel groups and the recent list.
- `DashboardComponent`: the pagination state as a class, and the status colours.
- `Pipeline`: one record end to end, from `Send` to each worker.

Things the code does not control become parameters. Message decoding is a
`Decoding` value: `Malformed`, `NullPayload` or `Decoded(payload)`; the
JSON reader that produces it from text is a function parameter of
`Pipeline.Deliver`. The clock, whether the try block's lookup
(`FindAsync`) and save (`SaveChangesAsync`) succeed, whether
`CompleteMessageAsync` succeeds, and whether the catch block's own database
calls succeed make up a `Delivery` value; the four are independent. Fresh
Guids are arguments. The failures of `Send`'s save and of a publish are
booleans, and the failure points of a replay are a `ReplayFault` value. Guids are natural numbers, and `Guid.Empty` is 0.

Facts about the code that the model keeps, some of them surprising:

- A body that is not valid JSON is not acknowledged and dropped. The
  deserializer throws inside the try block. The catch block deserializes
  again, which throws again, so the message is never completed. The bus
  then retries it and dead-letters it.
- A failed completion (`CompleteMessageAsync` throws) on any path runs the
  catch block. That block sets the payload's record to `FAILED`, even a
  record that was just committed `SENT`, and even when the message belongs
  to another channel. So "processedAt is set exactly when the status is
  SENT" does not hold: a `FAILED` record with a processing time is reachable
  (`EmailWorker.CompletionFailureAfterCommit`).
- The bus message's correlation id is the record's id, not the record's
  `CorrelationId` (`NotificationPublisher.CorrelationIsRecordId`). The
  payload carries no correlation id at all.
- The SMS and Push workers have no idempotency check. A redelivery rewrites
  the processing time (`ChannelWorker.DirectRedeliveryRewritesProcessedAt`).
- The summary's average processing time is the constant 150.0, whatever the
  data.
- The dashboard does not reset the current page when the list reloads. A
  shorter list can leave it past the last page, and the table is then empty.

## Model

| member | source | states |
|---|---|---|
| NotificationPublisher.BuildPayload | DistributedNotification.Application/Services/NotificationPublisher.cs:33-41 | the payload copies the record's id, type, channel, user, message and tenant |
| NotificationPublisher.RoutingProperties | DistributedNotification.Application/Services/NotificationPublisher.cs:52-54 | the application properties are exactly `TenantId` and `Channel`, holding the record's tenant and channel |
| NotificationPublisher.BuildMessage | DistributedNotification.Application/Services/NotificationPublisher.cs:46-55 | the message has the JSON payload as body, content type `application/json`, the record id as message id and as correlation id, and the routing properties |
| NotificationPublisher.MessageIgnoresBookkeeping | DistributedNotification.Application/Services/NotificationPublisher.cs:33-55 | status, creation time, processing time and correlation id do not affect the message |
| NotificationPublisher.MessageDeterminesPayloadFields | DistributedNotification.Application/Services/NotificationPublisher.cs:33-41 | two records give the same message if and only if they agree on id and the five payload fields |
| NotificationPublisher.CorrelationIsRecordId | DistributedNotification.Application/Services/NotificationPublisher.cs:55 | when a record's CorrelationId differs from its id, the message does not carry it |
| NotificationPublisher.PublishAsync | DistributedNotification.Application/Services/NotificationPublisher.cs:28-68 | a successful send appends exactly the built message to the topic; a failed one leaves the topic unchanged and is reported to the caller |
| NotificationsController.GetStatus | DistributedNotification.API/Controllers/NotificationsController.cs:22-36 | NotFound if and only if the id is not stored; otherwise Ok with the record's id, status and processing time |
| NotificationsController.NewNotification | DistributedNotification.API/Controllers/NotificationsController.cs:42-53 | the record takes the request's id and correlation id unless they are empty, then fresh non-empty ones; status PENDING, no processing time, created now, request fields copied |
| NotificationsController.Send | DistributedNotification.API/Controllers/NotificationsController.cs:39-63 | a duplicate id or a failing save answers a server error with nothing stored or published; otherwise the record is stored, then published: Ok(id) with the message on the topic, or a server error with the PENDING record kept and nothing published |
| NotificationsController.SendKeepsInvariants | DistributedNotification.API/Controllers/NotificationsController.cs:55-57 | storing the new record adds exactly its key and keeps every record keyed by its id and every SENT record with a processing time |
| NotificationsController.StatusAfterSend | DistributedNotification.API/Controllers/NotificationsController.cs:39-63 | right after Send stores a record, GetStatus reports it PENDING and unprocessed |
| ChannelWorker.MarkSent | DistributedNotification.SmsWorker/Worker.cs:96-97 | only status and processing time change: SENT, at the current time |
| ChannelWorker.MarkFailed | DistributedNotification.SmsWorker/Worker.cs:110-131 | the catch block changes at most the payload's record, to FAILED, and only when the payload decodes, the catch block's database calls succeed and the record exists |
| ChannelWorker.Complete | DistributedNotification.SmsWorker/Worker.cs:108-131 | the message is completed if and only if completion succeeds; otherwise the catch block's effect follows |
| ChannelWorker.DirectHandle | DistributedNotification.SmsWorker/Worker.cs:57-132 | only the payload's record can change; completed if and only if the body decodes, completion succeeds and, for a message of this channel, the lookup succeeds and, when the record exists, so does the save; store invariants kept; a rethrow whose catch block reaches the database leaves an existing record FAILED |
| ChannelWorker.DirectSkipsForeign | DistributedNotification.SmsWorker/Worker.cs:68-74 | when the completion succeeds, a null or foreign payload is completed with the store unchanged, whatever the store holds |
| ChannelWorker.DirectOverwrites | DistributedNotification.SmsWorker/Worker.cs:93-100 | an existing record becomes SENT at now whatever its status, and the message completes |
| ChannelWorker.DirectMissingRecord | DistributedNotification.SmsWorker/Worker.cs:101-108 | a missing record leaves the store unchanged; the message completes if and only if the lookup and completion succeed |
| ChannelWorker.DirectRedeliveryRewritesProcessedAt | DistributedNotification.SmsWorker/Worker.cs:93-100 | a second delivery keeps status SENT but rewrites the processing time, so the store changes whenever the clock moved |
| ChannelWorker.DirectSaveFailure | DistributedNotification.SmsWorker/Worker.cs:93-131 | when the save throws after a successful lookup, the message is rethrown and the record only changes status to FAILED, keeping its old processing time (none for a PENDING record) |
| ChannelWorker.DirectCommitSurvivesCatchFailure | DistributedNotification.SmsWorker/Worker.cs:98-131 | when the completion throws after the commit and the catch block cannot reach the database, the record stays SENT at now and the message is rethrown |
| ChannelWorker.CompleteMessage | DistributedNotification.SmsWorker/Worker.cs:108 | the lease is completed exactly when completion succeeds |
| ChannelWorker.CatchAndRethrow | DistributedNotification.SmsWorker/Worker.cs:110-131 | always rethrows, and leaves the store as MarkFailed describes |
| ChannelWorker.ProcessDirect | DistributedNotification.SmsWorker/Worker.cs:57-132 | the new store and the outcome are DirectHandle's, and the lease is completed exactly when the outcome is Completed |
| SmsWorker.ProcessMessage | DistributedNotification.SmsWorker/Worker.cs:57-132 | DirectHandle for channel SMS; only the payload's record can change |
| PushWorker.ProcessMessage | DistributedNotification.PushWorker/Worker.cs:53-124 | DirectHandle for channel Push; only the payload's record can change |
| EmailWorker.ContainsIffOccurs | DistributedNotification.EmailWorker/Worker.cs:80 | string.Contains finds a part exactly when it occurs at some index of the text |
| EmailWorker.RequestsFailureIff | DistributedNotification.EmailWorker/Worker.cs:80 | a payload triggers the simulated failure exactly when its message is present and "FAIL" occurs in it |
| EmailWorker.Handle | DistributedNotification.EmailWorker/Worker.cs:53-153 | only the payload's record can change; completed if and only if the body decodes, completion succeeds and, for an Email message, the text has no FAIL, the lookup succeeds and, when a record not yet SENT is found, so does the save; store invariants kept; a rethrow whose catch block reaches the database leaves an existing record FAILED |
| EmailWorker.SkipsForeign | DistributedNotification.EmailWorker/Worker.cs:64-70 | when the completion succeeds, a null or non-Email payload is completed with the store unchanged, whatever the store holds |
| EmailWorker.MissingRecord | DistributedNotification.EmailWorker/Worker.cs:95-100 | a missing record leaves the store unchanged; completed if and only if the lookup and completion succeed and there is no FAIL |
| EmailWorker.DuplicateIsIgnored | DistributedNotification.EmailWorker/Worker.cs:104-114 | a record already SENT stays exactly as it is and the message completes |
| EmailWorker.CommitsSent | DistributedNotification.EmailWorker/Worker.cs:116-129 | a record not yet SENT becomes SENT at now, and the message completes |
| EmailWorker.FailMarkerNeverCompletes | DistributedNotification.EmailWorker/Worker.cs:79-152 | a message containing FAIL is never completed, and its record is set FAILED even if it was SENT |
| EmailWorker.RedeliveryIsIdempotent | DistributedNotification.EmailWorker/Worker.cs:104-121 | handling a message again after a run whose database calls and completion succeeded leaves the store and the outcome as the first run left them |
| EmailWorker.CompletionFailureAfterCommit | DistributedNotification.EmailWorker/Worker.cs:116-151 | a completion failure after the SENT commit leaves the record FAILED with its processing time set |
| EmailWorker.SaveFailure | DistributedNotification.EmailWorker/Worker.cs:116-151 | when the save throws, the message is rethrown and the record only changes status to FAILED, keeping its old processing time (none for a PENDING record) |
| EmailWorker.CommitSurvivesCatchFailure | DistributedNotification.EmailWorker/Worker.cs:121-151 | when the completion throws after the commit and the catch block cannot reach the database, the record stays SENT at now and the message is rethrown |
| EmailWorker.ProcessMessage | DistributedNotification.EmailWorker/Worker.cs:53-153 | the new store and the outcome are Handle's, and the lease is completed exactly when the outcome is Completed |
| DlqController.BatchSize | DistributedNotification.API/Controllers/DlqController.cs:36 | a batch is no larger than the queue, the limit or what the broker returned, and equals one of them |
| DlqController.EntryOf | DistributedNotification.API/Controllers/DlqController.cs:38-45 | an entry shows the message id, body, dead-letter reason, error description and delivery count |
| DlqController.PeekDlq | DistributedNotification.API/Controllers/DlqController.cs:22-53 | always Ok; at most 10 entries, the first messages of the queue in order; a failure gives an empty list |
| DlqController.ReplayMessage | DistributedNotification.API/Controllers/DlqController.cs:75-84 | the replacement keeps body, content type and properties, takes the given id and has no correlation id |
| DlqController.Replays | DistributedNotification.API/Controllers/DlqController.cs:73-88 | one replacement per message of the batch |
| DlqController.ReplaysAt | DistributedNotification.API/Controllers/DlqController.cs:73-88 | the i-th replacement is the i-th message replayed with the i-th fresh id |
| DlqController.ReplaysAppend | DistributedNotification.API/Controllers/DlqController.cs:73-88 | replaying one more message appends its replacement |
| DlqController.CopyProperties | DistributedNotification.API/Controllers/DlqController.cs:81-84 | the copy loop yields exactly the source properties |
| DlqController.SentCount | DistributedNotification.API/Controllers/DlqController.cs:73-88 | at most the batch is sent; all of it without a fault; the messages before a failed send; those before a failed completion and that one |
| DlqController.RemovedCount | DistributedNotification.API/Controllers/DlqController.cs:73-88 | at most the batch is removed, never more than was sent and at most one fewer; exactly the messages before a failing step |
| DlqController.Aborted | DistributedNotification.API/Controllers/DlqController.cs:86-94 | the loop stops early exactly when reception fails or fewer than all received messages were removed |
| DlqController.ReplayResponse | DistributedNotification.API/Controllers/DlqController.cs:90-95 | Ok with the fixed text if and only if nothing failed; otherwise BadRequest with the prefix and the error message |
| DlqController.ReplaySendsBeforeRemoving | DistributedNotification.API/Controllers/DlqController.cs:73-95 | a message is removed only after its replacement was sent; at most one sent message stays dead-lettered; without a failure the whole batch of at most 10 is sent and removed |
| DlqController.ReplayStep | DistributedNotification.API/Controllers/DlqController.cs:73-88 | one loop step takes the head of the remaining sub-queue and appends its replacement to those already sent |
| DlqController.CountsAtFailure | DistributedNotification.API/Controllers/DlqController.cs:86-94 | when the i-th send or completion throws, i messages were removed, i or i+1 were sent, and the answer is BadRequest |
| DlqController.CountsAtEnd | DistributedNotification.API/Controllers/DlqController.cs:73-90 | when the loop runs through the batch, every message was sent and removed, and the answer is the fixed text |
| DlqController.ReplayOne | DistributedNotification.API/Controllers/DlqController.cs:75-87 | the replacement is published unless the send fails, and the original is removed only after a successful send and completion |
| DlqController.ReplayDlq | DistributedNotification.API/Controllers/DlqController.cs:55-96 | the sub-queue loses exactly the completed prefix, the topic gains exactly the sent prefix's replacements in order, and the answer reflects the first failure |
| DlqController.PeekShowsReplayBatch | DistributedNotification.API/Controllers/DlqController.cs:36-86 | a replay of the batch re-sends, entry by entry, the bodies a peek shows, each under its fresh id |
| AnalyticsController.Counts | DistributedNotification.API/Controllers/AnalyticsController.cs:21-24 | total is the record count; sent, failed and pending are the numbers of records with status SENT, FAILED and PENDING; each is at most total, and so is their sum |
| AnalyticsController.GetSummary | DistributedNotification.API/Controllers/AnalyticsController.cs:18-46 | Ok with the counts and the fixed average if and only if some record has a processing time; otherwise a server error |
| AnalyticsController.SummaryFailsBeforeFirstProcessing | DistributedNotification.API/Controllers/AnalyticsController.cs:26-36 | an empty store, and a store holding one unprocessed record, both make the summary fail |
| AnalyticsController.GetSummaryCorrected | DistributedNotification.API/Controllers/AnalyticsController.cs:38-45 | answers Ok for every store, with the same counts as GetSummary whenever GetSummary answers |
| AnalyticsController.ChannelGroup | DistributedNotification.API/Controllers/AnalyticsController.cs:52-59 | a group's total is the number of records with that channel, its sent, failed and pending counts are the numbers of those records with each status, and they add up to at most the total |
| AnalyticsController.GetByChannel | DistributedNotification.API/Controllers/AnalyticsController.cs:47-63 | one group per distinct channel value (null included), each being that channel's group, non-empty and with bounded status counts |
| AnalyticsController.SumTotalsOver | DistributedNotification.API/Controllers/AnalyticsController.cs:50-60 | the groups over a set of channels total the records in those channels |
| AnalyticsController.GroupTotalsCoverStore | DistributedNotification.API/Controllers/AnalyticsController.cs:50-60 | the group totals add up to the number of records |
| AnalyticsController.SumTallyOver | DistributedNotification.API/Controllers/AnalyticsController.cs:50-60 | the groups over a set of channels have, summed, as many records of a status as those channels hold |
| AnalyticsController.GroupTalliesMatchSummary | DistributedNotification.API/Controllers/AnalyticsController.cs:18-60 | summed over the channel groups, the sent, failed and pending counts equal the summary's |
| AnalyticsController.CountsAfterInsert | DistributedNotification.API/Controllers/AnalyticsController.cs:21-24 | storing a new record raises the total by one and its own status's count by one, and leaves the other counts unchanged |
| AnalyticsController.GetTenantSummary | DistributedNotification.API/Controllers/AnalyticsController.cs:84-94 | counts the tenant's records and its SENT ones; sent ≤ total ≤ store size, and sent ≤ the store's SENT count |
| AnalyticsController.NewestKey | DistributedNotification.API/Controllers/AnalyticsController.cs:69 | a stored record created no earlier than any other |
| AnalyticsController.TopKeys | DistributedNotification.API/Controllers/AnalyticsController.cs:68-70 | min(n, size) stored ids |
| AnalyticsController.TopKeysDistinct | DistributedNotification.API/Controllers/AnalyticsController.cs:68-70 | no id is listed twice |
| AnalyticsController.TopKeysDescending | DistributedNotification.API/Controllers/AnalyticsController.cs:69 | the list is ordered by creation time, newest first |
| AnalyticsController.TopKeysNewest | DistributedNotification.API/Controllers/AnalyticsController.cs:68-70 | no record left out was created after a record listed |
| AnalyticsController.GetRecent | DistributedNotification.API/Controllers/AnalyticsController.cs:65-82 | min(20, size) rows, the i-th showing the i-th record of the newest-first order; rows newest first, each a stored record; every record created after the last row is listed; when records are stored under their own ids, no row appears twice |
| AnalyticsController.RowsOfTopKeys | DistributedNotification.API/Controllers/AnalyticsController.cs:65-82 | the projection of the top 20 ids is ordered newest first, comes from the store, covers every newer record, and repeats no row when records are keyed by id |
| DashboardComponent.TotalPages | notification-admin-ui/src/app/components/dashboard/dashboard.component.ts:197 | the smallest page count whose pages of 10 hold the list |
| DashboardComponent.Slice | notification-admin-ui/src/app/components/dashboard/dashboard.component.ts:204 | Array.prototype.slice: no longer than the list or the requested span; from a non-negative start, the i-th element is the list's element start+i; from a non-negative start no later than the end, exactly the subsequence between the two bounds, each clipped to the list's length |
| DashboardComponent.Page | notification-admin-ui/src/app/components/dashboard/dashboard.component.ts:202-204 | a page holds at most 10 rows, and from page 1 on its i-th row is row (page-1)*10+i of the list |
| DashboardComponent.PageIsWindow | notification-admin-ui/src/app/components/dashboard/dashboard.component.ts:201-205 | a page holds at most 10 rows; its i-th row is row (page-1)*10+i of the list; it is full unless it is the last; it has rows when it starts inside the list |
| DashboardComponent.PageEmptyIffBeyondLast | notification-admin-ui/src/app/components/dashboard/dashboard.component.ts:196-205 | a page is empty if and only if it is past totalPages |
| DashboardComponent.FirstPagesArePrefix | notification-admin-ui/src/app/components/dashboard/dashboard.component.ts:201-205 | pages 1 to n, concatenated, are the list's first n*10 rows |
| DashboardComponent.PagesCoverList | notification-admin-ui/src/app/components/dashboard/dashboard.component.ts:196-205 | pages 1 to totalPages, concatenated, are the whole list |
| DashboardComponent.ToLower | notification-admin-ui/src/app/components/dashboard/dashboard.component.ts:180 | lower-casing keeps the length and maps each character on its own |
| DashboardComponent.GetStatusColor | notification-admin-ui/src/app/components/dashboard/dashboard.component.ts:179-186 | green exactly for "sent", red for "failed", yellow for "pending" in any letter case, gray for everything else |
| DashboardComponent.LowerIdempotent | notification-admin-ui/src/app/components/dashboard/dashboard.component.ts:180 | lower-casing twice is lower-casing once |
| DashboardComponent.StatusColorIgnoresCase | notification-admin-ui/src/app/components/dashboard/dashboard.component.ts:179-186 | statuses equal up to letter case get the same colour |
| DashboardComponent.StoredStatusColors | notification-admin-ui/src/app/components/dashboard/dashboard.component.ts:179-186 | the stored statuses SENT, FAILED and PENDING get green, red and yellow |
| DashboardComponent.Dashboard.constructor | notification-admin-ui/src/app/components/dashboard/dashboard.component.ts:18-22 | an empty list on page 1 of 0, in the valid state |
| DashboardComponent.Dashboard.UpdatePaginatedNotifications | notification-admin-ui/src/app/components/dashboard/dashboard.component.ts:201-205 | the visible rows become the current page of the list; nothing else changes |
| DashboardComponent.Dashboard.SetupPagination | notification-admin-ui/src/app/components/dashboard/dashboard.component.ts:196-199 | totalPages and the visible rows are recomputed; the page number is kept |
| DashboardComponent.Dashboard.ReceiveRecent | notification-admin-ui/src/app/components/dashboard/dashboard.component.ts:73-79 | the new list is paginated on the unchanged page number; the valid state is kept; a page now past the end shows nothing |
| DashboardComponent.Dashboard.GoToPage | notification-admin-ui/src/app/components/dashboard/dashboard.component.ts:207-212 | moves to the page, showing its rows, exactly when it is between 1 and totalPages; otherwise nothing changes; the valid state is kept |
| DashboardComponent.Dashboard.NextPage | notification-admin-ui/src/app/components/dashboard/dashboard.component.ts:214-216 | advances one page from any page before the last; a no-op on or past the last page, where goToPage rejects the target |
| DashboardComponent.Dashboard.PrevPage | notification-admin-ui/src/app/components/dashboard/dashboard.component.ts:218-220 | goes back one page when the previous page is between 1 and totalPages; a no-op otherwise, on page 1 and also on a page more than one past the last (reachable after a shorter list arrives) |
| Pipeline.Deliver | DistributedNotification.EmailWorker/Worker.cs:62 | a body serialized from a payload decodes to that payload; any other text gets whatever the JSON reader makes of it |
| Pipeline.DeliveredPayloadIsRecord | DistributedNotification.Application/Services/NotificationPublisher.cs:33-55 | a worker decodes a published message to the record's id and channel |
| Pipeline.SmsMessageIgnoredElsewhere | DistributedNotification.EmailWorker/Worker.cs:64-70 | channel isolation: when the completion succeeds, an SMS record's message is completed by the Email and Push workers with the store unchanged |
| Pipeline.SmsDeliveryCommits | DistributedNotification.SmsWorker/Worker.cs:90-108 | the SMS worker commits a stored SMS record, and GetStatus then reports SENT at the handling time |
| Pipeline.EmailDeliveryCommits | DistributedNotification.EmailWorker/Worker.cs:116-129 | the Email worker commits a stored, not yet SENT Email record without FAIL, and GetStatus then reports SENT at the handling time |
| Pipeline.FailTriggerText | DistributedNotification.EmailWorker/Worker.cs:80 | "FAIL-trigger" and "Please FAIL now" contain the failure marker, "Fail" does not (the test is case-sensitive) |

## Left out

- JSON text: serialization and deserialization are not modelled. A body is either a payload value or other text; what the JSON reader makes of other text (a payload object with defaults for missing fields, null, or an exception) is the `decode` parameter of `Pipeline.Deliver`.
- Bus.DeadLetter: the dead-letter reason and error description are kept as fields of their own, apart from the message's application properties, although the broker stores them as properties. The replay's property copy therefore does not carry them over to the replacement, whereas the real copy loop would.
- DashboardComponent.GetStatusColor: takes a non-null string. The TypeScript signature is the same, but a status that arrives as null from the API (the column is nullable) makes `toLowerCase` throw; that case is not modelled.
- The NotificationPayload class is not part of this model. Its fields are inferred from the anonymous object the publisher serializes. Its CorrelationId field is always absent from published payloads and is only logged, so it is omitted.
- The clock, `Guid.NewGuid` and `Task.Delay` become parameters or are dropped. Logging is dropped.
- Concurrency is not modelled: `MaxConcurrentCalls`, two workers racing on one record, and EF Core's lack of optimistic concurrency. Each handler runs atomically on the store.
- ExecuteAsync, ProcessError, processor start-up, Program.cs, dependency injection and configuration are not modelled.
- The broker's redelivery, delivery counting, lease expiry and automatic dead-lettering are outside the handlers. Each handler reports Completed or Rethrown, and the bus's reaction is not modelled.
- The broker may return fewer messages than requested. This is the `returned` parameter of PeekDlq and ReplayDlq.
- The `subscription` path parameter only selects which dead-letter sub-queue is used, so one sub-queue is modelled.
- AnalyticsController.GetSummary: the average processing time that is computed and then discarded is not computed in floating point. Only whether it exists matters, because Average throws when nothing was processed.
- AnalyticsController.GetByChannel: GroupBy's list order is not modelled. The groups are a map keyed by channel.
- AnalyticsController.GetRecent: the order among records created at the same instant is the database's, and is modelled as an unspecified choice. For that reason GetRecent is a ghost function.
- AnalyticsController.GetTenantSummary: returns the counts directly rather than wrapped in an Ok response, since this action never fails.
- DashboardComponent.ToLower: lower-cases the ASCII letters only, not Unicode.
- DashboardComponent.Dashboard.GoToPage: `page` is an integer, though a TypeScript number could carry a fraction. Every caller passes whole numbers.
- The dashboard's charts, `formatDate`, `refresh`, the summary and channel loads, and the loading/error flags are not modelled. api.service.ts and the DLQ viewer component are not part of this model.
- The tracked-entity changes followed by SaveChangesAsync are modelled as one replacement of the record in the map when the save happens. Edits that are never saved vanish with their scope, so nothing observable is lost.

## Findings

| source | as written | input that shows it | evidently intended | confidence | as-written member | corrected member |
|---|---|---|---|---|---|---|
| DistributedNotification.API/Controllers/AnalyticsController.cs:26-36 | Enumerable.Average over the processed records is evaluated even though its result is never used, and it throws on an empty sequence | a store with no record that has ProcessedAt, e.g. empty or holding only freshly sent PENDING records: the summary endpoint answers 500 | the summary answers with the counts and the fixed average for every store | not executed | AnalyticsController.SummaryFailsBeforeFirstProcessing | AnalyticsController.GetSummaryCorrected |

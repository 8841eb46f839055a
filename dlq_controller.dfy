/**
 * DlqController: peeking at a subscription's dead-letter sub-queue, and
 * replaying its messages onto the topic.
 */
module DlqController {
  import opened Wrappers
  import opened Entities
  import opened Bus

  /** PeekMessagesAsync(10) and ReceiveMessagesAsync(10). */
  const PeekLimit: nat := 10
  const ReceiveLimit: nat := 10

  const ReplayedText: string := "DLQ messages replayed"
  const ReplayErrorPrefix: string := "Failed to replay messages: "

  /** The anonymous object PeekDlq lists for each dead-lettered message. */
  datatype PeekEntry = PeekEntry(messageId: Guid, body: Body, reason: Option<string>, error: Option<string>,
                                 deliveryCount: nat)

  /**
   * How many messages a peek or receive of at most limit hands back, when
   * available are queued and the broker chose to return returned of them
   * (it may return fewer than asked for).
   */
  function BatchSize(available: nat, limit: nat, returned: nat): (k: nat)
    ensures k <= available && k <= limit && k <= returned
    ensures k == available || k == limit || k == returned
  {
    Min(Min(returned, limit), available)
  }

  function EntryOf(m: DeadLetter): (e: PeekEntry)
    ensures e.messageId == m.message.messageId && e.body == m.message.body
    ensures e.reason == m.reason && e.error == m.errorDescription && e.deliveryCount == m.deliveryCount
  {
    PeekEntry(m.message.messageId, m.message.body, m.reason, m.errorDescription, m.deliveryCount)
  }

  /**
   * PeekDlq: the first messages of the queue, in queue order, projected to
   * entries; any failure gives an empty list, still answered with Ok. The
   * queue itself is not touched (this is a function of it).
   */
  function PeekDlq(q: seq<DeadLetter>, returned: nat, peekFails: bool): (r: Response<seq<PeekEntry>>)
    ensures r.Ok?
    ensures |r.value| <= PeekLimit && |r.value| <= |q|
    ensures peekFails ==> r.value == []
    ensures !peekFails ==> |r.value| == BatchSize(|q|, PeekLimit, returned)
    ensures forall i | 0 <= i < |r.value| :: r.value[i] == EntryOf(q[i])
  {
    if peekFails then Ok([])
    else Ok(seq(BatchSize(|q|, PeekLimit, returned), i requires 0 <= i < BatchSize(|q|, PeekLimit, returned) => EntryOf(q[i])))
  }

  /** The replacement for a dead-lettered message: same body, content type and properties, a new id, no correlation id. */
  function ReplayMessage(m: DeadLetter, newId: Guid): (r: BusMessage)
    ensures r.body == m.message.body && r.contentType == m.message.contentType
    ensures r.properties == m.message.properties
    ensures r.messageId == newId && r.correlationId == None
  {
    BusMessage(m.message.body, m.message.contentType, newId, None, m.message.properties)
  }

  /** The replacements for a batch, the i-th taking the i-th fresh id. */
  function Replays(batch: seq<DeadLetter>, newId: nat -> Guid): (r: seq<BusMessage>)
    ensures |r| == |batch|
    decreases |batch|
  {
    if batch == [] then [] else Replays(batch[..|batch| - 1], newId) + [ReplayMessage(batch[|batch| - 1], newId(|batch| - 1))]
  }

  /** The i-th replacement is the i-th message replayed with the i-th fresh id. */
  lemma {:induction false} ReplaysAt(batch: seq<DeadLetter>, newId: nat -> Guid, i: nat)
    requires i < |batch|
    ensures Replays(batch, newId)[i] == ReplayMessage(batch[i], newId(i))
    decreases |batch|
  {
    if i < |batch| - 1 {
      ReplaysAt(batch[..|batch| - 1], newId, i);
    }
  }

  /** Replaying one more message appends its replacement. */
  lemma ReplaysAppend(batch: seq<DeadLetter>, m: DeadLetter, newId: nat -> Guid)
    ensures Replays(batch + [m], newId) == Replays(batch, newId) + [ReplayMessage(m, newId(|batch|))]
  {
    assert (batch + [m])[..|batch|] == batch;
  }

  /** The copy loop over msg.ApplicationProperties. */
  method CopyProperties(source: map<string, Option<string>>) returns (copy: map<string, Option<string>>)
    ensures copy == source
  {
    copy := map[];
    var remaining := source.Keys;
    while remaining != {}
      invariant remaining <= source.Keys
      invariant copy.Keys == source.Keys - remaining
      invariant forall key | key in copy :: copy[key] == source[key]
      decreases remaining
    {
      var key :| key in remaining;
      copy := copy[key := source[key]];
      remaining := remaining - {key};
    }
  }

  /** Where a replay can fail: receiving, or sending or completing the index-th message. */
  datatype ReplayFault = NoFault | ReceiveFault(error: string) | SendFault(index: nat, error: string)
                       | CompleteFault(index: nat, error: string)

  /** How many of the k received messages were sent to the topic. */
  function SentCount(k: nat, fault: ReplayFault): (n: nat)
    ensures n <= k
    ensures fault.NoFault? ==> n == k
    ensures fault.SendFault? && fault.index < k ==> n == fault.index
    ensures fault.CompleteFault? && fault.index < k ==> n == fault.index + 1
  {
    match fault
    case NoFault => k
    case ReceiveFault(_) => 0
    case SendFault(i, _) => Min(i, k)
    case CompleteFault(i, _) => if i < k then i + 1 else k
  }

  /** How many of the k received messages were completed, that is removed from the sub-queue. */
  function RemovedCount(k: nat, fault: ReplayFault): (n: nat)
    ensures n <= k
    ensures n <= SentCount(k, fault) <= n + 1
    ensures (fault.SendFault? || fault.CompleteFault?) && fault.index < k ==> n == fault.index
  {
    match fault
    case NoFault => k
    case ReceiveFault(_) => 0
    case SendFault(i, _) => Min(i, k)
    case CompleteFault(i, _) => Min(i, k)
  }

  /** The fault stopped the loop: it happened at reception or at one of the k messages. */
  predicate Aborted(k: nat, fault: ReplayFault)
    ensures Aborted(k, fault) <==> fault.ReceiveFault? || RemovedCount(k, fault) < k
  {
    fault.ReceiveFault? || ((fault.SendFault? || fault.CompleteFault?) && fault.index < k)
  }

  /** The answer: BadRequest with the exception's message, or a fixed text that reports no count. */
  function ReplayResponse(k: nat, fault: ReplayFault): (r: Response<string>)
    ensures r.Ok? <==> !Aborted(k, fault)
    ensures r.Ok? ==> r.value == ReplayedText
    ensures r.BadRequest? ==> r.text == ReplayErrorPrefix + fault.error
  {
    if Aborted(k, fault) then BadRequest(ReplayErrorPrefix + fault.error) else Ok(ReplayedText)
  }

  /**
   * A message leaves the sub-queue only after its replacement was sent, at
   * most one sent message is still dead-lettered, and a batch is at most
   * ReceiveLimit messages.
   */
  lemma ReplaySendsBeforeRemoving(available: nat, returned: nat, fault: ReplayFault)
    ensures var k := BatchSize(available, ReceiveLimit, returned);
            && RemovedCount(k, fault) <= SentCount(k, fault) <= RemovedCount(k, fault) + 1
            && SentCount(k, fault) <= k <= ReceiveLimit
            && (!Aborted(k, fault) ==> RemovedCount(k, fault) == SentCount(k, fault) == k)
  {
  }

  /** The loop's step at position i of the sub-queue q: the head, the rest, and one more replacement. */
  lemma ReplayStep(q: seq<DeadLetter>, i: nat, newId: nat -> Guid)
    requires i < |q|
    ensures q[i..][0] == q[i] && q[i..][1..] == q[i + 1..]
    ensures Replays(q[..i + 1], newId) == Replays(q[..i], newId) + [ReplayMessage(q[i], newId(i))]
  {
    assert q[..i + 1] == q[..i] + [q[i]];
    ReplaysAppend(q[..i], q[i], newId);
  }

  /** The loop stopped at the i-th message: the counts and the answer at that point. */
  lemma CountsAtFailure(k: nat, i: nat, fault: ReplayFault, sent: bool)
    requires i < k
    requires sent == !(fault.SendFault? && fault.index == i)
    requires !(sent && !(fault.CompleteFault? && fault.index == i))
    ensures SentCount(k, fault) == (if sent then i + 1 else i) && RemovedCount(k, fault) == i
    ensures ReplayResponse(k, fault) == BadRequest(ReplayErrorPrefix + fault.error)
  {
  }

  /** The loop ran through the batch: everything was sent and removed, and the answer is the fixed text. */
  lemma CountsAtEnd(k: nat, fault: ReplayFault)
    requires !fault.ReceiveFault?
    requires (fault.SendFault? || fault.CompleteFault?) ==> k <= fault.index
    ensures SentCount(k, fault) == k && RemovedCount(k, fault) == k
    ensures ReplayResponse(k, fault) == Ok(ReplayedText)
  {
  }

  /**
   * One iteration of the replay loop, on the message at the head of the
   * sub-queue: send the replacement, then complete the original. Either step
   * may throw, which ends the iteration there.
   */
  method ReplayOne(dlq: DeadLetterQueue, topic: Topic, msg: DeadLetter, id: Guid, sendFails: bool,
                   completeFails: bool) returns (sent: bool, completed: bool)
    requires dlq.messages != [] && dlq.messages[0] == msg
    modifies dlq, topic
    ensures sent == !sendFails && completed == (sent && !completeFails)
    ensures topic.published == old(topic.published) + (if sent then [ReplayMessage(msg, id)] else [])
    ensures dlq.messages == if completed then old(dlq.messages)[1..] else old(dlq.messages)
  {
    var properties := CopyProperties(msg.message.properties);
    var replayMessage := BusMessage(msg.message.body, msg.message.contentType, id, None, properties);
    sent, completed := false, false;
    if sendFails {
      return;
    }
    topic.published := topic.published + [replayMessage];
    sent := true;
    if completeFails {
      return;
    }
    dlq.messages := dlq.messages[1..];
    completed := true;
  }

  /**
   * ReplayDlq: receive a batch under lease, then for each message in order
   * send its replacement and complete the original. The first failure ends
   * the loop: the messages handled so far stay replayed and removed, the
   * others stay dead-lettered. newId(i) is the Guid drawn for the i-th message.
   */
  method ReplayDlq(dlq: DeadLetterQueue, topic: Topic, returned: nat, newId: nat -> Guid, fault: ReplayFault)
    returns (response: Response<string>)
    modifies dlq, topic
    ensures var k := if fault.ReceiveFault? then 0 else BatchSize(|old(dlq.messages)|, ReceiveLimit, returned);
            && dlq.messages == old(dlq.messages)[RemovedCount(k, fault)..]
            && topic.published == old(topic.published) + Replays(old(dlq.messages)[..SentCount(k, fault)], newId)
            && response == ReplayResponse(k, fault)
  {
    if fault.ReceiveFault? {
      return BadRequest(ReplayErrorPrefix + fault.error);
    }
    ghost var q := dlq.messages;
    var k := BatchSize(|dlq.messages|, ReceiveLimit, returned);
    var i := 0;
    while i < k
      invariant 0 <= i <= k <= |q|
      invariant dlq.messages == q[i..]
      invariant topic.published == old(topic.published) + Replays(q[..i], newId)
      invariant (fault.SendFault? || fault.CompleteFault?) ==> i <= fault.index
    {
      var msg := dlq.messages[0];
      ReplayStep(q, i, newId);
      var sent, completed := ReplayOne(dlq, topic, msg, newId(i),
                                       fault.SendFault? && fault.index == i,
                                       fault.CompleteFault? && fault.index == i);
      if !completed {
        CountsAtFailure(k, i, fault, sent);
        return BadRequest(ReplayErrorPrefix + fault.error);
      }
      i := i + 1;
    }
    CountsAtEnd(k, fault);
    response := Ok(ReplayedText);
  }

  /**
   * What a peek shows is what a replay of the same batch re-sends: for
   * each entry, the replacement has the peeked body and a new id.
   */
  lemma {:induction false} PeekShowsReplayBatch(q: seq<DeadLetter>, returned: nat, newId: nat -> Guid)
    ensures var entries := PeekDlq(q, returned, false).value;
            var k := BatchSize(|q|, ReceiveLimit, returned);
            var replays := Replays(q[..k], newId);
            |entries| == |replays| &&
            forall i | 0 <= i < |entries| :: replays[i].body == entries[i].body && replays[i].messageId == newId(i)
  {
    var entries := PeekDlq(q, returned, false).value;
    var k := BatchSize(|q|, ReceiveLimit, returned);
    forall i | 0 <= i < |entries|
      ensures Replays(q[..k], newId)[i].body == entries[i].body && Replays(q[..k], newId)[i].messageId == newId(i)
    {
      ReplaysAt(q[..k], newId, i);
    }
  }
}

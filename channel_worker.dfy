/**
 * What the three channel workers' ProcessMessage handlers share: the
 * deserializer's possible results, the conditions of one delivery attempt,
 * the catch block that marks a record FAILED and rethrows, and the handler
 * that the SMS and Push workers both run (their code differs only in the
 * channel name).
 */
module ChannelWorker {
  import opened Wrappers
  import opened Entities
  import opened Bus

  /**
   * What JsonSerializer.Deserialize yields for a message body: it throws on
   * text that is not JSON, returns null for the JSON literal null, and a
   * payload otherwise.
   */
  datatype Decoding = Malformed | NullPayload | Decoded(payload: Payload)

  /**
   * The conditions of one delivery attempt: DateTime.UtcNow, whether the
   * try block's FindAsync and SaveChangesAsync succeed, whether
   * CompleteMessageAsync succeeds, and whether the catch block's own
   * database calls (in a fresh scope) succeed.
   */
  datatype Delivery = Delivery(now: Time, lookupSucceeds: bool, saveSucceeds: bool, completeSucceeds: bool,
                               catchStoreAvailable: bool)

  /** The try block's database calls both succeed. */
  predicate StoreWorks(delivery: Delivery) {
    delivery.lookupSucceeds && delivery.saveSucceeds
  }

  /** A handler either completes the message or lets an exception escape, so the bus retries. */
  datatype Outcome = Completed | Rethrown

  datatype Handled = Handled(records: Records, outcome: Outcome)

  /** The payload decoded and is addressed to the given channel. */
  predicate ForChannel(d: Decoding, channel: string) {
    d.Decoded? && d.payload.channel == Some(channel)
  }

  /** Only the record keyed by id may differ between s and s'; no key is added or removed. */
  ghost predicate ChangedOnly(s: Records, s': Records, id: Guid) {
    s'.Keys == s.Keys && forall k | k in s && k != id :: s'[k] == s[k]
  }

  /** The store after one handler run: unchanged unless a payload decoded, and then only its record. */
  ghost predicate Framed(s: Records, s': Records, d: Decoding) {
    if d.Decoded? then ChangedOnly(s, s', d.payload.notificationId) else s' == s
  }

  /** A record committed as sent at the given time. */
  function MarkSent(n: Notification, now: Time): (n': Notification)
    ensures n'.status == Some(SENT) && n'.processedAt == Some(now)
    ensures n'.(status := n.status, processedAt := n.processedAt) == n
  {
    n.(status := Some(SENT), processedAt := Some(now))
  }

  /**
   * The store after the catch block: the body is decoded again (a malformed
   * body throws again, a null payload throws on dereference); otherwise the
   * payload's record, when the catch block reaches the database and finds
   * it, gets status FAILED, whatever its status was.
   */
  function MarkFailed(s: Records, d: Decoding, delivery: Delivery): (s': Records)
    ensures Framed(s, s', d)
    ensures !d.Decoded? || !delivery.catchStoreAvailable || d.payload.notificationId !in s ==> s' == s
    ensures d.Decoded? && delivery.catchStoreAvailable && d.payload.notificationId in s ==>
              s'[d.payload.notificationId] == s[d.payload.notificationId].(status := Some(FAILED))
  {
    if d.Decoded? && delivery.catchStoreAvailable && d.payload.notificationId in s then
      s[d.payload.notificationId := s[d.payload.notificationId].(status := Some(FAILED))]
    else
      s
  }

  /**
   * CompleteMessageAsync at the end of the try block: the message is
   * completed, or the completion throws and the catch block runs on the
   * store as the try block left it.
   */
  function Complete(s: Records, d: Decoding, delivery: Delivery): (h: Handled)
    ensures h.outcome == Completed <==> delivery.completeSucceeds
    ensures delivery.completeSucceeds ==> h.records == s
    ensures !delivery.completeSucceeds ==> h.records == MarkFailed(s, d, delivery)
  {
    if delivery.completeSucceeds then Handled(s, Completed) else Handled(MarkFailed(s, d, delivery), Rethrown)
  }

  /**
   * The SMS and Push handler for the given channel: skip (and complete) a
   * null or foreign payload; otherwise look the record up and, if it
   * exists, set it SENT at now whatever its status, save, and complete.
   * A failing lookup or save throws into the catch block, which works on
   * the store as last saved.
   */
  function DirectHandle(channel: string, s: Records, d: Decoding, delivery: Delivery): (h: Handled)
    ensures Framed(s, h.records, d)
    ensures h.outcome == Completed <==>
              && !d.Malformed? && delivery.completeSucceeds
              && (ForChannel(d, channel) ==>
                    delivery.lookupSucceeds && (d.payload.notificationId in s ==> delivery.saveSucceeds))
    ensures Keyed(s) ==> Keyed(h.records)
    ensures SentHasProcessedAt(s) ==> SentHasProcessedAt(h.records)
    ensures h.outcome == Rethrown && d.Decoded? && delivery.catchStoreAvailable && d.payload.notificationId in s ==>
              h.records[d.payload.notificationId].status == Some(FAILED)
  {
    match d
    case Malformed => Handled(s, Rethrown)
    case NullPayload => Complete(s, d, delivery)
    case Decoded(p) =>
      if p.channel != Some(channel) then Complete(s, d, delivery)
      else if !delivery.lookupSucceeds then Handled(MarkFailed(s, d, delivery), Rethrown)
      else if p.notificationId in s then
        if delivery.saveSucceeds then
          Complete(s[p.notificationId := MarkSent(s[p.notificationId], delivery.now)], d, delivery)
        else Handled(MarkFailed(s, d, delivery), Rethrown)
      else Complete(s, d, delivery)
  }

  /**
   * A null or foreign payload is completed without any store access when
   * the completion succeeds: the store stays as it was and the outcome does
   * not depend on the store's contents.
   */
  lemma DirectSkipsForeign(channel: string, s1: Records, s2: Records, d: Decoding, delivery: Delivery)
    requires !d.Malformed? && !ForChannel(d, channel) && delivery.completeSucceeds
    ensures DirectHandle(channel, s1, d, delivery) == Handled(s1, Completed)
    ensures DirectHandle(channel, s1, d, delivery).outcome == DirectHandle(channel, s2, d, delivery).outcome
  {
  }

  /** An existing record becomes SENT at now, whatever its previous status; nothing else changes. */
  lemma DirectOverwrites(channel: string, s: Records, d: Decoding, delivery: Delivery)
    requires ForChannel(d, channel) && StoreWorks(delivery) && delivery.completeSucceeds
    requires d.payload.notificationId in s
    ensures var id := d.payload.notificationId;
            DirectHandle(channel, s, d, delivery) == Handled(s[id := MarkSent(s[id], delivery.now)], Completed)
  {
  }

  /** A missing record: the store is unchanged, and the message completes when the attempt's I/O succeeds. */
  lemma DirectMissingRecord(channel: string, s: Records, d: Decoding, delivery: Delivery)
    requires ForChannel(d, channel) && d.payload.notificationId !in s
    ensures DirectHandle(channel, s, d, delivery).records == s
    ensures DirectHandle(channel, s, d, delivery).outcome == Completed <==>
              delivery.lookupSucceeds && delivery.completeSucceeds
  {
  }

  /**
   * Redelivery of an SMS or Push message: the status assignment is
   * idempotent, the processing time is not — the second run overwrites it
   * with its own clock.
   */
  lemma {:induction false} DirectRedeliveryRewritesProcessedAt(channel: string, s: Records, d: Decoding,
                                                               first: Delivery, second: Delivery)
    requires ForChannel(d, channel) && d.payload.notificationId in s
    requires StoreWorks(first) && first.completeSucceeds
    requires StoreWorks(second) && second.completeSucceeds
    ensures var once := DirectHandle(channel, s, d, first).records;
            var twice := DirectHandle(channel, once, d, second).records;
            var id := d.payload.notificationId;
            && twice[id].status == once[id].status == Some(SENT)
            && twice[id].processedAt == Some(second.now)
            && (first.now != second.now ==> twice != once)
  {
    var id := d.payload.notificationId;
    DirectOverwrites(channel, s, d, first);
    var once := DirectHandle(channel, s, d, first).records;
    DirectOverwrites(channel, once, d, second);
    var twice := DirectHandle(channel, once, d, second).records;
    if first.now != second.now {
      assert twice[id].processedAt != once[id].processedAt;
    }
  }

  /**
   * A save that fails after a successful lookup: the catch block marks the
   * record FAILED and it keeps the processing time it had, so a PENDING
   * record becomes FAILED with none.
   */
  lemma DirectSaveFailure(channel: string, s: Records, d: Decoding, delivery: Delivery)
    requires ForChannel(d, channel) && d.payload.notificationId in s
    requires delivery.lookupSucceeds && !delivery.saveSucceeds && delivery.catchStoreAvailable
    ensures var h := DirectHandle(channel, s, d, delivery);
            var id := d.payload.notificationId;
            h.outcome == Rethrown && h.records == s[id := s[id].(status := Some(FAILED))]
  {
  }

  /**
   * A commit whose completion fails, when the catch block cannot reach the
   * database either: the record stays SENT, yet the message is retried.
   */
  lemma DirectCommitSurvivesCatchFailure(channel: string, s: Records, d: Decoding, delivery: Delivery)
    requires ForChannel(d, channel) && d.payload.notificationId in s
    requires StoreWorks(delivery) && !delivery.completeSucceeds && !delivery.catchStoreAvailable
    ensures var h := DirectHandle(channel, s, d, delivery);
            var id := d.payload.notificationId;
            h.outcome == Rethrown && h.records == s[id := MarkSent(s[id], delivery.now)]
  {
  }

  /** CompleteMessageAsync: marks the lease completed when it succeeds; its failure is an exception. */
  method CompleteMessage(args: MessageLease, delivery: Delivery) returns (ok: bool)
    modifies args
    ensures ok == delivery.completeSucceeds
    ensures args.completed == (old(args.completed) || ok)
  {
    ok := delivery.completeSucceeds;
    if ok {
      args.completed := true;
    }
  }

  /** The catch block: decode again, mark the record FAILED if it is found, save, rethrow. */
  method CatchAndRethrow(db: NotificationStore, d: Decoding, delivery: Delivery) returns (outcome: Outcome)
    modifies db
    ensures outcome == Rethrown
    ensures db.records == MarkFailed(old(db.records), d, delivery)
  {
    outcome := Rethrown;
    if d.Malformed? || d.NullPayload? {
      // Deserialize throws again, or payload!.NotificationId dereferences null.
      return;
    }
    if !delivery.catchStoreAvailable {
      // FindAsync or SaveChangesAsync throws; nothing is saved.
      return;
    }
    var id := d.payload.notificationId;
    if id in db.records {
      var notification := db.records[id];
      notification := notification.(status := Some(FAILED));
      db.records := db.records[id := notification];
    }
  }

  /** The ProcessMessage body shared by the SMS and Push workers. */
  method ProcessDirect(channel: string, db: NotificationStore, args: MessageLease, d: Decoding,
                       delivery: Delivery) returns (outcome: Outcome)
    requires !args.completed
    modifies db, args
    ensures db.records == DirectHandle(channel, old(db.records), d, delivery).records
    ensures outcome == DirectHandle(channel, old(db.records), d, delivery).outcome
    ensures args.completed <==> outcome == Completed
  {
    if d.Malformed? {
      // Deserialize throws inside the try block.
      outcome := CatchAndRethrow(db, d, delivery);
      return;
    }
    if d.NullPayload? || d.payload.channel != Some(channel) {
      var completed := CompleteMessage(args, delivery);
      if completed {
        return Completed;
      }
      outcome := CatchAndRethrow(db, d, delivery);
      return;
    }
    var payload := d.payload;
    if !delivery.lookupSucceeds {
      // FindAsync throws.
      outcome := CatchAndRethrow(db, d, delivery);
      return;
    }
    if payload.notificationId in db.records {
      var notification := db.records[payload.notificationId];
      notification := notification.(status := Some(SENT), processedAt := Some(delivery.now));
      if !delivery.saveSucceeds {
        // SaveChangesAsync throws; the edit is lost with the scope.
        outcome := CatchAndRethrow(db, d, delivery);
        return;
      }
      db.records := db.records[payload.notificationId := notification];
    }
    var completed := CompleteMessage(args, delivery);
    if completed {
      return Completed;
    }
    outcome := CatchAndRethrow(db, d, delivery);
  }
}

/**
 * The Email worker's ProcessMessage: the channel filter, the simulated
 * failure for messages containing "FAIL", the lookup, the SENT idempotency
 * short-circuit, the SENT commit, and the catch that marks FAILED and
 * rethrows.
 */
module EmailWorker {
  import opened Wrappers
  import opened Entities
  import opened Bus
  import opened ChannelWorker

  const EMAIL: string := "Email"
  const FailMarker: string := "FAIL"

  /** Ordinal substring test, as string.Contains. */
  predicate Contains(text: string, part: string)
    decreases |text|
  {
    |part| <= |text| && (text[..|part|] == part || Contains(text[1..], part))
  }

  /** part occurs in text starting at index i. */
  predicate OccursAt(text: string, part: string, i: int) {
    0 <= i && i + |part| <= |text| && text[i..i + |part|] == part
  }

  /** Contains finds part exactly when part occurs somewhere in text. */
  lemma {:induction false} ContainsIffOccurs(text: string, part: string)
    ensures Contains(text, part) <==> exists i :: OccursAt(text, part, i)
    decreases |text|
  {
    if |part| <= |text| && text[..|part|] == part {
      assert OccursAt(text, part, 0);
    } else if |part| <= |text| {
      ContainsIffOccurs(text[1..], part);
      if Contains(text[1..], part) {
        var i :| OccursAt(text[1..], part, i);
        assert text[1..][i..i + |part|] == text[i + 1..i + 1 + |part|];
        assert OccursAt(text, part, i + 1);
      } else {
        forall i | OccursAt(text, part, i)
          ensures false
        {
          if i > 0 {
            assert text[1..][i - 1..i - 1 + |part|] == text[i..i + |part|];
            assert OccursAt(text[1..], part, i - 1);
          }
        }
      }
    } else {
      forall i | OccursAt(text, part, i)
        ensures false
      {
      }
    }
  }

  /** payload.Message?.Contains("FAIL") == true: the test hook that makes a message fail. */
  predicate RequestsFailure(p: Payload) {
    p.message.Some? && Contains(p.message.value, FailMarker)
  }

  /** A message fails exactly when its text is present and "FAIL" occurs in it, in capitals. */
  lemma RequestsFailureIff(p: Payload)
    ensures RequestsFailure(p) <==> p.message.Some? && exists i :: OccursAt(p.message.value, FailMarker, i)
  {
    if p.message.Some? {
      ContainsIffOccurs(p.message.value, FailMarker);
    }
  }

  /** A stored Email record that is not yet SENT: the handler will save it. */
  predicate Commits(s: Records, p: Payload) {
    p.notificationId in s && s[p.notificationId].status != Some(SENT)
  }

  /**
   * The Email handler's effect on the store and its outcome. A failing
   * lookup or save throws into the catch block, which works on the store
   * as last saved.
   */
  function Handle(s: Records, d: Decoding, delivery: Delivery): (h: Handled)
    ensures Framed(s, h.records, d)
    ensures h.outcome == Completed <==>
              && !d.Malformed? && delivery.completeSucceeds
              && (ForChannel(d, EMAIL) ==>
                    && delivery.lookupSucceeds && !RequestsFailure(d.payload)
                    && (Commits(s, d.payload) ==> delivery.saveSucceeds))
    ensures Keyed(s) ==> Keyed(h.records)
    ensures SentHasProcessedAt(s) ==> SentHasProcessedAt(h.records)
    ensures h.outcome == Rethrown && d.Decoded? && delivery.catchStoreAvailable && d.payload.notificationId in s ==>
              h.records[d.payload.notificationId].status == Some(FAILED)
  {
    match d
    case Malformed => Handled(s, Rethrown)
    case NullPayload => Complete(s, d, delivery)
    case Decoded(p) =>
      if p.channel != Some(EMAIL) then Complete(s, d, delivery)
      else if RequestsFailure(p) || !delivery.lookupSucceeds then Handled(MarkFailed(s, d, delivery), Rethrown)
      else if !Commits(s, p) then Complete(s, d, delivery)
      else if !delivery.saveSucceeds then Handled(MarkFailed(s, d, delivery), Rethrown)
      else Complete(s[p.notificationId := MarkSent(s[p.notificationId], delivery.now)], d, delivery)
  }

  /**
   * A null or non-Email payload is completed without store access when the
   * completion succeeds: the store is unchanged and the outcome does not
   * depend on the store.
   */
  lemma SkipsForeign(s1: Records, s2: Records, d: Decoding, delivery: Delivery)
    requires !d.Malformed? && !ForChannel(d, EMAIL) && delivery.completeSucceeds
    ensures Handle(s1, d, delivery) == Handled(s1, Completed)
    ensures Handle(s1, d, delivery).outcome == Handle(s2, d, delivery).outcome
  {
  }

  /** A missing record: the store is unchanged; the message completes unless the attempt fails. */
  lemma MissingRecord(s: Records, d: Decoding, delivery: Delivery)
    requires ForChannel(d, EMAIL) && d.payload.notificationId !in s
    ensures Handle(s, d, delivery).records == s
    ensures Handle(s, d, delivery).outcome == Completed <==>
              delivery.lookupSucceeds && delivery.completeSucceeds && !RequestsFailure(d.payload)
  {
  }

  /** A record already SENT: the redelivered message is completed and the record stays as it is. */
  lemma DuplicateIsIgnored(s: Records, d: Decoding, delivery: Delivery)
    requires ForChannel(d, EMAIL) && !RequestsFailure(d.payload)
    requires delivery.lookupSucceeds && delivery.completeSucceeds
    requires d.payload.notificationId in s && s[d.payload.notificationId].status == Some(SENT)
    ensures Handle(s, d, delivery) == Handled(s, Completed)
  {
  }

  /** A record not yet SENT is committed as SENT at now, and then the message is completed. */
  lemma CommitsSent(s: Records, d: Decoding, delivery: Delivery)
    requires ForChannel(d, EMAIL) && !RequestsFailure(d.payload)
    requires StoreWorks(delivery) && delivery.completeSucceeds
    requires d.payload.notificationId in s && s[d.payload.notificationId].status != Some(SENT)
    ensures var id := d.payload.notificationId;
            Handle(s, d, delivery) == Handled(s[id := MarkSent(s[id], delivery.now)], Completed)
  {
  }

  /**
   * A message containing "FAIL" never completes: its record, if stored, is
   * set FAILED even when it was SENT, since the test hook runs before the
   * idempotency check.
   */
  lemma FailMarkerNeverCompletes(s: Records, d: Decoding, delivery: Delivery)
    requires ForChannel(d, EMAIL) && RequestsFailure(d.payload)
    ensures Handle(s, d, delivery).outcome == Rethrown
    ensures Handle(s, d, delivery).records == MarkFailed(s, d, delivery)
  {
  }

  /**
   * Redelivery is idempotent: after a first run whose database calls and
   * completion succeeded, handling the same message again, at any time,
   * leaves the store as the first run left it and ends the same way. (A
   * FAIL message never completes; both runs then end in the catch block,
   * which must reach the database both times or neither.)
   */
  lemma {:induction false} RedeliveryIsIdempotent(s: Records, d: Decoding, first: Delivery, second: Delivery)
    requires StoreWorks(first) && first.completeSucceeds
    requires second.lookupSucceeds && second.completeSucceeds
    requires first.catchStoreAvailable == second.catchStoreAvailable
    ensures var once := Handle(s, d, first);
            Handle(once.records, d, second) == once
  {
    var once := Handle(s, d, first);
    if ForChannel(d, EMAIL) && !RequestsFailure(d.payload) {
      var id := d.payload.notificationId;
      if id in s {
        assert once.records[id].status == Some(SENT);
        DuplicateIsIgnored(once.records, d, second);
      } else {
        MissingRecord(s, d, first);
        MissingRecord(once.records, d, second);
      }
    } else if ForChannel(d, EMAIL) {
      var id := d.payload.notificationId;
      FailMarkerNeverCompletes(s, d, first);
      FailMarkerNeverCompletes(once.records, d, second);
      if id in s {
        assert MarkFailed(once.records, d, second) == once.records;
      }
    }
  }

  /**
   * When completing a first delivery fails after the commit, the catch
   * block turns the just-SENT record to FAILED and keeps its processing
   * time: a FAILED record with a processing time is reachable.
   */
  lemma CompletionFailureAfterCommit(s: Records, d: Decoding, delivery: Delivery)
    requires ForChannel(d, EMAIL) && !RequestsFailure(d.payload)
    requires StoreWorks(delivery) && !delivery.completeSucceeds && delivery.catchStoreAvailable
    requires d.payload.notificationId in s && s[d.payload.notificationId].status != Some(SENT)
    ensures var n := Handle(s, d, delivery).records[d.payload.notificationId];
            n.status == Some(FAILED) && n.processedAt == Some(delivery.now)
  {
  }

  /**
   * The save fails after the lookup found a record not yet SENT: the
   * catch block marks it FAILED and it keeps the processing time it had,
   * so a PENDING record becomes FAILED with none.
   */
  lemma SaveFailure(s: Records, d: Decoding, delivery: Delivery)
    requires ForChannel(d, EMAIL) && !RequestsFailure(d.payload) && Commits(s, d.payload)
    requires delivery.lookupSucceeds && !delivery.saveSucceeds && delivery.catchStoreAvailable
    ensures var h := Handle(s, d, delivery);
            var id := d.payload.notificationId;
            h.outcome == Rethrown && h.records == s[id := s[id].(status := Some(FAILED))]
  {
  }

  /**
   * The completion fails after the commit and the catch block cannot
   * reach the database: the record stays SENT, yet the message is retried.
   */
  lemma CommitSurvivesCatchFailure(s: Records, d: Decoding, delivery: Delivery)
    requires ForChannel(d, EMAIL) && !RequestsFailure(d.payload) && Commits(s, d.payload)
    requires StoreWorks(delivery) && !delivery.completeSucceeds && !delivery.catchStoreAvailable
    ensures var h := Handle(s, d, delivery);
            var id := d.payload.notificationId;
            h.outcome == Rethrown && h.records == s[id := MarkSent(s[id], delivery.now)]
  {
  }

  /**
   * ProcessMessage: the try block with its early returns, then the catch.
   * The else branch after the idempotency check cannot be reached, since the
   * record was found just before.
   */
  method ProcessMessage(db: NotificationStore, args: MessageLease, d: Decoding, delivery: Delivery)
    returns (outcome: Outcome)
    requires !args.completed
    modifies db, args
    ensures db.records == Handle(old(db.records), d, delivery).records
    ensures outcome == Handle(old(db.records), d, delivery).outcome
    ensures args.completed <==> outcome == Completed
  {
    if d.Malformed? {
      // Deserialize throws inside the try block.
      outcome := CatchAndRethrow(db, d, delivery);
      return;
    }
    if d.NullPayload? || d.payload.channel != Some(EMAIL) {
      var completed := CompleteMessage(args, delivery);
      if completed {
        return Completed;
      }
      outcome := CatchAndRethrow(db, d, delivery);
      return;
    }
    var payload := d.payload;
    if payload.message.Some? && Contains(payload.message.value, FailMarker) {
      // throw new Exception("Simulated failure")
      outcome := CatchAndRethrow(db, d, delivery);
      return;
    }
    if !delivery.lookupSucceeds {
      // FindAsync throws.
      outcome := CatchAndRethrow(db, d, delivery);
      return;
    }
    if payload.notificationId !in db.records {
      var completed := CompleteMessage(args, delivery);
      if completed {
        return Completed;
      }
      outcome := CatchAndRethrow(db, d, delivery);
      return;
    }
    var notification := db.records[payload.notificationId];
    if notification.status == Some(SENT) {
      var completed := CompleteMessage(args, delivery);
      if completed {
        return Completed;
      }
      outcome := CatchAndRethrow(db, d, delivery);
      return;
    } else if payload.notificationId in db.records {
      notification := notification.(status := Some(SENT), processedAt := Some(delivery.now));
      if !delivery.saveSucceeds {
        // SaveChangesAsync throws; the edit is lost with the scope.
        outcome := CatchAndRethrow(db, d, delivery);
        return;
      }
      db.records := db.records[payload.notificationId := notification];
    } else {
      assert false;
    }
    var completed := CompleteMessage(args, delivery);
    if completed {
      return Completed;
    }
    outcome := CatchAndRethrow(db, d, delivery);
  }
}

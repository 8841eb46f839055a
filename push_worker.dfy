/** The Push worker's ProcessMessage: the shared handler for channel "Push". */
module PushWorker {
  import opened Entities
  import opened Bus
  import opened ChannelWorker

  const PUSH: string := "Push"

  method ProcessMessage(db: NotificationStore, args: MessageLease, d: Decoding, delivery: Delivery)
    returns (outcome: Outcome)
    requires !args.completed
    modifies db, args
    ensures db.records == DirectHandle(PUSH, old(db.records), d, delivery).records
    ensures outcome == DirectHandle(PUSH, old(db.records), d, delivery).outcome
    ensures args.completed <==> outcome == Completed
    ensures Framed(old(db.records), db.records, d)
  {
    outcome := ProcessDirect(PUSH, db, args, d, delivery);
  }
}

/** The SMS worker's ProcessMessage: the shared handler for channel "SMS". */
module SmsWorker {
  import opened Entities
  import opened Bus
  import opened ChannelWorker

  const SMS: string := "SMS"

  method ProcessMessage(db: NotificationStore, args: MessageLease, d: Decoding, delivery: Delivery)
    returns (outcome: Outcome)
    requires !args.completed
    modifies db, args
    ensures db.records == DirectHandle(SMS, old(db.records), d, delivery).records
    ensures outcome == DirectHandle(SMS, old(db.records), d, delivery).outcome
    ensures args.completed <==> outcome == Completed
    ensures Framed(old(db.records), db.records, d)
  {
    outcome := ProcessDirect(SMS, db, args, d, delivery);
  }
}

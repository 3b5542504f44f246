/** The event handlers: which PENDING rows each domain event adds, for users who want notifications. */
module NotificationListener {
  import opened Rows
  import opened MarketSpec
  import opened DatabaseAccess

  method AddPending(db: Database, u: UserId, kind: NotificationKind, offer: Id, now: Time)
    modifies db
    ensures db.State() == old(db.State()).(notifications := Notify(old(db.users), old(db.notifications), u, kind,
                                                                   offer, now))
  {
    if AlarmOn(db.users, u) {
      db.notifications := db.notifications.Insert(PendingRow(u, kind, offer, now));
    }
  }

  method AddPendingToAll(db: Database, us: seq<UserId>, kind: NotificationKind, offer: Id, now: Time)
    modifies db
    ensures db.State() == old(db.State()).(notifications := NotifyAll(old(db.users), old(db.notifications), us, kind,
                offer, now))
  {
    for k := 0 to |us|
      invariant db.State() == old(db.State()).(notifications := NotifyAll(old(db.users), old(db.notifications),
                    us[..k], kind, offer, now))
    {
      assert us[..k + 1][..k] == us[..k];
      AddPending(db, us[k], kind, offer, now);
    }
    assert us[..|us|] == us;
  }

  method OnOfferCreated(db: Database, offer: Id, orderer: UserId, runner: UserId, now: Time)
    modifies db
    ensures var box := Notify(old(db.users), old(db.notifications), orderer, OfferNew, offer, now);
            db.State() == old(db.State()).(notifications := Notify(old(db.users), box, runner, OfferSubmitted, offer,
                                                                   now))
  {
    AddPending(db, orderer, OfferNew, offer, now);
    AddPending(db, runner, OfferSubmitted, offer, now);
  }

  method OnOfferAccepted(db: Database, offer: Id, accepted: UserId, rejected: seq<UserId>, now: Time)
    modifies db
    ensures var box := Notify(old(db.users), old(db.notifications), accepted, NotificationKind.OfferAccepted, offer,
                              now);
            db.State() == old(db.State()).(notifications := NotifyAll(old(db.users), box, rejected,
                                                                      NotificationKind.OfferRejected, offer, now))
  {
    AddPending(db, accepted, NotificationKind.OfferAccepted, offer, now);
    AddPendingToAll(db, rejected, NotificationKind.OfferRejected, offer, now);
  }

  method OnMeetingConfirmedByRunner(db: Database, offer: Id, orderer: UserId, now: Time)
    modifies db
    ensures db.State() == old(db.State()).(notifications := Notify(old(db.users), old(db.notifications), orderer,
                                                                   MeetingConfirmed, offer, now))
  {
    AddPending(db, orderer, MeetingConfirmed, offer, now);
  }

  method OnMeetingConfirmedByOrderer(db: Database, offer: Id, orderer: UserId, runner: UserId, now: Time)
    modifies db
    ensures var box := Notify(old(db.users), old(db.notifications), runner, MeetingConfirmed, offer, now);
            db.State() == old(db.State()).(notifications := NotifyAll(old(db.users), box, [orderer, runner],
                                                                      ExecutionCompleted, offer, now))
  {
    AddPending(db, runner, MeetingConfirmed, offer, now);
    AddPendingToAll(db, [orderer, runner], ExecutionCompleted, offer, now);
  }

  method OnDisputeRaised(db: Database, offer: Id, other: UserId, now: Time)
    modifies db
    ensures db.State() == old(db.State()).(notifications := Notify(old(db.users), old(db.notifications), other,
                                                                   DisputeRaised, offer, now))
  {
    AddPending(db, other, DisputeRaised, offer, now);
  }
}

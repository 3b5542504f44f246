/** The worker's batch loop, direct sends and read marks, against the closed forms of OutboxSpec. */
module NotificationServices {
  import opened Rows
  import opened OutboxSpec
  import opened DatabaseAccess

  /** A mapped notification of the batch. */
  class Notification {
    const id: Id
    const user: UserId
    const kind: NotificationKind
    const relatedOffer: Option<Id>
    const createdAt: Time
    var status: NotificationStatus
    var sentAt: Option<Time>
    var readAt: Option<Time>
    var retryCount: nat

    constructor (id: Id, row: NotificationRow)
      ensures this.id == id && Row() == row
    {
      this.id := id;
      user, kind, relatedOffer, createdAt := row.user, row.kind, row.relatedOffer, row.createdAt;
      status, sentAt, readAt, retryCount := row.status, row.sentAt, row.readAt, row.retryCount;
    }

    function Row(): NotificationRow
      reads this
    {
      NotificationRow(user, kind, relatedOffer, status, createdAt, sentAt, readAt, retryCount)
    }
  }

  /** The loop over one batch. */
  method SendBatch(db: Database, batch: seq<Id>, delivered: set<Id>, t: Ticks) returns (r: Result<Reply>)
    requires forall i :: 0 <= i < |batch| ==> batch[i] in db.notifications.rows
    requires forall i, j :: 0 <= i < j < |batch| ==> batch[i] != batch[j]
    modifies db
    ensures Outcome(db.State(), r) == RunPass(old(db.State()), batch, delivered, t)
  {
    var rows := db.notifications.rows;
    var dirty: map<Id, NotificationRow> := map[];
    for k := 0 to |batch|
      invariant db.State() == old(db.State())
      invariant forall n :: n in dirty <==> n in batch[..k]
      invariant forall n :: n in dirty ==>
                  n in rows && dirty[n] == Attempted(rows[n], rows[n].user in db.fcmTokens && n in delivered, t.t0)
    {
      assert batch[..k + 1] == batch[..k] + [batch[k]];
      var notif := new Notification(batch[k], rows[batch[k]]);
      var sent := notif.user in db.fcmTokens && notif.id in delivered;
      if !sent {
        notif.status := Failed;
        notif.retryCount := notif.retryCount + 1;
      } else {
        notif.status := Sent;
        notif.sentAt := Some(t.t0);
      }
      dirty := dirty[notif.id := notif.Row()];
    }
    assert batch[..|batch|] == batch;
    db.notifications := db.notifications.(rows := map n | n in rows :: if n in dirty then dirty[n] else rows[n]);
    assert db.notifications.rows == OutboxSpec.SendBatch(rows, db.fcmTokens.Keys, batch, delivered, t.t0);
    return Ok(Done);
  }

  method SendToUser(db: Database, u: UserId, accepted: bool, t: Ticks) returns (r: Result<Reply>)
    modifies db
    ensures Outcome(db.State(), r) == OutboxSpec.SendToUser(old(db.State()), u, accepted, t)
  {
    var id := db.notifications.next;
    var notification := new Notification(id,
                                         NotificationRow(u, Custom, None, NotificationStatus.Pending, t.t0, None,
                                                         None, 0));
    if u !in db.fcmTokens {
      notification.status := Failed;
    } else if accepted {
      notification.status := Sent;
      notification.sentAt := Some(t.t1);
    } else {
      notification.status := Failed;
    }
    db.notifications := db.notifications.Insert(notification.Row());
    return Ok(Created(id));
  }

  method MarkRead(db: Database, u: UserId, ids: set<Id>, t: Ticks) returns (r: Result<Reply>)
    modifies db
    ensures Outcome(db.State(), r) == OutboxSpec.MarkRead(old(db.State()), u, ids, t)
  {
    var rows := db.notifications.rows;
    var marked := UnreadOf(rows, u, ids);
    db.notifications := db.notifications.(rows := WithRead(rows, marked, t.t0));
    return Ok(Marked(|marked|));
  }
}

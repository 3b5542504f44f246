/** The notification outbox: direct sends, read marks and the worker's batches, in closed form. */
module OutboxSpec {
  import opened Rows

  const MAX_RETRY: nat := 3
  const BATCH_SIZE: nat := 100

  type Inbox = map<Id, NotificationRow>

  // ---------------------------------------------------------------- the worker

  datatype Pass = Flush | Retry

  /** The rows a pass of the worker queries for. */
  predicate Eligible(n: NotificationRow, pass: Pass) {
    match pass
    case Flush => n.status.Pending?
    case Retry => n.status.Failed? && n.retryCount < MAX_RETRY
  }

  function EligibleIds(rows: Inbox, pass: Pass): set<Id> {
    set n | n in rows && Eligible(rows[n], pass)
  }

  /**
   * What the database may answer to the pass's query: the oldest eligible rows, at most a batch of them.
   * Rows of equal age may come in any order.
   */
  ghost predicate OldestBatch(rows: Inbox, pass: Pass, batch: seq<Id>) {
    && (forall i :: 0 <= i < |batch| ==> batch[i] in EligibleIds(rows, pass))
    && (forall i, j :: 0 <= i < j < |batch| ==>
        batch[i] != batch[j] && rows[batch[i]].createdAt <= rows[batch[j]].createdAt)
    && |batch| == (if |EligibleIds(rows, pass)| < BATCH_SIZE then |EligibleIds(rows, pass)| else BATCH_SIZE)
    && (forall n, i :: n in EligibleIds(rows, pass) && n !in batch && 0 <= i < |batch| ==>
        rows[batch[i]].createdAt <= rows[n].createdAt)
  }

  function Attempted(n: NotificationRow, delivered: bool, now: Time): NotificationRow {
    if delivered then n.(status := Sent, sentAt := Some(now))
    else n.(status := Failed, retryCount := n.retryCount + 1)
  }

  /** A row of a user without a token fails; otherwise the push service's answer decides. */
  function SendBatch(rows: Inbox, tokens: set<UserId>, batch: seq<Id>, delivered: set<Id>, now: Time): Inbox {
    map n | n in rows ::
      if n in batch then Attempted(rows[n], rows[n].user in tokens && n in delivered, now) else rows[n]
  }

  ghost function RunPass(s: State, batch: seq<Id>, delivered: set<Id>, t: Ticks): Outcome {
    Succeed(s.(notifications := s.notifications.(rows := SendBatch(s.notifications.rows, s.fcmTokens.Keys, batch,
                                                                   delivered, t.t0))), Done)
  }

  // ---------------------------------------------------------------- direct sends and read marks

  function CustomRow(u: UserId, hasToken: bool, delivered: bool, created: Time, sent: Time): NotificationRow {
    if hasToken && delivered then NotificationRow(u, Custom, None, Sent, created, Some(sent), None, 0)
    else NotificationRow(u, Custom, None, Failed, created, None, None, 0)
  }

  ghost function SendToUser(s: State, u: UserId, delivered: bool, t: Ticks): Outcome {
    Succeed(s.(notifications := s.notifications.Insert(CustomRow(u, u in s.fcmTokens, delivered, t.t0, t.t1))),
            Created(s.notifications.next))
  }

  function UnreadOf(rows: Inbox, u: UserId, ids: set<Id>): set<Id> {
    set n | n in rows && n in ids && rows[n].user == u && rows[n].readAt.None?
  }

  function WithRead(rows: Inbox, marked: set<Id>, now: Time): Inbox {
    map n | n in rows :: if n in marked then rows[n].(readAt := Some(now), status := Read) else rows[n]
  }

  ghost function MarkRead(s: State, u: UserId, ids: set<Id>, t: Ticks): Outcome {
    var rows := s.notifications.rows;
    var marked := UnreadOf(rows, u, ids);
    Succeed(s.(notifications := s.notifications.(rows := WithRead(rows, marked, t.t0))),
            Marked(|marked|))
  }

  datatype Stats = Stats(total: nat, unread: nat, failed: nat, read: int)

  function RowsOf(rows: Inbox, u: UserId): set<Id> {
    set n | n in rows && rows[n].user == u
  }

  function UnreadRows(rows: Inbox, u: UserId): set<Id> {
    set n | n in rows && rows[n].user == u && rows[n].readAt.None?
  }

  function FailedRows(rows: Inbox, u: UserId): set<Id> {
    set n | n in rows && rows[n].user == u && rows[n].status.Failed?
  }

  function StatsOf(rows: Inbox, u: UserId): Stats {
    Stats(|RowsOf(rows, u)|, |UnreadRows(rows, u)|, |FailedRows(rows, u)|, |RowsOf(rows, u)| - |UnreadRows(rows, u)|)
  }
}

/** What the worker, a direct send and a reader do to notifications, row by row. */
module Sending {
  import opened Rows
  import opened MarketSpec
  import opened OutboxSpec
  import opened Runs
  import opened Lifecycle
  import opened Changes
  import opened Delivery

  /** The rows a pass takes are PENDING ones, or FAILED ones with fewer than three retries; 100 of them at most. */
  predicate Due(n: NotificationRow, pass: Pass) {
    match pass
    case Flush => n.status.Pending?
    case Retry => n.status.Failed? && n.retryCount < 3
  }

  /** What a pass makes of one row: a row it takes is delivered or fails, and any other stays. */
  predicate Worked(s: State, s': State, batch: seq<Id>, delivered: set<Id>, t: Ticks, n: Id) {
    var rows, rows' := s.notifications.rows, s'.notifications.rows;
    && (n in rows <==> n in rows')
    && (n in rows ==>
          if n !in batch then rows'[n] == rows[n]
          else if rows[n].user in s.fcmTokens && n in delivered then
            && rows'[n].status.Sent? && Stamped(rows'[n].sentAt, t)
            && rows'[n] == rows[n].(status := Sent, sentAt := rows'[n].sentAt)
          else rows'[n] == rows[n].(status := Failed, retryCount := rows[n].retryCount + 1))
  }

  ghost predicate TakesDue(s: State, pass: Pass, batch: seq<Id>) {
    && |batch| <= 100
    && (forall i :: 0 <= i < |batch| ==>
        batch[i] in s.notifications.rows && Due(s.notifications.rows[batch[i]], pass))
    && (forall n :: n in s.notifications.rows && Due(s.notifications.rows[n], pass) && n !in batch ==>
        |batch| == 100
        && forall i :: 0 <= i < 100 ==>
             s.notifications.rows[batch[i]].createdAt <= s.notifications.rows[n].createdAt)
  }

  lemma BatchIsDue(s: State, pass: Pass, batch: seq<Id>, n: Id)
    requires OldestBatch(s.notifications.rows, pass, batch)
    requires n in s.notifications.rows && Due(s.notifications.rows[n], pass) && n !in batch
    ensures |batch| == 100
  {
    var ids := EligibleIds(s.notifications.rows, pass);
    assert n in ids;
    if |batch| != 100 {
      Outbox.BatchSize(s.notifications.rows, pass, batch);
    }
  }

  /** A pass of the worker, in full. */
  lemma WorkerWorks(s: State, pass: Pass, batch: seq<Id>, delivered: set<Id>, t: Ticks)
    requires Feasible(s, ReqWorker(pass, batch, delivered)) && t.Ordered()
    ensures TakesDue(s, pass, batch)
    ensures var s' := Step(s, ReqWorker(pass, batch, delivered), t).state;
            && (forall n :: Worked(s, s', batch, delivered, t, n))
            && s'.notifications.next == s.notifications.next && s' == s.(notifications := s'.notifications)
  {
    var rows := s.notifications.rows;
    forall i | 0 <= i < |batch| ensures batch[i] in rows && Due(rows[batch[i]], pass) {
      assert batch[i] in EligibleIds(rows, pass);
    }
    forall n | n in rows && Due(rows[n], pass) && n !in batch
      ensures |batch| == 100 && forall i :: 0 <= i < 100 ==> rows[batch[i]].createdAt <= rows[n].createdAt
    {
      BatchIsDue(s, pass, batch, n);
      assert n in EligibleIds(rows, pass);
    }
  }

  /** Nobody's inbox changes its size or its unread rows by a pass. */
  lemma WorkerReadsNothing(s: State, pass: Pass, batch: seq<Id>, delivered: set<Id>, t: Ticks, u: UserId)
    ensures var before, after := StatsOf(s.notifications.rows, u),
                                 StatsOf(Step(s, ReqWorker(pass, batch, delivered), t).state.notifications.rows, u);
            after.total == before.total && after.unread == before.unread && after.read == before.read
  {
    var rows, rows' := s.notifications.rows, Step(s, ReqWorker(pass, batch, delivered), t).state.notifications.rows;
    assert RowsOf(rows', u) == RowsOf(rows, u) && UnreadRows(rows', u) == UnreadRows(rows, u);
  }

  // ---------------------------------------------------------------- direct sends

  predicate SentDirectly(n: NotificationRow, u: UserId, through: bool, t: Ticks) {
    && n.user == u && n.kind.Custom? && n.relatedOffer.None? && n.retryCount == 0 && n.readAt.None?
    && Within(n.createdAt, t)
    && (if through then n.status.Sent? && Stamped(n.sentAt, t) else n.status.Failed? && n.sentAt.None?)
  }

  lemma DirectSendAdds(s: State, now: Time, u: UserId, accepted: bool, t: Ticks)
    requires Reachable(s, now) && t.Ordered()
    ensures var out := Step(s, ReqSendToUser(u, accepted), t);
            && (out.result.Ok? <==> Active(s.users, u))
            && (out.result.Ok? ==>
                  && out.result.value.Created?
                  && var s', k := out.state, out.result.value.id;
                  && OnlyNew(s.notifications, s'.notifications, k)
                  && SentDirectly(s'.notifications.rows[k], u, u in s.fcmTokens && accepted, t)
                  && s' == s.(notifications := s'.notifications))
  {
    ReachableInv(s, now);
  }

  /** The set `xs` with `k`, if it is one more. */
  function With(xs: set<Id>, k: Id, more: bool): (ys: set<Id>)
    ensures k !in xs ==> |ys| == |xs| + if more then 1 else 0
  {
    if more then xs + {k} else xs
  }

  predicate OneRowMore(rows: Inbox, rows': Inbox, k: Id) {
    k !in rows && k in rows' && rows' == rows[k := rows'[k]] && rows'[k].readAt.None?
  }

  lemma TotalWith(rows: Inbox, rows': Inbox, k: Id, v: UserId)
    requires OneRowMore(rows, rows', k)
    ensures RowsOf(rows', v) == With(RowsOf(rows, v), k, v == rows'[k].user)
  {
    forall n ensures n in RowsOf(rows', v) <==> n in With(RowsOf(rows, v), k, v == rows'[k].user) {
      assert n != k && n in rows ==> rows'[n] == rows[n];
    }
  }

  lemma UnreadWith(rows: Inbox, rows': Inbox, k: Id, v: UserId)
    requires OneRowMore(rows, rows', k)
    ensures UnreadRows(rows', v) == With(UnreadRows(rows, v), k, v == rows'[k].user)
  {
    forall n ensures n in UnreadRows(rows', v) <==> n in With(UnreadRows(rows, v), k, v == rows'[k].user) {
      assert n != k && n in rows ==> rows'[n] == rows[n];
    }
  }

  lemma FailedWith(rows: Inbox, rows': Inbox, k: Id, v: UserId)
    requires OneRowMore(rows, rows', k)
    ensures FailedRows(rows', v) == With(FailedRows(rows, v), k, v == rows'[k].user && rows'[k].status.Failed?)
  {
    forall n
      ensures n in FailedRows(rows', v)
         <==> n in With(FailedRows(rows, v), k, v == rows'[k].user && rows'[k].status.Failed?)
    {
      assert n != k && n in rows ==> rows'[n] == rows[n];
    }
  }

  /** It counts as unread, and as failed if it did not get through; nobody else's counters move. */
  lemma DirectSendCounts(s: State, now: Time, u: UserId, accepted: bool, t: Ticks, v: UserId)
    requires Reachable(s, now) && t.Ordered() && Active(s.users, u)
    ensures var before := StatsOf(s.notifications.rows, v);
            var after := StatsOf(Step(s, ReqSendToUser(u, accepted), t).state.notifications.rows, v);
            var more := if v == u then 1 else 0;
            && after.total == before.total + more && after.unread == before.unread + more
            && after.failed == before.failed + (if u in s.fcmTokens && accepted then 0 else more)
  {
    DirectSendAdds(s, now, u, accepted, t);
    var out := Step(s, ReqSendToUser(u, accepted), t);
    var k := out.result.value.id;
    TotalWith(s.notifications.rows, out.state.notifications.rows, k, v);
    UnreadWith(s.notifications.rows, out.state.notifications.rows, k, v);
    FailedWith(s.notifications.rows, out.state.notifications.rows, k, v);
  }

  // ---------------------------------------------------------------- reading

  /** The rows a request of `u` to mark `ids` is for. */
  function MarkedBy(rows: Inbox, u: UserId, ids: set<Id>): set<Id> {
    set n | n in ids && n in rows && rows[n].user == u && rows[n].readAt.None?
  }

  predicate MarkedOnly(rows: Inbox, rows': Inbox, u: UserId, ids: set<Id>, t: Ticks, n: Id) {
    && (n in rows <==> n in rows')
    && (n in rows ==>
          if n in MarkedBy(rows, u, ids) then
            && rows'[n].status.Read? && Stamped(rows'[n].readAt, t)
            && rows'[n] == rows[n].(status := Read, readAt := rows'[n].readAt)
          else rows'[n] == rows[n])
  }

  lemma MarkingMarks(s: State, u: UserId, ids: set<Id>, t: Ticks)
    requires t.Ordered()
    ensures var out := Step(s, ReqMarkRead(u, ids), t);
            && (out.result.Ok? <==> Active(s.users, u))
            && (out.result.Ok? ==>
                  && out.result.value == Marked(|MarkedBy(s.notifications.rows, u, ids)|)
                  && (forall n :: MarkedOnly(s.notifications.rows, out.state.notifications.rows, u, ids, t, n))
                  && out.state.notifications.next == s.notifications.next
                  && out.state == s.(notifications := out.state.notifications))
  {
    assert UnreadOf(s.notifications.rows, u, ids) == MarkedBy(s.notifications.rows, u, ids);
  }

  // ---------------------------------------------------------------- who makes a row READ

  ghost predicate ReadIn(s: State, n: Id) {
    n in s.notifications.rows && s.notifications.rows[n].status.Read?
  }

  lemma {:induction false} NotifyAllReadsNothing(users: map<UserId, UserRow>, box: Box, us: seq<UserId>,
                                                 kind: NotificationKind, offer: Id, at: Time, n: Id)
    requires n in NotifyAll(users, box, us, kind, offer, at).rows
    requires NotifyAll(users, box, us, kind, offer, at).rows[n].status.Read?
    ensures n in box.rows && box.rows[n].status.Read?
  {
    if us != [] {
      NotifyAllReadsNothing(users, box, us[..|us| - 1], kind, offer, at, n);
    }
  }

  lemma AcceptanceReadsNothing(s: State, oid: Id, u: UserId, t: Ticks, n: Id)
    requires ReadIn(OfferAccept(s, oid, u, t).state, n)
    ensures ReadIn(s, n)
  {
    if OfferAccept(s, oid, u, t).result.Ok? {
      var o := s.offers.rows[oid];
      var box := Notify(s.users, s.notifications, o.runner, NotificationKind.OfferAccepted, oid, t.t3);
      NotifyAllReadsNothing(s.users, box, RejectedRunners(s.offers, o.proposal, oid), NotificationKind.OfferRejected,
                            oid, t.t3, n);
    }
  }

  lemma ReceiptReadsNothing(s: State, pid: Id, u: UserId, t: Ticks, n: Id)
    requires ReadIn(ConfirmReceived(s, pid, u, t).state, n)
    ensures ReadIn(s, n)
  {
    var out := ConfirmReceived(s, pid, u, t);
    if out.result.Ok? {
      var oid := ExecutionOffer(s.offers, pid).value;
      var runner, users := s.offers.rows[oid].runner, out.state.users;
      NotifyAllReadsNothing(users, Notify(users, s.notifications, runner, MeetingConfirmed, oid, t.t3),
                            [s.proposals.rows[pid].orderer, runner], ExecutionCompleted, oid, t.t3, n);
    }
  }

  lemma NoticesReadNothing(s: State, r: Request, t: Ticks, n: Id)
    requires Notifies(r) && ReadIn(Serve(s, r, t).state, n)
    ensures ReadIn(s, n)
  {
    if r.ReqOfferAccept? {
      AcceptanceReadsNothing(s, r.offer, r.actor, t, n);
    } else if r.ReqConfirmReceived? {
      ReceiptReadsNothing(s, r.proposal, r.actor, t, n);
    }
  }

  /** A row becomes READ by its owner's own request to mark it, and in no other way. */
  lemma OnlyMarkingReads(s: State, r: Request, t: Ticks, n: Id)
    requires ReadIn(Step(s, r, t).state, n) && !ReadIn(s, n)
    ensures r.ReqMarkRead? && n in s.notifications.rows && r.actor == s.notifications.rows[n].user && n in r.ids
  {
    if Notifies(r) && Step(s, r, t).state != s {
      NoticesReadNothing(s, r, t, n);
    } else if !WritesOutbox(r) && Step(s, r, t).state != s {
      OtherRequestQueues(s, r, t);
    }
  }
}

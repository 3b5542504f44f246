/** How long a queued notice can wait, whatever else happens meanwhile. */
module Delivery {
  import opened Rows
  import opened MarketSpec
  import opened OutboxSpec
  import opened Runs
  import opened Invariants
  import opened Lifecycle
  import opened Counting
  import Outbox

  /** The PENDING rows created by `c`. */
  ghost function QueuedBy(rows: Inbox, c: Time): set<Id> {
    set n | n in rows && rows[n].status.Pending? && rows[n].createdAt <= c
  }

  ghost function Queue(s: State, c: Time): set<Id> {
    QueuedBy(s.notifications.rows, c)
  }

  // ---------------------------------------------------------------- nothing joins the queue of the past

  lemma {:induction false} NotifyAllQueues(users: map<UserId, UserRow>, box: Table<NotificationRow>, us: seq<UserId>,
                                           kind: NotificationKind, offer: Id, t: Time, c: Time)
    requires c < t
    ensures QueuedBy(NotifyAll(users, box, us, kind, offer, t).rows, c) <= QueuedBy(box.rows, c)
  {
    if us != [] {
      NotifyAllQueues(users, box, us[..|us| - 1], kind, offer, t, c);
    }
  }

  /** The requests that send notices. */
  predicate Notifies(r: Request) {
    || r.ReqOfferCreate? || r.ReqOfferAccept? || r.ReqCompleteDelivery? || r.ReqOfferDispute?
    || r.ReqConfirmReceived? || r.ReqProposalDispute?
  }

  /** The requests that write to the outbox otherwise. */
  predicate WritesOutbox(r: Request) {
    r.ReqSendToUser? || r.ReqMarkRead? || r.ReqWithdraw? || r.ReqWorker?
  }

  lemma OfferCreateQueues(s: State, pid: Id, runner: UserId, t: Ticks, c: Time)
    requires c < t.t3
    ensures Queue(OfferCreate(s, pid, runner, t).state, c) <= Queue(s, c)
  {
  }

  lemma OfferAcceptQueues(s: State, oid: Id, orderer: UserId, t: Ticks, c: Time)
    requires c < t.t3
    ensures Queue(OfferAccept(s, oid, orderer, t).state, c) <= Queue(s, c)
  {
    if OfferAccept(s, oid, orderer, t).result.Ok? {
      var o := s.offers.rows[oid];
      var box := Notify(s.users, s.notifications, o.runner, NotificationKind.OfferAccepted, oid, t.t3);
      NotifyAllQueues(s.users, box, RejectedRunners(s.offers, o.proposal, oid), NotificationKind.OfferRejected, oid,
                      t.t3, c);
      assert QueuedBy(box.rows, c) <= Queue(s, c);
    }
  }

  lemma OfferRequestQueues(s: State, r: Request, t: Ticks, c: Time)
    requires c < t.t3 && (r.ReqOfferCreate? || r.ReqOfferAccept?)
    ensures Queue(Serve(s, r, t).state, c) <= Queue(s, c)
  {
    match r
    case ReqOfferCreate(u, p) => OfferCreateQueues(s, p, u, t, c);
    case ReqOfferAccept(u, o) => OfferAcceptQueues(s, o, u, t, c);
  }

  lemma RunnerRequestQueues(s: State, r: Request, t: Ticks, c: Time)
    requires c < t.t3 && (r.ReqCompleteDelivery? || r.ReqOfferDispute?)
    ensures Queue(Serve(s, r, t).state, c) <= Queue(s, c)
  {
  }

  lemma OrdererRequestQueues(s: State, r: Request, t: Ticks, c: Time)
    requires c < t.t3 && (r.ReqConfirmReceived? || r.ReqProposalDispute?)
    ensures Queue(Serve(s, r, t).state, c) <= Queue(s, c)
  {
    if r.ReqConfirmReceived? && Serve(s, r, t).result.Ok? {
      var oid := ExecutionOffer(s.offers, r.proposal).value;
      var runner, users := s.offers.rows[oid].runner, Serve(s, r, t).state.users;
      NotifyAllQueues(users, Notify(users, s.notifications, runner, MeetingConfirmed, oid, t.t3),
                      [s.proposals.rows[r.proposal].orderer, runner], ExecutionCompleted, oid, t.t3, c);
    }
  }

  lemma OutboxRequestQueues(s: State, r: Request, t: Ticks, c: Time)
    requires WritesOutbox(r)
    ensures Queue(Serve(s, r, t).state, c) <= Queue(s, c)
  {
  }

  lemma OtherRequestQueues(s: State, r: Request, t: Ticks)
    requires !Notifies(r) && !WritesOutbox(r)
    ensures Serve(s, r, t).state.notifications == s.notifications
  {
  }

  lemma StepQueues(s: State, r: Request, t: Ticks, c: Time)
    requires c < t.t3
    ensures Queue(Step(s, r, t).state, c) <= Queue(s, c)
  {
    if r.ReqOfferCreate? || r.ReqOfferAccept? {
      OfferRequestQueues(s, r, t, c);
    } else if r.ReqCompleteDelivery? || r.ReqOfferDispute? {
      RunnerRequestQueues(s, r, t, c);
    } else if Notifies(r) {
      OrdererRequestQueues(s, r, t, c);
    } else if WritesOutbox(r) {
      OutboxRequestQueues(s, r, t, c);
    } else {
      OtherRequestQueues(s, r, t);
    }
  }

  // ---------------------------------------------------------------- a flush serves the oldest

  /** A flush takes a full batch out of the rows queued by `c`, or all of them. */
  lemma FlushServes(rows: Inbox, tokens: set<UserId>, batch: seq<Id>, delivered: set<Id>, at: Time, c: Time)
    requires OldestBatch(rows, Flush, batch)
    ensures var after := QueuedBy(SendBatch(rows, tokens, batch, delivered, at), c);
            after == {} || |after| + BATCH_SIZE <= |QueuedBy(rows, c)|
  {
    var before, after := QueuedBy(rows, c), QueuedBy(SendBatch(rows, tokens, batch, delivered, at), c);
    Outbox.BatchSize(rows, Flush, batch);
    assert after == before - SeqSet(batch);
    if after != {} {
      var n := Pick(after);
      assert n in EligibleIds(rows, Flush) && n !in batch;
      forall m | m in SeqSet(batch) ensures m in before {
        var i :| 0 <= i < |batch| && batch[i] == m;
        assert m in EligibleIds(rows, Flush) && rows[batch[i]].createdAt <= rows[n].createdAt;
      }
      assert n !in SeqSet(batch);
      assert before == after + SeqSet(batch) && after !! SeqSet(batch);
    }
  }

  predicate IsFlush(r: Request) {
    r.ReqWorker? && r.pass.Flush?
  }

  ghost function Flushes(run: seq<Event>): nat {
    if run == [] then 0
    else Flushes(run[..|run| - 1]) + if IsFlush(run[|run| - 1].request) then 1 else 0
  }

  lemma StepShrinks(s: State, r: Request, t: Ticks, c: Time)
    requires c < t.t3 && Feasible(s, r)
    ensures Queue(Step(s, r, t).state, c) <= Queue(s, c)
    ensures var after := Queue(Step(s, r, t).state, c);
            after == {} || |after| + (if IsFlush(r) then BATCH_SIZE else 0) <= |Queue(s, c)|
  {
    StepQueues(s, r, t, c);
    if IsFlush(r) {
      FlushServes(s.notifications.rows, s.fcmTokens.Keys, r.batch, r.delivered, t.t0, c);
    } else {
      SubsetSize(Queue(Step(s, r, t).state, c), Queue(s, c));
    }
  }

  lemma {:induction false} QueueShrinks(s: State, now: Time, run: seq<Event>, c: Time)
    requires Legal(s, now, run) && c < now
    ensures Queue(Exec(s, run), c) == {} || |Queue(Exec(s, run), c)| + Flushes(run) * BATCH_SIZE <= |Queue(s, c)|
    ensures now <= ClockAfter(now, run)
  {
    if run != [] {
      var before, last := run[..|run| - 1], run[|run| - 1];
      QueueShrinks(s, now, before, c);
      StepShrinks(Exec(s, before), last.request, last.at, c);
    }
  }

  /**
   * Of k notices queued by the time `c`, none is still PENDING after ceil(k/100) flushes, whatever requests, retries
   * and new notices come in between.
   */
  lemma FlushDeadline(s: State, now: Time, run: seq<Event>, c: Time)
    requires Legal(s, now, run) && c < now
    requires |Queue(s, c)| <= Flushes(run) * BATCH_SIZE
    ensures Queue(Exec(s, run), c) == {}
  {
    QueueShrinks(s, now, run, c);
  }

  // ---------------------------------------------------------------- retries come to an end

  predicate IsRetry(r: Request) {
    r.ReqWorker? && r.pass.Retry?
  }

  ghost function Retries(run: seq<Event>): nat {
    if run == [] then 0
    else Retries(run[..|run| - 1]) + if IsRetry(run[|run| - 1].request) then 1 else 0
  }

  /** The retries that find anything to send. */
  ghost function BusyRetries(run: seq<Event>): nat {
    if run == [] then 0
    else
      var q := run[|run| - 1].request;
      BusyRetries(run[..|run| - 1]) + if IsRetry(q) && q.batch != [] then 1 else 0
  }

  /** Nothing but a retry moves a row into, or down among, the retryable ones. */
  ghost predicate NoNewFailures(s: State, run: seq<Event>) {
    run != [] ==>
      var before, last := run[..|run| - 1], run[|run| - 1];
      && NoNewFailures(s, before)
      && (IsRetry(last.request) || AddsNoFailure(Exec(s, before), last))
  }

  ghost predicate AddsNoFailure(s: State, e: Event) {
    Outbox.FailuresShrink(s.notifications.rows, Step(s, e.request, e.at).state.notifications.rows)
  }

  ghost function Left(s: State): nat {
    Outbox.PassesLeft(s.notifications.rows)
  }

  lemma RetryStep(s: State, r: Request, t: Ticks)
    requires IsRetry(r) && Feasible(s, r)
    ensures r.batch != [] ==> Left(Step(s, r, t).state) < Left(s)
    ensures r.batch == [] ==> Left(Step(s, r, t).state) == Left(s) == 0
  {
    var p := Outbox.PassInput(r.batch, r.delivered, s.fcmTokens.Keys, t.t0);
    Outbox.WorkerStepIsAPass(s, r.pass, r.batch, r.delivered, t);
    Outbox.RetryLowersPassesLeft(s.notifications.rows, p);
    Outbox.BatchSize(s.notifications.rows, Retry, r.batch);
    Outbox.PassesLeftBounded(s.notifications.rows);
  }

  lemma {:induction false} RetriesShrink(s: State, now: Time, run: seq<Event>)
    requires Legal(s, now, run) && NoNewFailures(s, run)
    ensures BusyRetries(run) + Left(Exec(s, run)) <= Left(s)
    ensures Left(Exec(s, run)) == 0 || Retries(run) + Left(Exec(s, run)) <= Left(s)
  {
    if run != [] {
      var before, last := run[..|run| - 1], run[|run| - 1];
      RetriesShrink(s, now, before);
      var mid := Exec(s, before);
      if IsRetry(last.request) {
        RetryStep(mid, last.request, last.at);
      } else {
        Outbox.LevelsShrink(mid.notifications.rows, Step(mid, last.request, last.at).state.notifications.rows);
      }
    }
  }

  /**
   * With no new failures arriving, at most floor(M / 100) + 3 retries find anything to do, and after that many nothing
   * is left to retry, whatever the push service answers and whatever other requests come in between.
   */
  lemma RetriesTerminate(s: State, now: Time, run: seq<Event>)
    requires Legal(s, now, run) && NoNewFailures(s, run)
    ensures BusyRetries(run) <= Outbox.Remaining(s.notifications.rows) / BATCH_SIZE + 3
    ensures Retries(run) >= Outbox.Remaining(s.notifications.rows) / BATCH_SIZE + 3 ==>
              EligibleIds(Exec(s, run).notifications.rows, Retry) == {}
  {
    Outbox.RemainingIsLevelSum(s.notifications.rows);
    Outbox.PassesLeftBounded(s.notifications.rows);
    Outbox.PassesLeftBounded(Exec(s, run).notifications.rows);
    RetriesShrink(s, now, run);
  }

  // ---------------------------------------------------------------- where failures come from

  /** Nothing the request itself sends goes undelivered: no direct send, and no row of a worker's batch. */
  predicate Delivers(s: State, r: Request) {
    match r
    case ReqSendToUser(u, accepted) => Active(s.users, u) ==> u in s.fcmTokens && accepted
    case ReqWorker(_, batch, delivered) => forall n :: n in batch ==> DeliversTo(s, n, delivered)
    case _ => true
  }

  predicate DeliversTo(s: State, n: Id, delivered: set<Id>) {
    n in s.notifications.rows && s.notifications.rows[n].user in s.fcmTokens && n in delivered
  }

  lemma {:induction false} NotifyAllFailsNone(users: map<UserId, UserRow>, box: Table<NotificationRow>,
                                              us: seq<UserId>, kind: NotificationKind, offer: Id, t: Time, k: nat)
    ensures Outbox.FailedBelow(NotifyAll(users, box, us, kind, offer, t).rows, k) <= Outbox.FailedBelow(box.rows, k)
  {
    if us != [] {
      NotifyAllFailsNone(users, box, us[..|us| - 1], kind, offer, t, k);
    }
  }

  /** The FAILED rows with fewer than `k` retries. */
  ghost function FailedIn(s: State, k: nat): set<Id> {
    Outbox.FailedBelow(s.notifications.rows, k)
  }

  lemma AcceptanceFailsNone(s: State, oid: Id, orderer: UserId, t: Ticks, k: nat)
    ensures FailedIn(OfferAccept(s, oid, orderer, t).state, k) <= FailedIn(s, k)
  {
    if OfferAccept(s, oid, orderer, t).result.Ok? {
      var o := s.offers.rows[oid];
      var box := Notify(s.users, s.notifications, o.runner, NotificationKind.OfferAccepted, oid, t.t3);
      NotifyAllFailsNone(s.users, box, RejectedRunners(s.offers, o.proposal, oid), NotificationKind.OfferRejected, oid,
                         t.t3, k);
      assert Outbox.FailedBelow(box.rows, k) <= FailedIn(s, k);
    }
  }

  lemma ReceiptFailsNone(s: State, pid: Id, orderer: UserId, t: Ticks, k: nat)
    ensures FailedIn(ConfirmReceived(s, pid, orderer, t).state, k) <= FailedIn(s, k)
  {
    var out := ConfirmReceived(s, pid, orderer, t);
    if out.result.Ok? {
      var oid := ExecutionOffer(s.offers, pid).value;
      var runner, users := s.offers.rows[oid].runner, out.state.users;
      NotifyAllFailsNone(users, Notify(users, s.notifications, runner, MeetingConfirmed, oid, t.t3),
                         [s.proposals.rows[pid].orderer, runner], ExecutionCompleted, oid, t.t3, k);
    }
  }

  lemma OneNoticeFailsNone(s: State, r: Request, t: Ticks, k: nat)
    requires r.ReqOfferCreate? || r.ReqCompleteDelivery?
    ensures FailedIn(Serve(s, r, t).state, k) <= FailedIn(s, k)
  {
  }

  lemma DisputeFailsNone(s: State, r: Request, t: Ticks, k: nat)
    requires r.ReqOfferDispute? || r.ReqProposalDispute?
    ensures FailedIn(Serve(s, r, t).state, k) <= FailedIn(s, k)
  {
  }

  lemma NoticesFailNone(s: State, r: Request, t: Ticks, k: nat)
    requires Notifies(r)
    ensures FailedIn(Serve(s, r, t).state, k) <= FailedIn(s, k)
  {
    if r.ReqOfferAccept? {
      AcceptanceFailsNone(s, r.offer, r.actor, t, k);
    } else if r.ReqConfirmReceived? {
      ReceiptFailsNone(s, r.proposal, r.actor, t, k);
    } else if r.ReqOfferDispute? || r.ReqProposalDispute? {
      DisputeFailsNone(s, r, t, k);
    } else {
      OneNoticeFailsNone(s, r, t, k);
    }
  }

  lemma QuietFailsNone(s: State, r: Request, t: Ticks, k: nat)
    requires r.ReqMarkRead? || r.ReqWithdraw?
    ensures FailedIn(Serve(s, r, t).state, k) <= FailedIn(s, k)
  {
  }

  /** A direct send adds a failure exactly if it does not get through. */
  lemma SendFailsIff(s: State, now: Time, u: UserId, accepted: bool, t: Ticks)
    requires Inv(s, now) && Active(s.users, u)
    ensures var rows' := SendToUser(s, u, accepted, t).state.notifications.rows;
            Outbox.FailuresShrink(s.notifications.rows, rows') <==> Delivers(s, ReqSendToUser(u, accepted))
  {
    var rows, rows' := s.notifications.rows, SendToUser(s, u, accepted, t).state.notifications.rows;
    var n := s.notifications.next;
    assert n !in rows && forall m :: m in rows ==> m in rows' && rows'[m] == rows[m];
    if !Delivers(s, ReqSendToUser(u, accepted)) {
      assert n in Outbox.FailedBelow(rows', 1);
    }
  }

  /** A flush adds one exactly if some row of its batch does not get through. */
  lemma FlushFailsIff(s: State, now: Time, batch: seq<Id>, delivered: set<Id>, t: Ticks)
    requires Inv(s, now) && OldestBatch(s.notifications.rows, Flush, batch)
    ensures var rows' := RunPass(s, batch, delivered, t).state.notifications.rows;
            Outbox.FailuresShrink(s.notifications.rows, rows') <==> Delivers(s, ReqWorker(Flush, batch, delivered))
  {
    var rows, rows' := s.notifications.rows, RunPass(s, batch, delivered, t).state.notifications.rows;
    forall n | n in batch ensures n in rows && rows[n].status.Pending? && rows[n].retryCount == 0 {
      var i :| 0 <= i < |batch| && batch[i] == n;
      assert batch[i] in EligibleIds(rows, Flush) && NotificationAt(s.users, rows, n);
    }
    forall n | n in batch && !DeliversTo(s, n, delivered) ensures n in Outbox.FailedBelow(rows', 2) {
      assert rows'[n] == Attempted(rows[n], false, t.t0);
    }
  }

  /** Of all requests but the retries, exactly those two add failures, and only then. */
  lemma AddsNoFailureIff(s: State, now: Time, e: Event)
    requires Reachable(s, now) && Feasible(s, e.request) && !IsRetry(e.request)
    ensures AddsNoFailure(s, e) <==> Delivers(s, e.request)
  {
    ReachableInv(s, now);
    var r, t := e.request, e.at;
    if Bearer(r).Some? && !Active(s.users, Bearer(r).value) {
      assert Step(s, r, t).state == s;
    } else if r.ReqSendToUser? {
      SendFailsIff(s, now, r.actor, r.accepted, t);
    } else if r.ReqWorker? {
      FlushFailsIff(s, now, r.batch, r.delivered, t);
    } else {
      QuietRequests(s, r, t);
    }
  }

  lemma QuietRequests(s: State, r: Request, t: Ticks)
    requires !r.ReqSendToUser? && !r.ReqWorker?
    ensures Outbox.FailuresShrink(s.notifications.rows, Serve(s, r, t).state.notifications.rows)
  {
    forall k: nat ensures FailedIn(Serve(s, r, t).state, k) <= FailedIn(s, k) {
      if Notifies(r) {
        NoticesFailNone(s, r, t, k);
      } else if WritesOutbox(r) {
        QuietFailsNone(s, r, t, k);
      } else {
        OtherRequestQueues(s, r, t);
      }
    }
    assert FailedIn(Serve(s, r, t).state, 1) <= FailedIn(s, 1);
    assert FailedIn(Serve(s, r, t).state, 2) <= FailedIn(s, 2);
    assert FailedIn(Serve(s, r, t).state, 3) <= FailedIn(s, 3);
  }

  /** Every direct send of the run, and every flush, gets everything through. */
  ghost predicate AllDelivered(s: State, run: seq<Event>) {
    run != [] ==>
      var before, last := run[..|run| - 1], run[|run| - 1];
      AllDelivered(s, before) && (IsRetry(last.request) || Delivers(Exec(s, before), last.request))
  }

  /** What `RetriesTerminate` asks for is just that. */
  lemma {:induction false} NoNewFailuresIff(s: State, now: Time, run: seq<Event>)
    requires Reachable(s, now) && Legal(s, now, run)
    ensures NoNewFailures(s, run) <==> AllDelivered(s, run)
  {
    if run != [] {
      var before, last := run[..|run| - 1], run[|run| - 1];
      NoNewFailuresIff(s, now, before);
      if !IsRetry(last.request) {
        RunReaches(s, now, before);
        AddsNoFailureIff(Exec(s, before), ClockAfter(now, before), last);
      }
    }
  }
}

/** Who is told of an acceptance and of a completion. */
module Notices {
  import opened Rows
  import opened MarketSpec
  import opened Invariants
  import opened Lifecycle
  import opened Execution
  import opened Counting
  import opened Rivals
  import opened Changes

  lemma BumpKeepsAlarms(users: map<UserId, UserRow>, u: UserId)
    ensures SameAlarms(users, BumpLevel(users, u))
  {
  }

  /** The notices an acceptance is to send: one kind to the winner, another to everyone it turns down. */
  ghost function BidMessages(offers: Offers, pid: Id, chosen: Id): set<Message>
    requires chosen in offers
  {
    {Message(offers[chosen].runner, NotificationKind.OfferAccepted)}
    + Messages(RunnersOfSet(offers, WaitingOf(offers, pid) - {chosen}), NotificationKind.OfferRejected)
  }

  /**
   * An acceptance queues one notice for each bidder who wants notices: to the accepted runner that he was chosen, to
   * every runner it turns down that he was not, and nothing to anyone else.
   */
  lemma AcceptanceNotifies(s: State, now: Time, oid: Id, orderer: UserId, t: Ticks)
    requires Reachable(s, now) && t.Ordered()
    requires OfferAccept(s, oid, orderer, t).result.Ok?
    ensures Queues(s.users, s.notifications, OfferAccept(s, oid, orderer, t).state.notifications, oid, t,
                   BidMessages(s.offers.rows, s.offers.rows[oid].proposal, oid))
  {
    ReachableInv(s, now);
    var winner, pid := s.offers.rows[oid].runner, s.offers.rows[oid].proposal;
    var losers := RejectedRunners(s.offers, pid, oid);
    var first := Message(winner, NotificationKind.OfferAccepted);
    var box := Notify(s.users, s.notifications, first.to, first.kind, oid, t.t3);
    RejectedRunnersAre(s, now, pid, oid);
    NothingQueued(s.users, s.notifications, oid, t);
    QueuesOneMore(s.users, s.users, s.notifications, s.notifications, oid, t, {}, first, t.t3);
    assert {} + {first} == {first};
    QueuesAll(s.users, s.users, s.notifications, box, oid, t, {first}, losers, NotificationKind.OfferRejected, t.t3);
  }

  // ---------------------------------------------------------------- the completion notice

  /** The notices of the orderer's confirmation. */
  function ReceiptMessages(orderer: UserId, runner: UserId): set<Message> {
    {Message(runner, MeetingConfirmed), Message(orderer, ExecutionCompleted), Message(runner, ExecutionCompleted)}
  }

  lemma ReceiptQueues(users: map<UserId, UserRow>, users': map<UserId, UserRow>, box: Box, orderer: UserId,
                      runner: UserId, e: Id, t: Ticks)
    requires box.Bounded() && orderer != runner && SameAlarms(users, users') && t.Ordered()
    ensures Queues(users, box,
                   NotifyAll(users', Notify(users', box, runner, MeetingConfirmed, e, t.t3), [orderer, runner],
                             ExecutionCompleted, e, t.t3),
                   e, t, ReceiptMessages(orderer, runner))
  {
    var first := Message(runner, MeetingConfirmed);
    var mid := Notify(users', box, first.to, first.kind, e, t.t3);
    NothingQueued(users, box, e, t);
    QueuesOneMore(users, users', box, box, e, t, {}, first, t.t3);
    assert {} + {first} == {first};
    QueuesAll(users, users', box, mid, e, t, {first}, [orderer, runner], ExecutionCompleted, t.t3);
    assert {first} + Messages(SeqSet([orderer, runner]), ExecutionCompleted) == ReceiptMessages(orderer, runner);
  }

  /** What the orderer's confirmation does, given the runner's part so far. */
  lemma OrdererConfirms(s: State, now: Time, pid: Id, e: Id, t: Ticks)
    requires Inv(s, now) && EngagedIn(s.offers.rows, pid, e) && pid in s.proposals.rows && t.Ordered()
    requires s.proposals.rows[pid].status.Matched?
    ensures var orderer, runner := s.proposals.rows[pid].orderer, s.offers.rows[e].runner;
            var out := ConfirmReceived(s, pid, orderer, t);
            && out.result.Ok? && pid in out.state.proposals.rows
            && (out.state.proposals.rows[pid].status.AllCompleted? <==> s.offers.rows[e].status.RunnerCompleted?)
            && Queues(s.users, s.notifications, out.state.notifications, e, t, ReceiptMessages(orderer, runner))
  {
    var orderer, runner := s.proposals.rows[pid].orderer, s.offers.rows[e].runner;
    assert OfferAt(s.proposals.rows, s.offers.rows, e, now);
    ExecutionOfferIs(s, now, pid, e);
    BumpKeepsAlarms(s.users, runner);
    ReceiptQueues(s.users, ConfirmReceived(s, pid, orderer, t).state.users, s.notifications, orderer, runner, e, t);
  }

  /** `u` is told that the execution is complete. */
  ghost predicate Told(before: Box, after: Box, u: UserId, offer: Id) {
    exists n :: Carries(before, after, n, Message(u, ExecutionCompleted)) && after.rows[n].relatedOffer == Some(offer)
  }

  lemma ToldIff(users: map<UserId, UserRow>, before: Box, after: Box, offer: Id, t: Ticks, orderer: UserId,
                runner: UserId, u: UserId)
    requires Queues(users, before, after, offer, t, ReceiptMessages(orderer, runner))
    ensures Told(before, after, u, offer) <==> (u == orderer || u == runner) && AlarmOn(users, u)
  {
    var m := Message(u, ExecutionCompleted);
    if n :| Carries(before, after, n, m) {
      assert NoticeOk(users, before, after, offer, t, ReceiptMessages(orderer, runner), n);
    }
    if m in ReceiptMessages(orderer, runner) && AlarmOn(users, u) {
      var n :| Carries(before, after, n, m);
      assert NoticeOk(users, before, after, offer, t, ReceiptMessages(orderer, runner), n);
    }
  }

  /**
   * "Both sides have confirmed" goes out at the orderer's confirmation, to each party who wants notices, beside the
   * notice to the runner that the meeting took place. It is true at that moment exactly when the runner had confirmed
   * before.
   */
  lemma CompletionNoticeTrueIff(s: State, now: Time, pid: Id, e: Id, t: Ticks)
    requires Reachable(s, now) && EngagedIn(s.offers.rows, pid, e) && pid in s.proposals.rows && t.Ordered()
    requires s.proposals.rows[pid].status.Matched?
    ensures var orderer, runner := s.proposals.rows[pid].orderer, s.offers.rows[e].runner;
            var out := ConfirmReceived(s, pid, orderer, t);
            && out.result.Ok? && pid in out.state.proposals.rows
            && (out.state.proposals.rows[pid].status.AllCompleted? <==> s.offers.rows[e].status.RunnerCompleted?)
            && Queues(s.users, s.notifications, out.state.notifications, e, t, ReceiptMessages(orderer, runner))
            && (forall u :: Told(s.notifications, out.state.notifications, u, e) <==>
                (u == orderer || u == runner) && AlarmOn(s.users, u))
  {
    ReachableInv(s, now);
    var orderer, runner := s.proposals.rows[pid].orderer, s.offers.rows[e].runner;
    OrdererConfirms(s, now, pid, e, t);
    var after := ConfirmReceived(s, pid, orderer, t).state.notifications;
    forall u ensures Told(s.notifications, after, u, e) <==> (u == orderer || u == runner) && AlarmOn(s.users, u) {
      ToldIff(s.users, s.notifications, after, e, t, orderer, runner, u);
    }
  }
}

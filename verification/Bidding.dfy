/** Offers until the match: who may make, take back and accept one, and everything that changes then. */
module Bidding {
  import opened Rows
  import opened MarketSpec
  import opened Runs
  import opened Invariants
  import opened Lifecycle
  import opened Execution
  import opened Notices
  import opened Changes

  ghost predicate HasBid(s: State, u: UserId, pid: Id) {
    exists o :: OfferBy(s.offers.rows, pid, u, o)
  }

  /** An open proposal takes one offer from every other active user, however many others have made theirs. */
  lemma BidsIff(s: State, u: UserId, pid: Id, t: Ticks)
    ensures Step(s, ReqOfferCreate(u, pid), t).result.Ok? <==>
            && Active(s.users, u) && pid in s.proposals.rows
            && (s.proposals.rows[pid].status.Posted? || s.proposals.rows[pid].status.Offered?)
            && s.proposals.rows[pid].orderer != u && !HasBid(s, u, pid)
  {
    if o :| OfferBy(s.offers.rows, pid, u, o) {
      assert HasOfferBy(s.offers.rows, pid, u);
    }
    if HasOfferBy(s.offers.rows, pid, u) {
      var o :| o in s.offers.rows && s.offers.rows[o].proposal == pid && s.offers.rows[o].runner == u;
      assert OfferBy(s.offers.rows, pid, u, o);
    }
  }

  /** An offer nobody has decided on yet. */
  predicate JustMade(o: OfferRow, pid: Id, u: UserId, t: Ticks) {
    && o.proposal == pid && o.runner == u && o.status.Waiting? && Within(o.createdAt, t) && o.openChatUrl.None?
    && o.acceptedAt.None? && o.runnerConfirmedAt.None? && o.ordererConfirmedAt.None?
    && o.disputedAt.None? && o.resolvedAt.None?
  }

  lemma BidNotifies(s: State, now: Time, orderer: UserId, u: UserId, k: Id, t: Ticks)
    requires Inv(s, now) && t.Ordered()
    ensures Queues(s.users, s.notifications,
                   Notify(s.users, Notify(s.users, s.notifications, orderer, OfferNew, k, t.t3), u, OfferSubmitted, k,
                          t.t3),
                   k, t, {Message(orderer, OfferNew), Message(u, OfferSubmitted)})
  {
    var box, first, second := s.notifications, Message(orderer, OfferNew), Message(u, OfferSubmitted);
    NothingQueued(s.users, box, k, t);
    QueuesOneMore(s.users, s.users, box, box, k, t, {}, first, t.t3);
    assert {} + {first} == {first} && {first} + {second} == {first, second};
    QueuesOneMore(s.users, s.users, box, Notify(s.users, box, orderer, OfferNew, k, t.t3), k, t, {first}, second, t.t3);
  }

  /** What a new offer adds, and that it leaves every other offer, its rivals' too, as it was. */
  lemma BidAdds(s: State, now: Time, u: UserId, pid: Id, t: Ticks)
    requires Reachable(s, now) && t.Ordered() && Step(s, ReqOfferCreate(u, pid), t).result.Ok?
    ensures var out := Step(s, ReqOfferCreate(u, pid), t);
            && out.result.value.Created? && pid in s.proposals.rows
            && var s', k := out.state, out.result.value.id;
            && OnlyNew(s.offers, s'.offers, k) && JustMade(s'.offers.rows[k], pid, u, t)
            && OnlyAt(s.proposals, s'.proposals, pid)
            && s'.proposals.rows[pid] == s.proposals.rows[pid].(status := Offered)
            && Queues(s.users, s.notifications, s'.notifications, k, t,
                      {Message(s.proposals.rows[pid].orderer, OfferNew), Message(u, OfferSubmitted)})
            && s' == s.(offers := s'.offers, proposals := s'.proposals, notifications := s'.notifications)
  {
    ReachableInv(s, now);
    assert s.offers.next !in s.offers.rows;
    BidNotifies(s, now, s.proposals.rows[pid].orderer, u, s.offers.next, t);
  }

  /** A runner can take back an offer of theirs as long as it waits; nothing else changes. */
  lemma RetractsIff(s: State, u: UserId, oid: Id, t: Ticks)
    ensures var out := Step(s, ReqOfferCancel(u, oid), t);
            && (out.result.Ok? <==> && Active(s.users, u) && oid in s.offers.rows && s.offers.rows[oid].runner == u
                                    && s.offers.rows[oid].status.Waiting?)
            && (out.result.Ok? ==> && OnlyAt(s.offers, out.state.offers, oid) && out.result.value.Done?
                                   && out.state.offers.rows[oid] == s.offers.rows[oid].(status := OfferStatus.Cancelled)
                                   && out.state == s.(offers := out.state.offers))
  {
  }

  /** The orderer can accept any offer that waits. */
  lemma AcceptsIff(s: State, now: Time, u: UserId, oid: Id, t: Ticks)
    requires Reachable(s, now)
    ensures Step(s, ReqOfferAccept(u, oid), t).result.Ok? <==>
            && Active(s.users, u) && oid in s.offers.rows && s.offers.rows[oid].status.Waiting?
            && s.offers.rows[oid].proposal in s.proposals.rows
            && s.proposals.rows[s.offers.rows[oid].proposal].orderer == u
  {
    if Active(s.users, u) && oid in s.offers.rows {
      AcceptableIff(s, now, oid, u, t);
      assert Step(s, ReqOfferAccept(u, oid), t) == OfferAccept(s, oid, u, t);
    } else {
      assert Step(s, ReqOfferAccept(u, oid), t).result.Err?;
    }
  }

  /** What becomes of each offer when `oid` is accepted. */
  predicate AcceptedOrTurnedDown(os: Offers, os': Offers, oid: Id, t: Ticks, o: Id) {
    && oid in os
    && (o in os <==> o in os')
    && (o in os && o != oid ==>
          os'[o] == if os[o].proposal == os[oid].proposal && os[o].status.Waiting?
                    then os[o].(status := OfferStatus.Rejected) else os[o])
    && (o == oid && o in os' ==>
          Stamped(os'[o].acceptedAt, t)
          && os'[o] == os[o].(status := OfferStatus.Accepted, acceptedAt := os'[o].acceptedAt))
  }

  /** And everything else an acceptance changes. */
  lemma AcceptanceChanges(s: State, now: Time, u: UserId, oid: Id, t: Ticks)
    requires Reachable(s, now) && t.Ordered() && Step(s, ReqOfferAccept(u, oid), t).result.Ok?
    ensures var s' := Step(s, ReqOfferAccept(u, oid), t).state;
            && oid in s.offers.rows && oid in s'.offers.rows && s'.offers.next == s.offers.next
            && (forall o :: AcceptedOrTurnedDown(s.offers.rows, s'.offers.rows, oid, t, o))
            && var pid := s.offers.rows[oid].proposal;
            && OnlyAt(s.proposals, s'.proposals, pid)
            && s'.proposals.rows[pid]
               == s.proposals.rows[pid].(status := Matched, matchedAt := s'.offers.rows[oid].acceptedAt)
            && Queues(s.users, s.notifications, s'.notifications, oid, t, BidMessages(s.offers.rows, pid, oid))
            && s' == s.(offers := s'.offers, proposals := s'.proposals, notifications := s'.notifications)
  {
    AcceptanceNotifies(s, now, oid, u, t);
  }

  /** The operator's chat link changes that link and nothing else. */
  lemma ChatUrlChanges(s: State, oid: Id, url: Option<string>, t: Ticks)
    ensures var out := Step(s, ReqAssignChatUrl(oid, url), t);
            && (out.result.Ok? <==> oid in s.offers.rows)
            && (out.result.Ok? ==> && OnlyAt(s.offers, out.state.offers, oid)
                                   && out.state.offers.rows[oid] == s.offers.rows[oid].(openChatUrl := url)
                                   && out.state == s.(offers := out.state.offers))
  {
  }
}

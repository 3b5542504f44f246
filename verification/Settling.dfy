/** Confirming, disputing and resolving an execution: who may, and everything that changes then. */
module Settling {
  import opened Rows
  import opened MarketSpec
  import opened Runs
  import opened Invariants
  import opened Lifecycle
  import opened Execution
  import opened Notices
  import opened Posting
  import opened Changes

  /** The rows of one pair change, and of the other tables those given. */
  ghost predicate PairChanges(s: State, s': State, pid: Id, e: Id) {
    && OnlyAt(s.proposals, s'.proposals, pid) && OnlyAt(s.offers, s'.offers, e)
    && s' == s.(users := s'.users, proposals := s'.proposals, offers := s'.offers, evidences := s'.evidences,
                notifications := s'.notifications)
  }

  /** One more completed delivery for `u`. */
  ghost predicate LevelsUp(s: State, s': State, u: UserId) {
    u in s.users && s'.users == s.users[u := s.users[u].(level := s.users[u].level + 1)]
  }

  /** What the invariant says of a pair that is neither waiting nor resolved. */
  lemma PairFacts(s: State, now: Time, e: Id)
    requires Reachable(s, now) && e in s.offers.rows && ActiveOfferStatus(s.offers.rows[e].status)
    ensures var o := s.offers.rows[e];
            && o.proposal in s.proposals.rows && o.runner != s.proposals.rows[o.proposal].orderer
            && o.runner in s.users && Compatible(s.proposals.rows[o.proposal].status, o.status)
            && ExecutionOffer(s.offers, o.proposal) == Some(e)
    ensures s.notifications.Bounded() && s.evidences.Bounded()
  {
    ReachableInv(s, now);
    assert OfferAt(s.proposals.rows, s.offers.rows, e, now) && RunnerAt(s.users, s.offers.rows, e);
    ExecutionOfferIs(s, now, s.offers.rows[e].proposal, e);
  }

  // ---------------------------------------------------------------- the orderer confirms

  lemma ReceivesIff(s: State, now: Time, u: UserId, pid: Id, t: Ticks)
    requires Reachable(s, now)
    ensures Step(s, ReqConfirmReceived(u, pid), t).result.Ok? <==>
            OwnerOf(s, u, pid) && s.proposals.rows[pid].status.Matched?
  {
    ReachableInv(s, now);
    if OwnerOf(s, u, pid) && s.proposals.rows[pid].status.Matched? {
      var e := ExecutionPair(s, now, pid);
      ExecutionOfferIs(s, now, pid, e);
    }
  }

  /** The rows of the pair after the orderer's confirmation. */
  predicate ReceivedBy(p: ProposalRow, o: OfferRow, p': ProposalRow, o': OfferRow, t: Ticks) {
    && p' == p.(status := p'.status, ordererConfirmedAt := p'.ordererConfirmedAt)
    && o' == o.(status := o'.status, ordererConfirmedAt := o'.ordererConfirmedAt)
    && Stamped(p'.ordererConfirmedAt, t) && Stamped(o'.ordererConfirmedAt, t)
    && (if o.status.RunnerCompleted? then p'.status.AllCompleted? && o'.status.AllCompleted?
        else p'.status.OrderCompleted? && o'.status == o.status)
  }

  lemma ActiveUnlessResolved(s: State, now: Time, pid: Id, e: Id)
    requires Reachable(s, now) && EngagedIn(s.offers.rows, pid, e)
    ensures pid in s.proposals.rows
    ensures ActiveOfferStatus(s.offers.rows[e].status) <==> !s.proposals.rows[pid].status.Resolved?
  {
    ReachableInv(s, now);
    assert OfferAt(s.proposals.rows, s.offers.rows, e, now);
  }

  /** Everything the orderer's confirmation changes. */
  ghost predicate ReceiptLeads(s: State, s': State, u: UserId, pid: Id, e: Id, t: Ticks) {
    && PairChanges(s, s', pid, e)
    && var p, o := s.proposals.rows[pid], s.offers.rows[e];
    && ReceivedBy(p, o, s'.proposals.rows[pid], s'.offers.rows[e], t)
    && (if o.status.RunnerCompleted? then LevelsUp(s, s', o.runner) else s'.users == s.users)
    && s'.evidences == s.evidences
    && Queues(s.users, s.notifications, s'.notifications, e, t, ReceiptMessages(u, o.runner))
  }

  lemma ReceiptDoes(s: State, u: UserId, pid: Id, e: Id, t: Ticks)
    requires s.notifications.Bounded() && t.Ordered()
    requires ExecutionOffer(s.offers, pid) == Some(e) && s.offers.rows[e].proposal == pid
    requires s.offers.rows[e].runner in s.users && s.offers.rows[e].runner != u
    requires ConfirmReceived(s, pid, u, t).result.Ok?
    ensures ReceiptLeads(s, ConfirmReceived(s, pid, u, t).state, u, pid, e, t)
  {
    var runner := s.offers.rows[e].runner;
    BumpKeepsAlarms(s.users, runner);
    ReceiptQueues(s.users, ConfirmReceived(s, pid, u, t).state.users, s.notifications, u, runner, e, t);
  }

  lemma ReceiptChanges(s: State, now: Time, u: UserId, pid: Id, e: Id, t: Ticks)
    requires Reachable(s, now) && t.Ordered() && EngagedIn(s.offers.rows, pid, e)
    requires Step(s, ReqConfirmReceived(u, pid), t).result.Ok?
    ensures ReceiptLeads(s, Step(s, ReqConfirmReceived(u, pid), t).state, u, pid, e, t)
  {
    ActiveUnlessResolved(s, now, pid, e);
    PairFacts(s, now, e);
    ReceiptDoes(s, u, pid, e, t);
  }

  // ---------------------------------------------------------------- the runner confirms

  predicate RunnerOf(s: State, u: UserId, e: Id) {
    Active(s.users, u) && e in s.offers.rows && s.offers.rows[e].runner == u
  }

  lemma DeliversIff(s: State, now: Time, u: UserId, e: Id, t: Ticks)
    requires Reachable(s, now)
    ensures Step(s, ReqCompleteDelivery(u, e), t).result.Ok? <==>
            RunnerOf(s, u, e) && s.offers.rows[e].status.Accepted?
  {
    ReachableInv(s, now);
    assert OfferAt(s.proposals.rows, s.offers.rows, e, now);
  }

  predicate DeliveredBy(p: ProposalRow, o: OfferRow, p': ProposalRow, o': OfferRow, t: Ticks) {
    && p' == p.(status := p'.status, runnerConfirmedAt := p'.runnerConfirmedAt)
    && o' == o.(status := o'.status, runnerConfirmedAt := o'.runnerConfirmedAt,
                ordererConfirmedAt := o'.ordererConfirmedAt)
    && Stamped(p'.runnerConfirmedAt, t) && Stamped(o'.runnerConfirmedAt, t)
    && (if p.status.OrderCompleted?
        then p'.status.AllCompleted? && o'.status.AllCompleted? && Stamped(o'.ordererConfirmedAt, t)
        else p'.status == p.status && o'.status.RunnerCompleted? && o'.ordererConfirmedAt == o.ordererConfirmedAt)
  }

  lemma NotifiesOne(s: State, users': map<UserId, UserRow>, m: Message, e: Id, t: Ticks)
    requires s.notifications.Bounded() && t.Ordered() && SameAlarms(s.users, users')
    ensures Queues(s.users, s.notifications, Notify(users', s.notifications, m.to, m.kind, e, t.t3), e, t, {m})
  {
    NothingQueued(s.users, s.notifications, e, t);
    QueuesOneMore(s.users, users', s.notifications, s.notifications, e, t, {}, m, t.t3);
    assert {} + {m} == {m};
  }

  /** Everything the runner's confirmation changes. */
  ghost predicate DeliveryLeads(s: State, s': State, u: UserId, pid: Id, e: Id, t: Ticks) {
    && PairChanges(s, s', pid, e)
    && var p := s.proposals.rows[pid];
    && DeliveredBy(p, s.offers.rows[e], s'.proposals.rows[pid], s'.offers.rows[e], t)
    && (if p.status.OrderCompleted? then LevelsUp(s, s', u) else s'.users == s.users)
    && s'.evidences == s.evidences
    && Queues(s.users, s.notifications, s'.notifications, e, t, {Message(p.orderer, MeetingConfirmed)})
  }

  lemma DeliveryDoes(s: State, u: UserId, e: Id, t: Ticks)
    requires s.notifications.Bounded() && t.Ordered() && u in s.users
    requires CompleteDelivery(s, e, u, t).result.Ok?
    ensures DeliveryLeads(s, CompleteDelivery(s, e, u, t).state, u, s.offers.rows[e].proposal, e, t)
  {
    var m := Message(s.proposals.rows[s.offers.rows[e].proposal].orderer, MeetingConfirmed);
    BumpKeepsAlarms(s.users, u);
    NotifiesOne(s, CompleteDelivery(s, e, u, t).state.users, m, e, t);
  }

  lemma DeliveryChanges(s: State, now: Time, u: UserId, e: Id, t: Ticks)
    requires Reachable(s, now) && t.Ordered() && Step(s, ReqCompleteDelivery(u, e), t).result.Ok?
    ensures e in s.offers.rows
    ensures DeliveryLeads(s, Step(s, ReqCompleteDelivery(u, e), t).state, u, s.offers.rows[e].proposal, e, t)
  {
    PairFacts(s, now, e);
    DeliveryDoes(s, u, e, t);
  }

  // ---------------------------------------------------------------- disputes

  /** The one record a dispute leaves: whose it is, over what, and why. */
  predicate Records(d: EvidenceRow, pid: Id, e: Id, actor: UserId, question: Id, reason: string, t: Ticks) {
    && d.proposal == pid && d.offer == e && d.actor == actor
    && d.surveyQuestion == question && d.reason == reason && Within(d.createdAt, t)
  }

  predicate DisputedBy(p: ProposalRow, o: OfferRow, p': ProposalRow, o': OfferRow, t: Ticks) {
    && p' == p.(status := ProposalStatus.Disputed, disputedAt := p'.disputedAt) && Stamped(p'.disputedAt, t)
    && o' == o.(status := OfferStatus.Disputed, disputedAt := o'.disputedAt) && Stamped(o'.disputedAt, t)
  }

  /** `actor` has disputed the pair, and `other` is told. */
  ghost predicate DisputeChanges(s: State, s': State, pid: Id, e: Id, actor: UserId, other: UserId, question: Id,
                                 reason: string, t: Ticks)
  {
    && PairChanges(s, s', pid, e) && s'.users == s.users
    && DisputedBy(s.proposals.rows[pid], s.offers.rows[e], s'.proposals.rows[pid], s'.offers.rows[e], t)
    && OnlyNew(s.evidences, s'.evidences, s.evidences.next)
    && Records(s'.evidences.rows[s.evidences.next], pid, e, actor, question, reason, t)
    && Queues(s.users, s.notifications, s'.notifications, e, t, {Message(other, DisputeRaised)})
  }

  lemma OrdererDisputesIff(s: State, now: Time, u: UserId, pid: Id, q: Id, active: bool, why: string, t: Ticks)
    requires Reachable(s, now)
    ensures Step(s, ReqProposalDispute(u, pid, q, active, why), t).result.Ok? <==>
            && OwnerOf(s, u, pid) && active
            && (s.proposals.rows[pid].status.Matched? || s.proposals.rows[pid].status.OrderCompleted?)
  {
    ReachableInv(s, now);
    if OwnerOf(s, u, pid) && (s.proposals.rows[pid].status.Matched? || s.proposals.rows[pid].status.OrderCompleted?) {
      var e := ExecutionPair(s, now, pid);
      ExecutionOfferIs(s, now, pid, e);
    }
  }

  lemma OrdererDisputeDoes(s: State, u: UserId, pid: Id, e: Id, q: Id, why: string, t: Ticks)
    requires s.notifications.Bounded() && s.evidences.Bounded() && t.Ordered()
    requires ExecutionOffer(s.offers, pid) == Some(e) && s.offers.rows[e].proposal == pid
    requires ProposalDispute(s, pid, u, q, true, why, t).result.Ok?
    ensures DisputeChanges(s, ProposalDispute(s, pid, u, q, true, why, t).state, pid, e, u, s.offers.rows[e].runner, q,
                           why, t)
  {
    NotifiesOne(s, s.users, Message(s.offers.rows[e].runner, DisputeRaised), e, t);
  }

  lemma OrdererDisputeChanges(s: State, now: Time, u: UserId, pid: Id, e: Id, q: Id, why: string, t: Ticks)
    requires Reachable(s, now) && t.Ordered() && EngagedIn(s.offers.rows, pid, e)
    requires Step(s, ReqProposalDispute(u, pid, q, true, why), t).result.Ok?
    ensures DisputeChanges(s, Step(s, ReqProposalDispute(u, pid, q, true, why), t).state, pid, e, u,
                           s.offers.rows[e].runner, q, why, t)
  {
    ActiveUnlessResolved(s, now, pid, e);
    PairFacts(s, now, e);
    OrdererDisputeDoes(s, u, pid, e, q, why, t);
  }

  lemma RunnerDisputesIff(s: State, now: Time, u: UserId, e: Id, q: Id, active: bool, why: string, t: Ticks)
    requires Reachable(s, now)
    ensures Step(s, ReqOfferDispute(u, e, q, active, why), t).result.Ok? <==>
            && RunnerOf(s, u, e) && active
            && (s.offers.rows[e].status.Accepted? || s.offers.rows[e].status.RunnerCompleted?)
  {
    ReachableInv(s, now);
    assert OfferAt(s.proposals.rows, s.offers.rows, e, now);
  }

  lemma RunnerDisputeChanges(s: State, now: Time, u: UserId, e: Id, q: Id, why: string, t: Ticks)
    requires Reachable(s, now) && t.Ordered() && Step(s, ReqOfferDispute(u, e, q, true, why), t).result.Ok?
    ensures e in s.offers.rows && s.offers.rows[e].proposal in s.proposals.rows
    ensures var pid := s.offers.rows[e].proposal;
            DisputeChanges(s, Step(s, ReqOfferDispute(u, e, q, true, why), t).state, pid, e, u,
                           s.proposals.rows[pid].orderer, q, why, t)
  {
    ReachableInv(s, now);
    assert OfferAt(s.proposals.rows, s.offers.rows, e, now);
    NotifiesOne(s, s.users, Message(s.proposals.rows[s.offers.rows[e].proposal].orderer, DisputeRaised), e, t);
  }

  predicate ResolvedBy(p: ProposalRow, o: OfferRow, p': ProposalRow, o': OfferRow, t: Ticks) {
    && p' == p.(status := ProposalStatus.Resolved, resolvedAt := p'.resolvedAt) && Stamped(p'.resolvedAt, t)
    && o' == o.(status := OfferStatus.Resolved, resolvedAt := o'.resolvedAt) && Stamped(o'.resolvedAt, t)
  }

  /** Exactly a dispute can be resolved, on both sides, and nobody is told. */
  lemma ResolvesIff(s: State, now: Time, e: Id, t: Ticks)
    requires Reachable(s, now) && t.Ordered()
    ensures var out := Step(s, ReqOfferResolve(e), t);
            && (out.result.Ok? <==> e in s.offers.rows && s.offers.rows[e].status.Disputed?)
            && (out.result.Ok? ==>
                  && var pid, s' := s.offers.rows[e].proposal, out.state;
                  && PairChanges(s, s', pid, e)
                  && ResolvedBy(s.proposals.rows[pid], s.offers.rows[e], s'.proposals.rows[pid], s'.offers.rows[e], t)
                  && s'.users == s.users && s'.evidences == s.evidences && s'.notifications == s.notifications)
  {
    ReachableInv(s, now);
    assert OfferAt(s.proposals.rows, s.offers.rows, e, now);
  }

  // ---------------------------------------------------------------- records are final

  predicate DisputeRequest(r: Request) {
    r.ReqOfferDispute? || r.ReqProposalDispute?
  }

  lemma ConfirmingLeavesRecords(s: State, r: Request, t: Ticks)
    requires ConfirmsOrDisputes(r) && !DisputeRequest(r)
    ensures Step(s, r, t).state.evidences == s.evidences
  {
  }

  /** The requests about proposals, offers and reports short of an execution. */
  predicate BeforeExecution(r: Request) {
    || OfferRequest(r) || r.ReqProposalCreate? || r.ReqProposalUpdate? || r.ReqProposalCancel? || r.ReqConfirmPayment?
    || r.ReqReportCreate? || r.ReqReportAccept? || r.ReqReportReject?
  }

  lemma MarketLeavesRecords(s: State, r: Request, t: Ticks)
    requires BeforeExecution(r)
    ensures Step(s, r, t).state.evidences == s.evidences
  {
  }

  lemma OthersLeaveRecords(s: State, r: Request, t: Ticks)
    requires !ConfirmsOrDisputes(r) && !BeforeExecution(r)
    ensures Step(s, r, t).state.evidences == s.evidences
  {
  }

  lemma StepLeavesRecords(s: State, r: Request, t: Ticks, d: Id)
    requires s.evidences.Bounded() && d in s.evidences.rows
    ensures d in Step(s, r, t).state.evidences.rows
    ensures Step(s, r, t).state.evidences.rows[d] == s.evidences.rows[d]
  {
    if BeforeExecution(r) {
      MarketLeavesRecords(s, r, t);
    } else if !ConfirmsOrDisputes(r) {
      OthersLeaveRecords(s, r, t);
    } else if !DisputeRequest(r) {
      ConfirmingLeavesRecords(s, r, t);
    }
  }

  /** What a dispute recorded is never changed or removed, whatever happens afterwards. */
  lemma {:induction false} RecordsAreFinal(s: State, now: Time, run: seq<Event>, d: Id)
    requires Reachable(s, now) && Legal(s, now, run) && d in s.evidences.rows
    ensures d in Exec(s, run).evidences.rows && Exec(s, run).evidences.rows[d] == s.evidences.rows[d]
  {
    if run != [] {
      var before, last := run[..|run| - 1], run[|run| - 1];
      RecordsAreFinal(s, now, before, d);
      RunReaches(s, now, before);
      ReachableInv(Exec(s, before), ClockAfter(now, before));
      StepLeavesRecords(Exec(s, before), last.request, last.at, d);
    }
  }
}

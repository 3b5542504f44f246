/** The matched pair: how it is looked up, its time stamps, its two completions, its dispute. */
module Execution {
  import opened Rows
  import opened MarketSpec
  import opened Runs
  import opened Invariants
  import opened Preservation
  import opened Lifecycle
  import opened Counting
  import opened Rivals

  // ---------------------------------------------------------------- lookup

  ghost function Candidates(offers: Offers, pid: Id): set<Id> {
    set o | o in offers && offers[o].proposal == pid && ActiveOfferStatus(offers[o].status)
  }

  lemma ExecutionOfferIs(s: State, now: Time, pid: Id, e: Id)
    requires Inv(s, now) && EngagedIn(s.offers.rows, pid, e) && !s.offers.rows[e].status.Resolved?
    ensures ExecutionOffer(s.offers, pid) == Some(e)
    ensures Candidates(s.offers.rows, pid) == {e}
  {
    ScanIsComplete(s.offers.rows, s.offers.next, ExecutionCandidate(pid), e);
    forall o | o in Candidates(s.offers.rows, pid) ensures o == e {
      assert OneEngaged(s.offers.rows, pid, o, e);
    }
    var best := ExecutionOffer(s.offers, pid).value;
    assert best in Candidates(s.offers.rows, pid);
  }

  /**
   * `_get_execution_offer` has exactly one candidate or none, so its ordering never matters.
   * A resolved execution is not among the candidates.
   */
  lemma ExecutionLookup(s: State, now: Time, pid: Id)
    requires Reachable(s, now) && pid in s.proposals.rows
    ensures var st := s.proposals.rows[pid].status;
            var found := ExecutionOffer(s.offers, pid);
            && (found.Some? <==> st.Matched? || st.OrderCompleted? || st.AllCompleted? || st.Disputed?)
            && (found.Some? ==> Candidates(s.offers.rows, pid) == {found.value} == EngagedOf(s.offers.rows, pid))
            && (found.None? ==> Candidates(s.offers.rows, pid) == {})
  {
    ReachableInv(s, now);
    var st := s.proposals.rows[pid].status;
    forall o | o in Candidates(s.offers.rows, pid)
      ensures st.Matched? || st.OrderCompleted? || st.AllCompleted? || st.Disputed?
    {
      assert OfferAt(s.proposals.rows, s.offers.rows, o, now);
    }
    if ExecutionOffer(s.offers, pid).Some? {
      assert ExecutionOffer(s.offers, pid).value in Candidates(s.offers.rows, pid);
    }
    if st.Matched? || st.OrderCompleted? || st.AllCompleted? || st.Disputed? {
      var e := ExecutionPair(s, now, pid);
      ExecutionOfferIs(s, now, pid, e);
    }
  }

  // ---------------------------------------------------------------- time stamps

  /** The stamps of a proposal and its execution offer tell the same history, in order. */
  lemma StampHistory(s: State, now: Time, pid: Id)
    requires Reachable(s, now) && pid in s.proposals.rows
    ensures var p := s.proposals.rows[pid];
            && (p.matchedAt.Some? <==> PostMatch(p.status))
            && (p.disputedAt.Some? <==> Contested(p.status)) && (p.resolvedAt.Some? <==> p.status.Resolved?)
            && (p.status.AllCompleted? <==> p.runnerConfirmedAt.Some? && p.ordererConfirmedAt.Some?)
            && InOrder(p.matchedAt, p.runnerConfirmedAt, p.ordererConfirmedAt, p.disputedAt, p.resolvedAt, now)
            && (p.matchedAt.Some? ==>
                  exists e :: && e in s.offers.rows && EngagedOf(s.offers.rows, pid) == {e}
                              && SameHistory(p, s.offers.rows[e], now))
  {
    ReachableInv(s, now);
    assert ProposalAt(s.proposals.rows, pid, now);
    if PostMatch(s.proposals.rows[pid].status) {
      var e := ExecutionPair(s, now, pid);
    }
  }

  predicate SameHistory(p: ProposalRow, o: OfferRow, now: Time) {
    && p.matchedAt == o.acceptedAt
    && (p.runnerConfirmedAt.Some? <==> o.runnerConfirmedAt.Some?) && Before(o.runnerConfirmedAt, p.runnerConfirmedAt)
    && (p.ordererConfirmedAt.Some? <==> o.ordererConfirmedAt.Some?)
    && Before(p.ordererConfirmedAt, o.ordererConfirmedAt)
    && (p.disputedAt.Some? <==> o.disputedAt.Some?) && (p.resolvedAt.Some? <==> o.resolvedAt.Some?)
    && InOrder(o.acceptedAt, o.runnerConfirmedAt, o.ordererConfirmedAt, o.disputedAt, o.resolvedAt, now)
  }

  // ---------------------------------------------------------------- two completions

  predicate Fresh(s: State, pid: Id, e: Id) {
    && pid in s.proposals.rows && s.proposals.rows[pid].status.Matched?
    && OfferOf(s.offers.rows, pid, e) && s.offers.rows[e].status.Accepted?
  }

  predicate BothAre(s: State, pid: Id, e: Id, p: ProposalStatus, o: OfferStatus) {
    && pid in s.proposals.rows && s.proposals.rows[pid].status == p
    && e in s.offers.rows && s.offers.rows[e].status == o
  }

  predicate SameButStamps(p: ProposalRow, p': ProposalRow) {
    p' == p.(status := p'.status, runnerConfirmedAt := p'.runnerConfirmedAt,
             ordererConfirmedAt := p'.ordererConfirmedAt)
  }

  predicate SameButStampsOffer(o: OfferRow, o': OfferRow) {
    o' == o.(status := o'.status, runnerConfirmedAt := o'.runnerConfirmedAt,
             ordererConfirmedAt := o'.ordererConfirmedAt)
  }

  predicate BothConfirmed(p: ProposalRow, o: OfferRow) {
    && p.runnerConfirmedAt.Some? && p.ordererConfirmedAt.Some?
    && o.runnerConfirmedAt.Some? && o.ordererConfirmedAt.Some?
  }

  /**
   * Completed on both sides, both confirmations stamped on both rows, and the runner is one level up; nothing else
   * changed but notices and those stamps.
   */
  ghost predicate EndsCompleted(s: State, out: Outcome, pid: Id, e: Id) {
    && out.result.Ok? && BothAre(out.state, pid, e, ProposalStatus.AllCompleted, OfferStatus.AllCompleted)
    && pid in s.proposals.rows && SameButStamps(s.proposals.rows[pid], out.state.proposals.rows[pid])
    && e in s.offers.rows && SameButStampsOffer(s.offers.rows[e], out.state.offers.rows[e])
    && BothConfirmed(out.state.proposals.rows[pid], out.state.offers.rows[e])
    && s.offers.rows[e].runner in s.users
    && out.state == s.(users := BumpLevel(s.users, s.offers.rows[e].runner),
                       proposals := s.proposals.Put(pid, out.state.proposals.rows[pid]),
                       offers := s.offers.Put(e, out.state.offers.rows[e]),
                       notifications := out.state.notifications)
  }

  /** The side that has confirmed is stamped on both rows. */
  predicate OneConfirmed(p: ProposalRow, o: OfferRow) {
    && (p.status.OrderCompleted? ==> p.ordererConfirmedAt.Some? && o.ordererConfirmedAt.Some?)
    && (o.status.RunnerCompleted? ==> p.runnerConfirmedAt.Some? && o.runnerConfirmedAt.Some?)
  }

  /** One side has confirmed: statuses and stamps of the pair, notices, and nothing else. */
  ghost predicate HalfWay(s: State, half: Outcome, pid: Id, e: Id, p: ProposalStatus, o: OfferStatus) {
    && half.result.Ok? && BothAre(half.state, pid, e, p, o)
    && pid in s.proposals.rows && SameButStamps(s.proposals.rows[pid], half.state.proposals.rows[pid])
    && e in s.offers.rows && SameButStampsOffer(s.offers.rows[e], half.state.offers.rows[e])
    && OneConfirmed(half.state.proposals.rows[pid], half.state.offers.rows[e])
    && half.state == s.(proposals := s.proposals.Put(pid, half.state.proposals.rows[pid]),
                        offers := s.offers.Put(e, half.state.offers.rows[e]),
                        notifications := half.state.notifications)
  }

  lemma SecondHalf(s: State, half: Outcome, out: Outcome, pid: Id, e: Id, p: ProposalStatus, o: OfferStatus)
    requires HalfWay(s, half, pid, e, p, o) && EndsCompleted(half.state, out, pid, e)
    ensures EndsCompleted(s, out, pid, e)
  {
    var ps', os' := out.state.proposals, out.state.offers;
    assert s.proposals.Put(pid, half.state.proposals.rows[pid]).Put(pid, ps'.rows[pid])
        == s.proposals.Put(pid, ps'.rows[pid]);
    assert s.offers.Put(e, half.state.offers.rows[e]).Put(e, os'.rows[e]) == s.offers.Put(e, os'.rows[e]);
  }

  lemma ReceiptFirst(s: State, now: Time, pid: Id, e: Id, t: Ticks)
    requires Inv(s, now) && Fresh(s, pid, e)
    ensures var half := ConfirmReceived(s, pid, s.proposals.rows[pid].orderer, t);
            HalfWay(s, half, pid, e, OrderCompleted, OfferStatus.Accepted)
  {
    ExecutionOfferIs(s, now, pid, e);
  }

  lemma DeliveryFirst(s: State, now: Time, pid: Id, e: Id, t: Ticks)
    requires Inv(s, now) && Fresh(s, pid, e)
    ensures var half := CompleteDelivery(s, e, s.offers.rows[e].runner, t);
            HalfWay(s, half, pid, e, Matched, RunnerCompleted)
  {
  }

  lemma DeliveryCompletes(s: State, pid: Id, e: Id, t: Ticks)
    requires BothAre(s, pid, e, OrderCompleted, OfferStatus.Accepted) && s.offers.rows[e].proposal == pid
    requires OneConfirmed(s.proposals.rows[pid], s.offers.rows[e])
    requires s.offers.rows[e].runner in s.users
    ensures EndsCompleted(s, CompleteDelivery(s, e, s.offers.rows[e].runner, t), pid, e)
  {
  }

  lemma ReceiptCompletes(s: State, now: Time, pid: Id, e: Id, t: Ticks)
    requires Inv(s, now) && BothAre(s, pid, e, Matched, RunnerCompleted) && s.offers.rows[e].proposal == pid
    ensures EndsCompleted(s, ConfirmReceived(s, pid, s.proposals.rows[pid].orderer, t), pid, e)
  {
    ExecutionOfferIs(s, now, pid, e);
    assert OfferAt(s.proposals.rows, s.offers.rows, e, now) && RunnerAt(s.users, s.offers.rows, e);
  }

  lemma OrdererFirst(s: State, now: Time, pid: Id, e: Id, t: Ticks, t': Ticks)
    requires Inv(s, now) && Fresh(s, pid, e)
    ensures var orderer, runner := s.proposals.rows[pid].orderer, s.offers.rows[e].runner;
            var half := ConfirmReceived(s, pid, orderer, t);
            && HalfWay(s, half, pid, e, OrderCompleted, OfferStatus.Accepted)
            && EndsCompleted(s, CompleteDelivery(half.state, e, runner, t'), pid, e)
  {
    var half := ConfirmReceived(s, pid, s.proposals.rows[pid].orderer, t);
    ReceiptFirst(s, now, pid, e, t);
    assert RunnerAt(s.users, s.offers.rows, e);
    DeliveryCompletes(half.state, pid, e, t');
    SecondHalf(s, half, CompleteDelivery(half.state, e, s.offers.rows[e].runner, t'), pid, e, OrderCompleted,
               OfferStatus.Accepted);
  }

  lemma RunnerFirst(s: State, now: Time, pid: Id, e: Id, t: Ticks, t': Ticks)
    requires Inv(s, now) && Fresh(s, pid, e) && t.Ordered() && now <= t.t0
    ensures var orderer, runner := s.proposals.rows[pid].orderer, s.offers.rows[e].runner;
            var half := CompleteDelivery(s, e, runner, t);
            && HalfWay(s, half, pid, e, Matched, RunnerCompleted)
            && EndsCompleted(s, ConfirmReceived(half.state, pid, orderer, t'), pid, e)
  {
    var half := CompleteDelivery(s, e, s.offers.rows[e].runner, t);
    DeliveryFirst(s, now, pid, e, t);
    CompleteDeliveryKeeps(s, now, e, s.offers.rows[e].runner, t);
    ReceiptCompletes(half.state, t.t3, pid, e, t');
    SecondHalf(s, half, ConfirmReceived(half.state, pid, s.proposals.rows[pid].orderer, t'), pid, e, Matched,
               RunnerCompleted);
  }

  /** Orderer then runner, or runner then orderer: both end completed on both sides, with the same user rows. */
  lemma CompletionsCommute(s: State, now: Time, pid: Id, e: Id, t: Ticks, t': Ticks)
    requires Reachable(s, now) && Fresh(s, pid, e) && t.Ordered() && now <= t.t0
    ensures var orderer, runner := s.proposals.rows[pid].orderer, s.offers.rows[e].runner;
            && EndsCompleted(s, CompleteDelivery(ConfirmReceived(s, pid, orderer, t).state, e, runner, t'), pid, e)
            && EndsCompleted(s, ConfirmReceived(CompleteDelivery(s, e, runner, t).state, pid, orderer, t'), pid, e)
  {
    ReachableInv(s, now);
    OrdererFirst(s, now, pid, e, t, t');
    RunnerFirst(s, now, pid, e, t, t');
  }

  // ---------------------------------------------------------------- dispute evidence

  ghost function EvidenceFor(evidences: map<Id, EvidenceRow>, pid: Id): set<Id> {
    set e | e in evidences && EvidenceOf(evidences, pid, e)
  }

  ghost function EvidenceOnOffer(evidences: map<Id, EvidenceRow>, oid: Id): set<Id> {
    set e | e in evidences && evidences[e].offer == oid
  }

  ghost predicate NamesThePair(s: State, pid: Id, e: EvidenceRow) {
    && EngagedOf(s.offers.rows, pid) == {e.offer} && e.offer in s.offers.rows && pid in s.proposals.rows
    && e.actor in {s.proposals.rows[pid].orderer, s.offers.rows[e.offer].runner}
  }

  /**
   * One record for a proposal that is or was in dispute and none otherwise. It names the execution offer and one of
   * the two parties, and a lookup by that offer finds the same single record.
   */
  lemma OneEvidencePerDispute(s: State, now: Time, pid: Id)
    requires Reachable(s, now) && pid in s.proposals.rows
    ensures var es := s.evidences.rows;
            if Contested(s.proposals.rows[pid].status) then
              exists d :: && d in es && EvidenceFor(es, pid) == {d} && NamesThePair(s, pid, es[d])
                          && EvidenceOnOffer(es, es[d].offer) == {d}
            else EvidenceFor(es, pid) == {}
  {
    ReachableInv(s, now);
    var es := s.evidences.rows;
    forall d | d in es ensures EvidenceOk(s.proposals.rows, s.offers.rows, es[d]) {
      assert EvidenceAt(s.proposals.rows, s.offers.rows, es, d);
    }
    if Contested(s.proposals.rows[pid].status) {
      assert HasItsEvidence(s.proposals.rows, es, pid);
      var d :| EvidenceOf(es, pid, d);
      forall d' | d' in EvidenceFor(es, pid) ensures d' == d {
        assert OneEvidence(es, pid, d', d);
      }
      var e := ExecutionPair(s, now, pid);
      assert OneEngaged(s.offers.rows, pid, es[d].offer, e);
      forall d' | d' in EvidenceOnOffer(es, e) ensures d' in EvidenceFor(es, pid) {
        assert EngagedIn(s.offers.rows, es[d'].proposal, e);
      }
      assert EvidenceFor(es, pid) == {d} && EvidenceOnOffer(es, e) == {d};
    }
  }

  // ---------------------------------------------------------------- acceptance

  ghost function NewlyRejected(offers: Offers, offers': Offers): set<Id> {
    set o | o in offers && o in offers' && !offers[o].status.Rejected? && offers'[o].status.Rejected?
  }

  ghost function RunnersOfSet(offers: Offers, ids: set<Id>): set<UserId> {
    set o | o in ids && o in offers :: offers[o].runner
  }

  /** The runners queried for the rejection notices are the losers', each once. */
  lemma RejectedRunnersAre(s: State, now: Time, pid: Id, oid: Id)
    requires Inv(s, now)
    ensures var runners := RejectedRunners(s.offers, pid, oid);
            && (forall i, j :: 0 <= i < j < |runners| ==> runners[i] != runners[j])
            && SeqSet(runners) == RunnersOfSet(s.offers.rows, WaitingOf(s.offers.rows, pid) - {oid})
  {
    var offers, rivals := s.offers.rows, WaitingRivals(s.offers, pid, oid);
    var runners := RejectedRunners(s.offers, pid, oid);
    RivalsAre(s.offers, pid, oid);
    RivalsDistinct(s.offers, pid, oid);
    forall i, j | 0 <= i < j < |runners| ensures runners[i] != runners[j] {
      assert OneOfferEach(offers, pid, runners[i], rivals[i], rivals[j]);
    }
    forall o | o in SeqSet(rivals) ensures offers[o].runner in runners {
      var i :| 0 <= i < |rivals| && rivals[i] == o;
      assert runners[i] == offers[o].runner;
    }
    forall u | u in runners ensures u in RunnersOfSet(offers, SeqSet(rivals)) {
      var i :| 0 <= i < |runners| && runners[i] == u;
      assert rivals[i] in SeqSet(rivals);
    }
  }

  /** Accepting turns exactly the other waiting offers of the proposal down. */
  lemma AcceptanceRejects(s: State, oid: Id, orderer: UserId, t: Ticks)
    requires OfferAccept(s, oid, orderer, t).result.Ok?
    ensures var pid := s.offers.rows[oid].proposal;
            var after := OfferAccept(s, oid, orderer, t).state.offers.rows;
            && oid in WaitingOf(s.offers.rows, pid) && WaitingOf(after, pid) == {}
            && NewlyRejected(s.offers.rows, after) == WaitingOf(s.offers.rows, pid) - {oid}
  {
  }

  lemma AcceptanceCounts(s: State, oid: Id, orderer: UserId, t: Ticks)
    requires s.offers.Bounded() && OfferAccept(s, oid, orderer, t).result.Ok?
    ensures var others := WaitingOf(s.offers.rows, s.offers.rows[oid].proposal) - {oid};
            OfferAccept(s, oid, orderer, t).result.value == Reply.OfferAccepted(|others|)
  {
    RivalsAre(s.offers, s.offers.rows[oid].proposal, oid);
  }

  /**
   * Accepting one offer of a proposal: the waiting offers were it and the rejected ones, the reported count is theirs,
   * and the separately queried runners are distinct and are exactly theirs.
   */
  lemma AcceptanceConserves(s: State, now: Time, oid: Id, orderer: UserId, t: Ticks)
    requires Reachable(s, now)
    requires OfferAccept(s, oid, orderer, t).result.Ok?
    ensures var pid := s.offers.rows[oid].proposal;
            var out := OfferAccept(s, oid, orderer, t);
            var waiting, rejected := WaitingOf(s.offers.rows, pid), NewlyRejected(s.offers.rows, out.state.offers.rows);
            var runners := RejectedRunners(s.offers, pid, oid);
            && out.result.value == Reply.OfferAccepted(|rejected|)
            && waiting == rejected + {oid} && |waiting| == 1 + |rejected|
            && WaitingOf(out.state.offers.rows, pid) == {}
            && (forall i, j :: 0 <= i < j < |runners| ==> runners[i] != runners[j])
            && SeqSet(runners) == RunnersOfSet(s.offers.rows, rejected)
  {
    ReachableInv(s, now);
    var pid := s.offers.rows[oid].proposal;
    AcceptanceRejects(s, oid, orderer, t);
    AcceptanceCounts(s, oid, orderer, t);
    RejectedRunnersAre(s, now, pid, oid);
    assert WaitingOf(s.offers.rows, pid) == (WaitingOf(s.offers.rows, pid) - {oid}) + {oid};
  }

  /** The check for another active offer never refuses an acceptance that the proposal's status would let through. */
  lemma NoActiveRivalWhileOffered(s: State, now: Time, pid: Id, oid: Id)
    requires Reachable(s, now) && pid in s.proposals.rows && s.proposals.rows[pid].status.Offered?
    ensures !HasActiveRival(s.offers.rows, pid, oid)
  {
    ReachableInv(s, now);
    forall o | o in s.offers.rows && s.offers.rows[o].proposal == pid
      ensures !ActiveOfferStatus(s.offers.rows[o].status)
    {
      assert OfferAt(s.proposals.rows, s.offers.rows, o, now);
    }
  }

  /** Exactly the waiting offers of the caller's own OFFERED proposals can be accepted. */
  lemma AcceptableIff(s: State, now: Time, oid: Id, orderer: UserId, t: Ticks)
    requires Reachable(s, now) && oid in s.offers.rows
    ensures s.offers.rows[oid].proposal in s.proposals.rows
    ensures OfferAccept(s, oid, orderer, t).result.Ok? <==>
            s.offers.rows[oid].status.Waiting? && s.proposals.rows[s.offers.rows[oid].proposal].orderer == orderer
  {
    ReachableInv(s, now);
    assert OfferAt(s.proposals.rows, s.offers.rows, oid, now);
    if s.proposals.rows[s.offers.rows[oid].proposal].status.Offered? {
      NoActiveRivalWhileOffered(s, now, s.offers.rows[oid].proposal, oid);
    }
  }

  // ---------------------------------------------------------------- reports

  ghost function ReportsOn(reports: map<Id, ReportRow>, pid: Id, reporter: UserId): set<Id> {
    set r | r in reports && ReportBy(reports, pid, reporter, r)
  }

  /**
   * REPORTED means an accepted report; one report per reader, none by the owner; a verdict is dated and only a verdict.
   */
  lemma Moderation(s: State, now: Time, pid: Id, reader: UserId)
    requires Reachable(s, now) && pid in s.proposals.rows
    ensures var reports := s.reports.rows;
            && (s.proposals.rows[pid].status.Reported? <==> exists r :: AcceptedReport(reports, pid, r))
            && |ReportsOn(reports, pid, reader)| <= 1
            && ReportsOn(reports, pid, s.proposals.rows[pid].orderer) == {}
            && (forall r :: r in ReportsOn(reports, pid, reader) ==>
                (reports[r].reviewedAt.Some? <==> !reports[r].status.Pending?))
  {
    ReachableInv(s, now);
    var reports := s.reports.rows;
    assert HasItsReport(s.proposals.rows, reports, pid);
    forall r | r in reports ensures ReportOk(s.proposals.rows, reports[r]) {
      assert ReportAt(s.proposals.rows, reports, r);
    }
    if r :| r in ReportsOn(reports, pid, reader) {
      forall r' | r' in ReportsOn(reports, pid, reader) ensures r' == r {
        assert OneReportEach(reports, pid, reader, r', r);
      }
      assert ReportsOn(reports, pid, reader) == {r};
    }
  }

  /** Once matched, a proposal is never taken down: no report on it can be accepted any more. */
  lemma NeverReportedAfterMatch(s: State, now: Time, run: seq<Event>, pid: Id, r: Id)
    requires Reachable(s, now) && Legal(s, now, run)
    requires pid in s.proposals.rows && PostMatch(s.proposals.rows[pid].status)
    ensures !AcceptedReport(Exec(s, run).reports.rows, pid, r)
    ensures pid in Exec(s, run).proposals.rows && PostMatch(Exec(s, run).proposals.rows[pid].status)
  {
    ReachableInv(s, now);
    var e := ExecutionPair(s, now, pid);
    RunLowersRank(s, now, run, pid, e);
    RunKeeps(s, now, run);
    var s' := Exec(s, run);
    assert OfferAt(s'.proposals.rows, s'.offers.rows, e, ClockAfter(now, run));
    assert ReportAt(s'.proposals.rows, s'.reports.rows, r);
  }
}

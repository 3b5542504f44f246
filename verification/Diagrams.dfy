/** Which request moves which row along which arrow, exactly; what of that the documented diagrams leave out. */
module Diagrams {
  import opened Rows
  import opened MarketSpec
  import opened AccountSpec
  import opened Runs
  import opened Invariants
  import opened Transitions
  import opened Lifecycle
  import opened Execution
  import MarketProofs

  predicate Admitted(s: State, r: Request) {
    Bearer(r).Some? ==> Active(s.users, Bearer(r).value)
  }

  ghost predicate RunnerDone(offers: Offers, pid: Id) {
    exists o :: OfferOf(offers, pid, o) && offers[o].status.RunnerCompleted?
  }

  predicate OfferOnProposal(s: State, oid: Id) {
    oid in s.offers.rows && s.offers.rows[oid].proposal in s.proposals.rows
  }

  predicate PendingReport(s: State, rid: Id, pid: Id) {
    rid in s.reports.rows && s.reports.rows[rid].proposal == pid && s.reports.rows[rid].status.Pending?
  }

  /** The guards under which request `r` takes proposal `pid` to another status `to`. */
  ghost predicate ProposalGoes(s: State, r: Request, t: Ticks, pid: Id, to: ProposalStatus) {
    pid in s.proposals.rows && Admitted(s, r) &&
    var p, os := s.proposals.rows[pid], s.offers.rows;
    match r
    case ReqProposalUpdate(u, x, d) =>
      x == pid && p.orderer == u && p.status.Posted? && DraftError(d, t.t0).None? && to.Holding?
    case ReqConfirmPayment(x) => x == pid && p.status.Holding? && to.Posted?
    case ReqOfferCreate(u, x) => x == pid && p.orderer != u && p.status.Posted? && to.Offered?
    case ReqOfferAccept(u, o) => OfferOf(os, pid, o) && p.orderer == u && os[o].status.Waiting? && to.Matched?
    case ReqConfirmReceived(u, x) =>
      x == pid && p.orderer == u && p.status.Matched?
      && to == if RunnerDone(os, pid) then ProposalStatus.AllCompleted else OrderCompleted
    case ReqCompleteDelivery(u, o) =>
      OfferOf(os, pid, o) && os[o].runner == u && os[o].status.Accepted? && p.status.OrderCompleted? && to.AllCompleted?
    case ReqProposalDispute(u, x, _, active, _) =>
      x == pid && p.orderer == u && active && (p.status.Matched? || p.status.OrderCompleted?) && to.Disputed?
    case ReqOfferDispute(u, o, _, active, _) =>
      OfferOf(os, pid, o) && os[o].runner == u && active && (os[o].status.Accepted? || os[o].status.RunnerCompleted?)
      && to.Disputed?
    case ReqOfferResolve(o) => OfferOf(os, pid, o) && os[o].status.Disputed? && to.Resolved?
    case ReqReportAccept(rid) => PendingReport(s, rid, pid) && RecruitingStatus(p.status) && to.Reported?
    case ReqProposalCancel(u, x) => x == pid && p.orderer == u && CancellableStatus(p.status) && to.Cancelled?
    case ReqWithdraw(u) => p.orderer == u && CancellableStatus(p.status) && !HasBlockingActivity(s, u) && to.Cancelled?
    case _ => false
  }

  /** The guards under which request `r` takes offer `oid` to another status `to`. */
  ghost predicate OfferGoes(s: State, r: Request, oid: Id, to: OfferStatus) {
    OfferOnProposal(s, oid) && Admitted(s, r) &&
    var o, pid := s.offers.rows[oid], s.offers.rows[oid].proposal;
    var orderer := s.proposals.rows[pid].orderer;
    match r
    case ReqOfferAccept(u, x) =>
      OfferOf(s.offers.rows, pid, x) && orderer == u && s.offers.rows[x].status.Waiting? && o.status.Waiting?
      && to == if x == oid then OfferStatus.Accepted else OfferStatus.Rejected
    case ReqOfferCancel(u, x) => x == oid && o.runner == u && o.status.Waiting? && to.Cancelled?
    case ReqProposalCancel(u, x) => x == pid && orderer == u && o.status.Waiting? && to.Rejected?
    case ReqReportAccept(rid) => PendingReport(s, rid, pid) && o.status.Waiting? && to.Rejected?
    case ReqWithdraw(u) =>
      (o.runner == u || orderer == u) && !HasBlockingActivity(s, u) && o.status.Waiting? && to.Cancelled?
    case ReqCompleteDelivery(u, x) =>
      x == oid && o.runner == u && o.status.Accepted?
      && to == if s.proposals.rows[pid].status.OrderCompleted? then OfferStatus.AllCompleted else RunnerCompleted
    case ReqConfirmReceived(u, x) => x == pid && orderer == u && o.status.RunnerCompleted? && to.AllCompleted?
    case ReqProposalDispute(u, x, _, active, _) =>
      x == pid && orderer == u && active && (o.status.Accepted? || o.status.RunnerCompleted?) && to.Disputed?
    case ReqOfferDispute(u, x, _, active, _) =>
      x == oid && o.runner == u && active && (o.status.Accepted? || o.status.RunnerCompleted?) && to.Disputed?
    case ReqOfferResolve(x) => x == oid && o.status.Disputed? && to.Resolved?
    case _ => false
  }

  predicate ProposalIs(s: State, pid: Id, st: ProposalStatus) {
    pid in s.proposals.rows && s.proposals.rows[pid].status == st
  }

  /** The status of `pid` after the request. */
  ghost function ProposalNext(s: State, r: Request, t: Ticks, pid: Id): ProposalStatus
    requires pid in Step(s, r, t).state.proposals.rows
  {
    Step(s, r, t).state.proposals.rows[pid].status
  }

  ghost function OfferNext(s: State, r: Request, t: Ticks, oid: Id): OfferStatus
    requires oid in Step(s, r, t).state.offers.rows
  {
    Step(s, r, t).state.offers.rows[oid].status
  }

  predicate OfferIs(s: State, oid: Id, st: OfferStatus) {
    oid in s.offers.rows && s.offers.rows[oid].status == st
  }

  // ---------------------------------------------------------------- facts behind the guards

  /** While an offer waits, its proposal is open and no rival is engaged. */
  lemma WaitingMeansOpen(s: State, now: Time, oid: Id)
    requires Inv(s, now) && oid in s.offers.rows && s.offers.rows[oid].status.Waiting?
    ensures s.offers.rows[oid].proposal in s.proposals.rows
        && s.proposals.rows[s.offers.rows[oid].proposal].status.Offered?
    ensures !HasActiveRival(s.offers.rows, s.offers.rows[oid].proposal, oid)
  {
    var pid := s.offers.rows[oid].proposal;
    assert OfferAt(s.proposals.rows, s.offers.rows, oid, now);
    forall o | OfferOf(s.offers.rows, pid, o) ensures !ActiveOfferStatus(s.offers.rows[o].status) {
      assert OfferAt(s.proposals.rows, s.offers.rows, o, now);
    }
  }

  /** What the lookup of the execution offer means for the guards of a pair. */
  lemma LookupMeans(s: State, now: Time, pid: Id)
    requires Inv(s, now) && pid in s.proposals.rows
    ensures var found := ExecutionOffer(s.offers, pid);
            && (BlockingProposalStatus(s.proposals.rows[pid].status) ==> found.Some?)
            && (found.Some? ==> forall o :: EngagedIn(s.offers.rows, pid, o) ==> o == found.value)
            && (found.Some? ==>
                && EngagedIn(s.offers.rows, pid, found.value)
                && OfferAt(s.proposals.rows, s.offers.rows, found.value, now))
  {
    var found := ExecutionOffer(s.offers, pid);
    if BlockingProposalStatus(s.proposals.rows[pid].status) {
      var e := ExecutionPair(s, now, pid);
      ExecutionOfferIs(s, now, pid, e);
    }
    if found.Some? {
      assert OfferAt(s.proposals.rows, s.offers.rows, found.value, now);
      forall o | EngagedIn(s.offers.rows, pid, o) ensures o == found.value {
        assert OneEngaged(s.offers.rows, pid, o, found.value);
      }
    }
  }

  /** The lookup finds an offer exactly if that executes the proposal and is not resolved. */
  lemma LookupFinds(s: State, now: Time, x: Id, oid: Id)
    requires Inv(s, now) && x in s.proposals.rows && oid in s.offers.rows
    ensures ExecutionOffer(s.offers, x) == Some(oid) <==>
            s.offers.rows[oid].proposal == x && ActiveOfferStatus(s.offers.rows[oid].status)
  {
    if s.offers.rows[oid].proposal == x && ActiveOfferStatus(s.offers.rows[oid].status) {
      ExecutionOfferIs(s, now, x, oid);
    }
  }

  lemma RunnerDoneMeans(s: State, now: Time, pid: Id)
    requires Inv(s, now) && pid in s.proposals.rows && s.proposals.rows[pid].status.Matched?
    ensures ExecutionOffer(s.offers, pid).Some?
    ensures var e := ExecutionOffer(s.offers, pid).value;
            && CanConfirm(s.offers.rows[e].status)
            && (RunnerDone(s.offers.rows, pid) <==> s.offers.rows[e].status.RunnerCompleted?)
  {
    LookupMeans(s, now, pid);
    var e := ExecutionOffer(s.offers, pid).value;
    assert OfferOf(s.offers.rows, pid, e);
    if o :| OfferOf(s.offers.rows, pid, o) && s.offers.rows[o].status.RunnerCompleted? {
      assert EngagedIn(s.offers.rows, pid, o);
    }
  }

  predicate CanConfirm(st: OfferStatus) {
    st.Accepted? || st.RunnerCompleted?
  }

  // ---------------------------------------------------------------- request by request: proposals

  lemma UpdateMovesProposal(s: State, x: Id, d: Draft, u: UserId, t: Ticks, pid: Id, to: ProposalStatus)
    requires Active(s.users, u) && pid in s.proposals.rows && !ProposalIs(s, pid, to)
    ensures ProposalIs(ProposalUpdate(s, x, d, u, t).state, pid, to) <==>
                ProposalGoes(s, ReqProposalUpdate(u, x, d), t, pid, to)
  {
  }

  lemma PaymentMovesProposal(s: State, x: Id, t: Ticks, pid: Id, to: ProposalStatus)
    requires pid in s.proposals.rows && !ProposalIs(s, pid, to)
    ensures ProposalIs(ConfirmPayment(s, x).state, pid, to) <==> ProposalGoes(s, ReqConfirmPayment(x), t, pid, to)
  {
  }

  lemma CancelMovesProposal(s: State, x: Id, u: UserId, t: Ticks, pid: Id, to: ProposalStatus)
    requires Active(s.users, u) && pid in s.proposals.rows && !ProposalIs(s, pid, to)
    ensures ProposalIs(ProposalCancel(s, x, u).state, pid, to) <==> ProposalGoes(s, ReqProposalCancel(u, x), t, pid, to)
  {
  }

  lemma ReportMovesProposal(s: State, rid: Id, t: Ticks, pid: Id, to: ProposalStatus)
    requires pid in s.proposals.rows && !ProposalIs(s, pid, to)
    ensures ProposalIs(ReportAccept(s, rid, t).state, pid, to) <==> ProposalGoes(s, ReqReportAccept(rid), t, pid, to)
  {
  }

  lemma OfferMovesProposal(s: State, now: Time, x: Id, u: UserId, t: Ticks, pid: Id, to: ProposalStatus)
    requires Inv(s, now) && Active(s.users, u) && pid in s.proposals.rows && !ProposalIs(s, pid, to)
    ensures ProposalIs(OfferCreate(s, x, u, t).state, pid, to) <==> ProposalGoes(s, ReqOfferCreate(u, x), t, pid, to)
  {
    if s.proposals.rows[pid].status.Posted? {
      MarketProofs.NoOffersYet(s.proposals.rows, s.offers.rows, now, pid);
      forall o | o in s.offers.rows ensures s.offers.rows[o].proposal != pid {
        assert !OfferOf(s.offers.rows, pid, o);
      }
    }
  }

  /** Whether an acceptance succeeds, and what it does to the two tables. */
  lemma AcceptanceDoes(s: State, now: Time, x: Id, u: UserId, t: Ticks)
    requires Inv(s, now)
    ensures var out, os, ps := OfferAccept(s, x, u, t).state, s.offers.rows, s.proposals.rows;
            if OfferOnProposal(s, x) && os[x].status.Waiting? && ps[os[x].proposal].orderer == u then
              && out.proposals.rows == ps[os[x].proposal := ps[os[x].proposal].(status := Matched,
                                                                                matchedAt := Some(t.t0))]
              && out.offers.rows == RejectWaiting(os, os[x].proposal)[x := os[x].(status := OfferStatus.Accepted,
                                                                                  acceptedAt := Some(t.t0))]
            else out == s
  {
    if x in s.offers.rows && s.offers.rows[x].status.Waiting? {
      WaitingMeansOpen(s, now, x);
    }
  }

  lemma AcceptMovesProposal(s: State, now: Time, x: Id, u: UserId, t: Ticks, pid: Id, to: ProposalStatus)
    requires Inv(s, now) && Active(s.users, u) && pid in s.proposals.rows && !ProposalIs(s, pid, to)
    ensures ProposalIs(OfferAccept(s, x, u, t).state, pid, to) <==> ProposalGoes(s, ReqOfferAccept(u, x), t, pid, to)
  {
    AcceptanceDoes(s, now, x, u, t);
  }

  lemma WithdrawalMovesProposal(s: State, now: Time, u: UserId, t: Ticks, pid: Id, to: ProposalStatus)
    requires Inv(s, now) && Active(s.users, u) && pid in s.proposals.rows && !ProposalIs(s, pid, to)
    ensures ProposalIs(Withdraw(s, u, t).state, pid, to) <==> ProposalGoes(s, ReqWithdraw(u), t, pid, to)
  {
    forall o ensures !CancelledTwice(s, u, o) {
      AutoCancelsDisjoint(s, now, u, o);
    }
  }

  lemma ReceiptMovesMatched(s: State, now: Time, u: UserId, t: Ticks, pid: Id, to: ProposalStatus)
    requires Inv(s, now) && Active(s.users, u) && ProposalIs(s, pid, Matched) && !to.Matched?
    ensures ProposalIs(ConfirmReceived(s, pid, u, t).state, pid, to) <==>
                ProposalGoes(s, ReqConfirmReceived(u, pid), t, pid, to)
  {
    RunnerDoneMeans(s, now, pid);
  }

  lemma ReceiptMovesProposal(s: State, now: Time, x: Id, u: UserId, t: Ticks, pid: Id, to: ProposalStatus)
    requires Inv(s, now) && Active(s.users, u) && pid in s.proposals.rows && !ProposalIs(s, pid, to)
    ensures ProposalIs(ConfirmReceived(s, x, u, t).state, pid, to) <==>
                ProposalGoes(s, ReqConfirmReceived(u, x), t, pid, to)
  {
    if x == pid && ProposalIs(s, pid, Matched) {
      ReceiptMovesMatched(s, now, u, t, pid, to);
    } else {
      assert ProposalIs(ConfirmReceived(s, x, u, t).state, pid, s.proposals.rows[pid].status);
    }
  }

  predicate InProgress(st: ProposalStatus) {
    st.Matched? || st.OrderCompleted?
  }

  /** Whether an orderer's dispute succeeds, and what it does to the two tables. */
  lemma DisputeDoes(s: State, now: Time, x: Id, u: UserId, q: Id, active: bool, why: string, t: Ticks)
    requires Inv(s, now)
    ensures var out := ProposalDispute(s, x, u, q, active, why, t).state;
            if && active && x in s.proposals.rows && s.proposals.rows[x].orderer == u
               && InProgress(s.proposals.rows[x].status)
            then
              && ExecutionOffer(s.offers, x).Some?
              && var p, e := s.proposals.rows[x], ExecutionOffer(s.offers, x).value;
              && CanConfirm(s.offers.rows[e].status)
              && out.proposals.rows == s.proposals.rows[x := p.(status := ProposalStatus.Disputed,
                                                                disputedAt := Some(t.t0))]
              && out.offers.rows == s.offers.rows[e := s.offers.rows[e].(status := OfferStatus.Disputed,
                                                                         disputedAt := Some(t.t1))]
            else out == s
  {
    if x in s.proposals.rows && InProgress(s.proposals.rows[x].status) {
      LookupMeans(s, now, x);
    }
  }

  lemma DisputeMovesProposal(s: State, now: Time, x: Id, u: UserId, q: Id, active: bool, why: string, t: Ticks,
                             pid: Id, to: ProposalStatus)
    requires Inv(s, now) && Active(s.users, u) && pid in s.proposals.rows && !ProposalIs(s, pid, to)
    ensures ProposalIs(ProposalDispute(s, x, u, q, active, why, t).state, pid, to) <==>
                ProposalGoes(s, ReqProposalDispute(u, x, q, active, why), t, pid, to)
  {
    DisputeDoes(s, now, x, u, q, active, why, t);
  }

  lemma DeliveryMovesProposal(s: State, now: Time, x: Id, u: UserId, t: Ticks, pid: Id, to: ProposalStatus)
    requires Inv(s, now) && Active(s.users, u) && pid in s.proposals.rows && !ProposalIs(s, pid, to)
    ensures ProposalIs(CompleteDelivery(s, x, u, t).state, pid, to) <==>
                ProposalGoes(s, ReqCompleteDelivery(u, x), t, pid, to)
  {
    assert OfferAt(s.proposals.rows, s.offers.rows, x, now);
  }

  lemma RunnerDisputeMovesProposal(s: State, now: Time, x: Id, u: UserId, q: Id, active: bool, why: string, t: Ticks,
                                   pid: Id, to: ProposalStatus)
    requires Inv(s, now) && Active(s.users, u) && pid in s.proposals.rows && !ProposalIs(s, pid, to)
    ensures ProposalIs(OfferDispute(s, x, u, q, active, why, t).state, pid, to) <==>
                ProposalGoes(s, ReqOfferDispute(u, x, q, active, why), t, pid, to)
  {
    assert OfferAt(s.proposals.rows, s.offers.rows, x, now);
  }

  lemma ResolveMovesProposal(s: State, now: Time, x: Id, t: Ticks, pid: Id, to: ProposalStatus)
    requires Inv(s, now) && pid in s.proposals.rows && !ProposalIs(s, pid, to)
    ensures ProposalIs(OfferResolve(s, x, t).state, pid, to) <==> ProposalGoes(s, ReqOfferResolve(x), t, pid, to)
  {
    assert OfferAt(s.proposals.rows, s.offers.rows, x, now);
  }

  predicate PostingRequest(r: Request) {
    r.ReqProposalUpdate? || r.ReqConfirmPayment?
  }

  predicate ClosingRequest(r: Request) {
    r.ReqProposalCancel? || r.ReqReportAccept? || r.ReqWithdraw?
  }

  predicate BiddingRequest(r: Request) {
    r.ReqOfferCreate? || r.ReqOfferAccept? || r.ReqOfferCancel?
  }

  predicate OrdererRequest(r: Request) {
    r.ReqConfirmReceived? || r.ReqProposalDispute?
  }

  ghost predicate ProposalGoesAsGuarded(s: State, r: Request, t: Ticks, pid: Id, to: ProposalStatus) {
    ProposalIs(Step(s, r, t).state, pid, to) <==> ProposalGoes(s, r, t, pid, to)
  }

  lemma PostingMovesProposal(s: State, now: Time, r: Request, t: Ticks, pid: Id, to: ProposalStatus)
    requires Inv(s, now) && pid in s.proposals.rows && !ProposalIs(s, pid, to)
    requires Admitted(s, r) && PostingRequest(r)
    ensures ProposalGoesAsGuarded(s, r, t, pid, to)
  {
    match r
    case ReqProposalUpdate(u, x, d) => UpdateMovesProposal(s, x, d, u, t, pid, to);
    case ReqConfirmPayment(x) => PaymentMovesProposal(s, x, t, pid, to);
  }

  lemma ClosingMovesProposal(s: State, now: Time, r: Request, t: Ticks, pid: Id, to: ProposalStatus)
    requires Inv(s, now) && pid in s.proposals.rows && !ProposalIs(s, pid, to)
    requires Admitted(s, r) && ClosingRequest(r)
    ensures ProposalGoesAsGuarded(s, r, t, pid, to)
  {
    match r
    case ReqProposalCancel(u, x) => CancelMovesProposal(s, x, u, t, pid, to);
    case ReqReportAccept(rid) => ReportMovesProposal(s, rid, t, pid, to);
    case ReqWithdraw(u) => WithdrawalMovesProposal(s, now, u, t, pid, to);
  }

  lemma BiddingMovesProposal(s: State, now: Time, r: Request, t: Ticks, pid: Id, to: ProposalStatus)
    requires Inv(s, now) && pid in s.proposals.rows && !ProposalIs(s, pid, to)
    requires Admitted(s, r) && BiddingRequest(r)
    ensures ProposalGoesAsGuarded(s, r, t, pid, to)
  {
    match r
    case ReqOfferCreate(u, x) => OfferMovesProposal(s, now, x, u, t, pid, to);
    case ReqOfferAccept(u, x) => AcceptMovesProposal(s, now, x, u, t, pid, to);
    case ReqOfferCancel(u, x) =>
  }

  lemma OrdererMovesProposal(s: State, now: Time, r: Request, t: Ticks, pid: Id, to: ProposalStatus)
    requires Inv(s, now) && pid in s.proposals.rows && !ProposalIs(s, pid, to)
    requires Admitted(s, r) && OrdererRequest(r)
    ensures ProposalGoesAsGuarded(s, r, t, pid, to)
  {
    match r
    case ReqConfirmReceived(u, x) => ReceiptMovesProposal(s, now, x, u, t, pid, to);
    case ReqProposalDispute(u, x, q, active, why) => DisputeMovesProposal(s, now, x, u, q, active, why, t, pid, to);
  }

  lemma RunnerMovesProposal(s: State, now: Time, r: Request, t: Ticks, pid: Id, to: ProposalStatus)
    requires Inv(s, now) && pid in s.proposals.rows && !ProposalIs(s, pid, to)
    requires Admitted(s, r) && RunnerRequest(r)
    ensures ProposalGoesAsGuarded(s, r, t, pid, to)
  {
    match r
    case ReqCompleteDelivery(u, x) => DeliveryMovesProposal(s, now, x, u, t, pid, to);
    case ReqOfferDispute(u, x, q, active, why) => RunnerDisputeMovesProposal(s, now, x, u, q, active, why, t, pid, to);
    case ReqOfferResolve(x) => ResolveMovesProposal(s, now, x, t, pid, to);
  }

  lemma OthersLeaveProposal(s: State, r: Request, t: Ticks, pid: Id, to: ProposalStatus)
    requires pid in s.proposals.rows && s.proposals.next !in s.proposals.rows && !ProposalIs(s, pid, to)
    requires !PostingRequest(r) && !ClosingRequest(r) && !BiddingRequest(r) && !OrdererRequest(r) && !RunnerRequest(r)
    ensures ProposalGoesAsGuarded(s, r, t, pid, to)
  {
  }

  lemma RefusedLeavesProposal(s: State, r: Request, t: Ticks, pid: Id, to: ProposalStatus)
    requires pid in s.proposals.rows && !ProposalIs(s, pid, to) && !Admitted(s, r)
    ensures ProposalGoesAsGuarded(s, r, t, pid, to)
  {
  }

  lemma AdmittedMovesProposal(s: State, now: Time, r: Request, t: Ticks, pid: Id, to: ProposalStatus)
    requires Inv(s, now) && pid in s.proposals.rows && !ProposalIs(s, pid, to) && Admitted(s, r)
    ensures ProposalGoesAsGuarded(s, r, t, pid, to)
  {
    if PostingRequest(r) {
      PostingMovesProposal(s, now, r, t, pid, to);
    } else if ClosingRequest(r) {
      ClosingMovesProposal(s, now, r, t, pid, to);
    } else if BiddingRequest(r) {
      BiddingMovesProposal(s, now, r, t, pid, to);
    } else if OrdererRequest(r) {
      OrdererMovesProposal(s, now, r, t, pid, to);
    } else if RunnerRequest(r) {
      RunnerMovesProposal(s, now, r, t, pid, to);
    } else {
      OthersLeaveProposal(s, r, t, pid, to);
    }
  }

  /**
   * For each of the 28 requests and each status: a proposal takes that status in one request exactly under the guards
   * listed in `ProposalGoes`.
   */
  lemma ProposalGoesIff(s: State, now: Time, r: Request, t: Ticks, pid: Id, to: ProposalStatus)
    requires Reachable(s, now) && pid in s.proposals.rows && s.proposals.rows[pid].status != to
    ensures ProposalGoesAsGuarded(s, r, t, pid, to)
  {
    ReachableInv(s, now);
    if Admitted(s, r) {
      AdmittedMovesProposal(s, now, r, t, pid, to);
    } else {
      RefusedLeavesProposal(s, r, t, pid, to);
    }
  }

  // ---------------------------------------------------------------- request by request: offers

  lemma CancelMovesOffer(s: State, now: Time, x: Id, u: UserId, oid: Id, to: OfferStatus)
    requires Inv(s, now) && Active(s.users, u) && OfferOnProposal(s, oid) && !OfferIs(s, oid, to)
    ensures OfferIs(OfferCancel(s, x, u).state, oid, to) <==> OfferGoes(s, ReqOfferCancel(u, x), oid, to)
  {
  }

  lemma ProposalCancelMovesOffer(s: State, now: Time, x: Id, u: UserId, oid: Id, to: OfferStatus)
    requires Inv(s, now) && Active(s.users, u) && OfferOnProposal(s, oid) && !OfferIs(s, oid, to)
    ensures OfferIs(ProposalCancel(s, x, u).state, oid, to) <==> OfferGoes(s, ReqProposalCancel(u, x), oid, to)
  {
    assert OfferAt(s.proposals.rows, s.offers.rows, oid, now);
  }

  lemma ReportMovesOffer(s: State, now: Time, rid: Id, t: Ticks, oid: Id, to: OfferStatus)
    requires Inv(s, now) && OfferOnProposal(s, oid) && !OfferIs(s, oid, to)
    ensures OfferIs(ReportAccept(s, rid, t).state, oid, to) <==> OfferGoes(s, ReqReportAccept(rid), oid, to)
  {
    assert OfferAt(s.proposals.rows, s.offers.rows, oid, now);
  }

  lemma AcceptMovesOffer(s: State, now: Time, x: Id, u: UserId, t: Ticks, oid: Id, to: OfferStatus)
    requires Inv(s, now) && Active(s.users, u) && OfferOnProposal(s, oid) && !OfferIs(s, oid, to)
    ensures OfferIs(OfferAccept(s, x, u, t).state, oid, to) <==> OfferGoes(s, ReqOfferAccept(u, x), oid, to)
  {
    AcceptanceDoes(s, now, x, u, t);
  }

  lemma WithdrawalMovesOffer(s: State, now: Time, u: UserId, t: Ticks, oid: Id, to: OfferStatus)
    requires Inv(s, now) && Active(s.users, u) && OfferOnProposal(s, oid) && !OfferIs(s, oid, to)
    ensures OfferIs(Withdraw(s, u, t).state, oid, to) <==> OfferGoes(s, ReqWithdraw(u), oid, to)
  {
    forall o ensures !CancelledTwice(s, u, o) {
      AutoCancelsDisjoint(s, now, u, o);
    }
    assert OfferAt(s.proposals.rows, s.offers.rows, oid, now);
  }

  lemma ReceiptMovesOffer(s: State, now: Time, x: Id, u: UserId, t: Ticks, oid: Id, to: OfferStatus)
    requires Inv(s, now) && Active(s.users, u) && OfferOnProposal(s, oid) && !OfferIs(s, oid, to)
    ensures OfferIs(ConfirmReceived(s, x, u, t).state, oid, to) <==> OfferGoes(s, ReqConfirmReceived(u, x), oid, to)
  {
    assert OfferAt(s.proposals.rows, s.offers.rows, oid, now);
    if x in s.proposals.rows {
      LookupFinds(s, now, x, oid);
    }
  }

  lemma DisputeMovesOffer(s: State, now: Time, x: Id, u: UserId, q: Id, active: bool, why: string, t: Ticks, oid: Id,
                          to: OfferStatus)
    requires Inv(s, now) && Active(s.users, u) && OfferOnProposal(s, oid) && !OfferIs(s, oid, to)
    ensures OfferIs(ProposalDispute(s, x, u, q, active, why, t).state, oid, to) <==>
                OfferGoes(s, ReqProposalDispute(u, x, q, active, why), oid, to)
  {
    assert OfferAt(s.proposals.rows, s.offers.rows, oid, now);
    DisputeDoes(s, now, x, u, q, active, why, t);
    if x in s.proposals.rows {
      LookupFinds(s, now, x, oid);
    }
  }

  lemma DeliveryMovesOffer(s: State, now: Time, x: Id, u: UserId, t: Ticks, oid: Id, to: OfferStatus)
    requires Inv(s, now) && Active(s.users, u) && OfferOnProposal(s, oid) && !OfferIs(s, oid, to)
    ensures OfferIs(CompleteDelivery(s, x, u, t).state, oid, to) <==> OfferGoes(s, ReqCompleteDelivery(u, x), oid, to)
  {
    assert OfferAt(s.proposals.rows, s.offers.rows, oid, now);
  }

  lemma RunnerDisputeMovesOffer(s: State, now: Time, x: Id, u: UserId, q: Id, active: bool, why: string, t: Ticks,
                                oid: Id, to: OfferStatus)
    requires Inv(s, now) && Active(s.users, u) && OfferOnProposal(s, oid) && !OfferIs(s, oid, to)
    ensures OfferIs(OfferDispute(s, x, u, q, active, why, t).state, oid, to) <==>
                OfferGoes(s, ReqOfferDispute(u, x, q, active, why), oid, to)
  {
    assert OfferAt(s.proposals.rows, s.offers.rows, oid, now);
  }

  lemma ResolveMovesOffer(s: State, now: Time, x: Id, t: Ticks, oid: Id, to: OfferStatus)
    requires Inv(s, now) && OfferOnProposal(s, oid) && !OfferIs(s, oid, to)
    ensures OfferIs(OfferResolve(s, x, t).state, oid, to) <==> OfferGoes(s, ReqOfferResolve(x), oid, to)
  {
    assert OfferAt(s.proposals.rows, s.offers.rows, oid, now);
  }

  ghost predicate OfferGoesAsGuarded(s: State, r: Request, t: Ticks, oid: Id, to: OfferStatus) {
    OfferIs(Step(s, r, t).state, oid, to) <==> OfferGoes(s, r, oid, to)
  }

  lemma ClosingMovesOffer(s: State, now: Time, r: Request, t: Ticks, oid: Id, to: OfferStatus)
    requires Inv(s, now) && OfferOnProposal(s, oid) && !OfferIs(s, oid, to)
    requires Admitted(s, r) && ClosingRequest(r)
    ensures OfferGoesAsGuarded(s, r, t, oid, to)
  {
    match r
    case ReqProposalCancel(u, x) => ProposalCancelMovesOffer(s, now, x, u, oid, to);
    case ReqReportAccept(rid) => ReportMovesOffer(s, now, rid, t, oid, to);
    case ReqWithdraw(u) => WithdrawalMovesOffer(s, now, u, t, oid, to);
  }

  lemma BiddingMovesOffer(s: State, now: Time, r: Request, t: Ticks, oid: Id, to: OfferStatus)
    requires Inv(s, now) && OfferOnProposal(s, oid) && !OfferIs(s, oid, to)
    requires Admitted(s, r) && BiddingRequest(r)
    ensures OfferGoesAsGuarded(s, r, t, oid, to)
  {
    match r
    case ReqOfferCreate(u, x) =>
    case ReqOfferAccept(u, x) => AcceptMovesOffer(s, now, x, u, t, oid, to);
    case ReqOfferCancel(u, x) => CancelMovesOffer(s, now, x, u, oid, to);
  }

  lemma OrdererMovesOffer(s: State, now: Time, r: Request, t: Ticks, oid: Id, to: OfferStatus)
    requires Inv(s, now) && OfferOnProposal(s, oid) && !OfferIs(s, oid, to)
    requires Admitted(s, r) && OrdererRequest(r)
    ensures OfferGoesAsGuarded(s, r, t, oid, to)
  {
    match r
    case ReqConfirmReceived(u, x) => ReceiptMovesOffer(s, now, x, u, t, oid, to);
    case ReqProposalDispute(u, x, q, active, why) => DisputeMovesOffer(s, now, x, u, q, active, why, t, oid, to);
  }

  lemma RunnerMovesOffer(s: State, now: Time, r: Request, t: Ticks, oid: Id, to: OfferStatus)
    requires Inv(s, now) && OfferOnProposal(s, oid) && !OfferIs(s, oid, to)
    requires Admitted(s, r) && RunnerRequest(r)
    ensures OfferGoesAsGuarded(s, r, t, oid, to)
  {
    match r
    case ReqCompleteDelivery(u, x) => DeliveryMovesOffer(s, now, x, u, t, oid, to);
    case ReqOfferDispute(u, x, q, active, why) => RunnerDisputeMovesOffer(s, now, x, u, q, active, why, t, oid, to);
    case ReqOfferResolve(x) => ResolveMovesOffer(s, now, x, t, oid, to);
  }

  lemma OthersLeaveOffer(s: State, r: Request, t: Ticks, oid: Id, to: OfferStatus)
    requires OfferOnProposal(s, oid) && s.offers.next !in s.offers.rows && !OfferIs(s, oid, to)
    requires !ClosingRequest(r) && !BiddingRequest(r) && !OrdererRequest(r) && !RunnerRequest(r)
    ensures OfferGoesAsGuarded(s, r, t, oid, to)
  {
  }

  lemma RefusedLeavesOffer(s: State, r: Request, t: Ticks, oid: Id, to: OfferStatus)
    requires OfferOnProposal(s, oid) && !OfferIs(s, oid, to) && !Admitted(s, r)
    ensures OfferGoesAsGuarded(s, r, t, oid, to)
  {
  }

  lemma AdmittedMovesOffer(s: State, now: Time, r: Request, t: Ticks, oid: Id, to: OfferStatus)
    requires Inv(s, now) && OfferOnProposal(s, oid) && !OfferIs(s, oid, to) && Admitted(s, r)
    ensures OfferGoesAsGuarded(s, r, t, oid, to)
  {
    if ClosingRequest(r) {
      ClosingMovesOffer(s, now, r, t, oid, to);
    } else if BiddingRequest(r) {
      BiddingMovesOffer(s, now, r, t, oid, to);
    } else if OrdererRequest(r) {
      OrdererMovesOffer(s, now, r, t, oid, to);
    } else if RunnerRequest(r) {
      RunnerMovesOffer(s, now, r, t, oid, to);
    } else {
      OthersLeaveOffer(s, r, t, oid, to);
    }
  }

  /** The same for offers. */
  lemma OfferGoesIff(s: State, now: Time, r: Request, t: Ticks, oid: Id, to: OfferStatus)
    requires Reachable(s, now) && oid in s.offers.rows && s.offers.rows[oid].status != to
    ensures OfferOnProposal(s, oid) && OfferGoesAsGuarded(s, r, t, oid, to)
  {
    ReachableInv(s, now);
    assert OfferAt(s.proposals.rows, s.offers.rows, oid, now);
    if Admitted(s, r) {
      AdmittedMovesOffer(s, now, r, t, oid, to);
    } else {
      RefusedLeavesOffer(s, r, t, oid, to);
    }
  }

  // ---------------------------------------------------------------- outside the documented diagrams

  /**
   * A proposal's status changes along no documented arrow, and not by completing at once, exactly when its active
   * orderer edits it, with a valid draft, while it is POSTED.
   */
  lemma LeavesProposalDiagramIff(s: State, now: Time, r: Request, t: Ticks, pid: Id)
    requires Reachable(s, now) && pid in s.proposals.rows && pid in Step(s, r, t).state.proposals.rows
    ensures var p := s.proposals.rows[pid];
            && (&& ProposalNext(s, r, t, pid) != p.status
                && !DocumentedProposalArrow(p.status, ProposalNext(s, r, t, pid))
                && !CompletesAtOnce(p.status, ProposalNext(s, r, t, pid))
                <==>
                && r.ReqProposalUpdate? && r.proposal == pid && Active(s.users, r.actor) && p.orderer == r.actor
                && p.status.Posted? && DraftError(r.draft, t.t0).None?)
  {
    var p := s.proposals.rows[pid];
    ReachableInv(s, now);
    StepMoves(s, now, r, t, pid, 0, 0);
    if !p.status.Holding? {
      ProposalGoesIff(s, now, r, t, pid, Holding);
    }
  }

  /** It completes at once exactly when its active orderer confirms after the runner. */
  lemma CompletesAtOnceIff(s: State, now: Time, r: Request, t: Ticks, pid: Id)
    requires Reachable(s, now) && pid in s.proposals.rows && pid in Step(s, r, t).state.proposals.rows
    ensures var p := s.proposals.rows[pid];
            && (CompletesAtOnce(p.status, ProposalNext(s, r, t, pid))
                <==>
                && r.ReqConfirmReceived? && r.proposal == pid && Active(s.users, r.actor) && p.orderer == r.actor
                && p.status.Matched? && RunnerDone(s.offers.rows, pid))
  {
    var p := s.proposals.rows[pid];
    if p.status.Matched? {
      ProposalGoesIff(s, now, r, t, pid, ProposalStatus.AllCompleted);
    }
  }

  /** An offer completes at once exactly when its active runner delivers after the orderer. */
  lemma OfferCompletesAtOnceIff(s: State, now: Time, r: Request, t: Ticks, oid: Id)
    requires Reachable(s, now) && oid in s.offers.rows && oid in Step(s, r, t).state.offers.rows
    ensures OfferOnProposal(s, oid)
    ensures var o := s.offers.rows[oid];
            && (OfferCompletesAtOnce(o.status, OfferNext(s, r, t, oid))
                <==>
                && r.ReqCompleteDelivery? && r.offer == oid && Active(s.users, r.actor) && o.runner == r.actor
                && o.status.Accepted? && s.proposals.rows[o.proposal].status.OrderCompleted?)
  {
    ReachableInv(s, now);
    assert OfferAt(s.proposals.rows, s.offers.rows, oid, now);
    if s.offers.rows[oid].status.Accepted? {
      OfferGoesIff(s, now, r, t, oid, OfferStatus.AllCompleted);
    }
  }

  /**
   * A waiting offer is cancelled by someone other than its runner exactly when the active orderer of its proposal
   * withdraws, and nothing blocks the withdrawal.
   */
  lemma CancelledByOtherIff(s: State, now: Time, r: Request, t: Ticks, oid: Id)
    requires Reachable(s, now) && oid in s.offers.rows && s.offers.rows[oid].status.Waiting?
    ensures OfferOnProposal(s, oid)
    ensures
      && OfferIs(Step(s, r, t).state, oid, OfferStatus.Cancelled) && Bearer(r) != Some(s.offers.rows[oid].runner)
      <==>
      && r.ReqWithdraw? && Active(s.users, r.actor) && !HasBlockingActivity(s, r.actor)
      && s.proposals.rows[s.offers.rows[oid].proposal].orderer == r.actor
  {
    ReachableInv(s, now);
    assert OfferAt(s.proposals.rows, s.offers.rows, oid, now);
    OfferGoesIff(s, now, r, t, oid, OfferStatus.Cancelled);
  }

  // ---------------------------------------------------------------- who may move what

  /** The three commands that move proposals or offers without any token: the admin router checks nobody. */
  predicate NeedsNoToken(r: Request) {
    r.ReqConfirmPayment? || r.ReqReportAccept? || r.ReqOfferResolve?
  }

  /**
   * What changes a proposal's status comes from its orderer, a runner of one of its offers or of a new one, or is one
   * of the three commands that need no token.
   */
  lemma WhoMovesProposals(s: State, now: Time, r: Request, t: Ticks, pid: Id)
    requires Reachable(s, now) && pid in s.proposals.rows && pid in Step(s, r, t).state.proposals.rows
    requires ProposalNext(s, r, t, pid) != s.proposals.rows[pid].status
    ensures NeedsNoToken(r) || (Bearer(r).Some? && Active(s.users, Bearer(r).value))
    ensures NeedsNoToken(r) || Bearer(r).value == s.proposals.rows[pid].orderer
         || r.ReqOfferCreate? || exists o :: OfferBy(s.offers.rows, pid, Bearer(r).value, o)
  {
    ProposalGoesIff(s, now, r, t, pid, ProposalNext(s, r, t, pid));
    if (r.ReqCompleteDelivery? || r.ReqOfferDispute?) && OfferOf(s.offers.rows, pid, r.offer) {
      assert OfferBy(s.offers.rows, pid, s.offers.rows[r.offer].runner, r.offer);
    }
  }

  /** And an offer's: from its runner or the orderer of its proposal, or one of those three. */
  lemma WhoMovesOffers(s: State, now: Time, r: Request, t: Ticks, oid: Id)
    requires Reachable(s, now) && oid in s.offers.rows && oid in Step(s, r, t).state.offers.rows
    requires OfferNext(s, r, t, oid) != s.offers.rows[oid].status
    ensures OfferOnProposal(s, oid)
    ensures NeedsNoToken(r)
         || Bearer(r) in {Some(s.offers.rows[oid].runner), Some(s.proposals.rows[s.offers.rows[oid].proposal].orderer)}
  {
    OfferGoesIff(s, now, r, t, oid, OfferNext(s, r, t, oid));
  }
}

/** What one request, and then a whole run, can change about rows that already exist. */
module Transitions {
  import opened Rows
  import opened MarketSpec
  import opened AccountSpec
  import opened Runs
  import opened Invariants

  // ---------------------------------------------------------------- the status diagrams

  /** The proposal diagram of docs/domain.md. */
  predicate DocumentedProposalArrow(a: ProposalStatus, b: ProposalStatus) {
    match a
    case Holding => b.Posted? || b.Cancelled?
    case Posted => b.Offered? || b.Reported? || b.Cancelled?
    case Offered => b.Matched? || b.Reported? || b.Cancelled?
    case Matched => b.OrderCompleted? || b.Disputed?
    case OrderCompleted => b.AllCompleted? || b.Disputed?
    case Disputed => b.Resolved?
    case _ => false
  }

  /** The offer diagram of docs/domain.md. */
  predicate DocumentedOfferArrow(a: OfferStatus, b: OfferStatus) {
    match a
    case Waiting => b.Accepted? || b.Rejected? || b.Cancelled?
    case Accepted => b.RunnerCompleted? || b.Disputed?
    case RunnerCompleted => b.AllCompleted? || b.Disputed?
    case Disputed => b.Resolved?
    case _ => false
  }

  /** Two documented arrows in one commit: the second side confirms, and the pair completes at once. */
  predicate CompletesAtOnce(a: ProposalStatus, b: ProposalStatus) {
    a.Matched? && b.AllCompleted?
  }

  predicate OfferCompletesAtOnce(a: OfferStatus, b: OfferStatus) {
    a.Accepted? && b.AllCompleted?
  }

  /** What proposals do: the documented arrows, the two in one, and an edit that takes a posted one back. */
  predicate ProposalArrow(a: ProposalStatus, b: ProposalStatus) {
    DocumentedProposalArrow(a, b) || CompletesAtOnce(a, b) || (a.Posted? && b.Holding?)
  }

  predicate OfferArrow(a: OfferStatus, b: OfferStatus) {
    DocumentedOfferArrow(a, b) || OfferCompletesAtOnce(a, b)
  }

  /** `p` survives with its owner, its status follows an arrow, and a closed row does not change at all. */
  predicate ProposalMoves(ps: Proposals, ps': Proposals, p: Id) {
    p in ps ==>
      && p in ps' && ps'[p].orderer == ps[p].orderer && ps'[p].createdAt == ps[p].createdAt
      && (ps'[p].status == ps[p].status || ProposalArrow(ps[p].status, ps'[p].status))
      && (ClosedProposalStatus(ps[p].status) ==> ps'[p] == ps[p])
  }

  /** The same for an offer; only the operator's chat link is free to change. */
  predicate OfferMoves(os: Offers, os': Offers, o: Id) {
    o in os ==>
      && o in os' && os'[o].proposal == os[o].proposal && os'[o].runner == os[o].runner
      && os'[o].createdAt == os[o].createdAt
      && (os'[o].status == os[o].status || OfferArrow(os[o].status, os'[o].status))
      && (ClosedOfferStatus(os[o].status) ==> os'[o] == os[o].(openChatUrl := os'[o].openChatUrl))
  }

  /** New rows belong to users who were active. */
  predicate ProposalEnters(users: map<UserId, UserRow>, ps: Proposals, ps': Proposals, p: Id) {
    p in ps' && p !in ps ==> Active(users, ps'[p].orderer) && ps'[p].status.Holding?
  }

  predicate OfferEnters(users: map<UserId, UserRow>, os: Offers, os': Offers, o: Id) {
    o in os' && o !in os ==> Active(users, os'[o].runner) && os'[o].status.Waiting?
  }

  /** Users stay; a withdrawn row never changes; levels never fall. */
  predicate UserMoves(users: map<UserId, UserRow>, users': map<UserId, UserRow>, u: UserId) {
    u in users ==> u in users' && users[u].level <= users'[u].level && (users[u].deleted ==> users'[u] == users[u])
  }

  predicate RowsMove(s: State, s': State, p: Id, o: Id, u: UserId) {
    && ProposalMoves(s.proposals.rows, s'.proposals.rows, p)
    && ProposalEnters(s.users, s.proposals.rows, s'.proposals.rows, p)
    && OfferMoves(s.offers.rows, s'.offers.rows, o)
    && OfferEnters(s.users, s.offers.rows, s'.offers.rows, o)
    && UserMoves(s.users, s'.users, u)
  }

  // ---------------------------------------------------------------- one request

  lemma OfferCreateMoves(s: State, pid: Id, runner: UserId, t: Ticks, p: Id, o: Id, u: UserId)
    requires Active(s.users, runner) && s.offers.next !in s.offers.rows
    ensures RowsMove(s, OfferCreate(s, pid, runner, t).state, p, o, u)
  {
  }

  lemma OfferCancelMoves(s: State, oid: Id, runner: UserId, p: Id, o: Id, u: UserId)
    ensures RowsMove(s, OfferCancel(s, oid, runner).state, p, o, u)
  {
  }

  /** The chosen offer and the ones turned down. */
  lemma AcceptedOfferMoves(os: Offers, pid: Id, oid: Id, at: Time, o: Id)
    requires oid in os && os[oid].status.Waiting?
    ensures var o' := os[oid].(status := OfferStatus.Accepted, acceptedAt := Some(at));
            OfferMoves(os, RejectWaiting(os, pid)[oid := o'], o)
  {
  }

  lemma OfferAcceptMovesOffer(s: State, oid: Id, orderer: UserId, t: Ticks, o: Id)
    ensures OfferMoves(s.offers.rows, OfferAccept(s, oid, orderer, t).state.offers.rows, o)
  {
    if OfferAccept(s, oid, orderer, t).result.Ok? {
      AcceptedOfferMoves(s.offers.rows, s.offers.rows[oid].proposal, oid, t.t0, o);
    } else {
      assert OfferAccept(s, oid, orderer, t).state == s;
    }
  }

  lemma OfferAcceptMovesOthers(s: State, oid: Id, orderer: UserId, t: Ticks, p: Id, o: Id, u: UserId)
    ensures ProposalMoves(s.proposals.rows, OfferAccept(s, oid, orderer, t).state.proposals.rows, p)
    ensures ProposalEnters(s.users, s.proposals.rows, OfferAccept(s, oid, orderer, t).state.proposals.rows, p)
    ensures OfferEnters(s.users, s.offers.rows, OfferAccept(s, oid, orderer, t).state.offers.rows, o)
    ensures UserMoves(s.users, OfferAccept(s, oid, orderer, t).state.users, u)
  {
  }

  lemma AssignChatUrlMoves(s: State, oid: Id, url: Option<string>, p: Id, o: Id, u: UserId)
    ensures RowsMove(s, AssignChatUrl(s, oid, url).state, p, o, u)
  {
  }

  lemma CompleteDeliveryMoves(s: State, oid: Id, runner: UserId, t: Ticks, p: Id, o: Id, u: UserId)
    requires RunnerAt(s.users, s.offers.rows, oid)
    ensures RowsMove(s, CompleteDelivery(s, oid, runner, t).state, p, o, u)
  {
  }

  /** One row of each table is replaced, along the arrows; a level may rise. */
  lemma PairMoves(s: State, s': State, pid: Id, oid: Id, p: Id, o: Id, u: UserId)
    requires pid in s.proposals.rows && pid in s'.proposals.rows && oid in s.offers.rows && oid in s'.offers.rows
    requires s'.proposals.rows == s.proposals.rows[pid := s'.proposals.rows[pid]]
    requires s'.offers.rows == s.offers.rows[oid := s'.offers.rows[oid]]
    requires ProposalMoves(s.proposals.rows, s'.proposals.rows, pid)
    requires OfferMoves(s.offers.rows, s'.offers.rows, oid)
    requires s'.users == s.users || (Active(s.users, s.offers.rows[oid].runner)
                                     && s'.users == BumpLevel(s.users, s.offers.rows[oid].runner))
    ensures RowsMove(s, s', p, o, u)
  {
  }

  lemma ConfirmReceivedMoves(s: State, pid: Id, orderer: UserId, t: Ticks, p: Id, o: Id, u: UserId)
    requires ExecutionOffer(s.offers, pid).Some? ==>
                 RunnerAt(s.users, s.offers.rows, ExecutionOffer(s.offers, pid).value)
    ensures RowsMove(s, ConfirmReceived(s, pid, orderer, t).state, p, o, u)
  {
    if ConfirmReceived(s, pid, orderer, t).result.Ok? {
      PairMoves(s, ConfirmReceived(s, pid, orderer, t).state, pid, ExecutionOffer(s.offers, pid).value, p, o, u);
    } else {
      assert ConfirmReceived(s, pid, orderer, t).state == s;
    }
  }

  lemma OfferResolveMoves(s: State, oid: Id, t: Ticks, p: Id, o: Id, u: UserId)
    ensures RowsMove(s, OfferResolve(s, oid, t).state, p, o, u)
  {
  }

  lemma OfferDisputeMoves(s: State, oid: Id, runner: UserId, q: Id, active: bool, reason: string, t: Ticks, p: Id,
                          o: Id, u: UserId)
    ensures RowsMove(s, OfferDispute(s, oid, runner, q, active, reason, t).state, p, o, u)
  {
  }

  lemma ProposalDisputeMoves(s: State, pid: Id, orderer: UserId, q: Id, active: bool, reason: string, t: Ticks,
                             p: Id, o: Id, u: UserId)
    ensures RowsMove(s, ProposalDispute(s, pid, orderer, q, active, reason, t).state, p, o, u)
  {
    var out := ProposalDispute(s, pid, orderer, q, active, reason, t);
    if out.result.Ok? {
      PairMoves(s, out.state, pid, ExecutionOffer(s.offers, pid).value, p, o, u);
    } else {
      assert out.state == s;
    }
  }

  lemma ProposalCreateMoves(s: State, orderer: UserId, d: Draft, t: Ticks, p: Id, o: Id, u: UserId)
    requires s.proposals.next !in s.proposals.rows
    ensures RowsMove(s, ProposalCreate(s, orderer, d, t).state, p, o, u)
  {
  }

  lemma ProposalUpdateMoves(s: State, pid: Id, d: Draft, orderer: UserId, t: Ticks, p: Id, o: Id, u: UserId)
    ensures RowsMove(s, ProposalUpdate(s, pid, d, orderer, t).state, p, o, u)
  {
  }

  lemma ConfirmPaymentMoves(s: State, pid: Id, p: Id, o: Id, u: UserId)
    ensures RowsMove(s, ConfirmPayment(s, pid).state, p, o, u)
  {
  }

  lemma ProposalCancelMoves(s: State, pid: Id, orderer: UserId, p: Id, o: Id, u: UserId)
    ensures RowsMove(s, ProposalCancel(s, pid, orderer).state, p, o, u)
  {
  }

  lemma ReportAcceptMoves(s: State, rid: Id, t: Ticks, p: Id, o: Id, u: UserId)
    ensures RowsMove(s, ReportAccept(s, rid, t).state, p, o, u)
  {
  }

  lemma SignupConfirmMoves(s: State, phone: Phone, h: int, newId: UserId, t: Ticks, p: Id, o: Id, u: UserId)
    ensures RowsMove(s, SignupConfirm(s, phone, h, newId, t).state, p, o, u)
  {
  }

  lemma LoginConfirmMoves(s: State, phone: Phone, h: int, bypass: bool, token: Option<string>, t: Ticks, p: Id, o: Id,
                          u: UserId)
    ensures RowsMove(s, LoginConfirm(s, phone, h, bypass, token, t).state, p, o, u)
  {
  }

  lemma SetAlarmMoves(s: State, who: UserId, on: bool, p: Id, o: Id, u: UserId)
    ensures RowsMove(s, SetAlarm(s, who, on).state, p, o, u)
  {
  }

  lemma SetNameMoves(s: State, who: UserId, name: string, p: Id, o: Id, u: UserId)
    ensures RowsMove(s, SetName(s, who, name).state, p, o, u)
  {
  }

  lemma WithdrawMovesOffer(s: State, who: UserId, t: Ticks, o: Id)
    ensures OfferMoves(s.offers.rows, Withdraw(s, who, t).state.offers.rows, o)
  {
  }

  lemma WithdrawMovesOthers(s: State, who: UserId, t: Ticks, p: Id, o: Id, u: UserId)
    ensures ProposalMoves(s.proposals.rows, Withdraw(s, who, t).state.proposals.rows, p)
    ensures ProposalEnters(s.users, s.proposals.rows, Withdraw(s, who, t).state.proposals.rows, p)
    ensures OfferEnters(s.users, s.offers.rows, Withdraw(s, who, t).state.offers.rows, o)
    ensures UserMoves(s.users, Withdraw(s, who, t).state.users, u)
  {
  }

  /** The facts of the invariant that bear on these rows: runners of unfinished offers are active, keys are fresh. */
  ghost predicate Known(s: State) {
    && (forall o :: RunnerAt(s.users, s.offers.rows, o))
    && s.proposals.next !in s.proposals.rows && s.offers.next !in s.offers.rows
  }

  lemma OfferRequestMoves(s: State, r: Request, t: Ticks, p: Id, o: Id, u: UserId)
    requires Known(s) && (Bearer(r).Some? ==> Active(s.users, Bearer(r).value))
    requires r.ReqOfferCreate? || r.ReqOfferCancel? || r.ReqOfferAccept? || r.ReqAssignChatUrl?
    ensures RowsMove(s, Serve(s, r, t).state, p, o, u)
  {
    match r
    case ReqOfferCreate(a, x) =>
      OfferCreateMoves(s, x, a, t, p, o, u);
    case ReqOfferCancel(a, x) =>
      OfferCancelMoves(s, x, a, p, o, u);
    case ReqOfferAccept(a, x) =>
      OfferAcceptMovesOffer(s, x, a, t, o);
      OfferAcceptMovesOthers(s, x, a, t, p, o, u);
    case ReqAssignChatUrl(x, url) =>
      AssignChatUrlMoves(s, x, url, p, o, u);
  }

  lemma ExecutionRequestMoves(s: State, r: Request, t: Ticks, p: Id, o: Id, u: UserId)
    requires Known(s) && (Bearer(r).Some? ==> Active(s.users, Bearer(r).value))
    requires r.ReqCompleteDelivery? || r.ReqOfferResolve? || r.ReqOfferDispute?
    ensures RowsMove(s, Serve(s, r, t).state, p, o, u)
  {
    match r
    case ReqCompleteDelivery(a, x) =>
      CompleteDeliveryMoves(s, x, a, t, p, o, u);
    case ReqOfferResolve(x) =>
      OfferResolveMoves(s, x, t, p, o, u);
    case ReqOfferDispute(a, x, q, active, reason) =>
      OfferDisputeMoves(s, x, a, q, active, reason, t, p, o, u);
  }

  lemma OrdererRequestMoves(s: State, r: Request, t: Ticks, p: Id, o: Id, u: UserId)
    requires Known(s) && (Bearer(r).Some? ==> Active(s.users, Bearer(r).value))
    requires r.ReqConfirmReceived? || r.ReqProposalDispute?
    ensures RowsMove(s, Serve(s, r, t).state, p, o, u)
  {
    match r
    case ReqConfirmReceived(a, x) =>
      ConfirmReceivedMoves(s, x, a, t, p, o, u);
    case ReqProposalDispute(a, x, q, active, reason) =>
      ProposalDisputeMoves(s, x, a, q, active, reason, t, p, o, u);
  }

  lemma ProposalRequestMoves(s: State, r: Request, t: Ticks, p: Id, o: Id, u: UserId)
    requires Known(s) && (Bearer(r).Some? ==> Active(s.users, Bearer(r).value))
    requires r.ReqProposalCreate? || r.ReqProposalUpdate? || r.ReqConfirmPayment? || r.ReqProposalCancel?
        || r.ReqReportAccept?
    ensures RowsMove(s, Serve(s, r, t).state, p, o, u)
  {
    match r
    case ReqProposalCreate(a, d) =>
      ProposalCreateMoves(s, a, d, t, p, o, u);
    case ReqProposalUpdate(a, x, d) =>
      ProposalUpdateMoves(s, x, d, a, t, p, o, u);
    case ReqConfirmPayment(x) =>
      ConfirmPaymentMoves(s, x, p, o, u);
    case ReqProposalCancel(a, x) =>
      ProposalCancelMoves(s, x, a, p, o, u);
    case ReqReportAccept(x) =>
      ReportAcceptMoves(s, x, t, p, o, u);
  }

  lemma AccountRequestMoves(s: State, r: Request, t: Ticks, p: Id, o: Id, u: UserId)
    requires Known(s) && (Bearer(r).Some? ==> Active(s.users, Bearer(r).value))
    requires r.ReqSignupConfirm? || r.ReqLoginConfirm? || r.ReqSetAlarm? || r.ReqSetName? || r.ReqWithdraw?
    ensures RowsMove(s, Serve(s, r, t).state, p, o, u)
  {
    match r
    case ReqSignupConfirm(phone, h, newId) =>
      SignupConfirmMoves(s, phone, h, newId, t, p, o, u);
    case ReqLoginConfirm(phone, h, bypass, token) =>
      LoginConfirmMoves(s, phone, h, bypass, token, t, p, o, u);
    case ReqSetAlarm(a, on) =>
      SetAlarmMoves(s, a, on, p, o, u);
    case ReqSetName(a, name) =>
      SetNameMoves(s, a, name, p, o, u);
    case ReqWithdraw(a) =>
      WithdrawMovesOffer(s, a, t, o);
      WithdrawMovesOthers(s, a, t, p, o, u);
  }

  lemma OtherRequestMoves(s: State, r: Request, t: Ticks, p: Id, o: Id, u: UserId)
    requires
      || r.ReqSignupSend? || r.ReqLoginSend? || r.ReqSetFcmToken? || r.ReqSaveAccount?
      || r.ReqReportCreate? || r.ReqReportReject?
      || r.ReqSendToUser? || r.ReqMarkRead? || r.ReqWorker?
    ensures RowsMove(s, Serve(s, r, t).state, p, o, u)
  {
    assert Serve(s, r, t).state.(reports := s.reports, notifications := s.notifications,
                                 verifications := s.verifications,
                                 fcmTokens := s.fcmTokens, accounts := s.accounts) == s;
  }

  /** No request does more to these rows than the diagrams allow. */
  lemma StepMoves(s: State, now: Time, r: Request, t: Ticks, p: Id, o: Id, u: UserId)
    requires Inv(s, now)
    ensures RowsMove(s, Step(s, r, t).state, p, o, u)
  {
    if Bearer(r).None? || Active(s.users, Bearer(r).value) {
      assert Known(s);
      ServeMoves(s, r, t, p, o, u);
    }
  }

  lemma ServeMoves(s: State, r: Request, t: Ticks, p: Id, o: Id, u: UserId)
    requires Known(s) && (Bearer(r).Some? ==> Active(s.users, Bearer(r).value))
    ensures RowsMove(s, Serve(s, r, t).state, p, o, u)
  {
    if r.ReqOfferCreate? || r.ReqOfferCancel? || r.ReqOfferAccept? || r.ReqAssignChatUrl? {
      OfferRequestMoves(s, r, t, p, o, u);
    } else if r.ReqCompleteDelivery? || r.ReqOfferResolve? || r.ReqOfferDispute? {
      ExecutionRequestMoves(s, r, t, p, o, u);
    } else if r.ReqConfirmReceived? || r.ReqProposalDispute? {
      OrdererRequestMoves(s, r, t, p, o, u);
    } else if r.ReqProposalCreate? || r.ReqProposalUpdate? || r.ReqConfirmPayment? || r.ReqProposalCancel?
        || r.ReqReportAccept? {
      ProposalRequestMoves(s, r, t, p, o, u);
    } else if r.ReqSignupConfirm? || r.ReqLoginConfirm? || r.ReqSetAlarm? || r.ReqSetName? || r.ReqWithdraw? {
      AccountRequestMoves(s, r, t, p, o, u);
    } else {
      OtherRequestMoves(s, r, t, p, o, u);
    }
  }
}

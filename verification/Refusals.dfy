/** Every refusal is true: what its error says is the case. */
module Refusals {
  import opened Rows
  import opened MarketSpec
  import opened AccountSpec
  import opened Runs
  import opened Invariants
  import opened Lifecycle
  import opened Execution
  import opened Bidding
  import opened Reporting
  import opened Signing

  /** The proposal a request of a user is about, if it names one. */
  function ProposalOf(r: Request): Option<Id> {
    match r
    case ReqProposalUpdate(_, p, _) => Some(p)
    case ReqProposalCancel(_, p) => Some(p)
    case ReqConfirmPayment(p) => Some(p)
    case ReqConfirmReceived(_, p) => Some(p)
    case ReqProposalDispute(_, p, _, _, _) => Some(p)
    case ReqOfferCreate(_, p) => Some(p)
    case ReqReportCreate(_, p, _, _) => Some(p)
    case _ => None
  }

  function OfferNamed(r: Request): Option<Id> {
    match r
    case ReqOfferCancel(_, o) => Some(o)
    case ReqOfferAccept(_, o) => Some(o)
    case ReqCompleteDelivery(_, o) => Some(o)
    case ReqOfferDispute(_, o, _, _, _) => Some(o)
    case ReqOfferResolve(o) => Some(o)
    case ReqAssignChatUrl(o, _) => Some(o)
    case _ => None
  }

  function ReportNamed(r: Request): Option<Id> {
    match r
    case ReqReportAccept(x) => Some(x)
    case ReqReportReject(x) => Some(x)
    case _ => None
  }

  function DraftOf(r: Request): Option<Draft> {
    match r
    case ReqProposalCreate(_, d) => Some(d)
    case ReqProposalUpdate(_, _, d) => Some(d)
    case _ => None
  }

  predicate NoSuchProposal(s: State, r: Request) {
    ProposalOf(r).Some? && ProposalOf(r).value !in s.proposals.rows
  }

  /** The proposal the request is about is there, and its status is none of `needed`. */
  predicate ProposalNotIn(s: State, r: Request, needed: set<ProposalStatus>) {
    && ProposalOf(r).Some? && ProposalOf(r).value in s.proposals.rows
    && s.proposals.rows[ProposalOf(r).value].status !in needed
  }

  predicate OfferNotIn(s: State, r: Request, needed: set<OfferStatus>) {
    && OfferNamed(r).Some? && OfferNamed(r).value in s.offers.rows
    && s.offers.rows[OfferNamed(r).value].status !in needed
  }

  /** Someone else's: an offer belongs to its runner, but is accepted by the orderer of its proposal. */
  predicate NotTheirs(s: State, r: Request) {
    && Bearer(r).Some?
    && var u := Bearer(r).value;
    || (ProposalOf(r).Some? && ProposalOf(r).value in s.proposals.rows
        && s.proposals.rows[ProposalOf(r).value].orderer != u)
    || (r.ReqOfferAccept? && r.offer in s.offers.rows && s.offers.rows[r.offer].proposal in s.proposals.rows
        && s.proposals.rows[s.offers.rows[r.offer].proposal].orderer != u)
    || (OfferNamed(r).Some? && !r.ReqOfferAccept? && OfferNamed(r).value in s.offers.rows
        && s.offers.rows[OfferNamed(r).value].runner != u)
  }

  predicate OwnProposal(s: State, r: Request) {
    && Bearer(r).Some? && ProposalOf(r).Some? && ProposalOf(r).value in s.proposals.rows
    && s.proposals.rows[ProposalOf(r).value].orderer == Bearer(r).value
  }

  predicate Inactive(r: Request) {
    || (r.ReqProposalDispute? && !r.questionActive) || (r.ReqOfferDispute? && !r.questionActive)
    || (r.ReqReportCreate? && !r.questionActive)
  }

  predicate PhoneRequest(r: Request) {
    r.ReqSignupSend? || r.ReqLoginSend? || r.ReqSignupConfirm? || r.ReqLoginConfirm?
  }

  function PurposeOf(r: Request): Purpose {
    if r.ReqSignupSend? || r.ReqSignupConfirm? then Signup else Login
  }

  ghost predicate CodeIsGood(s: State, r: Request, t: Ticks) {
    PhoneRequest(r) && HasGoodCode(s, PurposeOf(r), r.phone, t.t0)
  }

  /** What error `e`, in answer to `r`, says about the database. */
  ghost predicate IsSo(s: State, r: Request, t: Ticks, e: Error) {
    match e
    case UserNotFound =>
      || (Bearer(r).Some? && !Active(s.users, Bearer(r).value))
      || (r.ReqLoginConfirm? && !HasMember(s, r.phone))
    case Forbidden => NotTheirs(s, r)
    case ValidationError => Inactive(r)
    case ProposalNotFound => NoSuchProposal(s, r)
    case OfferProposalNotFound => NoSuchProposal(s, r)
    case ProposalDeadlineInvalid => DraftOf(r).Some? && DraftOf(r).value.deadline <= t.t0
    case ProposalErrandFeeInvalid => DraftOf(r).Some? && DraftOf(r).value.errandFee < 1000
    case ProposalNotEditable => ProposalNotIn(s, r, {Holding, Posted})
    case ProposalNotCancellable => ProposalNotIn(s, r, {Holding, Posted, Offered})
    case InvalidStatus => ProposalNotIn(s, r, {Holding})
    case ProposalNotUpdatable =>
      ProposalNotIn(s, r, if r.ReqConfirmReceived? then {Matched} else {Matched, OrderCompleted})
    case ProposalNotOpen => ProposalNotIn(s, r, {Posted, Offered})
    case OfferNotFound =>
      || (OfferNamed(r).Some? && OfferNamed(r).value !in s.offers.rows)
      || ProposalNotIn(s, r, {Matched, OrderCompleted, ProposalStatus.AllCompleted, ProposalStatus.Disputed})
    case SelfOfferNotAllowed => OwnProposal(s, r)
    case DuplicateOffer => r.ReqOfferCreate? && HasBid(s, r.actor, r.proposal)
    case OfferNotCancellable => OfferNotIn(s, r, {Waiting})
    case OfferNotAcceptable => OfferNotIn(s, r, {Waiting})
    case OfferNotUpdatable =>
      OfferNotIn(s, r, if r.ReqCompleteDelivery? then {OfferStatus.Accepted}
                       else if r.ReqOfferDispute? then {OfferStatus.Accepted, RunnerCompleted}
                       else {OfferStatus.Disputed})
    case ProposalSelfReportNotAllowed => OwnProposal(s, r)
    case ProposalNotReportable =>
      || ProposalNotIn(s, r, {Posted, Offered})
      || (ReportNamed(r).Some? && ReportNamed(r).value in s.reports.rows
          && TakenOffOtherwise(s, s.reports.rows[ReportNamed(r).value].proposal))
    case DuplicateProposalReport => r.ReqReportCreate? && HasReported(s, r.actor, r.proposal)
    case ProposalReportNotFound => ReportNamed(r).Some? && ReportNamed(r).value !in s.reports.rows
    case ProposalReportNotReviewable =>
      && ReportNamed(r).Some? && ReportNamed(r).value in s.reports.rows
      && !s.reports.rows[ReportNamed(r).value].status.Pending?
    case UserWithdrawalBlocked => r.ReqWithdraw? && exists pid, oid :: LiveParty(s, r.actor, pid, oid)
    case PhoneVerificationAlreadySent => CodeIsGood(s, r, t)
    case SmsSenderNotConfigured => (r.ReqSignupSend? || r.ReqLoginSend?) && !r.smsReady
    case PhoneVerificationNotFound => PhoneRequest(r) && !CodeIsGood(s, r, t)
    case PhoneVerificationExpired => PhoneRequest(r) && !CodeIsGood(s, r, t)
    case PhoneVerificationCodeMismatch =>
      PhoneRequest(r) && CodeIsGood(s, r, t) && !HasRightCode(s, PurposeOf(r), r.phone, r.codeHash, t.t0)
    case PhoneAlreadyExists => PhoneRequest(r) && (HasMember(s, r.phone) || (r.ReqSignupConfirm? && r.newId in s.users))
    case InvalidCredentials => r.ReqLoginSend? && !HasMember(s, r.phone)
    case ProposalNotMatchable => false
    case DisputeEvidenceNotFound => false
    case ValueError => false
  }

  /** The proposal is there, neither open nor taken down by a report. */
  predicate TakenOffOtherwise(s: State, pid: Id) {
    pid in s.proposals.rows && s.proposals.rows[pid].status !in {Posted, Offered, Reported}
  }

  ghost predicate TellsTheTruth(s: State, r: Request, t: Ticks) {
    Step(s, r, t).result.Err? ==> IsSo(s, r, t, Step(s, r, t).result.error)
  }

  lemma CreateTells(s: State, r: Request, t: Ticks)
    requires r.ReqProposalCreate? || r.ReqConfirmPayment?
    ensures TellsTheTruth(s, r, t)
  {
  }

  lemma UpdateTells(s: State, r: Request, t: Ticks)
    requires r.ReqProposalUpdate?
    ensures TellsTheTruth(s, r, t)
  {
  }

  lemma CancelTells(s: State, r: Request, t: Ticks)
    requires r.ReqProposalCancel?
    ensures TellsTheTruth(s, r, t)
  {
  }

  lemma BidTells(s: State, r: Request, t: Ticks)
    requires r.ReqOfferCreate?
    ensures TellsTheTruth(s, r, t)
  {
    BidsIff(s, r.actor, r.proposal, t);
  }

  lemma RetractTells(s: State, r: Request, t: Ticks)
    requires r.ReqOfferCancel? || r.ReqAssignChatUrl?
    ensures TellsTheTruth(s, r, t)
  {
  }

  lemma AcceptTells(s: State, now: Time, r: Request, t: Ticks)
    requires Reachable(s, now) && r.ReqOfferAccept?
    ensures TellsTheTruth(s, r, t)
  {
    if r.offer in s.offers.rows {
      AcceptableIff(s, now, r.offer, r.actor, t);
    }
  }

  lemma DeliveryTells(s: State, now: Time, r: Request, t: Ticks)
    requires Reachable(s, now) && r.ReqCompleteDelivery?
    ensures TellsTheTruth(s, r, t)
  {
    OfferFacts(s, now, r.offer);
  }

  lemma RunnerDisputeTells(s: State, now: Time, r: Request, t: Ticks)
    requires Reachable(s, now) && r.ReqOfferDispute?
    ensures TellsTheTruth(s, r, t)
  {
    OfferFacts(s, now, r.offer);
  }

  lemma ResolveTells(s: State, now: Time, r: Request, t: Ticks)
    requires Reachable(s, now) && r.ReqOfferResolve?
    ensures TellsTheTruth(s, r, t)
  {
    OfferFacts(s, now, r.offer);
  }

  /** What the checks of the runner's requests rely on. */
  lemma OfferFacts(s: State, now: Time, oid: Id)
    requires Reachable(s, now)
    ensures oid in s.offers.rows ==>
              && s.offers.rows[oid].proposal in s.proposals.rows
              && Compatible(s.proposals.rows[s.offers.rows[oid].proposal].status, s.offers.rows[oid].status)
  {
    ReachableInv(s, now);
    assert OfferAt(s.proposals.rows, s.offers.rows, oid, now);
  }

  /** And those of the orderer's. */
  lemma LookupFacts(s: State, now: Time, pid: Id)
    requires Reachable(s, now) && pid in s.proposals.rows
    ensures var found, st := ExecutionOffer(s.offers, pid), s.proposals.rows[pid].status;
            && (found.Some? <==> st in {Matched, OrderCompleted, ProposalStatus.AllCompleted, ProposalStatus.Disputed})
            && (found.Some? ==> Compatible(st, s.offers.rows[found.value].status))
  {
    ExecutionLookup(s, now, pid);
    if ExecutionOffer(s.offers, pid).Some? {
      OfferFacts(s, now, ExecutionOffer(s.offers, pid).value);
    }
  }

  lemma ReceiptTells(s: State, now: Time, r: Request, t: Ticks)
    requires Reachable(s, now) && r.ReqConfirmReceived?
    ensures TellsTheTruth(s, r, t)
  {
    if r.proposal in s.proposals.rows {
      LookupFacts(s, now, r.proposal);
    }
  }

  lemma OrdererDisputeTells(s: State, now: Time, r: Request, t: Ticks)
    requires Reachable(s, now) && r.ReqProposalDispute?
    ensures TellsTheTruth(s, r, t)
  {
    if r.proposal in s.proposals.rows {
      LookupFacts(s, now, r.proposal);
    }
  }

  lemma ReportTells(s: State, r: Request, t: Ticks)
    requires r.ReqReportCreate?
    ensures TellsTheTruth(s, r, t)
  {
    if HasReportBy(s.reports.rows, r.proposal, r.actor) {
      var x :| x in s.reports.rows && s.reports.rows[x].proposal == r.proposal && s.reports.rows[x].reporter == r.actor;
      assert ReportBy(s.reports.rows, r.proposal, r.actor, x);
    }
  }

  lemma ReviewTells(s: State, now: Time, r: Request, t: Ticks)
    requires Reachable(s, now) && r.ReqReportAccept?
    ensures TellsTheTruth(s, r, t)
  {
    ReportFacts(s, now, r.report);
  }

  lemma RejectionTells(s: State, r: Request, t: Ticks)
    requires r.ReqReportReject?
    ensures TellsTheTruth(s, r, t)
  {
  }

  lemma ReportFacts(s: State, now: Time, rid: Id)
    requires Reachable(s, now)
    ensures rid in s.reports.rows ==> s.reports.rows[rid].proposal in s.proposals.rows
  {
    ReachableInv(s, now);
    assert ReportAt(s.proposals.rows, s.reports.rows, rid);
  }

  lemma WithdrawalTells(s: State, now: Time, r: Request, t: Ticks)
    requires Reachable(s, now) && r.ReqWithdraw?
    ensures TellsTheTruth(s, r, t)
  {
    ReachableInv(s, now);
    BlockedIffLiveParty(s, now, r.actor);
    NoGuardRaises(s, now, r, t);
  }

  lemma SignupSendTells(s: State, now: Time, r: Request, t: Ticks)
    requires Inv(s, now) && r.ReqSignupSend?
    ensures TellsTheTruth(s, r, t)
  {
    HolderIff(s, r.phone);
    GoodIffActive(s, now, Signup, r.phone, t.t0);
  }

  lemma LoginSendTells(s: State, now: Time, r: Request, t: Ticks)
    requires Inv(s, now) && r.ReqLoginSend?
    ensures TellsTheTruth(s, r, t)
  {
    HolderIff(s, r.phone);
    GoodIffActive(s, now, Login, r.phone, t.t0);
  }

  lemma PhoneFacts(s: State, now: Time, phone: Phone)
    requires Reachable(s, now)
    ensures HolderOf(s.users, phone).Some? <==> HasMember(s, phone)
    ensures PhoneTaken(s.users, phone) <==> HasMember(s, phone)
  {
    ReachableInv(s, now);
    HolderIff(s, phone);
    TakenIffMember(s, now, phone);
  }

  /** What `IsSo` wants of a refusal of the code, and of a passed one. */
  ghost predicate VerdictIsSo(s: State, purpose: Purpose, phone: Phone, h: int, at: Time) {
    var check := Verify(s.verifications, purpose, phone, h, at);
    if HasRightCode(s, purpose, phone, h, at) then check.Passed?
    else
      && check.Refused?
      && (if HasGoodCode(s, purpose, phone, at) then check.error == PhoneVerificationCodeMismatch
          else check.error in {PhoneVerificationNotFound, PhoneVerificationExpired})
  }

  lemma VerdictTells(s: State, now: Time, purpose: Purpose, phone: Phone, h: int, t: Ticks)
    requires Reachable(s, now) && t.Ordered() && now <= t.t0
    ensures VerdictIsSo(s, purpose, phone, h, t.t0)
  {
    CheckIff(s, now, purpose, phone, h, t);
    if v :| GoodCode(s, purpose, phone, t.t0, v) {
      if !HasRightCode(s, purpose, phone, h, t.t0) {
        assert !RightCode(s, purpose, phone, h, t.t0, v);
        MissCosts(s, now, purpose, phone, h, t, v);
      }
    } else {
      TooLate(s, now, purpose, phone, h, t);
    }
  }

  lemma SignupIsSo(s: State, r: Request, t: Ticks)
    requires r.ReqSignupConfirm? && VerdictIsSo(s, Signup, r.phone, r.codeHash, t.t0)
    requires (HolderOf(s.users, r.phone).Some? || PhoneTaken(s.users, r.phone)) ==> HasMember(s, r.phone)
    ensures TellsTheTruth(s, r, t)
  {
  }

  lemma SignupTells(s: State, now: Time, r: Request, t: Ticks)
    requires Reachable(s, now) && t.Ordered() && now <= t.t0 && r.ReqSignupConfirm?
    ensures TellsTheTruth(s, r, t)
  {
    PhoneFacts(s, now, r.phone);
    VerdictTells(s, now, Signup, r.phone, r.codeHash, t);
    SignupIsSo(s, r, t);
  }

  lemma LoginIsSo(s: State, r: Request, t: Ticks)
    requires r.ReqLoginConfirm? && VerdictIsSo(s, Login, r.phone, r.codeHash, t.t0)
    requires HolderOf(s.users, r.phone).Some? <==> HasMember(s, r.phone)
    ensures TellsTheTruth(s, r, t)
  {
  }

  lemma LoginTells(s: State, now: Time, r: Request, t: Ticks)
    requires Reachable(s, now) && t.Ordered() && now <= t.t0 && r.ReqLoginConfirm?
    ensures TellsTheTruth(s, r, t)
  {
    PhoneFacts(s, now, r.phone);
    VerdictTells(s, now, Login, r.phone, r.codeHash, t);
    LoginIsSo(s, r, t);
  }

  lemma SettingTells(s: State, r: Request, t: Ticks)
    requires SettingRequest(r)
    ensures TellsTheTruth(s, r, t)
  {
  }

  lemma InboxTells(s: State, r: Request, t: Ticks)
    requires r.ReqSendToUser? || r.ReqMarkRead? || r.ReqWorker?
    ensures TellsTheTruth(s, r, t)
  {
  }

  /** Whatever is refused in a reachable state, the error says why, and truly. */
  lemma RefusalsAreTrue(s: State, now: Time, r: Request, t: Ticks)
    requires Reachable(s, now) && t.Ordered() && now <= t.t0
    ensures TellsTheTruth(s, r, t)
  {
    ReachableInv(s, now);
    match r
    case ReqSignupSend(_, _, _, _) => SignupSendTells(s, now, r, t);
    case ReqLoginSend(_, _, _) => LoginSendTells(s, now, r, t);
    case ReqSignupConfirm(_, _, _) => SignupTells(s, now, r, t);
    case ReqLoginConfirm(_, _, _, _) => LoginTells(s, now, r, t);
    case ReqWithdraw(_) => WithdrawalTells(s, now, r, t);
    case ReqProposalCreate(_, _) => CreateTells(s, r, t);
    case ReqProposalUpdate(_, _, _) => UpdateTells(s, r, t);
    case ReqProposalCancel(_, _) => CancelTells(s, r, t);
    case ReqConfirmPayment(_) => CreateTells(s, r, t);
    case ReqConfirmReceived(_, _) => ReceiptTells(s, now, r, t);
    case ReqProposalDispute(_, _, _, _, _) => OrdererDisputeTells(s, now, r, t);
    case ReqOfferCreate(_, _) => BidTells(s, r, t);
    case ReqOfferCancel(_, _) => RetractTells(s, r, t);
    case ReqOfferAccept(_, _) => AcceptTells(s, now, r, t);
    case ReqAssignChatUrl(_, _) => RetractTells(s, r, t);
    case ReqCompleteDelivery(_, _) => DeliveryTells(s, now, r, t);
    case ReqOfferDispute(_, _, _, _, _) => RunnerDisputeTells(s, now, r, t);
    case ReqOfferResolve(_) => ResolveTells(s, now, r, t);
    case ReqReportCreate(_, _, _, _) => ReportTells(s, r, t);
    case ReqReportAccept(_) => ReviewTells(s, now, r, t);
    case ReqReportReject(_) => RejectionTells(s, r, t);
    case ReqSendToUser(_, _) => InboxTells(s, r, t);
    case ReqMarkRead(_, _) => InboxTells(s, r, t);
    case ReqWorker(_, _, _) => InboxTells(s, r, t);
    case _ => SettingTells(s, r, t);
  }
}

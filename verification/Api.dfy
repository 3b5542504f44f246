/** Requests served by the service methods themselves: the runs of module Runs are theirs. */
module Api {
  import opened Rows
  import opened MarketSpec
  import opened AccountSpec
  import opened Runs
  import opened Lifecycle
  import opened DatabaseAccess
  import ProposalService
  import OfferService
  import ReportService
  import WithdrawalService
  import AccountServices
  import NotificationServices

  predicate AccountRequest(r: Request) {
    || r.ReqSignupSend? || r.ReqLoginSend? || r.ReqSignupConfirm? || r.ReqLoginConfirm?
    || r.ReqSetAlarm? || r.ReqSetName? || r.ReqSetFcmToken? || r.ReqSaveAccount? || r.ReqWithdraw?
  }

  predicate ProposalRequest(r: Request) {
    || r.ReqProposalCreate? || r.ReqProposalUpdate? || r.ReqProposalCancel? || r.ReqConfirmPayment?
    || r.ReqConfirmReceived? || r.ReqProposalDispute?
  }

  method ServeAccount(db: Database, q: Request, t: Ticks) returns (r: Result<Reply>)
    requires AccountRequest(q) && PhonesUnique(db.users)
    modifies db
    ensures Outcome(db.State(), r) == Serve(old(db.State()), q, t)
  {
    match q
    case ReqSignupSend(phone, name, h, sms) => r := AccountServices.SendSignup(db, phone, name, h, sms, t);
    case ReqLoginSend(phone, h, sms) => r := AccountServices.SendLogin(db, phone, h, sms, t);
    case ReqSignupConfirm(phone, h, newId) => r := AccountServices.ConfirmSignup(db, phone, h, newId, t);
    case ReqLoginConfirm(phone, h, bypass, token) => r := AccountServices.ConfirmLogin(db, phone, h, bypass, token, t);
    case ReqSetAlarm(u, on) => r := AccountServices.UpdateAlarm(db, u, on);
    case ReqSetName(u, name) => r := AccountServices.UpdateName(db, u, name);
    case ReqSetFcmToken(u, token) => r := AccountServices.UpdateFcmToken(db, u, token);
    case ReqSaveAccount(u, account) => r := AccountServices.SaveSettlementAccount(db, u, account);
    case ReqWithdraw(u) => r := WithdrawalService.Withdraw(db, u, t);
  }

  method ServeProposal(db: Database, q: Request, t: Ticks) returns (r: Result<Reply>)
    requires ProposalRequest(q)
    modifies db
    ensures Outcome(db.State(), r) == Serve(old(db.State()), q, t)
  {
    match q
    case ReqProposalCreate(u, d) => r := ProposalService.Create(db, u, d, t);
    case ReqProposalUpdate(u, p, d) => r := ProposalService.Update(db, p, d, u, t);
    case ReqProposalCancel(u, p) => r := ProposalService.Cancel(db, p, u);
    case ReqConfirmPayment(p) => r := ProposalService.ConfirmPayment(db, p);
    case ReqConfirmReceived(u, p) => r := ProposalService.ConfirmReceived(db, p, u, t);
    case ReqProposalDispute(u, p, question, active, reason) => r :=
        ProposalService.RaiseDispute(db, p, u, question, active, reason, t);
  }

  method ServeOffer(db: Database, q: Request, t: Ticks) returns (r: Result<Reply>)
    requires OfferRequest(q) && db.offers.Bounded()
    modifies db
    ensures Outcome(db.State(), r) == Serve(old(db.State()), q, t)
  {
    match q
    case ReqOfferCreate(u, p) => r := OfferService.Create(db, p, u, t);
    case ReqOfferCancel(u, o) => r := OfferService.Cancel(db, o, u);
    case ReqOfferAccept(u, o) => r := OfferService.Accept(db, o, u, t);
    case ReqAssignChatUrl(o, url) =>
      if o !in db.offers.rows {
        return Err(OfferNotFound);
      }
      db.offers := db.offers.Put(o, db.offers.rows[o].(openChatUrl := url));
      r := Ok(Done);
  }

  method ServeRunner(db: Database, q: Request, t: Ticks) returns (r: Result<Reply>)
    requires RunnerRequest(q)
    modifies db
    ensures Outcome(db.State(), r) == Serve(old(db.State()), q, t)
  {
    match q
    case ReqCompleteDelivery(u, o) => r := OfferService.CompleteDelivery(db, o, u, t);
    case ReqOfferDispute(u, o, question, active, reason) => r :=
        OfferService.RaiseDispute(db, o, u, question, active, reason, t);
    case ReqOfferResolve(o) => r := OfferService.Resolve(db, o, t);
  }

  method ServeOther(db: Database, q: Request, t: Ticks) returns (r: Result<Reply>)
    requires !AccountRequest(q) && !ProposalRequest(q) && !OfferRequest(q) && !RunnerRequest(q)
        && Feasible(db.State(), q)
    modifies db
    ensures Outcome(db.State(), r) == Serve(old(db.State()), q, t)
  {
    match q
    case ReqReportCreate(u, p, question, active) => r := ReportService.Create(db, p, u, question, active, t);
    case ReqReportAccept(rid) => r := ReportService.Accept(db, rid, t);
    case ReqReportReject(rid) => r := ReportService.Reject(db, rid, t);
    case ReqSendToUser(u, accepted) => r := NotificationServices.SendToUser(db, u, accepted, t);
    case ReqMarkRead(u, ids) => r := NotificationServices.MarkRead(db, u, ids, t);
    case ReqWorker(pass, batch, delivered) => r := NotificationServices.SendBatch(db, batch, delivered, t);
  }

  /** One request against the database: a step of a run, which keeps every invariant and raises from no guard. */
  method Handle(db: Database, q: Request, t: Ticks, ghost now: Time) returns (r: Result<Reply>)
    requires Reachable(db.State(), now) && t.Ordered() && now <= t.t0 && Feasible(db.State(), q)
    modifies db
    ensures Outcome(db.State(), r) == Step(old(db.State()), q, t)
    ensures Reachable(db.State(), t.t3) && r != Err(ValueError)
  {
    ReachableInv(db.State(), now);
    StaysReachable(db.State(), now, q, t);
    NoGuardRaises(db.State(), now, q, t);
    var bearer := Bearer(q);
    if bearer.Some? && !Active(db.users, bearer.value) {
      return Err(UserNotFound);
    }
    if AccountRequest(q) {
      r := ServeAccount(db, q, t);
    } else if ProposalRequest(q) {
      r := ServeProposal(db, q, t);
    } else if OfferRequest(q) {
      r := ServeOffer(db, q, t);
    } else if RunnerRequest(q) {
      r := ServeRunner(db, q, t);
    } else {
      r := ServeOther(db, q, t);
    }
  }
}

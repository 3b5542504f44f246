/** Requests, and runs of requests from a committed state. */
module Runs {
  import opened Rows
  import opened MarketSpec
  import opened AccountSpec
  import opened OutboxSpec

  datatype Request =
    | ReqSignupSend(phone: Phone, name: string, codeHash: int, smsReady: bool)
    | ReqLoginSend(phone: Phone, codeHash: int, smsReady: bool)
    | ReqSignupConfirm(phone: Phone, codeHash: int, newId: UserId)
    | ReqLoginConfirm(phone: Phone, codeHash: int, bypass: bool, newToken: Option<string>)
    | ReqSetAlarm(actor: UserId, on: bool)
    | ReqSetName(actor: UserId, name: string)
    | ReqSetFcmToken(actor: UserId, token: string)
    | ReqSaveAccount(actor: UserId, account: string)
    | ReqWithdraw(actor: UserId)
    | ReqProposalCreate(actor: UserId, draft: Draft)
    | ReqProposalUpdate(actor: UserId, proposal: Id, draft: Draft)
    | ReqProposalCancel(actor: UserId, proposal: Id)
    | ReqConfirmPayment(proposal: Id)
    | ReqConfirmReceived(actor: UserId, proposal: Id)
    | ReqProposalDispute(actor: UserId, proposal: Id, question: Id, questionActive: bool, reason: string)
    | ReqOfferCreate(actor: UserId, proposal: Id)
    | ReqOfferCancel(actor: UserId, offer: Id)
    | ReqOfferAccept(actor: UserId, offer: Id)
    | ReqCompleteDelivery(actor: UserId, offer: Id)
    | ReqOfferDispute(actor: UserId, offer: Id, question: Id, questionActive: bool, reason: string)
    | ReqOfferResolve(offer: Id)
      /** An operator writes the chat link straight into the offer's row: no service does. */
    | ReqAssignChatUrl(offer: Id, url: Option<string>)
    | ReqReportCreate(actor: UserId, proposal: Id, question: Id, questionActive: bool)
    | ReqReportAccept(report: Id)
    | ReqReportReject(report: Id)
    | ReqSendToUser(actor: UserId, accepted: bool)
    | ReqMarkRead(actor: UserId, ids: set<Id>)
    | ReqWorker(pass: Pass, batch: seq<Id>, delivered: set<Id>)

  /** The bearer of the token, for the requests that need one. */
  function Bearer(r: Request): Option<UserId> {
    match r
    case ReqSetAlarm(u, _) => Some(u)
    case ReqSetName(u, _) => Some(u)
    case ReqSetFcmToken(u, _) => Some(u)
    case ReqSaveAccount(u, _) => Some(u)
    case ReqWithdraw(u) => Some(u)
    case ReqProposalCreate(u, _) => Some(u)
    case ReqProposalUpdate(u, _, _) => Some(u)
    case ReqProposalCancel(u, _) => Some(u)
    case ReqConfirmReceived(u, _) => Some(u)
    case ReqProposalDispute(u, _, _, _, _) => Some(u)
    case ReqOfferCreate(u, _) => Some(u)
    case ReqOfferCancel(u, _) => Some(u)
    case ReqOfferAccept(u, _) => Some(u)
    case ReqCompleteDelivery(u, _) => Some(u)
    case ReqOfferDispute(u, _, _, _, _) => Some(u)
    case ReqReportCreate(u, _, _, _) => Some(u)
    case ReqSendToUser(u, _) => Some(u)
    case ReqMarkRead(u, _) => Some(u)
    case _ => None
  }

  /** The commands that make offers, or address one that waits, or set a chat link. */
  predicate OfferRequest(r: Request) {
    || r.ReqOfferCreate? || r.ReqOfferCancel? || r.ReqOfferAccept? || r.ReqAssignChatUrl?
  }

  /** The commands addressed to an offer in execution. */
  predicate RunnerRequest(r: Request) {
    r.ReqCompleteDelivery? || r.ReqOfferDispute? || r.ReqOfferResolve?
  }

  ghost function AssignChatUrl(s: State, oid: Id, url: Option<string>): Outcome {
    if oid !in s.offers.rows then Fail(s, OfferNotFound)
    else Succeed(s.(offers := s.offers.Put(oid, s.offers.rows[oid].(openChatUrl := url))), Done)
  }

  ghost function Serve(s: State, r: Request, t: Ticks): Outcome {
    match r
    case ReqSignupSend(phone, name, h, sms) => SignupSend(s, phone, name, h, sms, t)
    case ReqLoginSend(phone, h, sms) => LoginSend(s, phone, h, sms, t)
    case ReqSignupConfirm(phone, h, newId) => SignupConfirm(s, phone, h, newId, t)
    case ReqLoginConfirm(phone, h, bypass, token) => LoginConfirm(s, phone, h, bypass, token, t)
    case ReqSetAlarm(u, on) => SetAlarm(s, u, on)
    case ReqSetName(u, name) => SetName(s, u, name)
    case ReqSetFcmToken(u, token) => SetFcmToken(s, u, token)
    case ReqSaveAccount(u, account) => SaveAccount(s, u, account)
    case ReqWithdraw(u) => Withdraw(s, u, t)
    case ReqProposalCreate(u, d) => ProposalCreate(s, u, d, t)
    case ReqProposalUpdate(u, p, d) => ProposalUpdate(s, p, d, u, t)
    case ReqProposalCancel(u, p) => ProposalCancel(s, p, u)
    case ReqConfirmPayment(p) => ConfirmPayment(s, p)
    case ReqConfirmReceived(u, p) => ConfirmReceived(s, p, u, t)
    case ReqProposalDispute(u, p, q, active, reason) => ProposalDispute(s, p, u, q, active, reason, t)
    case ReqOfferCreate(u, p) => OfferCreate(s, p, u, t)
    case ReqOfferCancel(u, o) => OfferCancel(s, o, u)
    case ReqOfferAccept(u, o) => OfferAccept(s, o, u, t)
    case ReqCompleteDelivery(u, o) => CompleteDelivery(s, o, u, t)
    case ReqOfferDispute(u, o, q, active, reason) => OfferDispute(s, o, u, q, active, reason, t)
    case ReqOfferResolve(o) => OfferResolve(s, o, t)
    case ReqAssignChatUrl(o, url) => AssignChatUrl(s, o, url)
    case ReqReportCreate(u, p, q, active) => ReportCreate(s, p, u, q, active, t)
    case ReqReportAccept(rid) => ReportAccept(s, rid, t)
    case ReqReportReject(rid) => ReportReject(s, rid, t)
    case ReqSendToUser(u, accepted) => SendToUser(s, u, accepted, t)
    case ReqMarkRead(u, ids) => MarkRead(s, u, ids, t)
    case ReqWorker(_, batch, delivered) => RunPass(s, batch, delivered, t)
  }

  /** `get_current_user` turns away an unknown or deleted bearer before any service runs. */
  ghost function Step(s: State, r: Request, t: Ticks): Outcome {
    if Bearer(r).Some? && !Active(s.users, Bearer(r).value) then Fail(s, UserNotFound)
    else Serve(s, r, t)
  }

  datatype Event = Event(request: Request, at: Ticks)

  /** The state after serving the events in order, each in its own committed transaction. */
  ghost function Exec(s: State, run: seq<Event>): State {
    if run == [] then s
    else
      var last := run[|run| - 1];
      Step(Exec(s, run[..|run| - 1]), last.request, last.at).state
  }

  /** The clock after the run. */
  function ClockAfter(now: Time, run: seq<Event>): Time {
    if run == [] then now else run[|run| - 1].at.t3
  }

  /** The database's answer to the worker's query is one it may give. */
  ghost predicate Feasible(s: State, r: Request) {
    r.ReqWorker? ==> OldestBatch(s.notifications.rows, r.pass, r.batch)
  }

  /** The clock never goes back, and every event is feasible where it happens. */
  ghost predicate Legal(s: State, now: Time, run: seq<Event>) {
    run != [] ==>
      var before := run[..|run| - 1];
      var last := run[|run| - 1];
      && Legal(s, now, before)
      && last.at.Ordered() && ClockAfter(now, before) <= last.at.t0
      && Feasible(Exec(s, before), last.request)
  }
}

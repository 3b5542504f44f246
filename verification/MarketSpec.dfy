/**
 * What each proposal, offer and report command does to the committed state, in closed form:
 * the first failing check decides the error, and otherwise the rows change as stated.
 */
module MarketSpec {
  import opened Rows

  predicate Active(users: map<UserId, UserRow>, u: UserId) {
    u in users && !users[u].deleted
  }

  predicate RecruitingStatus(st: ProposalStatus) {
    st.Posted? || st.Offered?
  }

  predicate CancellableStatus(st: ProposalStatus) {
    st.Holding? || st.Posted? || st.Offered?
  }

  /** Offer statuses that `_get_execution_offer` looks for, and `accept` looks for among the rivals. */
  predicate ActiveOfferStatus(st: OfferStatus) {
    st.Accepted? || st.RunnerCompleted? || st.AllCompleted? || st.Disputed?
  }

  /** The offer carries out its proposal, or did: the statuses that open the chat. */
  predicate Engaged(st: OfferStatus) {
    ActiveOfferStatus(st) || st.Resolved?
  }

  /** The five statuses of a proposal from its match on, which open the chat too. */
  predicate PostMatch(st: ProposalStatus) {
    st.Matched? || st.OrderCompleted? || st.AllCompleted? || st.Disputed? || st.Resolved?
  }

  // ---------------------------------------------------------------- notifications

  predicate AlarmOn(users: map<UserId, UserRow>, u: UserId) {
    u in users && users[u].alarmEnabled == Some(true)
  }

  function PendingRow(u: UserId, kind: NotificationKind, offer: Id, t: Time): NotificationRow {
    NotificationRow(u, kind, Some(offer), NotificationStatus.Pending, t, None, None, 0)
  }

  /** One alarm-gated PENDING row. */
  function Notify(users: map<UserId, UserRow>, box: Table<NotificationRow>,
                  u: UserId, kind: NotificationKind, offer: Id, t: Time): Table<NotificationRow> {
    if AlarmOn(users, u) then box.Insert(PendingRow(u, kind, offer, t)) else box
  }

  /** The same notification for several users, in turn. */
  function NotifyAll(users: map<UserId, UserRow>, box: Table<NotificationRow>,
                     us: seq<UserId>, kind: NotificationKind, offer: Id, t: Time): Table<NotificationRow> {
    if us == [] then box
    else Notify(users, NotifyAll(users, box, us[..|us| - 1], kind, offer, t), us[|us| - 1], kind, offer, t)
  }

  // ---------------------------------------------------------------- offers

  /** Bulk update of one proposal's WAITING offers to REJECTED. */
  function RejectWaiting(offers: map<Id, OfferRow>, pid: Id): map<Id, OfferRow> {
    map o | o in offers ::
      if offers[o].proposal == pid && offers[o].status.Waiting? then offers[o].(status := OfferStatus.Rejected)
      else offers[o]
  }

  /** The WAITING offers of a proposal, but for one offer if any. */
  function WaitingExcept(offers: map<Id, OfferRow>, pid: Id, kept: Option<Id>): set<Id> {
    set o | o in offers && offers[o].proposal == pid && Some(o) != kept && offers[o].status.Waiting?
  }

  function WithRejected(offers: map<Id, OfferRow>, hit: set<Id>): map<Id, OfferRow> {
    map o | o in offers :: if o in hit then offers[o].(status := OfferStatus.Rejected) else offers[o]
  }

  function WaitingRival(pid: Id, chosen: Id): (Id, OfferRow) -> bool {
    (id: Id, o: OfferRow) => o.proposal == pid && id != chosen && o.status.Waiting?
  }

  /** The offers that lose when `chosen` is accepted. */
  function WaitingRivals(offers: Table<OfferRow>, pid: Id, chosen: Id): seq<Id> {
    Scan(offers.rows, offers.next, WaitingRival(pid, chosen))
  }

  function RunnersOf(offers: map<Id, OfferRow>, ids: seq<Id>): (us: seq<UserId>)
    requires forall i :: 0 <= i < |ids| ==> ids[i] in offers
    ensures |us| == |ids| && forall i :: 0 <= i < |ids| ==> us[i] == offers[ids[i]].runner
  {
    if ids == [] then [] else RunnersOf(offers, ids[..|ids| - 1]) + [offers[ids[|ids| - 1]].runner]
  }

  function RejectedRunners(offers: Table<OfferRow>, pid: Id, chosen: Id): seq<UserId> {
    RunnersOf(offers.rows, WaitingRivals(offers, pid, chosen))
  }

  predicate HasActiveRival(offers: map<Id, OfferRow>, pid: Id, chosen: Id) {
    exists o :: o in offers && offers[o].proposal == pid && o != chosen && ActiveOfferStatus(offers[o].status)
  }

  predicate HasOfferBy(offers: map<Id, OfferRow>, pid: Id, runner: UserId) {
    exists o :: o in offers && offers[o].proposal == pid && offers[o].runner == runner
  }

  function NewOffer(pid: Id, runner: UserId, t: Time): OfferRow {
    OfferRow(pid, runner, Waiting, None, t, None, None, None, None, None)
  }

  ghost function OfferCreate(s: State, pid: Id, runner: UserId, t: Ticks): Outcome {
    if pid !in s.proposals.rows then Fail(s, OfferProposalNotFound)
    else
      var p := s.proposals.rows[pid];
      if p.orderer == runner then Fail(s, SelfOfferNotAllowed)
      else if !RecruitingStatus(p.status) then Fail(s, ProposalNotOpen)
      else if HasOfferBy(s.offers.rows, pid, runner) then Fail(s, DuplicateOffer)
      else
        var oid := s.offers.next;
        var box := Notify(s.users, s.notifications, p.orderer, OfferNew, oid, t.t3);
        Succeed(s.(offers := s.offers.Insert(NewOffer(pid, runner, t.t0)),
                   proposals := s.proposals.Put(pid, p.(status := Offered)),
                   notifications := Notify(s.users, box, runner, OfferSubmitted, oid, t.t3)),
                Created(oid))
  }

  ghost function OfferCancel(s: State, oid: Id, runner: UserId): Outcome {
    if oid !in s.offers.rows then Fail(s, OfferNotFound)
    else
      var o := s.offers.rows[oid];
      if o.runner != runner then Fail(s, Forbidden)
      else if !o.status.Waiting? then Fail(s, OfferNotCancellable)
      else Succeed(s.(offers := s.offers.Put(oid, o.(status := OfferStatus.Cancelled))), Done)
  }

  ghost function OfferAccept(s: State, oid: Id, orderer: UserId, t: Ticks): Outcome {
    if oid !in s.offers.rows then Fail(s, OfferNotFound)
    else
      var o := s.offers.rows[oid];
      var pid := o.proposal;
      if pid !in s.proposals.rows then Fail(s, OfferProposalNotFound)
      else
        var p := s.proposals.rows[pid];
        if p.orderer != orderer then Fail(s, Forbidden)
        else if !o.status.Waiting? then Fail(s, OfferNotAcceptable)
        else if HasActiveRival(s.offers.rows, pid, oid) then Fail(s, ProposalNotMatchable)
        else if !p.status.Offered? then Fail(s, ProposalNotMatchable)
        else
          var losers := RejectedRunners(s.offers, pid, oid);
          var box := Notify(s.users, s.notifications, o.runner, NotificationKind.OfferAccepted, oid, t.t3);
          Succeed(s.(offers := s.offers.(rows := RejectWaiting(s.offers.rows, pid)[oid :=
                                           o.(status := OfferStatus.Accepted, acceptedAt := Some(t.t0))]),
                     proposals := s.proposals.Put(pid, p.(status := Matched, matchedAt := Some(t.t0))),
                     notifications := NotifyAll(s.users, box, losers, NotificationKind.OfferRejected, oid, t.t3)),
                  Reply.OfferAccepted(|losers|))
  }

  /** The bulk `level + 1`; no row matches an unknown user. */
  function BumpLevel(users: map<UserId, UserRow>, u: UserId): map<UserId, UserRow> {
    if u in users then users[u := users[u].(level := users[u].level + 1)] else users
  }

  ghost function CompleteDelivery(s: State, oid: Id, runner: UserId, t: Ticks): Outcome {
    if oid !in s.offers.rows then Fail(s, OfferNotFound)
    else
      var o := s.offers.rows[oid];
      if o.runner != runner then Fail(s, Forbidden)
      else if o.proposal !in s.proposals.rows then Fail(s, OfferProposalNotFound)
      else
        var p := s.proposals.rows[o.proposal];
        if !o.status.Accepted? || !(p.status.Matched? || p.status.OrderCompleted?) then Fail(s, OfferNotUpdatable)
        else
          var both := p.status.OrderCompleted?;
          var o' := if both then o.(status := OfferStatus.AllCompleted, runnerConfirmedAt := Some(t.t0),
                                    ordererConfirmedAt := Some(t.t2))
                    else o.(status := RunnerCompleted, runnerConfirmedAt := Some(t.t0));
          var p' := p.(status := if both then ProposalStatus.AllCompleted else p.status,
                       runnerConfirmedAt := Some(t.t1));
          var users := if both then BumpLevel(s.users, o.runner) else s.users;
          Succeed(s.(users := users,
                     offers := s.offers.Put(oid, o'),
                     proposals := s.proposals.Put(o.proposal, p'),
                     notifications := Notify(users, s.notifications, p.orderer, MeetingConfirmed, oid, t.t3)),
                  Done)
  }

  ghost function OfferDispute(s: State, oid: Id, runner: UserId, question: Id, questionActive: bool, reason: string,
                              t: Ticks): Outcome
  {
    if oid !in s.offers.rows then Fail(s, OfferNotFound)
    else
      var o := s.offers.rows[oid];
      if o.runner != runner then Fail(s, Forbidden)
      else if o.proposal !in s.proposals.rows then Fail(s, OfferProposalNotFound)
      else
        var p := s.proposals.rows[o.proposal];
        if !(o.status.Accepted? || o.status.RunnerCompleted?) || !(p.status.Matched? || p.status.OrderCompleted?) then
          Fail(s, OfferNotUpdatable)
        else if !questionActive then Fail(s, ValidationError)
        else
          Succeed(s.(offers := s.offers.Put(oid, o.(status := OfferStatus.Disputed, disputedAt := Some(t.t0))),
                     proposals := s.proposals.Put(o.proposal,
                                                  p.(status := ProposalStatus.Disputed, disputedAt := Some(t.t1))),
                     evidences := s.evidences.Insert(EvidenceRow(o.proposal, oid, runner, question, reason, t.t2)),
                     notifications := Notify(s.users, s.notifications, p.orderer, DisputeRaised, oid, t.t3)),
                  Done)
  }

  ghost function OfferResolve(s: State, oid: Id, t: Ticks): Outcome {
    if oid !in s.offers.rows then Fail(s, OfferNotFound)
    else
      var o := s.offers.rows[oid];
      if o.proposal !in s.proposals.rows then Fail(s, OfferProposalNotFound)
      else
        var p := s.proposals.rows[o.proposal];
        if !o.status.Disputed? || !p.status.Disputed? then Fail(s, OfferNotUpdatable)
        else
          Succeed(s.(offers := s.offers.Put(oid, o.(status := OfferStatus.Resolved, resolvedAt := Some(t.t0))),
                     proposals := s.proposals.Put(o.proposal,
                                                  p.(status := ProposalStatus.Resolved, resolvedAt := Some(t.t1)))),
                  Done)
  }

  // ---------------------------------------------------------------- proposals

  /** The error of `_validate_deadline`, then of `_validate_errand_fee`. */
  function DraftError(d: Draft, now: Time): Option<Error> {
    if d.deadline <= now then Some(ProposalDeadlineInvalid)
    else if d.errandFee < 1000 then Some(ProposalErrandFeeInvalid)
    else None
  }

  function NewProposal(orderer: UserId, d: Draft, t: Time): ProposalRow {
    ProposalRow(orderer, d, Holding, t, None, None, None, None, None)
  }

  ghost function ProposalCreate(s: State, orderer: UserId, d: Draft, t: Ticks): Outcome {
    if !Active(s.users, orderer) then Fail(s, UserNotFound)
    else if DraftError(d, t.t0).Some? then Fail(s, DraftError(d, t.t0).value)
    else Succeed(s.(proposals := s.proposals.Insert(NewProposal(orderer, d, t.t1))), Created(s.proposals.next))
  }

  ghost function ProposalUpdate(s: State, pid: Id, d: Draft, orderer: UserId, t: Ticks): Outcome {
    if pid !in s.proposals.rows then Fail(s, ProposalNotFound)
    else
      var p := s.proposals.rows[pid];
      if p.orderer != orderer then Fail(s, Forbidden)
      else if !(p.status.Holding? || p.status.Posted?) then Fail(s, ProposalNotEditable)
      else if DraftError(d, t.t0).Some? then Fail(s, DraftError(d, t.t0).value)
      else Succeed(s.(proposals := s.proposals.Put(pid, p.(draft := d, status := Holding))), Done)
  }

  ghost function ProposalCancel(s: State, pid: Id, orderer: UserId): Outcome {
    if pid !in s.proposals.rows then Fail(s, ProposalNotFound)
    else
      var p := s.proposals.rows[pid];
      if p.orderer != orderer then Fail(s, Forbidden)
      else if !CancellableStatus(p.status) then Fail(s, ProposalNotCancellable)
      else
        var offers := if p.status.Offered? then RejectWaiting(s.offers.rows, pid) else s.offers.rows;
        Succeed(s.(proposals := s.proposals.Put(pid, p.(status := ProposalStatus.Cancelled)),
                   offers := s.offers.(rows := offers)),
                Done)
  }

  ghost function ConfirmPayment(s: State, pid: Id): Outcome {
    if pid !in s.proposals.rows then Fail(s, ProposalNotFound)
    else
      var p := s.proposals.rows[pid];
      if !p.status.Holding? then Fail(s, InvalidStatus)
      else Succeed(s.(proposals := s.proposals.Put(pid, p.(status := Posted))), Done)
  }

  function ExecutionCandidate(pid: Id): (Id, OfferRow) -> bool {
    (id: Id, o: OfferRow) => o.proposal == pid && ActiveOfferStatus(o.status)
  }

  /** Descending order on a nullable column: NULL sorts last. */
  predicate NoEarlier(a: Option<Time>, b: Option<Time>) {
    b.None? || (a.Some? && b.value <= a.value)
  }

  function AcceptedNoEarlier(): (OfferRow, OfferRow) -> bool {
    (a: OfferRow, b: OfferRow) => NoEarlier(a.acceptedAt, b.acceptedAt)
  }

  /** The offer `_get_execution_offer` selects. */
  function ExecutionOffer(offers: Table<OfferRow>, pid: Id): (best: Option<Id>)
    ensures best.Some? ==> best.value in offers.rows && ExecutionCandidate(pid)(best.value, offers.rows[best.value])
  {
    Latest(offers.rows, Scan(offers.rows, offers.next, ExecutionCandidate(pid)), AcceptedNoEarlier())
  }

  ghost function ConfirmReceived(s: State, pid: Id, orderer: UserId, t: Ticks): Outcome {
    if pid !in s.proposals.rows then Fail(s, ProposalNotFound)
    else
      var p := s.proposals.rows[pid];
      if p.orderer != orderer then Fail(s, Forbidden)
      else if ExecutionOffer(s.offers, pid).None? then Fail(s, OfferNotFound)
      else
        var oid := ExecutionOffer(s.offers, pid).value;
        var o := s.offers.rows[oid];
        if !p.status.Matched? || !(o.status.Accepted? || o.status.RunnerCompleted?) then Fail(s, ProposalNotUpdatable)
        else
          var both := o.status.RunnerCompleted?;
          var p' := p.(status := if both then ProposalStatus.AllCompleted else OrderCompleted,
                       ordererConfirmedAt := Some(t.t0));
          var o' := o.(status := if both then OfferStatus.AllCompleted else o.status, ordererConfirmedAt := Some(t.t1));
          var users := if both then BumpLevel(s.users, o.runner) else s.users;
          var box := Notify(users, s.notifications, o.runner, MeetingConfirmed, oid, t.t3);
          Succeed(s.(users := users,
                     offers := s.offers.Put(oid, o'),
                     proposals := s.proposals.Put(pid, p'),
                     notifications := NotifyAll(users, box, [p.orderer, o.runner], ExecutionCompleted, oid, t.t3)),
                  Done)
  }

  ghost function ProposalDispute(s: State, pid: Id, orderer: UserId, question: Id, questionActive: bool,
                                 reason: string, t: Ticks): Outcome
  {
    if pid !in s.proposals.rows then Fail(s, ProposalNotFound)
    else
      var p := s.proposals.rows[pid];
      if p.orderer != orderer then Fail(s, Forbidden)
      else if ExecutionOffer(s.offers, pid).None? then Fail(s, OfferNotFound)
      else
        var oid := ExecutionOffer(s.offers, pid).value;
        var o := s.offers.rows[oid];
        if !(p.status.Matched? || p.status.OrderCompleted?) || !(o.status.Accepted? || o.status.RunnerCompleted?) then
          Fail(s, ProposalNotUpdatable)
        else if !questionActive then Fail(s, ValidationError)
        else
          Succeed(s.(offers := s.offers.Put(oid, o.(status := OfferStatus.Disputed, disputedAt := Some(t.t1))),
                     proposals := s.proposals.Put(pid, p.(status := ProposalStatus.Disputed, disputedAt := Some(t.t0))),
                     evidences := s.evidences.Insert(EvidenceRow(pid, oid, orderer, question, reason, t.t2)),
                     notifications := Notify(s.users, s.notifications, o.runner, DisputeRaised, oid, t.t3)),
                  Done)
  }

  // ---------------------------------------------------------------- reports

  predicate HasReportBy(reports: map<Id, ReportRow>, pid: Id, reporter: UserId) {
    exists r :: r in reports && reports[r].proposal == pid && reports[r].reporter == reporter
  }

  ghost function ReportCreate(s: State, pid: Id, reporter: UserId, question: Id, questionActive: bool,
                              t: Ticks): Outcome
  {
    if pid !in s.proposals.rows then Fail(s, ProposalNotFound)
    else
      var p := s.proposals.rows[pid];
      if p.orderer == reporter then Fail(s, ProposalSelfReportNotAllowed)
      else if !RecruitingStatus(p.status) then Fail(s, ProposalNotReportable)
      else if !questionActive then Fail(s, ValidationError)
      else if HasReportBy(s.reports.rows, pid, reporter) then Fail(s, DuplicateProposalReport)
      else
        Succeed(s.(reports := s.reports.Insert(ReportRow(pid, reporter, question, ReportStatus.Pending, t.t0, None))),
                Created(s.reports.next))
  }

  ghost function ReportAccept(s: State, rid: Id, t: Ticks): Outcome {
    if rid !in s.reports.rows then Fail(s, ProposalReportNotFound)
    else
      var r := s.reports.rows[rid];
      if !r.status.Pending? then Fail(s, ProposalReportNotReviewable)
      else if r.proposal !in s.proposals.rows then Fail(s, ProposalNotFound)
      else
        var p := s.proposals.rows[r.proposal];
        if !RecruitingStatus(p.status) && !p.status.Reported? then Fail(s, ProposalNotReportable)
        else
          var reports := s.reports.Put(rid, r.(status := ReportStatus.Accepted, reviewedAt := Some(t.t0)));
          if p.status.Reported? then Succeed(s.(reports := reports), Done)
          else Succeed(s.(reports := reports,
                          proposals := s.proposals.Put(r.proposal, p.(status := Reported)),
                          offers := s.offers.(rows := RejectWaiting(s.offers.rows, r.proposal))),
                       Done)
  }

  ghost function ReportReject(s: State, rid: Id, t: Ticks): Outcome {
    if rid !in s.reports.rows then Fail(s, ProposalReportNotFound)
    else
      var r := s.reports.rows[rid];
      if !r.status.Pending? then Fail(s, ProposalReportNotReviewable)
      else Succeed(s.(reports := s.reports.Put(rid, r.(status := ReportStatus.Rejected, reviewedAt := Some(t.t0)))),
                   Done)
  }
}

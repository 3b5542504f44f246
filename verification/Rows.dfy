/** The database rows of the marketplace and the tables that hold them. */
module Rows {

  datatype Option<+T> = None | Some(value: T)

  type Id = nat
  /** A UUID; only equality of user identifiers is ever used. */
  type UserId = nat
  /** A UTC instant, in microseconds. */
  type Time = int

  datatype Phone = Phone(digits: string)

  datatype ProposalStatus =
    | Holding | Posted | Offered
    | Matched | OrderCompleted | AllCompleted | Disputed | Resolved
    | Reported | Cancelled

  datatype OfferStatus =
    | Waiting
    | Accepted | RunnerCompleted | AllCompleted | Disputed | Resolved
    | Rejected | Cancelled

  datatype ReportStatus = Pending | Accepted | Rejected

  datatype NotificationStatus = Pending | Sent | Failed | Read

  datatype VerificationStatus = Pending | Verified | Expired

  datatype Purpose = Signup | Login

  datatype NotificationKind =
    | OfferNew | OfferSubmitted | OfferAccepted | OfferRejected
    | MeetingConfirmed | ExecutionCompleted | DisputeRaised | Custom

  /** The content an orderer writes. */
  datatype Draft = Draft(title: string, content: string, deadline: Time, errandFee: int)

  datatype UserRow = UserRow(
    name: Option<string>,
    phone: Option<Phone>,
    phoneVerifiedAt: Option<Time>,
    lastLoginAt: Option<Time>,
    alarmEnabled: Option<bool>,
    level: nat,
    deleted: bool,
    deletedAt: Option<Time>)

  datatype ProposalRow = ProposalRow(
    orderer: UserId,
    draft: Draft,
    status: ProposalStatus,
    createdAt: Time,
    matchedAt: Option<Time>,
    runnerConfirmedAt: Option<Time>,
    ordererConfirmedAt: Option<Time>,
    disputedAt: Option<Time>,
    resolvedAt: Option<Time>)

  datatype OfferRow = OfferRow(
    proposal: Id,
    runner: UserId,
    status: OfferStatus,
    openChatUrl: Option<string>,
    createdAt: Time,
    acceptedAt: Option<Time>,
    runnerConfirmedAt: Option<Time>,
    ordererConfirmedAt: Option<Time>,
    disputedAt: Option<Time>,
    resolvedAt: Option<Time>)

  datatype ReportRow = ReportRow(
    proposal: Id,
    reporter: UserId,
    reasonQuestion: Id,
    status: ReportStatus,
    createdAt: Time,
    reviewedAt: Option<Time>)

  datatype EvidenceRow = EvidenceRow(
    proposal: Id,
    offer: Id,
    actor: UserId,
    surveyQuestion: Id,
    reason: string,
    createdAt: Time)

  datatype NotificationRow = NotificationRow(
    user: UserId,
    kind: NotificationKind,
    relatedOffer: Option<Id>,
    status: NotificationStatus,
    createdAt: Time,
    sentAt: Option<Time>,
    readAt: Option<Time>,
    retryCount: nat)

  datatype VerificationRow = VerificationRow(
    purpose: Purpose,
    phone: Phone,
    name: Option<string>,
    codeHash: int,
    status: VerificationStatus,
    sentAt: Time,
    expiresAt: Time,
    verifiedAt: Option<Time>,
    attemptCount: nat)

  /** A table with an auto-increment primary key; `next` is never reused. */
  datatype Table<T> = Table(rows: map<Id, T>, next: Id) {
    function Insert(row: T): Table<T> {
      Table(rows[next := row], next + 1)
    }

    function Put(id: Id, row: T): Table<T> {
      this.(rows := rows[id := row])
    }

    ghost predicate Bounded() {
      forall id :: id in rows ==> id < next
    }
  }

  /** Everything the services persist. */
  datatype State = State(
    users: map<UserId, UserRow>,
    proposals: Table<ProposalRow>,
    offers: Table<OfferRow>,
    reports: Table<ReportRow>,
    evidences: Table<EvidenceRow>,
    notifications: Table<NotificationRow>,
    verifications: Table<VerificationRow>,
    fcmTokens: map<UserId, string>,
    accounts: map<UserId, string>)

  const EmptyState := State(
    map[], Table(map[], 1), Table(map[], 1), Table(map[], 1), Table(map[], 1), Table(map[], 1), Table(map[], 1),
    map[], map[])

  /** Successive readings of the clock within one command. */
  datatype Ticks = Ticks(t0: Time, t1: Time, t2: Time, t3: Time) {
    predicate Ordered() {
      t0 <= t1 <= t2 <= t3
    }
  }

  datatype Error =
    | UserNotFound | Forbidden | ValidationError
    | ProposalNotFound | ProposalDeadlineInvalid | ProposalErrandFeeInvalid
    | ProposalNotEditable | ProposalNotCancellable | InvalidStatus | ProposalNotUpdatable
    | OfferProposalNotFound | OfferNotFound | SelfOfferNotAllowed | ProposalNotOpen | DuplicateOffer
    | OfferNotCancellable | OfferNotAcceptable | ProposalNotMatchable | OfferNotUpdatable
    | ProposalSelfReportNotAllowed | ProposalNotReportable | DuplicateProposalReport
    | ProposalReportNotFound | ProposalReportNotReviewable
    | UserWithdrawalBlocked
    | PhoneVerificationAlreadySent | SmsSenderNotConfigured | PhoneVerificationNotFound
    | PhoneVerificationExpired | PhoneVerificationCodeMismatch
    | PhoneAlreadyExists | InvalidCredentials
    | DisputeEvidenceNotFound
      /** An entity guard raised: the source has no handler for it. */
    | ValueError

  datatype Reply =
    | Done
    | Created(id: Id)
    | OfferAccepted(rejectedOfferCount: nat)
    | Marked(count: nat)
      /** The verification row that a confirmation consumed. */
    | Confirmed(verification: Id)

  datatype Result<+T> = Ok(value: T) | Err(error: Error)

  /** The committed state after a command, and what the caller is told. */
  datatype Outcome = Outcome(state: State, result: Result<Reply>)

  function Fail(s: State, e: Error): Outcome {
    Outcome(s, Err(e))
  }

  function Succeed(s: State, r: Reply): Outcome {
    Outcome(s, Ok(r))
  }

  /** Every row of `rows` with a key below `n`, in key order, that satisfies `keep`. */
  function Scan<T>(rows: map<Id, T>, n: nat, keep: (Id, T) -> bool): (ids: seq<Id>)
    ensures forall i :: 0 <= i < |ids| ==> ids[i] in rows && keep(ids[i], rows[ids[i]])
  {
    if n == 0 then []
    else
      var before := Scan(rows, n - 1, keep);
      if n - 1 in rows && keep(n - 1, rows[n - 1]) then before + [n - 1] else before
  }

  /**
   * The last of `ids` (ascending) that every later one comes before: the first row of a descending order, ties by
   * descending key.
   */
  function Latest<T>(rows: map<Id, T>, ids: seq<Id>, noEarlier: (T, T) -> bool): (best: Option<Id>)
    requires forall i :: 0 <= i < |ids| ==> ids[i] in rows
    ensures best.None? <==> ids == []
    ensures best.Some? ==> best.value in ids
  {
    if ids == [] then None
    else
      var last := ids[|ids| - 1];
      var best := Latest(rows, ids[..|ids| - 1], noEarlier);
      if best.None? || noEarlier(rows[last], rows[best.value]) then Some(last) else best
  }

  lemma ScanIsOrdered<T>(rows: map<Id, T>, n: nat, keep: (Id, T) -> bool)
    ensures var ids := Scan(rows, n, keep);
            && (forall i :: 0 <= i < |ids| ==> ids[i] < n)
            && (forall i, j :: 0 <= i < j < |ids| ==> ids[i] < ids[j])
  {
  }

  lemma ScanIsComplete<T>(rows: map<Id, T>, n: nat, keep: (Id, T) -> bool, id: Id)
    requires id in rows && id < n && keep(id, rows[id])
    ensures id in Scan(rows, n, keep)
  {
  }
}

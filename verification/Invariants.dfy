/** What holds in every committed state, table by table. `now` bounds every time stamp so far. */
module Invariants {
  import opened Rows
  import opened MarketSpec
  import opened AccountSpec
  import opened OutboxSpec

  type Proposals = map<Id, ProposalRow>
  type Offers = map<Id, OfferRow>

  // ---------------------------------------------------------------- statuses

  predicate Contested(st: ProposalStatus) {
    st.Disputed? || st.Resolved?
  }

  /** The statuses a proposal may have beside an offer of its own in status `o`. */
  predicate Compatible(p: ProposalStatus, o: OfferStatus) {
    match o
    case Waiting => p.Offered?
    case Accepted => p.Matched? || p.OrderCompleted?
    case RunnerCompleted => p.Matched?
    case AllCompleted => p.AllCompleted?
    case Disputed => p.Disputed?
    case Resolved => p.Resolved?
    case Rejected => PostMatch(p) || p.Reported? || p.Cancelled?
    case Cancelled => p.Offered? || PostMatch(p) || p.Reported? || p.Cancelled?
  }

  // ---------------------------------------------------------------- time stamps

  /** `a`, when set, is not after `b`, when set. */
  predicate Before(a: Option<Time>, b: Option<Time>) {
    a.Some? && b.Some? ==> a.value <= b.value
  }

  predicate By(a: Option<Time>, now: Time) {
    a.Some? ==> a.value <= now
  }

  /** accepted, then confirmed, then disputed, then resolved; nothing after `now`. */
  predicate InOrder(matched: Option<Time>, runner: Option<Time>, orderer: Option<Time>,
                    disputed: Option<Time>, resolved: Option<Time>, now: Time) {
    && Before(matched, runner) && Before(matched, orderer) && Before(matched, disputed)
    && Before(runner, disputed) && Before(orderer, disputed) && Before(disputed, resolved)
    && By(matched, now) && By(runner, now) && By(orderer, now) && By(disputed, now) && By(resolved, now)
  }

  predicate ProposalOk(p: ProposalRow, now: Time) {
    && InOrder(p.matchedAt, p.runnerConfirmedAt, p.ordererConfirmedAt, p.disputedAt, p.resolvedAt, now)
    && p.createdAt <= now
    && (p.matchedAt.Some? <==> PostMatch(p.status))
    && (p.disputedAt.Some? <==> Contested(p.status))
    && (p.resolvedAt.Some? <==> p.status.Resolved?)
    && (p.runnerConfirmedAt.Some? && p.ordererConfirmedAt.Some? <==> p.status.AllCompleted?)
    && (p.runnerConfirmedAt.Some? || p.ordererConfirmedAt.Some? ==> PostMatch(p.status))
    && (p.status.Matched? ==> p.ordererConfirmedAt.None?)
    && (p.status.OrderCompleted? ==> p.ordererConfirmedAt.Some?)
  }

  predicate OfferOk(o: OfferRow, now: Time) {
    && InOrder(o.acceptedAt, o.runnerConfirmedAt, o.ordererConfirmedAt, o.disputedAt, o.resolvedAt, now)
    && o.createdAt <= now
    && (o.acceptedAt.Some? <==> Engaged(o.status))
    && (o.disputedAt.Some? <==> o.status.Disputed? || o.status.Resolved?)
    && (o.resolvedAt.Some? <==> o.status.Resolved?)
    && (o.runnerConfirmedAt.Some? || o.ordererConfirmedAt.Some? ==> Engaged(o.status))
    && (o.status.Accepted? ==> o.runnerConfirmedAt.None?)
    && (o.status.RunnerCompleted? ==> o.runnerConfirmedAt.Some?)
  }

  /** A proposal and one of its offers. The offer's orderer stamp is never the earlier one. */
  predicate PairOk(p: ProposalRow, o: OfferRow) {
    && Compatible(p.status, o.status)
    && o.runner != p.orderer
    && (Engaged(o.status) ==>
          && p.matchedAt == o.acceptedAt
          && (p.runnerConfirmedAt.Some? <==> o.runnerConfirmedAt.Some?)
          && (p.ordererConfirmedAt.Some? <==> o.ordererConfirmedAt.Some?)
          && Before(p.ordererConfirmedAt, o.ordererConfirmedAt)
          && Before(o.runnerConfirmedAt, p.runnerConfirmedAt))
  }

  // ---------------------------------------------------------------- proposals with their offers

  predicate OfferOf(offers: Offers, pid: Id, oid: Id) {
    oid in offers && offers[oid].proposal == pid
  }

  predicate EngagedIn(offers: Offers, pid: Id, oid: Id) {
    OfferOf(offers, pid, oid) && Engaged(offers[oid].status)
  }

  predicate OfferBy(offers: Offers, pid: Id, runner: UserId, oid: Id) {
    OfferOf(offers, pid, oid) && offers[oid].runner == runner
  }

  predicate ProposalAt(proposals: Proposals, p: Id, now: Time) {
    p in proposals ==> ProposalOk(proposals[p], now)
  }

  predicate OfferAt(proposals: Proposals, offers: Offers, o: Id, now: Time) {
    o in offers ==>
      offers[o].proposal in proposals && OfferOk(offers[o], now) && PairOk(proposals[offers[o].proposal], offers[o])
  }

  ghost predicate RowsOk(proposals: Proposals, offers: Offers, now: Time) {
    && (forall p :: ProposalAt(proposals, p, now))
    && (forall o :: OfferAt(proposals, offers, o, now))
  }

  /** An OFFERED proposal has an offer, and one past its match an engaged offer. */
  ghost predicate HasItsOffers(proposals: Proposals, offers: Offers, p: Id) {
    p in proposals ==>
      && (proposals[p].status.Offered? ==> exists o :: OfferOf(offers, p, o))
      && (PostMatch(proposals[p].status) ==> exists o :: EngagedIn(offers, p, o))
  }

  predicate OneEngaged(offers: Offers, p: Id, a: Id, b: Id) {
    EngagedIn(offers, p, a) && EngagedIn(offers, p, b) ==> a == b
  }

  predicate OneOfferEach(offers: Offers, p: Id, u: UserId, a: Id, b: Id) {
    OfferBy(offers, p, u, a) && OfferBy(offers, p, u, b) ==> a == b
  }

  /** Which offers a proposal must have, and which it can have only once. */
  ghost predicate LinksOk(proposals: Proposals, offers: Offers) {
    && (forall p :: HasItsOffers(proposals, offers, p))
    && (forall p, a, b :: OneEngaged(offers, p, a, b))
    && (forall p, u, a, b :: OneOfferEach(offers, p, u, a, b))
  }

  ghost predicate MarketInv(proposals: Proposals, offers: Offers, now: Time) {
    RowsOk(proposals, offers, now) && LinksOk(proposals, offers)
  }

  // ---------------------------------------------------------------- levels

  ghost function CompletedBy(offers: Offers, u: UserId): set<Id> {
    set o | o in offers && offers[o].runner == u && offers[o].status.AllCompleted?
  }

  ghost predicate LevelAt(users: map<UserId, UserRow>, offers: Offers, u: UserId) {
    u in users ==> users[u].level == |CompletedBy(offers, u)|
  }

  ghost predicate LevelInv(users: map<UserId, UserRow>, offers: Offers) {
    forall u :: LevelAt(users, offers, u)
  }

  // ---------------------------------------------------------------- dispute evidence

  predicate EvidenceOf(evidences: map<Id, EvidenceRow>, pid: Id, e: Id) {
    e in evidences && evidences[e].proposal == pid
  }

  predicate EvidenceOk(proposals: Proposals, offers: Offers, e: EvidenceRow) {
    && e.proposal in proposals && Contested(proposals[e.proposal].status)
    && EngagedIn(offers, e.proposal, e.offer)
    && (e.actor == proposals[e.proposal].orderer || e.actor == offers[e.offer].runner)
  }

  predicate EvidenceAt(proposals: Proposals, offers: Offers, evidences: map<Id, EvidenceRow>, e: Id) {
    e in evidences ==> EvidenceOk(proposals, offers, evidences[e])
  }

  ghost predicate HasItsEvidence(proposals: Proposals, evidences: map<Id, EvidenceRow>, p: Id) {
    p in proposals && Contested(proposals[p].status) ==> exists e :: EvidenceOf(evidences, p, e)
  }

  predicate OneEvidence(evidences: map<Id, EvidenceRow>, p: Id, a: Id, b: Id) {
    EvidenceOf(evidences, p, a) && EvidenceOf(evidences, p, b) ==> a == b
  }

  ghost predicate EvidenceInv(proposals: Proposals, offers: Offers, evidences: map<Id, EvidenceRow>) {
    && (forall e :: EvidenceAt(proposals, offers, evidences, e))
    && (forall p :: HasItsEvidence(proposals, evidences, p))
    && (forall p, a, b :: OneEvidence(evidences, p, a, b))
  }

  // ---------------------------------------------------------------- reports

  predicate AcceptedReport(reports: map<Id, ReportRow>, pid: Id, r: Id) {
    r in reports && reports[r].proposal == pid && reports[r].status.Accepted?
  }

  predicate ReportBy(reports: map<Id, ReportRow>, pid: Id, u: UserId, r: Id) {
    r in reports && reports[r].proposal == pid && reports[r].reporter == u
  }

  predicate ReportOk(proposals: Proposals, r: ReportRow) {
    && r.proposal in proposals
    && r.reporter != proposals[r.proposal].orderer
    && (r.reviewedAt.Some? <==> !r.status.Pending?)
    && (r.status.Accepted? ==> proposals[r.proposal].status.Reported?)
  }

  predicate ReportAt(proposals: Proposals, reports: map<Id, ReportRow>, r: Id) {
    r in reports ==> ReportOk(proposals, reports[r])
  }

  ghost predicate HasItsReport(proposals: Proposals, reports: map<Id, ReportRow>, p: Id) {
    p in proposals && proposals[p].status.Reported? ==> exists r :: AcceptedReport(reports, p, r)
  }

  predicate OneReportEach(reports: map<Id, ReportRow>, p: Id, u: UserId, a: Id, b: Id) {
    ReportBy(reports, p, u, a) && ReportBy(reports, p, u, b) ==> a == b
  }

  ghost predicate ReportInv(proposals: Proposals, reports: map<Id, ReportRow>) {
    && (forall r :: ReportAt(proposals, reports, r))
    && (forall p :: HasItsReport(proposals, reports, p))
    && (forall p, u, a, b :: OneReportEach(reports, p, u, a, b))
  }

  // ---------------------------------------------------------------- users

  predicate ClosedProposalStatus(st: ProposalStatus) {
    st.AllCompleted? || st.Resolved? || st.Reported? || st.Cancelled?
  }

  predicate ClosedOfferStatus(st: OfferStatus) {
    st.AllCompleted? || st.Resolved? || st.Rejected? || st.Cancelled?
  }

  predicate Erased(u: UserRow) {
    && u.name.None? && u.phone.None? && u.phoneVerifiedAt.None? && u.lastLoginAt.None? && u.alarmEnabled.None?
    && u.deletedAt.Some?
  }

  predicate UserAt(users: map<UserId, UserRow>, u: UserId) {
    u in users && users[u].deleted ==> Erased(users[u])
  }

  ghost predicate UsersOk(users: map<UserId, UserRow>) {
    (forall u :: UserAt(users, u)) && PhonesUnique(users)
  }

  /** Only users that exist own anything, and only active ones own anything still open. */
  predicate OrdererAt(users: map<UserId, UserRow>, proposals: Proposals, p: Id) {
    p in proposals ==>
      && proposals[p].orderer in users
      && (!ClosedProposalStatus(proposals[p].status) ==> Active(users, proposals[p].orderer))
  }

  predicate RunnerAt(users: map<UserId, UserRow>, offers: Offers, o: Id) {
    o in offers ==>
      && offers[o].runner in users
      && (!ClosedOfferStatus(offers[o].status) ==> Active(users, offers[o].runner))
  }

  ghost predicate LiveInv(users: map<UserId, UserRow>, proposals: Proposals, offers: Offers) {
    && (forall p :: OrdererAt(users, proposals, p))
    && (forall o :: RunnerAt(users, offers, o))
  }

  predicate OwnerAt(users: map<UserId, UserRow>, owners: set<UserId>, u: UserId) {
    u in owners ==> Active(users, u)
  }

  ghost predicate OwnersActive(users: map<UserId, UserRow>, owners: set<UserId>) {
    forall u :: OwnerAt(users, owners, u)
  }

  predicate NotificationOk(users: map<UserId, UserRow>, n: NotificationRow) {
    && Active(users, n.user)
    && n.retryCount <= MAX_RETRY
    && (n.status.Pending? ==> n.retryCount == 0)
    && (n.readAt.Some? <==> n.status.Read?)
    && (n.status.Sent? ==> n.sentAt.Some?)
    && (n.status.Pending? || n.status.Failed? ==> n.sentAt.None?)
  }

  predicate NotificationAt(users: map<UserId, UserRow>, rows: Inbox, n: Id) {
    n in rows ==> NotificationOk(users, rows[n])
  }

  ghost predicate InboxInv(users: map<UserId, UserRow>, rows: Inbox) {
    forall n :: NotificationAt(users, rows, n)
  }

  // ---------------------------------------------------------------- phone verification

  predicate VerificationOk(v: VerificationRow, now: Time) {
    && v.sentAt <= now
    && v.expiresAt == v.sentAt + VERIFICATION_CODE_TTL
    && v.attemptCount <= VERIFICATION_CODE_MAX_ATTEMPTS
    && (v.attemptCount == VERIFICATION_CODE_MAX_ATTEMPTS ==> v.status.Expired?)
    && (v.verifiedAt.Some? <==> v.status.Verified?)
    && (v.verifiedAt.Some? ==> v.sentAt <= v.verifiedAt.value < v.expiresAt)
  }

  /** A later row was sent no earlier, and not before an equal pending one ran out. */
  predicate Successive(rows: map<Id, VerificationRow>, a: Id, b: Id) {
    a in rows && b in rows && a < b ==>
      rows[a].sentAt <= rows[b].sentAt && (SamePending(rows[a], rows[b]) ==> rows[a].expiresAt <= rows[b].sentAt)
  }

  predicate VerificationAt(rows: map<Id, VerificationRow>, v: Id, now: Time) {
    v in rows ==> VerificationOk(rows[v], now)
  }

  ghost predicate VerificationInv(rows: map<Id, VerificationRow>, now: Time) {
    && (forall v :: VerificationAt(rows, v, now))
    && (forall a, b :: Successive(rows, a, b))
  }

  predicate SamePending(a: VerificationRow, b: VerificationRow) {
    a.status.Pending? && b.status.Pending? && a.purpose == b.purpose && a.phone == b.phone
  }

  // ---------------------------------------------------------------- all of it

  ghost predicate KeysInv(s: State) {
    && s.proposals.Bounded() && s.offers.Bounded() && s.reports.Bounded()
    && s.evidences.Bounded() && s.notifications.Bounded() && s.verifications.Bounded()
  }

  ghost predicate Inv(s: State, now: Time) {
    && KeysInv(s)
    && MarketInv(s.proposals.rows, s.offers.rows, now)
    && LevelInv(s.users, s.offers.rows)
    && EvidenceInv(s.proposals.rows, s.offers.rows, s.evidences.rows)
    && ReportInv(s.proposals.rows, s.reports.rows)
    && UsersOk(s.users)
    && LiveInv(s.users, s.proposals.rows, s.offers.rows)
    && OwnersActive(s.users, s.fcmTokens.Keys)
    && OwnersActive(s.users, s.accounts.Keys)
    && InboxInv(s.users, s.notifications.rows)
    && VerificationInv(s.verifications.rows, now)
  }
}

/** Phone verification, sign-up, log-in, profile changes and withdrawal, in closed form. */
module AccountSpec {
  import opened Rows
  import opened MarketSpec

  const VERIFICATION_CODE_TTL: Time := 5 * 60 * 1_000_000
  const VERIFICATION_CODE_MAX_ATTEMPTS: nat := 5

  // ---------------------------------------------------------------- phone verification

  function PendingFor(purpose: Purpose, phone: Phone): (Id, VerificationRow) -> bool {
    (id: Id, v: VerificationRow) => v.purpose == purpose && v.phone == phone && v.status.Pending?
  }

  /** A PENDING row whose window has not closed at `now`. */
  predicate ActivePending(v: VerificationRow, purpose: Purpose, phone: Phone, now: Time) {
    v.purpose == purpose && v.phone == phone && v.status.Pending? && now < v.expiresAt
  }

  predicate HasActivePending(rows: map<Id, VerificationRow>, purpose: Purpose, phone: Phone, now: Time) {
    exists v :: v in rows && ActivePending(rows[v], purpose, phone, now)
  }

  function SentNoEarlier(): (VerificationRow, VerificationRow) -> bool {
    (a: VerificationRow, b: VerificationRow) => b.sentAt <= a.sentAt
  }

  /** The PENDING row `verify` looks at: newest first. */
  function NewestPending(t: Table<VerificationRow>, purpose: Purpose, phone: Phone): (best: Option<Id>)
    ensures best.Some? ==> best.value in t.rows && PendingFor(purpose, phone)(best.value, t.rows[best.value])
  {
    Latest(t.rows, Scan(t.rows, t.next, PendingFor(purpose, phone)), SentNoEarlier())
  }

  function NewVerification(purpose: Purpose, phone: Phone, name: Option<string>, codeHash: int,
                           sent: Time): VerificationRow
  {
    VerificationRow(purpose, phone, name, codeHash, VerificationStatus.Pending, sent, sent + VERIFICATION_CODE_TTL,
                    None, 0)
  }

  ghost function Send(s: State, purpose: Purpose, phone: Phone, name: Option<string>, codeHash: int, smsReady: bool,
                      t: Ticks): Outcome
  {
    if HasActivePending(s.verifications.rows, purpose, phone, t.t0) then Fail(s, PhoneVerificationAlreadySent)
    else if !smsReady then Fail(s, SmsSenderNotConfigured)
    else Succeed(s.(verifications := s.verifications.Insert(NewVerification(purpose, phone, name, codeHash, t.t1))),
                 Created(s.verifications.next))
  }

  /** What `verify` leaves in its table: refused attempts persist, an accepted one is still uncommitted. */
  datatype Check =
    | Refused(table: Table<VerificationRow>, error: Error)
    | Passed(table: Table<VerificationRow>, id: Id)

  function MissedRow(v: VerificationRow): VerificationRow {
    v.(attemptCount := v.attemptCount + 1,
       status := if v.attemptCount + 1 >= VERIFICATION_CODE_MAX_ATTEMPTS then VerificationStatus.Expired else v.status)
  }

  function CheckRow(tab: Table<VerificationRow>, id: Id, codeHash: int, now: Time): Check
    requires id in tab.rows
  {
    var v := tab.rows[id];
    if v.expiresAt <= now then
      Refused(tab.Put(id, v.(status := VerificationStatus.Expired)), PhoneVerificationExpired)
    else if v.codeHash != codeHash then
      Refused(tab.Put(id, MissedRow(v)), PhoneVerificationCodeMismatch)
    else
      Passed(tab.Put(id, v.(status := Verified, verifiedAt := Some(now))), id)
  }

  function Verify(tab: Table<VerificationRow>, purpose: Purpose, phone: Phone, codeHash: int, now: Time): Check {
    var best := NewestPending(tab, purpose, phone);
    if best.None? then Refused(tab, PhoneVerificationNotFound) else CheckRow(tab, best.value, codeHash, now)
  }

  // ---------------------------------------------------------------- sign-up and log-in

  predicate Holds(users: map<UserId, UserRow>, u: UserId, phone: Phone) {
    Active(users, u) && users[u].phone == Some(phone)
  }

  /** Some non-deleted user with this phone; unique when the phone index is. */
  ghost function HolderOf(users: map<UserId, UserRow>, phone: Phone): (u: Option<UserId>)
    ensures u.Some? ==> Holds(users, u.value, phone)
    ensures u.None? ==> forall v :: !Holds(users, v, phone)
  {
    if exists v :: Holds(users, v, phone) then
      var v :| Holds(users, v, phone);
      Some(v)
    else None
  }

  /** The unique index on `users.phone`; NULLs do not collide. */
  ghost predicate PhonesUnique(users: map<UserId, UserRow>) {
    forall u, v :: PhonesDiffer(users, u, v)
  }

  predicate PhonesDiffer(users: map<UserId, UserRow>, u: UserId, v: UserId) {
    u in users && v in users && users[u].phone.Some? && users[u].phone == users[v].phone ==> u == v
  }

  predicate PhoneTaken(users: map<UserId, UserRow>, phone: Phone) {
    exists u :: u in users && users[u].phone == Some(phone)
  }

  ghost function SignupSend(s: State, phone: Phone, name: string, codeHash: int, smsReady: bool, t: Ticks): Outcome {
    if HolderOf(s.users, phone).Some? then Fail(s, PhoneAlreadyExists)
    else Send(s, Signup, phone, Some(name), codeHash, smsReady, t)
  }

  ghost function LoginSend(s: State, phone: Phone, codeHash: int, smsReady: bool, t: Ticks): Outcome {
    if HolderOf(s.users, phone).None? then Fail(s, InvalidCredentials)
    else Send(s, Login, phone, None, codeHash, smsReady, t)
  }

  function NewUser(name: Option<string>, phone: Phone, now: Time): UserRow {
    UserRow(Some(if name.Some? then name.value else ""), Some(phone), Some(now), Some(now), Some(false), 0, false, None)
  }

  /** `newId` is the generated UUID; a clash on it or on the phone index rolls everything back. */
  ghost function SignupConfirm(s: State, phone: Phone, codeHash: int, newId: UserId, t: Ticks): Outcome {
    match Verify(s.verifications, Signup, phone, codeHash, t.t0)
    case Refused(table, e) => Fail(s.(verifications := table), e)
    case Passed(table, id) =>
      if HolderOf(s.users, phone).Some? then Fail(s, PhoneAlreadyExists)
      else if newId in s.users || PhoneTaken(s.users, phone) then Fail(s, PhoneAlreadyExists)
      else Succeed(s.(verifications := table, users := s.users[newId := NewUser(table.rows[id].name, phone, t.t1)]),
                   Confirmed(id))
  }

  /** `bypass`: the fixed test code in an environment that allows it. */
  ghost function LoginConfirm(s: State, phone: Phone, codeHash: int, bypass: bool, token: Option<string>,
                              t: Ticks): Outcome
  {
    var holder := HolderOf(s.users, phone);
    if holder.None? then Fail(s, UserNotFound)
    else
      var u := holder.value;
      var users := s.users[u := s.users[u].(lastLoginAt := Some(t.t1))];
      var tokens := if token.Some? then s.fcmTokens[u := token.value] else s.fcmTokens;
      if bypass then Succeed(s.(users := users, fcmTokens := tokens), Done)
      else
        match Verify(s.verifications, Login, phone, codeHash, t.t0)
        case Refused(table, e) => Fail(s.(verifications := table), e)
        case Passed(table, id) => Succeed(s.(verifications := table, users := users, fcmTokens := tokens),
                                          Confirmed(id))
  }

  // ---------------------------------------------------------------- profile and settlement account

  ghost function SetAlarm(s: State, u: UserId, on: bool): Outcome {
    if !Active(s.users, u) then Fail(s, UserNotFound)
    else Succeed(s.(users := s.users[u := s.users[u].(alarmEnabled := Some(on))]), Done)
  }

  ghost function SetName(s: State, u: UserId, name: string): Outcome {
    if !Active(s.users, u) then Fail(s, UserNotFound)
    else Succeed(s.(users := s.users[u := s.users[u].(name := Some(name))]), Done)
  }

  ghost function SetFcmToken(s: State, u: UserId, token: string): Outcome {
    if !Active(s.users, u) then Fail(s, UserNotFound)
    else Succeed(s.(fcmTokens := s.fcmTokens[u := token]), Done)
  }

  ghost function SaveAccount(s: State, u: UserId, account: string): Outcome {
    Succeed(s.(accounts := s.accounts[u := account]), Done)
  }

  // ---------------------------------------------------------------- withdrawal

  predicate BlockingProposalStatus(st: ProposalStatus) {
    st.Matched? || st.OrderCompleted? || st.Disputed?
  }

  predicate BlockingOfferStatus(st: OfferStatus) {
    st.Accepted? || st.RunnerCompleted? || st.Disputed?
  }

  predicate HasBlockingActivity(s: State, u: UserId) {
    || (exists p :: && p in s.proposals.rows && s.proposals.rows[p].orderer == u
                    && BlockingProposalStatus(s.proposals.rows[p].status))
    || (exists o :: && o in s.offers.rows && s.offers.rows[o].runner == u
                    && BlockingOfferStatus(s.offers.rows[o].status))
  }

  /** A proposal that withdrawal cancels. */
  predicate OwnOpenProposal(proposals: map<Id, ProposalRow>, u: UserId, pid: Id) {
    pid in proposals && proposals[pid].orderer == u && CancellableStatus(proposals[pid].status)
  }

  /** A waiting offer that both auto-cancel loops would select. */
  predicate CancelledTwice(s: State, u: UserId, oid: Id) {
    oid in s.offers.rows && s.offers.rows[oid].status.Waiting? && s.offers.rows[oid].runner == u
    && OwnOpenProposal(s.proposals.rows, u, s.offers.rows[oid].proposal)
  }

  function OffersAfterWithdrawal(offers: map<Id, OfferRow>, proposals: map<Id, ProposalRow>,
                                 u: UserId): map<Id, OfferRow>
  {
    map o | o in offers ::
      if offers[o].status.Waiting? && (offers[o].runner == u || OwnOpenProposal(proposals, u, offers[o].proposal))
      then offers[o].(status := OfferStatus.Cancelled) else offers[o]
  }

  function ProposalsAfterWithdrawal(proposals: map<Id, ProposalRow>, u: UserId): map<Id, ProposalRow> {
    map p | p in proposals ::
      if OwnOpenProposal(proposals, u, p) then proposals[p].(status := ProposalStatus.Cancelled) else proposals[p]
  }

  function WithdrawnRow(r: UserRow, now: Time): UserRow {
    UserRow(None, None, None, None, None, r.level, true, Some(now))
  }

  function WithoutPhone(rows: map<Id, VerificationRow>, phone: Option<Phone>): map<Id, VerificationRow> {
    map v | v in rows && Some(rows[v].phone) != phone :: rows[v]
  }

  function WithoutUser(rows: map<Id, NotificationRow>, u: UserId): map<Id, NotificationRow> {
    map n | n in rows && rows[n].user != u :: rows[n]
  }

  ghost function Withdraw(s: State, u: UserId, t: Ticks): Outcome {
    if !Active(s.users, u) then Fail(s, UserNotFound)
    else if HasBlockingActivity(s, u) then Fail(s, UserWithdrawalBlocked)
    else if exists o :: CancelledTwice(s, u, o) then Fail(s, ValueError)
    else
      var phone := s.users[u].phone;
      var vs := s.verifications.rows;
      var ns := s.notifications.rows;
      Succeed(s.(users := s.users[u := WithdrawnRow(s.users[u], t.t0)],
                 proposals := s.proposals.(rows := ProposalsAfterWithdrawal(s.proposals.rows, u)),
                 offers := s.offers.(rows := OffersAfterWithdrawal(s.offers.rows, s.proposals.rows, u)),
                 verifications := s.verifications.(rows := WithoutPhone(vs, phone)),
                 notifications := s.notifications.(rows := WithoutUser(ns, u)),
                 fcmTokens := s.fcmTokens - {u},
                 accounts := s.accounts - {u}),
              Done)
  }
}

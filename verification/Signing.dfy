/** Codes, sign-ups, log-ins and settings, as whole requests: when they succeed, and everything that changes then. */
module Signing {
  import opened Rows
  import opened MarketSpec
  import opened AccountSpec
  import opened Runs
  import opened Invariants
  import opened Lifecycle
  import opened Members
  import opened Changes

  /** A code goes out for five minutes. */
  const FIVE_MINUTES: Time := 5 * 60 * 1_000_000

  /** `v` is a code of `phone` for `purpose` that is still good at `at`. */
  predicate GoodCode(s: State, purpose: Purpose, phone: Phone, at: Time, v: Id) {
    && v in s.verifications.rows
    && var row := s.verifications.rows[v];
    && row.purpose == purpose && row.phone == phone && row.status.Pending? && at < row.sentAt + FIVE_MINUTES
  }

  ghost predicate HasGoodCode(s: State, purpose: Purpose, phone: Phone, at: Time) {
    exists v :: GoodCode(s, purpose, phone, at, v)
  }

  predicate MemberWith(s: State, phone: Phone, u: UserId) {
    u in s.users && !s.users[u].deleted && s.users[u].phone == Some(phone)
  }

  ghost predicate HasMember(s: State, phone: Phone) {
    exists u :: MemberWith(s, phone, u)
  }

  lemma HolderIs(s: State, now: Time, phone: Phone, u: UserId)
    requires Inv(s, now) && MemberWith(s, phone, u)
    ensures HolderOf(s.users, phone) == Some(u)
  {
    assert Holds(s.users, u, phone);
    assert PhonesDiffer(s.users, HolderOf(s.users, phone).value, u);
  }

  lemma HolderIff(s: State, phone: Phone)
    ensures HolderOf(s.users, phone).Some? <==> HasMember(s, phone)
  {
    if u :| MemberWith(s, phone, u) {
      assert Holds(s.users, u, phone);
    }
    if HolderOf(s.users, phone).Some? {
      assert MemberWith(s, phone, HolderOf(s.users, phone).value);
    }
  }

  lemma GoodIsActive(s: State, now: Time, purpose: Purpose, phone: Phone, at: Time, v: Id)
    requires Inv(s, now)
    ensures GoodCode(s, purpose, phone, at, v) <==>
            v in s.verifications.rows && ActivePending(s.verifications.rows[v], purpose, phone, at)
  {
    assert VerificationAt(s.verifications.rows, v, now);
  }

  lemma GoodIffActive(s: State, now: Time, purpose: Purpose, phone: Phone, at: Time)
    requires Inv(s, now)
    ensures HasGoodCode(s, purpose, phone, at) <==> HasActivePending(s.verifications.rows, purpose, phone, at)
  {
    if v :| GoodCode(s, purpose, phone, at, v) {
      GoodIsActive(s, now, purpose, phone, at, v);
    }
    if HasActivePending(s.verifications.rows, purpose, phone, at) {
      var v :| v in s.verifications.rows && ActivePending(s.verifications.rows[v], purpose, phone, at);
      GoodIsActive(s, now, purpose, phone, at, v);
    }
  }

  // ---------------------------------------------------------------- sending a code

  /** A fresh code, not tried yet, good for five minutes from now. */
  predicate JustSent(v: VerificationRow, purpose: Purpose, phone: Phone, name: Option<string>, h: int, t: Ticks) {
    && v.purpose == purpose && v.phone == phone && v.name == name && v.codeHash == h
    && v.status.Pending? && v.attemptCount == 0 && v.verifiedAt.None?
    && Within(v.sentAt, t) && v.expiresAt == v.sentAt + FIVE_MINUTES
  }

  ghost predicate CodeSent(s: State, out: Outcome, purpose: Purpose, phone: Phone, name: Option<string>, h: int,
                           t: Ticks)
  {
    && out.result.Ok? && out.result.value.Created?
    && var s', k := out.state, out.result.value.id;
    && OnlyNew(s.verifications, s'.verifications, k)
    && JustSent(s'.verifications.rows[k], purpose, phone, name, h, t)
    && s' == s.(verifications := s'.verifications)
  }

  /** A sign-up code goes to a phone without a member, and none at a time. */
  lemma SignupCodeIff(s: State, now: Time, phone: Phone, name: string, h: int, sms: bool, t: Ticks)
    requires Reachable(s, now) && t.Ordered()
    ensures var out := Step(s, ReqSignupSend(phone, name, h, sms), t);
            && (out.result.Ok? <==> !HasMember(s, phone) && !HasGoodCode(s, Signup, phone, t.t0) && sms)
            && (out.result.Ok? ==> CodeSent(s, out, Signup, phone, Some(name), h, t))
  {
    ReachableInv(s, now);
    HolderIff(s, phone);
    GoodIffActive(s, now, Signup, phone, t.t0);
  }

  /** A log-in code goes to a member's phone, and none at a time. */
  lemma LoginCodeIff(s: State, now: Time, phone: Phone, h: int, sms: bool, t: Ticks)
    requires Reachable(s, now) && t.Ordered()
    ensures var out := Step(s, ReqLoginSend(phone, h, sms), t);
            && (out.result.Ok? <==> HasMember(s, phone) && !HasGoodCode(s, Login, phone, t.t0) && sms)
            && (out.result.Ok? ==> CodeSent(s, out, Login, phone, None, h, t))
  {
    ReachableInv(s, now);
    HolderIff(s, phone);
    GoodIffActive(s, now, Login, phone, t.t0);
  }

  // ---------------------------------------------------------------- entering a code

  /** The code that is entered is the one that is good. */
  predicate RightCode(s: State, purpose: Purpose, phone: Phone, h: int, at: Time, v: Id) {
    GoodCode(s, purpose, phone, at, v) && s.verifications.rows[v].codeHash == h
  }

  ghost predicate HasRightCode(s: State, purpose: Purpose, phone: Phone, h: int, at: Time) {
    exists v :: RightCode(s, purpose, phone, h, at, v)
  }

  /** `v` has been entered, and no other code has changed. */
  ghost predicate UsedUp(s: State, tab: Table<VerificationRow>, v: Id, t: Ticks) {
    && OnlyAt(s.verifications, tab, v) && Stamped(tab.rows[v].verifiedAt, t)
    && tab.rows[v] == s.verifications.rows[v].(status := Verified, verifiedAt := tab.rows[v].verifiedAt)
  }

  /** An attempt is used up, the fifth one expires the code, and no other code has changed. */
  ghost predicate Missed(s: State, tab: Table<VerificationRow>, v: Id) {
    && OnlyAt(s.verifications, tab, v)
    && var row := s.verifications.rows[v];
    && tab.rows[v] == row.(attemptCount := row.attemptCount + 1,
                           status := if row.attemptCount + 1 < 5 then row.status else VerificationStatus.Expired)
  }

  predicate Awaits(s: State, purpose: Purpose, phone: Phone, v: Id) {
    && v in s.verifications.rows
    && s.verifications.rows[v].purpose == purpose && s.verifications.rows[v].phone == phone
    && s.verifications.rows[v].status.Pending?
  }

  /** `v` is the code that was sent last, of those still awaited. */
  ghost predicate AwaitsLast(s: State, purpose: Purpose, phone: Phone, v: Id) {
    && Awaits(s, purpose, phone, v)
    && forall w :: Awaits(s, purpose, phone, w) ==> s.verifications.rows[w].sentAt <= s.verifications.rows[v].sentAt
  }

  /** The code awaited last, if any, is found stale, and no other code has changed. */
  ghost predicate FoundStale(s: State, tab: Table<VerificationRow>, purpose: Purpose, phone: Phone) {
    if exists v :: Awaits(s, purpose, phone, v) then
      exists v :: && AwaitsLast(s, purpose, phone, v) && OnlyAt(s.verifications, tab, v)
                  && tab.rows[v] == s.verifications.rows[v].(status := VerificationStatus.Expired)
    else tab == s.verifications
  }

  /** The check of an entered code: passed exactly on the good code. */
  lemma CheckIff(s: State, now: Time, purpose: Purpose, phone: Phone, h: int, t: Ticks)
    requires Reachable(s, now) && t.Ordered() && now <= t.t0
    ensures var check := Verify(s.verifications, purpose, phone, h, t.t0);
            && (check.Passed? <==> HasRightCode(s, purpose, phone, h, t.t0))
            && (check.Passed? ==>
                RightCode(s, purpose, phone, h, t.t0, check.id) && UsedUp(s, check.table, check.id, t))
  {
    ReachableInv(s, now);
    GoodIffActive(s, now, purpose, phone, t.t0);
    if v :| GoodCode(s, purpose, phone, t.t0, v) {
      GoodIsActive(s, now, purpose, phone, t.t0, v);
      OneActiveCode(s, now, purpose, phone, t.t0, v);
      if s.verifications.rows[v].codeHash == h {
        assert RightCode(s, purpose, phone, h, t.t0, v);
      } else {
        forall w ensures !RightCode(s, purpose, phone, h, t.t0, w) {
          GoodIsActive(s, now, purpose, phone, t.t0, w);
        }
      }
    } else {
      NoVerdictWithoutActiveCode(s, now, purpose, phone, h, t.t0);
    }
  }

  lemma MissCosts(s: State, now: Time, purpose: Purpose, phone: Phone, h: int, t: Ticks, v: Id)
    requires Reachable(s, now) && t.Ordered() && now <= t.t0
    requires GoodCode(s, purpose, phone, t.t0, v) && s.verifications.rows[v].codeHash != h
    ensures var check := Verify(s.verifications, purpose, phone, h, t.t0);
            check.Refused? && check.error == PhoneVerificationCodeMismatch && Missed(s, check.table, v)
  {
    ReachableInv(s, now);
    GoodIsActive(s, now, purpose, phone, t.t0, v);
    OneActiveCode(s, now, purpose, phone, t.t0, v);
  }

  lemma TooLate(s: State, now: Time, purpose: Purpose, phone: Phone, h: int, t: Ticks)
    requires Reachable(s, now) && !HasGoodCode(s, purpose, phone, t.t0)
    ensures var check := Verify(s.verifications, purpose, phone, h, t.t0);
            && check.Refused? && FoundStale(s, check.table, purpose, phone)
            && check.error in {PhoneVerificationNotFound, PhoneVerificationExpired}
  {
    ReachableInv(s, now);
    GoodIffActive(s, now, purpose, phone, t.t0);
    NoVerdictWithoutActiveCode(s, now, purpose, phone, h, t.t0);
    PickIsLast(s, now, purpose, phone);
    var best := NewestPending(s.verifications, purpose, phone);
    if best.Some? {
      var tab := Verify(s.verifications, purpose, phone, h, t.t0).table;
      assert !ActivePending(s.verifications.rows[best.value], purpose, phone, t.t0);
      assert AwaitsLast(s, purpose, phone, best.value) && OnlyAt(s.verifications, tab, best.value);
    }
  }

  lemma PickIsLast(s: State, now: Time, purpose: Purpose, phone: Phone)
    requires Inv(s, now)
    ensures var best := NewestPending(s.verifications, purpose, phone);
            if best.Some? then AwaitsLast(s, purpose, phone, best.value)
            else forall v :: !Awaits(s, purpose, phone, v)
  {
    var tab := s.verifications;
    var ids := Scan(tab.rows, tab.next, PendingFor(purpose, phone));
    LatestSentIsGreatest(tab.rows, ids);
    forall v | Awaits(s, purpose, phone, v) ensures v in ids {
      ScanIsComplete(tab.rows, tab.next, PendingFor(purpose, phone), v);
    }
  }

  // ---------------------------------------------------------------- signing up

  predicate JustJoined(u: UserRow, name: Option<string>, phone: Phone, t: Ticks) {
    && u.name == Some(if name.Some? then name.value else "") && u.phone == Some(phone) && u.alarmEnabled == Some(false)
    && Stamped(u.phoneVerifiedAt, t) && Stamped(u.lastLoginAt, t)
    && u.level == 0 && !u.deleted && u.deletedAt.None?
  }

  /** A deleted row holds no phone. */
  lemma TakenIffMember(s: State, now: Time, phone: Phone)
    requires Inv(s, now)
    ensures PhoneTaken(s.users, phone) <==> HasMember(s, phone)
  {
    if PhoneTaken(s.users, phone) {
      var u :| u in s.users && s.users[u].phone == Some(phone);
      assert UserAt(s.users, u);
      assert MemberWith(s, phone, u);
    }
    if u :| MemberWith(s, phone, u) {
      assert u in s.users && s.users[u].phone == Some(phone);
    }
  }

  /** A sign-up goes through exactly on the good code of a phone without a member. */
  lemma SignsUpIff(s: State, now: Time, phone: Phone, h: int, id: UserId, t: Ticks)
    requires Reachable(s, now) && t.Ordered() && now <= t.t0
    ensures Step(s, ReqSignupConfirm(phone, h, id), t).result.Ok? <==>
            HasRightCode(s, Signup, phone, h, t.t0) && !HasMember(s, phone) && id !in s.users
  {
    ReachableInv(s, now);
    CheckIff(s, now, Signup, phone, h, t);
    HolderIff(s, phone);
    TakenIffMember(s, now, phone);
  }

  /** Everything it changes: the code is used up, and there is one new member, who has not asked for notices. */
  lemma SignupAdds(s: State, now: Time, phone: Phone, h: int, id: UserId, t: Ticks, v: Id)
    requires Reachable(s, now) && t.Ordered() && now <= t.t0 && RightCode(s, Signup, phone, h, t.t0, v)
    requires Step(s, ReqSignupConfirm(phone, h, id), t).result.Ok?
    ensures var out := Step(s, ReqSignupConfirm(phone, h, id), t);
            && out.result.value == Confirmed(v) && UsedUp(s, out.state.verifications, v, t)
            && id !in s.users && id in out.state.users
            && JustJoined(out.state.users[id], s.verifications.rows[v].name, phone, t) && !AlarmOn(out.state.users, id)
            && out.state == s.(users := s.users[id := out.state.users[id]], verifications := out.state.verifications)
  {
    CheckIff(s, now, Signup, phone, h, t);
    OnlyRightCode(s, now, Signup, phone, h, t, v);
  }

  lemma OnlyRightCode(s: State, now: Time, purpose: Purpose, phone: Phone, h: int, t: Ticks, v: Id)
    requires Reachable(s, now) && t.Ordered() && now <= t.t0 && RightCode(s, purpose, phone, h, t.t0, v)
    ensures var check := Verify(s.verifications, purpose, phone, h, t.t0);
            check.Passed? && check.id == v
  {
    ReachableInv(s, now);
    GoodIsActive(s, now, purpose, phone, t.t0, v);
    OneActiveCode(s, now, purpose, phone, t.t0, v);
  }

  // ---------------------------------------------------------------- logging in

  /** A log-in without the test code goes through exactly for a member, on the good code of the member's phone. */
  lemma LogsInIff(s: State, now: Time, phone: Phone, h: int, token: Option<string>, t: Ticks)
    requires Reachable(s, now) && t.Ordered() && now <= t.t0
    ensures Step(s, ReqLoginConfirm(phone, h, false, token), t).result.Ok? <==>
            HasMember(s, phone) && HasRightCode(s, Login, phone, h, t.t0)
  {
    CheckIff(s, now, Login, phone, h, t);
    HolderIff(s, phone);
  }

  /** `u` has logged in, with the device `token` if one is sent. */
  ghost predicate LoggedIn(s: State, s': State, u: UserId, token: Option<string>, t: Ticks) {
    && u in s.users && u in s'.users && Stamped(s'.users[u].lastLoginAt, t)
    && s'.users == s.users[u := s.users[u].(lastLoginAt := s'.users[u].lastLoginAt)]
    && s'.fcmTokens == (if token.Some? then s.fcmTokens[u := token.value] else s.fcmTokens)
    && s' == s.(users := s'.users, fcmTokens := s'.fcmTokens, verifications := s'.verifications)
  }

  /** Everything it changes: the code is used up, and that one member has logged in. */
  lemma LoginChanges(s: State, now: Time, phone: Phone, h: int, token: Option<string>, t: Ticks, u: UserId, v: Id)
    requires Reachable(s, now) && t.Ordered() && now <= t.t0
    requires MemberWith(s, phone, u) && RightCode(s, Login, phone, h, t.t0, v)
    ensures var out := Step(s, ReqLoginConfirm(phone, h, false, token), t);
            && out.result == Ok(Confirmed(v)) && UsedUp(s, out.state.verifications, v, t)
            && LoggedIn(s, out.state, u, token, t)
  {
    ReachableInv(s, now);
    HolderIs(s, now, phone, u);
    CheckIff(s, now, Login, phone, h, t);
    OnlyRightCode(s, now, Login, phone, h, t, v);
  }

  /** Where the test code is allowed, it stands for a code, and uses none up. */
  lemma TestCodeLogsInIff(s: State, now: Time, phone: Phone, h: int, token: Option<string>, t: Ticks, u: UserId)
    requires Reachable(s, now) && t.Ordered()
    ensures var out := Step(s, ReqLoginConfirm(phone, h, true, token), t);
            && (out.result.Ok? <==> HasMember(s, phone))
            && (MemberWith(s, phone, u) ==>
                LoggedIn(s, out.state, u, token, t) && out.state.verifications == s.verifications)
  {
    ReachableInv(s, now);
    HolderIff(s, phone);
    if MemberWith(s, phone, u) {
      HolderIs(s, now, phone, u);
    }
  }

  /**
   * A code that is refused, at sign-up or log-in, costs the good code an attempt, or marks a stale one; there is no
   * other trace of it: no user, no token, nothing.
   */
  lemma RefusedCodeCosts(s: State, now: Time, r: Request, t: Ticks, phone: Phone)
    requires Reachable(s, now) && t.Ordered() && now <= t.t0
    requires r.ReqSignupConfirm? || (r.ReqLoginConfirm? && !r.bypass && HasMember(s, phone))
    requires r.phone == phone
    requires !HasRightCode(s, if r.ReqSignupConfirm? then Signup else Login, phone, r.codeHash, t.t0)
    ensures var out, purpose := Step(s, r, t), if r.ReqSignupConfirm? then Signup else Login;
            && out.result.Err? && out.state == s.(verifications := out.state.verifications)
            && (forall v :: GoodCode(s, purpose, phone, t.t0, v) ==>
                  out.result.error == PhoneVerificationCodeMismatch && Missed(s, out.state.verifications, v))
            && (!HasGoodCode(s, purpose, phone, t.t0) ==> FoundStale(s, out.state.verifications, purpose, phone))
  {
    var purpose := if r.ReqSignupConfirm? then Signup else Login;
    HolderIff(s, phone);
    CheckIff(s, now, purpose, phone, r.codeHash, t);
    if HasGoodCode(s, purpose, phone, t.t0) {
      forall v | GoodCode(s, purpose, phone, t.t0, v)
        ensures Verify(s.verifications, purpose, phone, r.codeHash, t.t0).error == PhoneVerificationCodeMismatch
        ensures Missed(s, Verify(s.verifications, purpose, phone, r.codeHash, t.t0).table, v)
      {
        assert !RightCode(s, purpose, phone, r.codeHash, t.t0, v);
        MissCosts(s, now, purpose, phone, r.codeHash, t, v);
      }
    } else {
      TooLate(s, now, purpose, phone, r.codeHash, t);
    }
  }

  // ---------------------------------------------------------------- settings

  predicate SettingRequest(r: Request) {
    r.ReqSetAlarm? || r.ReqSetName? || r.ReqSetFcmToken? || r.ReqSaveAccount?
  }

  /** What a member changes of their own settings. */
  ghost predicate SetOnly(s: State, s': State, r: Request)
    requires SettingRequest(r) && r.actor in s.users
  {
    var u, row := r.actor, s.users[r.actor];
    match r
    case ReqSetAlarm(_, on) => s' == s.(users := s.users[u := row.(alarmEnabled := Some(on))])
    case ReqSetName(_, name) => s' == s.(users := s.users[u := row.(name := Some(name))])
    case ReqSetFcmToken(_, token) => s' == s.(fcmTokens := s.fcmTokens[u := token])
    case ReqSaveAccount(_, account) => s' == s.(accounts := s.accounts[u := account])
  }

  lemma SettingsIff(s: State, r: Request, t: Ticks)
    requires SettingRequest(r)
    ensures Step(s, r, t).result.Ok? <==> Active(s.users, r.actor)
    ensures Step(s, r, t).result.Ok? ==> SetOnly(s, Step(s, r, t).state, r)
  {
  }

  /** From then on the switch decides: on means notices, off means none. */
  lemma SwitchDecides(s: State, u: UserId, on: bool, t: Ticks)
    requires Active(s.users, u)
    ensures AlarmOn(Step(s, ReqSetAlarm(u, on), t).state.users, u) <==> on
  {
  }
}

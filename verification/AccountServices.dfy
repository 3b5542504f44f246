/** Phone verification, sign-up, log-in and profile commands, against the closed forms of AccountSpec. */
module AccountServices {
  import opened Rows
  import opened AccountSpec
  import opened Entities
  import opened DatabaseAccess

  class Verification {
    const id: Id
    const purpose: Purpose
    const phone: Phone
    const name: Option<string>
    const codeHash: int
    const sentAt: Time
    const expiresAt: Time
    var status: VerificationStatus
    var verifiedAt: Option<Time>
    var attemptCount: nat

    constructor (id: Id, row: VerificationRow)
      ensures this.id == id && Row() == row
    {
      this.id := id;
      purpose, phone, name, codeHash, sentAt, expiresAt := row.purpose, row.phone, row.name, row.codeHash, row.sentAt,
          row.expiresAt;
      status, verifiedAt, attemptCount := row.status, row.verifiedAt, row.attemptCount;
    }

    function Row(): VerificationRow
      reads this
    {
      VerificationRow(purpose, phone, name, codeHash, status, sentAt, expiresAt, verifiedAt, attemptCount)
    }
  }

  method Commit(db: Database, v: Verification)
    modifies db
    ensures db.State() == old(db.State()).(verifications := old(db.verifications).Put(v.id, v.Row()))
  {
    db.verifications := db.verifications.Put(v.id, v.Row());
  }

  // ---------------------------------------------------------------- phone verification

  method Send(db: Database, purpose: Purpose, phone: Phone, name: Option<string>, codeHash: int, smsReady: bool,
              t: Ticks)
    returns (r: Result<Reply>)
    modifies db
    ensures Outcome(db.State(), r) == AccountSpec.Send(old(db.State()), purpose, phone, name, codeHash, smsReady, t)
  {
    if HasActivePending(db.verifications.rows, purpose, phone, t.t0) {
      return Err(PhoneVerificationAlreadySent);
    }
    if !smsReady {
      return Err(SmsSenderNotConfigured);
    }
    var id := db.verifications.next;
    db.verifications := db.verifications.Insert(NewVerification(purpose, phone, name, codeHash, t.t1));
    return Ok(Created(id));
  }

  /**
   * A refusal commits what it recorded; an accepted code changes its row in memory and leaves the commit to the caller.
   */
  method Verify(db: Database, purpose: Purpose, phone: Phone, codeHash: int, now: Time)
    returns (error: Option<Error>, v: Verification?)
    modifies db
    ensures match AccountSpec.Verify(old(db.verifications), purpose, phone, codeHash, now)
            case Refused(table, e) => error == Some(e) && db.State() == old(db.State()).(verifications := table)
            case Passed(table, id) =>
              && error == None && db.State() == old(db.State())
              && v != null && fresh(v) && v.id == id && table == db.verifications.Put(id, v.Row())
  {
    error, v := None, null;
    var newest := NewestPending(db.verifications, purpose, phone);
    if newest.None? {
      return Some(PhoneVerificationNotFound), null;
    }
    v := new Verification(newest.value, db.verifications.rows[newest.value]);
    if v.expiresAt <= now {
      v.status := VerificationStatus.Expired;
      Commit(db, v);
      return Some(PhoneVerificationExpired), v;
    }
    if v.codeHash != codeHash {
      v.attemptCount := v.attemptCount + 1;
      if v.attemptCount >= VERIFICATION_CODE_MAX_ATTEMPTS {
        v.status := VerificationStatus.Expired;
      }
      Commit(db, v);
      return Some(PhoneVerificationCodeMismatch), v;
    }
    v.status := Verified;
    v.verifiedAt := Some(now);
  }

  // ---------------------------------------------------------------- sign-up and log-in

  /** `_find_user_by_phone`: the unique index leaves one candidate at most. */
  method FindUserByPhone(db: Database, phone: Phone) returns (holder: Option<UserId>)
    requires PhonesUnique(db.users)
    ensures holder == HolderOf(db.users, phone)
  {
    if u :| u in db.users && Holds(db.users, u, phone) {
      assert forall v :: Holds(db.users, v, phone) ==> PhonesDiffer(db.users, u, v);
      return Some(u);
    }
    return None;
  }

  method SendSignup(db: Database, phone: Phone, name: string, codeHash: int, smsReady: bool, t: Ticks)
    returns (r: Result<Reply>)
    requires PhonesUnique(db.users)
    modifies db
    ensures Outcome(db.State(), r) == SignupSend(old(db.State()), phone, name, codeHash, smsReady, t)
  {
    var holder := FindUserByPhone(db, phone);
    if holder.Some? {
      return Err(PhoneAlreadyExists);
    }
    r := Send(db, Signup, phone, Some(name), codeHash, smsReady, t);
  }

  method SendLogin(db: Database, phone: Phone, codeHash: int, smsReady: bool, t: Ticks) returns (r: Result<Reply>)
    requires PhonesUnique(db.users)
    modifies db
    ensures Outcome(db.State(), r) == LoginSend(old(db.State()), phone, codeHash, smsReady, t)
  {
    var holder := FindUserByPhone(db, phone);
    if holder.None? {
      return Err(InvalidCredentials);
    }
    r := Send(db, Login, phone, None, codeHash, smsReady, t);
  }

  method ConfirmSignup(db: Database, phone: Phone, codeHash: int, newId: UserId, t: Ticks) returns (r: Result<Reply>)
    requires PhonesUnique(db.users)
    modifies db
    ensures Outcome(db.State(), r) == SignupConfirm(old(db.State()), phone, codeHash, newId, t)
  {
    var error, verification := Verify(db, Signup, phone, codeHash, t.t0);
    if error.Some? {
      return Err(error.value);
    }
    var holder := FindUserByPhone(db, phone);
    if holder.Some? {
      return Err(PhoneAlreadyExists);
    }
    // the primary key or the unique index on phones refuses the commit
    if newId in db.users || PhoneTaken(db.users, phone) {
      return Err(PhoneAlreadyExists);
    }
    db.users := db.users[newId := NewUser(verification.name, phone, t.t1)];
    Commit(db, verification);
    return Ok(Confirmed(verification.id));
  }

  method ConfirmLogin(db: Database, phone: Phone, codeHash: int, bypass: bool, token: Option<string>, t: Ticks)
    returns (r: Result<Reply>)
    requires PhonesUnique(db.users)
    modifies db
    ensures Outcome(db.State(), r) == LoginConfirm(old(db.State()), phone, codeHash, bypass, token, t)
  {
    var holder := FindUserByPhone(db, phone);
    if holder.None? {
      return Err(UserNotFound);
    }
    r := Ok(Done);
    if !bypass {
      var error, verification := Verify(db, Login, phone, codeHash, t.t0);
      if error.Some? {
        return Err(error.value);
      }
      Commit(db, verification);
      r := Ok(Confirmed(verification.id));
    }
    var user := new User(holder.value, db.users[holder.value]);
    user.UpdateLastLoginAt(t.t1);
    if token.Some? {
      db.fcmTokens := db.fcmTokens[user.id := token.value];
    }
    db.SaveUser(user);
  }

  // ---------------------------------------------------------------- profile

  method UpdateAlarm(db: Database, u: UserId, on: bool) returns (r: Result<Reply>)
    modifies db
    ensures Outcome(db.State(), r) == SetAlarm(old(db.State()), u, on)
  {
    var user := db.GetActiveUser(u);
    if user == null {
      return Err(UserNotFound);
    }
    user.UpdateAlarmSetting(on);
    db.SaveUser(user);
    return Ok(Done);
  }

  method UpdateName(db: Database, u: UserId, name: string) returns (r: Result<Reply>)
    modifies db
    ensures Outcome(db.State(), r) == SetName(old(db.State()), u, name)
  {
    var user := db.GetActiveUser(u);
    if user == null {
      return Err(UserNotFound);
    }
    user.UpdateName(name);
    db.SaveUser(user);
    return Ok(Done);
  }

  method UpdateFcmToken(db: Database, u: UserId, token: string) returns (r: Result<Reply>)
    modifies db
    ensures Outcome(db.State(), r) == SetFcmToken(old(db.State()), u, token)
  {
    var user := db.GetActiveUser(u);
    if user == null {
      return Err(UserNotFound);
    }
    db.fcmTokens := db.fcmTokens[user.id := token];
    return Ok(Done);
  }

  method SaveSettlementAccount(db: Database, u: UserId, account: string) returns (r: Result<Reply>)
    modifies db
    ensures Outcome(db.State(), r) == SaveAccount(old(db.State()), u, account)
  {
    db.accounts := db.accounts[u := account];
    return Ok(Done);
  }
}

/** Users over a run: their levels, their withdrawal, their phone verifications. */
module Members {
  import opened Rows
  import opened MarketSpec
  import opened AccountSpec
  import opened Runs
  import opened Invariants
  import opened Preservation
  import opened Transitions
  import opened Lifecycle
  import opened Counting
  import opened Changes

  // ---------------------------------------------------------------- levels

  ghost function SumLevels(users: map<UserId, UserRow>, us: set<UserId>): nat
    requires us <= users.Keys
  {
    if us == {} then 0 else users[Pick(us)].level + SumLevels(users, us - {Pick(us)})
  }

  ghost function CompletedByAny(offers: Offers, us: set<UserId>): set<Id> {
    set o | o in offers && offers[o].runner in us && offers[o].status.AllCompleted?
  }

  ghost function CompletedProposals(proposals: Proposals): set<Id> {
    set p | p in proposals && proposals[p].status.AllCompleted?
  }

  lemma {:induction false} SumCountsOffers(users: map<UserId, UserRow>, offers: Offers, us: set<UserId>)
    requires us <= users.Keys && LevelInv(users, offers)
    ensures SumLevels(users, us) == |CompletedByAny(offers, us)|
  {
    if us == {} {
      assert CompletedByAny(offers, us) == {};
    } else {
      var u := Pick(us);
      SumCountsOffers(users, offers, us - {u});
      assert LevelAt(users, offers, u);
      assert CompletedByAny(offers, us) == CompletedByAny(offers, us - {u}) + CompletedBy(offers, u);
      assert CompletedByAny(offers, us - {u}) !! CompletedBy(offers, u);
    }
  }

  /** Offers of different proposals are as many as the proposals they are for. */
  lemma {:induction false} OffersMatchProposals(offers: Offers, os: set<Id>, ps: set<Id>)
    requires os <= offers.Keys
    requires forall a, b :: a in os && b in os && offers[a].proposal == offers[b].proposal ==> a == b
    requires forall p :: p in ps <==> exists o :: o in os && offers[o].proposal == p
    ensures |os| == |ps|
  {
    if os == {} {
      assert ps == {};
    } else {
      var o := Pick(os);
      var p := offers[o].proposal;
      forall q ensures q in ps - {p} <==> exists a :: a in os - {o} && offers[a].proposal == q {
        if q in ps - {p} {
          var a :| a in os && offers[a].proposal == q;
          assert a in os - {o};
        }
      }
      OffersMatchProposals(offers, os - {o}, ps - {p});
    }
  }

  /** Each user's level counts the deliveries they completed, and all levels together the completed proposals. */
  lemma LevelsCountCompletions(s: State, now: Time)
    requires Reachable(s, now)
    ensures forall u :: u in s.users ==> s.users[u].level == |CompletedBy(s.offers.rows, u)|
    ensures SumLevels(s.users, s.users.Keys) == |CompletedProposals(s.proposals.rows)|
  {
    ReachableInv(s, now);
    var offers, proposals := s.offers.rows, s.proposals.rows;
    forall u | u in s.users ensures s.users[u].level == |CompletedBy(offers, u)| {
      assert LevelAt(s.users, offers, u);
    }
    SumCountsOffers(s.users, offers, s.users.Keys);
    var done, closed := CompletedByAny(offers, s.users.Keys), CompletedProposals(proposals);
    forall a, b | a in done && b in done && offers[a].proposal == offers[b].proposal ensures a == b {
      assert OneEngaged(offers, offers[a].proposal, a, b);
    }
    forall p ensures p in closed <==> exists o :: o in done && offers[o].proposal == p {
      if p in closed {
        var e := ExecutionPair(s, now, p);
        assert RunnerAt(s.users, offers, e);
        assert e in done && offers[e].proposal == p;
      } else if o :| o in done && offers[o].proposal == p {
        assert OfferAt(proposals, offers, o, now);
      }
    }
    OffersMatchProposals(offers, done, closed);
  }

  // ---------------------------------------------------------------- rows that no longer change

  /** Over any number of requests: identities stay, closed and withdrawn rows do not change, levels never fall. */
  predicate RowsSettle(s: State, s': State, p: Id, o: Id, u: UserId) {
    && (p in s.proposals.rows ==>
          && p in s'.proposals.rows && s'.proposals.rows[p].orderer == s.proposals.rows[p].orderer
          && (ClosedProposalStatus(s.proposals.rows[p].status) ==> s'.proposals.rows[p] == s.proposals.rows[p]))
    && (o in s.offers.rows ==>
          && o in s'.offers.rows && s'.offers.rows[o].proposal == s.offers.rows[o].proposal
          && s'.offers.rows[o].runner == s.offers.rows[o].runner
          && (ClosedOfferStatus(s.offers.rows[o].status) ==>
                s'.offers.rows[o] == s.offers.rows[o].(openChatUrl := s'.offers.rows[o].openChatUrl)))
    && (u in s.users ==>
          && u in s'.users && s.users[u].level <= s'.users[u].level
          && (s.users[u].deleted ==> s'.users[u] == s.users[u]))
    && (p in s'.proposals.rows && p !in s.proposals.rows && u in s.users && s.users[u].deleted ==>
        s'.proposals.rows[p].orderer != u)
    && (o in s'.offers.rows && o !in s.offers.rows && u in s.users && s.users[u].deleted ==>
        s'.offers.rows[o].runner != u)
  }

  lemma {:induction false} RunSettles(s: State, now: Time, run: seq<Event>, p: Id, o: Id, u: UserId)
    requires Inv(s, now) && Legal(s, now, run)
    ensures RowsSettle(s, Exec(s, run), p, o, u)
  {
    if run != [] {
      var before, last := run[..|run| - 1], run[|run| - 1];
      RunSettles(s, now, before, p, o, u);
      RunKeeps(s, now, before);
      StepMoves(Exec(s, before), ClockAfter(now, before), last.request, last.at, p, o, u);
    }
  }

  // ---------------------------------------------------------------- withdrawal

  /** Nothing of `u` is left but closed business. */
  ghost predicate Gone(s: State, u: UserId) {
    && u in s.users && s.users[u].deleted && Erased(s.users[u])
    && (forall p :: p in s.proposals.rows && s.proposals.rows[p].orderer == u ==>
        ClosedProposalStatus(s.proposals.rows[p].status))
    && (forall o :: o in s.offers.rows && s.offers.rows[o].runner == u ==> ClosedOfferStatus(s.offers.rows[o].status))
    && (forall n :: n in s.notifications.rows ==> s.notifications.rows[n].user != u)
    && u !in s.fcmTokens && u !in s.accounts
  }

  lemma DeletedIsGone(s: State, now: Time, u: UserId)
    requires Inv(s, now) && u in s.users && s.users[u].deleted
    ensures Gone(s, u)
  {
    assert UserAt(s.users, u);
    forall p | p in s.proposals.rows && s.proposals.rows[p].orderer == u
      ensures ClosedProposalStatus(s.proposals.rows[p].status)
    {
      assert OrdererAt(s.users, s.proposals.rows, p);
    }
    forall o | o in s.offers.rows && s.offers.rows[o].runner == u ensures ClosedOfferStatus(s.offers.rows[o].status) {
      assert RunnerAt(s.users, s.offers.rows, o);
    }
    forall n | n in s.notifications.rows ensures s.notifications.rows[n].user != u {
      assert NotificationAt(s.users, s.notifications.rows, n);
    }
    assert OwnerAt(s.users, s.fcmTokens.Keys, u) && OwnerAt(s.users, s.accounts.Keys, u);
  }

  /** A withdrawal goes through exactly for an active user who is no party to a live execution. */
  lemma WithdrawsIff(s: State, now: Time, u: UserId, t: Ticks)
    requires Reachable(s, now)
    ensures Withdraw(s, u, t).result.Ok? <==> Active(s.users, u) && !exists pid, oid :: LiveParty(s, u, pid, oid)
  {
    ReachableInv(s, now);
    BlockedIffLiveParty(s, now, u);
    forall o ensures !CancelledTwice(s, u, o) {
      AutoCancelsDisjoint(s, now, u, o);
    }
  }

  /** It leaves nothing of the user, keeps the level, and touches no other user's row. */
  lemma WithdrawalErases(s: State, now: Time, u: UserId, t: Ticks)
    requires Reachable(s, now) && t.Ordered() && now <= t.t0
    requires Withdraw(s, u, t).result.Ok?
    ensures var s' := Withdraw(s, u, t).state;
            && Gone(s', u) && s'.users[u].level == s.users[u].level
            && s'.users.Keys == s.users.Keys && forall v :: v in s.users && v != u ==> s'.users[v] == s.users[v]
  {
    ReachableInv(s, now);
    WithdrawKeeps(s, now, u, t);
    DeletedIsGone(Withdraw(s, u, t).state, t.t3, u);
  }

  predicate NoticeStays(s: State, s': State, u: UserId, n: Id) {
    && (n in s'.notifications.rows <==> n in s.notifications.rows && s.notifications.rows[n].user != u)
    && (n in s'.notifications.rows ==> s'.notifications.rows[n] == s.notifications.rows[n])
  }

  predicate CodeStays(s: State, s': State, phone: Option<Phone>, c: Id) {
    && (c in s'.verifications.rows <==> c in s.verifications.rows && Some(s.verifications.rows[c].phone) != phone)
    && (c in s'.verifications.rows ==> s'.verifications.rows[c] == s.verifications.rows[c])
  }

  predicate BelongingsStay(owned: map<UserId, string>, owned': map<UserId, string>, u: UserId, v: UserId) {
    v != u ==> (v in owned <==> v in owned') && (v in owned ==> owned'[v] == owned[v])
  }

  /** What others have stays, row by row: notices, tokens, accounts, codes of other phones, reports and records. */
  lemma WithdrawalKeepsOthers(s: State, u: UserId, t: Ticks)
    requires t.Ordered() && Step(s, ReqWithdraw(u), t).result.Ok?
    ensures var s' := Step(s, ReqWithdraw(u), t).state;
            && u in s.users && u in s'.users && Stamped(s'.users[u].deletedAt, t) && !AlarmOn(s'.users, u)
            && (forall n :: NoticeStays(s, s', u, n))
            && (forall c :: CodeStays(s, s', s.users[u].phone, c))
            && (forall v :: BelongingsStay(s.fcmTokens, s'.fcmTokens, u, v))
            && (forall v :: BelongingsStay(s.accounts, s'.accounts, u, v))
            && s'.reports == s.reports && s'.evidences == s.evidences
  {
  }

  /** The offers it cancels are the waiting ones the user made or received, and no other offer changes. */
  lemma WithdrawalCancels(s: State, now: Time, u: UserId, t: Ticks, o: Id)
    requires Reachable(s, now) && Withdraw(s, u, t).result.Ok? && o in s.offers.rows
    ensures s.offers.rows[o].proposal in s.proposals.rows && o in Withdraw(s, u, t).state.offers.rows
    ensures var row := s.offers.rows[o];
            var hit := row.status.Waiting? && (row.runner == u || s.proposals.rows[row.proposal].orderer == u);
            Withdraw(s, u, t).state.offers.rows[o] == if hit then row.(status := OfferStatus.Cancelled) else row
  {
    ReachableInv(s, now);
    assert OfferAt(s.proposals.rows, s.offers.rows, o, now);
  }

  /** The proposals it cancels are the user's own that are not matched yet, and no other proposal changes. */
  lemma WithdrawalCancelsProposals(s: State, now: Time, u: UserId, t: Ticks, p: Id)
    requires Reachable(s, now) && Withdraw(s, u, t).result.Ok? && p in s.proposals.rows
    ensures p in Withdraw(s, u, t).state.proposals.rows
    ensures var row := s.proposals.rows[p];
            var hit := row.orderer == u && !ClosedProposalStatus(row.status);
            Withdraw(s, u, t).state.proposals.rows[p] == if hit then row.(status := ProposalStatus.Cancelled) else row
  {
    assert !BlockingProposalStatus(s.proposals.rows[p].status) || s.proposals.rows[p].orderer != u;
  }

  /** Whatever anyone does after a withdrawal: the row, its history and its absence everywhere else are final. */
  lemma WithdrawalIsFinal(s: State, now: Time, run: seq<Event>, u: UserId)
    requires Reachable(s, now) && Legal(s, now, run)
    requires u in s.users && s.users[u].deleted
    ensures var s' := Exec(s, run);
            && Gone(s', u) && s'.users[u] == s.users[u]
            && (forall p :: p in s'.proposals.rows && s'.proposals.rows[p].orderer == u ==>
                  p in s.proposals.rows && s'.proposals.rows[p] == s.proposals.rows[p])
            && (forall o :: o in s'.offers.rows && s'.offers.rows[o].runner == u ==>
                  o in s.offers.rows && s'.offers.rows[o].status == s.offers.rows[o].status)
  {
    ReachableInv(s, now);
    RunKeeps(s, now, run);
    DeletedIsGone(s, now, u);
    var s' := Exec(s, run);
    RunSettles(s, now, run, 0, 0, u);
    DeletedIsGone(s', ClockAfter(now, run), u);
    forall p | p in s'.proposals.rows && s'.proposals.rows[p].orderer == u
      ensures p in s.proposals.rows && s'.proposals.rows[p] == s.proposals.rows[p]
    {
      RunSettles(s, now, run, p, 0, u);
    }
    forall o | o in s'.offers.rows && s'.offers.rows[o].runner == u
      ensures o in s.offers.rows && s'.offers.rows[o].status == s.offers.rows[o].status
    {
      RunSettles(s, now, run, 0, o, u);
    }
  }

  /** The freed phone can sign up at once: no other holder, no code still pending. */
  lemma FreedPhoneSignsUp(s: State, now: Time, u: UserId, t: Ticks, phone: Phone, name: string, h: int,
                          smsReady: bool, t': Ticks)
    requires Reachable(s, now) && Withdraw(s, u, t).result.Ok? && s.users[u].phone == Some(phone)
    ensures SignupSend(Withdraw(s, u, t).state, phone, name, h, smsReady, t').result
         == if smsReady then Ok(Created(s.verifications.next)) else Err(SmsSenderNotConfigured)
  {
    ReachableInv(s, now);
    var s' := Withdraw(s, u, t).state;
    forall v ensures !Holds(s'.users, v, phone) {
      assert PhonesDiffer(s.users, u, v);
    }
  }

  // ---------------------------------------------------------------- phone verification

  lemma OthersRanOut(rows: map<Id, VerificationRow>, now: Time, purpose: Purpose, phone: Phone, at: Time, v: Id, w: Id)
    requires VerificationInv(rows, now) && now <= at
    requires v in rows && ActivePending(rows[v], purpose, phone, at)
    requires w in rows && PendingFor(purpose, phone)(w, rows[w]) && w != v
    ensures rows[w].expiresAt <= rows[v].sentAt && rows[w].sentAt < rows[v].sentAt <= now
  {
    assert Successive(rows, v, w) && Successive(rows, w, v);
    assert VerificationAt(rows, w, now) && VerificationAt(rows, v, now);
  }

  lemma {:induction false} LatestSentIsGreatest(rows: map<Id, VerificationRow>, ids: seq<Id>)
    requires forall i :: 0 <= i < |ids| ==> ids[i] in rows
    ensures var best := Latest(rows, ids, SentNoEarlier());
            forall i :: 0 <= i < |ids| ==> rows[ids[i]].sentAt <= rows[best.value].sentAt
  {
    if ids != [] {
      LatestSentIsGreatest(rows, ids[..|ids| - 1]);
    }
  }

  lemma ActiveIsNewest(tab: Table<VerificationRow>, now: Time, purpose: Purpose, phone: Phone, at: Time, v: Id)
    requires VerificationInv(tab.rows, now) && tab.Bounded() && now <= at
    requires v in tab.rows && ActivePending(tab.rows[v], purpose, phone, at)
    ensures NewestPending(tab, purpose, phone) == Some(v)
  {
    var ids := Scan(tab.rows, tab.next, PendingFor(purpose, phone));
    ScanIsComplete(tab.rows, tab.next, PendingFor(purpose, phone), v);
    LatestSentIsGreatest(tab.rows, ids);
    var best := Latest(tab.rows, ids, SentNoEarlier()).value;
    var i :| 0 <= i < |ids| && ids[i] == v;
    assert tab.rows[v].sentAt <= tab.rows[best].sentAt;
    if best != v {
      OthersRanOut(tab.rows, now, purpose, phone, at, v, best);
    }
  }

  /** Of one purpose and phone at most one pending code is within its window, and it is the one `verify` looks at. */
  lemma OneActiveCode(s: State, now: Time, purpose: Purpose, phone: Phone, at: Time, v: Id)
    requires Reachable(s, now) && now <= at
    requires v in s.verifications.rows && ActivePending(s.verifications.rows[v], purpose, phone, at)
    ensures forall w :: w in s.verifications.rows && ActivePending(s.verifications.rows[w], purpose, phone, at) ==>
                w == v
    ensures NewestPending(s.verifications, purpose, phone) == Some(v)
  {
    ReachableInv(s, now);
    ActiveIsNewest(s.verifications, now, purpose, phone, at, v);
    forall w | w in s.verifications.rows && ActivePending(s.verifications.rows[w], purpose, phone, at) ensures w == v {
      if w != v {
        OthersRanOut(s.verifications.rows, now, purpose, phone, at, v, w);
        OthersRanOut(s.verifications.rows, now, purpose, phone, at, w, v);
      }
    }
  }

  /** Pending windows of one purpose and phone never overlap. */
  lemma WindowsDisjoint(s: State, now: Time, a: Id, b: Id)
    requires Reachable(s, now) && a in s.verifications.rows && b in s.verifications.rows && a != b
    requires SamePending(s.verifications.rows[a], s.verifications.rows[b])
    requires s.verifications.rows[a].sentAt <= s.verifications.rows[b].sentAt
    ensures s.verifications.rows[a].expiresAt <= s.verifications.rows[b].sentAt
  {
    ReachableInv(s, now);
    var rows := s.verifications.rows;
    assert Successive(rows, a, b) && Successive(rows, b, a);
    assert VerificationAt(rows, a, now) && VerificationAt(rows, b, now);
  }

  /**
   * Five misses end a code; a code still pending has had fewer, and a verified one was entered within its five minutes.
   */
  lemma AttemptsBounded(s: State, now: Time, v: Id)
    requires Reachable(s, now) && v in s.verifications.rows
    ensures var row := s.verifications.rows[v];
            && row.attemptCount <= VERIFICATION_CODE_MAX_ATTEMPTS
            && (row.attemptCount == VERIFICATION_CODE_MAX_ATTEMPTS ==> row.status.Expired?)
            && (row.status.Pending? ==> row.attemptCount < VERIFICATION_CODE_MAX_ATTEMPTS)
            && (row.status.Verified? <==> row.verifiedAt.Some?)
            && (row.status.Verified? ==> row.sentAt <= row.verifiedAt.value < row.sentAt + VERIFICATION_CODE_TTL)
  {
    ReachableInv(s, now);
    assert VerificationAt(s.verifications.rows, v, now);
  }

  /** With a code in its window, a check succeeds exactly on that code; a miss uses up one of five attempts. */
  lemma VerdictOnActiveCode(s: State, now: Time, purpose: Purpose, phone: Phone, h: int, at: Time, v: Id)
    requires Reachable(s, now) && now <= at
    requires v in s.verifications.rows && ActivePending(s.verifications.rows[v], purpose, phone, at)
    ensures var row := s.verifications.rows[v];
            var check := Verify(s.verifications, purpose, phone, h, at);
            && row.attemptCount < VERIFICATION_CODE_MAX_ATTEMPTS
            && check.table.rows.Keys == s.verifications.rows.Keys
            && (forall w :: w in s.verifications.rows && w != v ==> check.table.rows[w] == s.verifications.rows[w])
            && (check.Passed? <==> row.codeHash == h)
            && (check.Passed? ==> check.id == v && check.table.rows[v].status.Verified?)
            && (check.Refused? ==> check.table.rows[v].attemptCount == row.attemptCount + 1)
            && (check.Refused? ==>
                (check.table.rows[v].status.Pending? <==> row.attemptCount + 1 < VERIFICATION_CODE_MAX_ATTEMPTS))
  {
    OneActiveCode(s, now, purpose, phone, at, v);
    ReachableInv(s, now);
    assert VerificationAt(s.verifications.rows, v, now);
  }

  /** Without one, no code is accepted. */
  lemma NoVerdictWithoutActiveCode(s: State, now: Time, purpose: Purpose, phone: Phone, h: int, at: Time)
    requires Reachable(s, now)
    requires !HasActivePending(s.verifications.rows, purpose, phone, at)
    ensures Verify(s.verifications, purpose, phone, h, at).Refused?
  {
    var best := NewestPending(s.verifications, purpose, phone);
    if best.Some? {
      assert !ActivePending(s.verifications.rows[best.value], purpose, phone, at);
    }
  }

  /** The row `v` has been used up, or is gone: it can never be pending again. */
  predicate Spent(tab: Table<VerificationRow>, v: Id) {
    v < tab.next && (v in tab.rows ==> !tab.rows[v].status.Pending?)
  }

  lemma SendKeepsSpent(s: State, purpose: Purpose, phone: Phone, name: Option<string>, h: int, sms: bool, t: Ticks,
                       v: Id)
    requires Spent(s.verifications, v)
    ensures Spent(Send(s, purpose, phone, name, h, sms, t).state.verifications, v)
  {
  }

  lemma CheckKeepsSpent(tab: Table<VerificationRow>, purpose: Purpose, phone: Phone, h: int, at: Time, v: Id)
    requires Spent(tab, v)
    ensures Spent(Verify(tab, purpose, phone, h, at).table, v)
  {
  }

  /** The requests that write to the verification table. */
  predicate TouchesCodes(r: Request) {
    r.ReqSignupSend? || r.ReqLoginSend? || r.ReqSignupConfirm? || r.ReqLoginConfirm? || r.ReqWithdraw?
  }

  lemma OthersLeaveCodes(s: State, r: Request, t: Ticks)
    requires !TouchesCodes(r)
    ensures Step(s, r, t).state.verifications == s.verifications
  {
  }

  lemma StepKeepsSpent(s: State, r: Request, t: Ticks, v: Id)
    requires Spent(s.verifications, v)
    ensures Spent(Step(s, r, t).state.verifications, v)
  {
    if TouchesCodes(r) {
      match r
      case ReqSignupSend(phone, name, h, sms) => SendKeepsSpent(s, Signup, phone, Some(name), h, sms, t, v);
      case ReqLoginSend(phone, h, sms) => SendKeepsSpent(s, Login, phone, None, h, sms, t, v);
      case ReqSignupConfirm(phone, h, _) => CheckKeepsSpent(s.verifications, Signup, phone, h, t.t0, v);
      case ReqLoginConfirm(phone, h, _, _) => CheckKeepsSpent(s.verifications, Login, phone, h, t.t0, v);
      case ReqWithdraw(u) =>
    } else {
      OthersLeaveCodes(s, r, t);
    }
  }

  /** A check that passes takes a pending row and uses it up. */
  lemma PassSpends(tab: Table<VerificationRow>, purpose: Purpose, phone: Phone, h: int, at: Time)
    requires Verify(tab, purpose, phone, h, at).Passed? && tab.Bounded()
    ensures var check := Verify(tab, purpose, phone, h, at);
            !Spent(tab, check.id) && check.id in tab.rows && Spent(check.table, check.id)
  {
    var best := NewestPending(tab, purpose, phone).value;
    assert tab.rows[best].status.Pending?;
  }

  /** Nothing but a sign-up or a log-in confirms. */
  lemma ConfirmedBy(s: State, r: Request, t: Ticks, v: Id)
    requires Step(s, r, t).result == Ok(Confirmed(v))
    ensures ChecksCode(r)
  {
  }

  /** A confirmation consumes a pending row. */
  lemma ConfirmationSpends(s: State, r: Request, t: Ticks, v: Id)
    requires Step(s, r, t).result == Ok(Confirmed(v)) && s.verifications.Bounded()
    ensures !Spent(s.verifications, v) && v in s.verifications.rows && Spent(Step(s, r, t).state.verifications, v)
  {
    ConfirmedBy(s, r, t, v);
    if r.ReqSignupConfirm? {
      PassSpends(s.verifications, Signup, r.phone, r.codeHash, t.t0);
    } else {
      PassSpends(s.verifications, Login, r.phone, r.codeHash, t.t0);
    }
  }

  lemma {:induction false} SpentForGood(s: State, run: seq<Event>, v: Id)
    requires Spent(s.verifications, v)
    ensures Spent(Exec(s, run).verifications, v)
  {
    if run != [] {
      var before, last := run[..|run| - 1], run[|run| - 1];
      SpentForGood(s, before, v);
      StepKeepsSpent(Exec(s, before), last.request, last.at, v);
    }
  }

  /** Two successful confirmations, with any run between them, never use the same sent row. */
  lemma EachCodeConfirmsOnce(s: State, now: Time, r: Request, t: Ticks, run: seq<Event>, r': Request, t': Ticks,
                             v: Id, w: Id)
    requires Reachable(s, now) && t.Ordered() && now <= t.t0 && ChecksCode(r) && ChecksCode(r')
    requires Step(s, r, t).result == Ok(Confirmed(v)) && Legal(Step(s, r, t).state, t.t3, run)
    requires Step(Exec(Step(s, r, t).state, run), r', t').result == Ok(Confirmed(w))
    ensures v != w
  {
    var mid := Step(s, r, t).state;
    ReachableInv(s, now);
    ConfirmationSpends(s, r, t, v);
    SpentForGood(mid, run, v);
    StaysReachable(s, now, r, t);
    RunReaches(mid, t.t3, run);
    ReachableInv(Exec(mid, run), ClockAfter(t.t3, run));
    ConfirmationSpends(Exec(mid, run), r', t', w);
  }

  /** No two users who are still members share a phone. */
  lemma MembersHaveTheirOwnPhone(s: State, now: Time, u: UserId, v: UserId)
    requires Reachable(s, now) && Active(s.users, u) && Active(s.users, v) && u != v
    ensures s.users[u].phone.Some? ==> s.users[u].phone != s.users[v].phone
  {
    ReachableInv(s, now);
    assert PhonesDiffer(s.users, u, v);
  }
}

/** Every request keeps the invariant, whatever its arguments and whether or not it is refused. */
module Preservation {
  import opened Rows
  import opened MarketSpec
  import opened AccountSpec
  import opened OutboxSpec
  import opened Runs
  import opened Invariants
  import opened MarketProofs
  import opened TableProofs

  lemma InvLater(s: State, now: Time, later: Time)
    requires Inv(s, now) && now <= later
    ensures Inv(s, later)
  {
    MarketTime(s.proposals.rows, s.offers.rows, now, later);
    VerificationLater(s.verifications.rows, now, later);
  }

  // ---------------------------------------------------------------- steps of an execution

  /** Who is where after a level update, and who owns what. */
  lemma ExecutionUsers(s: State, users: map<UserId, UserRow>, u: UserId)
    requires UsersOk(s.users) && (users == s.users || users == BumpLevel(s.users, u))
    requires OwnersActive(s.users, s.fcmTokens.Keys) && OwnersActive(s.users, s.accounts.Keys)
    requires InboxInv(s.users, s.notifications.rows)
    ensures UsersOk(users) && SameActivity(s.users, users)
    ensures OwnersActive(users, s.fcmTokens.Keys) && OwnersActive(users, s.accounts.Keys)
    ensures InboxInv(users, s.notifications.rows)
  {
    BumpOk(s.users, u);
    OwnersKept(s.users, users, s.fcmTokens.Keys);
    OwnersKept(s.users, users, s.accounts.Keys);
    InboxKept(s.users, users, s.notifications.rows);
  }

  /** What the commands on a matched pair have in common: they move one pair and bump a level iff it is done. */
  lemma ExecutionStep(s: State, now: Time, pid: Id, oid: Id, p': ProposalRow, o': OfferRow)
    requires Inv(s, now)
    requires pid in s.proposals.rows && EngagedIn(s.offers.rows, pid, oid)
    requires BlockingProposalStatus(s.proposals.rows[pid].status) && BlockingOfferStatus(s.offers.rows[oid].status)
    requires p'.orderer == s.proposals.rows[pid].orderer && o'.proposal == pid && o'.runner == s.offers.rows[oid].runner
    requires PostMatch(p'.status) && Engaged(o'.status)
    requires ProposalOk(p', now) && OfferOk(o', now) && PairOk(p', o')
    ensures var users := if o'.status.AllCompleted? then BumpLevel(s.users, o'.runner) else s.users;
            && MarketInv(s.proposals.rows[pid := p'], s.offers.rows[oid := o'], now)
            && LevelInv(users, s.offers.rows[oid := o'])
            && ReportInv(s.proposals.rows[pid := p'], s.reports.rows)
            && UsersOk(users)
            && LiveInv(users, s.proposals.rows[pid := p'], s.offers.rows[oid := o'])
            && OwnersActive(users, s.fcmTokens.Keys) && OwnersActive(users, s.accounts.Keys)
            && InboxInv(users, s.notifications.rows)
  {
    var ps, os := s.proposals.rows, s.offers.rows;
    var users := if o'.status.AllCompleted? then BumpLevel(s.users, o'.runner) else s.users;
    MarketAdvance(ps, os, now, pid, oid, p', o');
    if o'.status.AllCompleted? {
      LevelBumped(s.users, os, oid, o');
    } else {
      LevelKept(s.users, s.users, os, os[oid := o']);
    }
    ReportsKept(ps, ps[pid := p'], s.reports.rows);
    ExecutionUsers(s, users, o'.runner);
    LiveAdvance(s.users, users, ps, os, pid, oid, p', o');
  }

  /** An execution that stays out of dispute, or moves within it, keeps the evidence in step. */
  lemma ExecutionEvidence(s: State, now: Time, pid: Id, oid: Id, p': ProposalRow, o': OfferRow)
    requires Inv(s, now)
    requires pid in s.proposals.rows && EngagedIn(s.offers.rows, pid, oid)
    requires p'.orderer == s.proposals.rows[pid].orderer && o'.proposal == pid && o'.runner == s.offers.rows[oid].runner
    requires Engaged(o'.status) && (Contested(p'.status) <==> Contested(s.proposals.rows[pid].status))
    ensures EvidenceInv(s.proposals.rows[pid := p'], s.offers.rows[oid := o'], s.evidences.rows)
  {
    EvidenceKept(s.proposals.rows, s.offers.rows, s.proposals.rows[pid := p'], s.offers.rows[oid := o'],
                 s.evidences.rows);
  }

  lemma CompleteDeliveryKeeps(s: State, now: Time, oid: Id, runner: UserId, t: Ticks)
    requires Inv(s, now) && t.Ordered() && now <= t.t0
    ensures Inv(CompleteDelivery(s, oid, runner, t).state, t.t3)
  {
    InvLater(s, now, t.t3);
    var s' := CompleteDelivery(s, oid, runner, t).state;
    if CompleteDelivery(s, oid, runner, t).result.Ok? {
      var o := s.offers.rows[oid];
      var pid := o.proposal;
      var p', o' := s'.proposals.rows[pid], s'.offers.rows[oid];
      assert OfferAt(s.proposals.rows, s.offers.rows, oid, now) && ProposalAt(s.proposals.rows, pid, now);
      ExecutionStep(s, t.t3, pid, oid, p', o');
      ExecutionEvidence(s, t.t3, pid, oid, p', o');
      NotifyOk(s'.users, s.notifications, p'.orderer, MeetingConfirmed, oid, t.t3);
    }
  }

  lemma ConfirmReceivedKeeps(s: State, now: Time, pid: Id, orderer: UserId, t: Ticks)
    requires Inv(s, now) && t.Ordered() && now <= t.t0
    ensures Inv(ConfirmReceived(s, pid, orderer, t).state, t.t3)
  {
    InvLater(s, now, t.t3);
    var s' := ConfirmReceived(s, pid, orderer, t).state;
    if ConfirmReceived(s, pid, orderer, t).result.Ok? {
      var oid := ExecutionOffer(s.offers, pid).value;
      var o := s.offers.rows[oid];
      var p', o' := s'.proposals.rows[pid], s'.offers.rows[oid];
      assert OfferAt(s.proposals.rows, s.offers.rows, oid, now) && ProposalAt(s.proposals.rows, pid, now);
      ExecutionStep(s, t.t3, pid, oid, p', o');
      ExecutionEvidence(s, t.t3, pid, oid, p', o');
      NotifyOk(s'.users, s.notifications, o.runner, MeetingConfirmed, oid, t.t3);
      NotifyAllOk(s'.users, Notify(s'.users, s.notifications, o.runner, MeetingConfirmed, oid, t.t3),
                  [p'.orderer, o.runner], ExecutionCompleted, oid, t.t3);
    }
  }

  /** A dispute moves the pair, files its record and tells the other party, whoever raises it. */
  lemma DisputeStep(s: State, now: Time, pid: Id, oid: Id, p': ProposalRow, o': OfferRow, e: EvidenceRow,
                    told: UserId, at: Time)
    requires Inv(s, now)
    requires pid in s.proposals.rows && EngagedIn(s.offers.rows, pid, oid)
    requires BlockingProposalStatus(s.proposals.rows[pid].status) && BlockingOfferStatus(s.offers.rows[oid].status)
    requires !s.proposals.rows[pid].status.Disputed?
    requires p'.orderer == s.proposals.rows[pid].orderer && o'.proposal == pid && o'.runner == s.offers.rows[oid].runner
    requires p'.status.Disputed? && o'.status.Disputed?
    requires ProposalOk(p', now) && OfferOk(o', now) && PairOk(p', o')
    requires e.proposal == pid && e.offer == oid && e.actor in {p'.orderer, o'.runner}
        && told in {p'.orderer, o'.runner}
    ensures Inv(s.(proposals := s.proposals.Put(pid, p'), offers := s.offers.Put(oid, o'),
                   evidences := s.evidences.Insert(e),
                   notifications := Notify(s.users, s.notifications, told, DisputeRaised, oid, at)), now)
  {
    ExecutionStep(s, now, pid, oid, p', o');
    EvidenceAdded(s.proposals.rows, s.offers.rows, s.evidences.rows, p', o', s.evidences.next, e);
    assert OrdererAt(s.users, s.proposals.rows, pid) && RunnerAt(s.users, s.offers.rows, oid);
    NotifyOk(s.users, s.notifications, told, DisputeRaised, oid, at);
  }

  lemma OfferDisputeKeeps(s: State, now: Time, oid: Id, runner: UserId, q: Id, active: bool, reason: string, t: Ticks)
    requires Inv(s, now) && t.Ordered() && now <= t.t0
    ensures Inv(OfferDispute(s, oid, runner, q, active, reason, t).state, t.t3)
  {
    InvLater(s, now, t.t3);
    if OfferDispute(s, oid, runner, q, active, reason, t).result.Ok? {
      var o := s.offers.rows[oid];
      var pid := o.proposal;
      var p := s.proposals.rows[pid];
      assert OfferAt(s.proposals.rows, s.offers.rows, oid, now) && ProposalAt(s.proposals.rows, pid, now);
      DisputeStep(s, t.t3, pid, oid, p.(status := ProposalStatus.Disputed, disputedAt := Some(t.t1)),
                  o.(status := OfferStatus.Disputed, disputedAt := Some(t.t0)),
                  EvidenceRow(pid, oid, runner, q, reason, t.t2), p.orderer, t.t3);
    }
  }

  lemma ProposalDisputeKeeps(s: State, now: Time, pid: Id, orderer: UserId, q: Id, active: bool, reason: string,
                             t: Ticks)
    requires Inv(s, now) && t.Ordered() && now <= t.t0
    ensures Inv(ProposalDispute(s, pid, orderer, q, active, reason, t).state, t.t3)
  {
    InvLater(s, now, t.t3);
    if ProposalDispute(s, pid, orderer, q, active, reason, t).result.Ok? {
      var oid := ExecutionOffer(s.offers, pid).value;
      var o, p := s.offers.rows[oid], s.proposals.rows[pid];
      assert OfferAt(s.proposals.rows, s.offers.rows, oid, now) && ProposalAt(s.proposals.rows, pid, now);
      DisputeStep(s, t.t3, pid, oid, p.(status := ProposalStatus.Disputed, disputedAt := Some(t.t0)),
                  o.(status := OfferStatus.Disputed, disputedAt := Some(t.t1)),
                  EvidenceRow(pid, oid, orderer, q, reason, t.t2), o.runner, t.t3);
    }
  }

  lemma OfferResolveKeeps(s: State, now: Time, oid: Id, t: Ticks)
    requires Inv(s, now) && t.Ordered() && now <= t.t0
    ensures Inv(OfferResolve(s, oid, t).state, t.t3)
  {
    InvLater(s, now, t.t3);
    var s' := OfferResolve(s, oid, t).state;
    if OfferResolve(s, oid, t).result.Ok? {
      var o := s.offers.rows[oid];
      var pid := o.proposal;
      var p', o' := s'.proposals.rows[pid], s'.offers.rows[oid];
      assert OfferAt(s.proposals.rows, s.offers.rows, oid, now) && ProposalAt(s.proposals.rows, pid, now);
      ExecutionStep(s, t.t3, pid, oid, p', o');
      ExecutionEvidence(s, t.t3, pid, oid, p', o');
    }
  }

  // ---------------------------------------------------------------- recruitment

  /** A new offer on a recruiting proposal, and whatever was queued. */
  lemma OfferCreateStep(s: State, now: Time, pid: Id, runner: UserId, at: Time, box: Table<NotificationRow>)
    requires Inv(s, now) && at <= now && Active(s.users, runner)
    requires pid in s.proposals.rows && RecruitingStatus(s.proposals.rows[pid].status)
    requires s.proposals.rows[pid].orderer != runner && !HasOfferBy(s.offers.rows, pid, runner)
    requires InboxInv(s.users, box.rows) && box.Bounded()
    ensures Inv(s.(offers := s.offers.Insert(NewOffer(pid, runner, at)),
                   proposals := s.proposals.Put(pid, s.proposals.rows[pid].(status := Offered)),
                   notifications := box), now)
  {
    var ps, os, oid := s.proposals.rows, s.offers.rows, s.offers.next;
    var ps', os' := ps[pid := ps[pid].(status := Offered)], os[oid := NewOffer(pid, runner, at)];
    MarketNewOffer(ps, os, now, pid, oid, runner, at);
    LevelKept(s.users, s.users, os, os');
    EvidenceKept(ps, os, ps', os', s.evidences.rows);
    ReportsKept(ps, ps', s.reports.rows);
    LiveNewOffer(s.users, ps, os, pid, oid, NewOffer(pid, runner, at));
  }

  lemma OfferCreateKeeps(s: State, now: Time, pid: Id, runner: UserId, t: Ticks)
    requires Inv(s, now) && t.Ordered() && now <= t.t0 && Active(s.users, runner)
    ensures Inv(OfferCreate(s, pid, runner, t).state, t.t3)
  {
    InvLater(s, now, t.t3);
    if OfferCreate(s, pid, runner, t).result.Ok? {
      var orderer, oid := s.proposals.rows[pid].orderer, s.offers.next;
      var box := Notify(s.users, s.notifications, orderer, OfferNew, oid, t.t3);
      NotifyOk(s.users, s.notifications, orderer, OfferNew, oid, t.t3);
      NotifyOk(s.users, box, runner, OfferSubmitted, oid, t.t3);
      OfferCreateStep(s, t.t3, pid, runner, t.t0, Notify(s.users, box, runner, OfferSubmitted, oid, t.t3));
    }
  }

  /** What closing a proposal to offers, or cancelling one offer, leaves to the other tables. */
  lemma PreMatchTables(s: State, now: Time, ps': Proposals, os': Offers)
    requires Inv(s, now)
    requires ps'.Keys == s.proposals.rows.Keys && os'.Keys == s.offers.rows.Keys
    requires forall p :: p in ps' ==>
               ps'[p] == s.proposals.rows[p] || (ps'[p].orderer == s.proposals.rows[p].orderer
                                                 && CancellableStatus(s.proposals.rows[p].status)
                                                 && !Contested(ps'[p].status))
    requires forall o :: o in os' ==>
               os'[o] == s.offers.rows[o] || (os'[o].proposal == s.offers.rows[o].proposal
                                              && os'[o].runner == s.offers.rows[o].runner
                                              && s.offers.rows[o].status.Waiting? && !os'[o].status.AllCompleted?)
    ensures LevelInv(s.users, os') && EvidenceInv(ps', os', s.evidences.rows) && LiveInv(s.users, ps', os')
  {
    LevelKept(s.users, s.users, s.offers.rows, os');
    EvidenceKept(s.proposals.rows, s.offers.rows, ps', os', s.evidences.rows);
    LiveKept(s.users, s.users, s.proposals.rows, s.offers.rows, ps', os');
  }

  /** The matched pair, its losers turned down, and whatever was queued. */
  lemma AcceptStep(s: State, now: Time, pid: Id, oid: Id, at: Time, box: Table<NotificationRow>)
    requires Inv(s, now) && at <= now
    requires pid in s.proposals.rows && s.proposals.rows[pid].status.Offered?
    requires OfferOf(s.offers.rows, pid, oid) && s.offers.rows[oid].status.Waiting?
    requires InboxInv(s.users, box.rows) && box.Bounded()
    ensures var o' := s.offers.rows[oid].(status := OfferStatus.Accepted, acceptedAt := Some(at));
            var p' := s.proposals.rows[pid].(status := Matched, matchedAt := Some(at));
            Inv(s.(offers := s.offers.(rows := RejectWaiting(s.offers.rows, pid)[oid := o']),
                   proposals := s.proposals.Put(pid, p'),
                   notifications := box), now)
  {
    var o' := s.offers.rows[oid].(status := OfferStatus.Accepted, acceptedAt := Some(at));
    var os' := RejectWaiting(s.offers.rows, pid)[oid := o'];
    var ps' := s.proposals.rows[pid := s.proposals.rows[pid].(status := Matched, matchedAt := Some(at))];
    MarketAccept(s.proposals.rows, s.offers.rows, now, pid, oid, at);
    PreMatchTables(s, now, ps', os');
    ReportsKept(s.proposals.rows, ps', s.reports.rows);
  }

  lemma OfferAcceptKeeps(s: State, now: Time, oid: Id, orderer: UserId, t: Ticks)
    requires Inv(s, now) && t.Ordered() && now <= t.t0
    ensures Inv(OfferAccept(s, oid, orderer, t).state, t.t3)
  {
    InvLater(s, now, t.t3);
    if OfferAccept(s, oid, orderer, t).result.Ok? {
      var o := s.offers.rows[oid];
      var losers := RejectedRunners(s.offers, o.proposal, oid);
      var box := Notify(s.users, s.notifications, o.runner, NotificationKind.OfferAccepted, oid, t.t3);
      BiddersNotified(s.users, s.notifications, o.runner, losers, oid, t.t3);
      AcceptStep(s, t.t3, o.proposal, oid, t.t0,
                 NotifyAll(s.users, box, losers, NotificationKind.OfferRejected, oid, t.t3));
    }
  }

  lemma BiddersNotified(users: map<UserId, UserRow>, box: Table<NotificationRow>, winner: UserId, losers: seq<UserId>,
                        oid: Id, at: Time)
    requires InboxInv(users, box.rows) && box.Bounded() && UsersOk(users)
    ensures var told := NotifyAll(users, Notify(users, box, winner, NotificationKind.OfferAccepted, oid, at), losers,
                                  NotificationKind.OfferRejected, oid, at);
            InboxInv(users, told.rows) && told.Bounded()
  {
    NotifyOk(users, box, winner, NotificationKind.OfferAccepted, oid, at);
    NotifyAllOk(users, Notify(users, box, winner, NotificationKind.OfferAccepted, oid, at), losers,
                NotificationKind.OfferRejected, oid, at);
  }

  lemma OfferCancelKeeps(s: State, now: Time, oid: Id, runner: UserId)
    requires Inv(s, now)
    ensures Inv(OfferCancel(s, oid, runner).state, now)
  {
    var s' := OfferCancel(s, oid, runner).state;
    if OfferCancel(s, oid, runner).result.Ok? {
      var o := s.offers.rows[oid];
      assert OfferAt(s.proposals.rows, s.offers.rows, oid, now);
      CancelledRow(s.proposals.rows[o.proposal], o, now);
      MarketOfferPut(s.proposals.rows, s.offers.rows, now, oid, o.(status := OfferStatus.Cancelled));
      PreMatchTables(s, now, s'.proposals.rows, s'.offers.rows);
    }
  }

  lemma AssignChatUrlKeeps(s: State, now: Time, oid: Id, url: Option<string>)
    requires Inv(s, now)
    ensures Inv(AssignChatUrl(s, oid, url).state, now)
  {
    var s' := AssignChatUrl(s, oid, url).state;
    if oid in s.offers.rows {
      var o' := s.offers.rows[oid].(openChatUrl := url);
      assert OfferAt(s.proposals.rows, s.offers.rows, oid, now);
      MarketOfferPut(s.proposals.rows, s.offers.rows, now, oid, o');
      LevelKept(s.users, s.users, s.offers.rows, s'.offers.rows);
      EvidenceKept(s.proposals.rows, s.offers.rows, s.proposals.rows, s'.offers.rows, s.evidences.rows);
      LiveKept(s.users, s.users, s.proposals.rows, s.offers.rows, s.proposals.rows, s'.offers.rows);
    }
  }

  lemma ProposalCreateKeeps(s: State, now: Time, orderer: UserId, d: Draft, t: Ticks)
    requires Inv(s, now) && t.Ordered() && now <= t.t0
    ensures Inv(ProposalCreate(s, orderer, d, t).state, t.t3)
  {
    InvLater(s, now, t.t3);
    var s' := ProposalCreate(s, orderer, d, t).state;
    if ProposalCreate(s, orderer, d, t).result.Ok? {
      var p := NewProposal(orderer, d, t.t1);
      MarketNewProposal(s.proposals.rows, s.offers.rows, t.t3, s.proposals.next, p);
      EvidenceKept(s.proposals.rows, s.offers.rows, s'.proposals.rows, s.offers.rows, s.evidences.rows);
      ReportsKept(s.proposals.rows, s'.proposals.rows, s.reports.rows);
      LiveNewProposal(s.users, s.proposals.rows, s.offers.rows, s.proposals.next, p);
    }
  }

  /** An edit, or the confirmation of the payment, of a proposal without offers. */
  lemma RepostKeeps(s: State, now: Time, pid: Id, p': ProposalRow)
    requires Inv(s, now)
    requires pid in s.proposals.rows && (s.proposals.rows[pid].status.Holding? || s.proposals.rows[pid].status.Posted?)
    requires p'.status.Holding? || p'.status.Posted?
    requires p' == s.proposals.rows[pid].(status := p'.status, draft := p'.draft)
    ensures Inv(s.(proposals := s.proposals.Put(pid, p')), now)
  {
    var s' := s.(proposals := s.proposals.Put(pid, p'));
    MarketRepost(s.proposals.rows, s.offers.rows, now, pid, p');
    PreMatchTables(s, now, s'.proposals.rows, s.offers.rows);
    ReportsKept(s.proposals.rows, s'.proposals.rows, s.reports.rows);
  }

  lemma ProposalUpdateKeeps(s: State, now: Time, pid: Id, d: Draft, orderer: UserId, t: Ticks)
    requires Inv(s, now) && t.Ordered() && now <= t.t0
    ensures Inv(ProposalUpdate(s, pid, d, orderer, t).state, t.t3)
  {
    InvLater(s, now, t.t3);
    if ProposalUpdate(s, pid, d, orderer, t).result.Ok? {
      RepostKeeps(s, t.t3, pid, s.proposals.rows[pid].(draft := d, status := Holding));
    }
  }

  lemma ConfirmPaymentKeeps(s: State, now: Time, pid: Id)
    requires Inv(s, now)
    ensures Inv(ConfirmPayment(s, pid).state, now)
  {
    if ConfirmPayment(s, pid).result.Ok? {
      RepostKeeps(s, now, pid, s.proposals.rows[pid].(status := Posted));
    }
  }

  lemma ProposalCancelKeeps(s: State, now: Time, pid: Id, orderer: UserId)
    requires Inv(s, now)
    ensures Inv(ProposalCancel(s, pid, orderer).state, now)
  {
    var s' := ProposalCancel(s, pid, orderer).state;
    if ProposalCancel(s, pid, orderer).result.Ok? {
      if !s.proposals.rows[pid].status.Offered? {
        NothingToReject(s.proposals.rows, s.offers.rows, now, pid);
      }
      MarketClose(s.proposals.rows, s.offers.rows, now, pid, ProposalStatus.Cancelled);
      PreMatchTables(s, now, s'.proposals.rows, s'.offers.rows);
      ReportsKept(s.proposals.rows, s'.proposals.rows, s.reports.rows);
    }
  }

  // ---------------------------------------------------------------- reports

  lemma ReportCreateKeeps(s: State, now: Time, pid: Id, reporter: UserId, q: Id, active: bool, t: Ticks)
    requires Inv(s, now) && t.Ordered() && now <= t.t0
    ensures Inv(ReportCreate(s, pid, reporter, q, active, t).state, t.t3)
  {
    InvLater(s, now, t.t3);
    if ReportCreate(s, pid, reporter, q, active, t).result.Ok? {
      ReportAdded(s.proposals.rows, s.reports.rows, s.reports.next,
                  ReportRow(pid, reporter, q, ReportStatus.Pending, t.t0, None));
    }
  }

  lemma ReportAcceptKeeps(s: State, now: Time, rid: Id, t: Ticks)
    requires Inv(s, now) && t.Ordered() && now <= t.t0
    ensures Inv(ReportAccept(s, rid, t).state, t.t3)
  {
    InvLater(s, now, t.t3);
    var s' := ReportAccept(s, rid, t).state;
    if ReportAccept(s, rid, t).result.Ok? {
      var pid := s.reports.rows[rid].proposal;
      assert ReportAt(s.proposals.rows, s.reports.rows, rid);
      ReportReviewed(s.proposals.rows, s.reports.rows, rid, ReportStatus.Accepted, t.t0, Reported);
      if s.proposals.rows[pid].status.Reported? {
        assert s.proposals.rows[pid := s.proposals.rows[pid].(status := Reported)] == s.proposals.rows;
      } else {
        MarketClose(s.proposals.rows, s.offers.rows, t.t3, pid, Reported);
        PreMatchTables(s, t.t3, s'.proposals.rows, s'.offers.rows);
      }
    }
  }

  lemma ReportRejectKeeps(s: State, now: Time, rid: Id, t: Ticks)
    requires Inv(s, now) && t.Ordered() && now <= t.t0
    ensures Inv(ReportReject(s, rid, t).state, t.t3)
  {
    InvLater(s, now, t.t3);
    if ReportReject(s, rid, t).result.Ok? {
      var pid := s.reports.rows[rid].proposal;
      assert ReportAt(s.proposals.rows, s.reports.rows, rid);
      ReportReviewed(s.proposals.rows, s.reports.rows, rid, ReportStatus.Rejected, t.t0, s.proposals.rows[pid].status);
      assert s.proposals.rows[pid := s.proposals.rows[pid].(status := s.proposals.rows[pid].status)]
          == s.proposals.rows;
    }
  }

  // ---------------------------------------------------------------- accounts

  lemma SendKeeps(s: State, now: Time, purpose: Purpose, phone: Phone, name: Option<string>, h: int, sms: bool,
                  t: Ticks)
    requires Inv(s, now) && t.Ordered() && now <= t.t0
    ensures Inv(Send(s, purpose, phone, name, h, sms, t).state, t.t3)
  {
    InvLater(s, now, t.t3);
    if Send(s, purpose, phone, name, h, sms, t).result.Ok? {
      VerificationSent(s.verifications, now, purpose, phone, name, h, t.t0, t.t1);
      VerificationLater(Send(s, purpose, phone, name, h, sms, t).state.verifications.rows, t.t1, t.t3);
    }
  }

  lemma CheckedKeeps(s: State, now: Time, purpose: Purpose, phone: Phone, h: int, t: Ticks)
    requires Inv(s, now) && t.Ordered() && now <= t.t0
    ensures Inv(s.(verifications := Verify(s.verifications, purpose, phone, h, t.t0).table), t.t3)
  {
    InvLater(s, now, t.t3);
    VerificationChecked(s.verifications, now, purpose, phone, h, t.t0);
    VerificationLater(Verify(s.verifications, purpose, phone, h, t.t0).table.rows, t.t0, t.t3);
  }

  lemma SignupConfirmKeeps(s: State, now: Time, phone: Phone, h: int, newId: UserId, t: Ticks)
    requires Inv(s, now) && t.Ordered() && now <= t.t0
    ensures Inv(SignupConfirm(s, phone, h, newId, t).state, t.t3)
  {
    InvLater(s, now, t.t3);
    CheckedKeeps(s, now, Signup, phone, h, t);
    var s' := SignupConfirm(s, phone, h, newId, t).state;
    if SignupConfirm(s, phone, h, newId, t).result.Ok? {
      var row := s'.users[newId];
      NewUserOk(s.users, newId, phone, row);
      LevelNewUser(s.users, s.proposals.rows, s.offers.rows, newId, row);
      LiveKept(s.users, s'.users, s.proposals.rows, s.offers.rows, s.proposals.rows, s.offers.rows);
      OwnersKept(s.users, s'.users, s.fcmTokens.Keys);
      OwnersKept(s.users, s'.users, s.accounts.Keys);
      InboxKept(s.users, s'.users, s.notifications.rows);
    }
  }

  /** A profile change of an active user, who may also register a device. */
  lemma ProfileKeeps(s: State, now: Time, u: UserId, row: UserRow, tokens: map<UserId, string>)
    requires Inv(s, now) && Active(s.users, u)
    requires !row.deleted && row.phone == s.users[u].phone && row.level == s.users[u].level
    requires tokens.Keys <= s.fcmTokens.Keys + {u}
    ensures Inv(s.(users := s.users[u := row], fcmTokens := tokens), now)
  {
    var users := s.users[u := row];
    ProfilePutOk(s.users, u, row);
    LevelKept(s.users, users, s.offers.rows, s.offers.rows);
    LiveKept(s.users, users, s.proposals.rows, s.offers.rows, s.proposals.rows, s.offers.rows);
    forall v ensures OwnerAt(users, tokens.Keys, v) {
      assert OwnerAt(s.users, s.fcmTokens.Keys, v);
    }
    OwnersKept(s.users, users, s.accounts.Keys);
    InboxKept(s.users, users, s.notifications.rows);
  }

  lemma LoginConfirmKeeps(s: State, now: Time, phone: Phone, h: int, bypass: bool, token: Option<string>, t: Ticks)
    requires Inv(s, now) && t.Ordered() && now <= t.t0
    ensures Inv(LoginConfirm(s, phone, h, bypass, token, t).state, t.t3)
  {
    InvLater(s, now, t.t3);
    CheckedKeeps(s, now, Login, phone, h, t);
    var out := LoginConfirm(s, phone, h, bypass, token, t);
    if out.result.Ok? {
      var u := HolderOf(s.users, phone).value;
      var checked := if bypass then s else s.(verifications := Verify(s.verifications, Login, phone, h, t.t0).table);
      ProfileKeeps(checked, t.t3, u, out.state.users[u], out.state.fcmTokens);
    }
  }

  lemma SaveAccountKeeps(s: State, now: Time, u: UserId, account: string)
    requires Inv(s, now) && Active(s.users, u)
    ensures Inv(SaveAccount(s, u, account).state, now)
  {
    var owners := s.accounts[u := account].Keys;
    forall v ensures OwnerAt(s.users, owners, v) {
      assert OwnerAt(s.users, s.accounts.Keys, v);
    }
  }

  lemma WithdrawKeepsMarket(s: State, now: Time, u: UserId, row: UserRow)
    requires Inv(s, now) && u in s.users && row.level == s.users[u].level
    ensures var ps' := ProposalsAfterWithdrawal(s.proposals.rows, u);
            var os' := OffersAfterWithdrawal(s.offers.rows, s.proposals.rows, u);
            && MarketInv(ps', os', now) && LevelInv(s.users[u := row], os')
            && EvidenceInv(ps', os', s.evidences.rows) && ReportInv(ps', s.reports.rows)
  {
    var ps' := ProposalsAfterWithdrawal(s.proposals.rows, u);
    var os' := OffersAfterWithdrawal(s.offers.rows, s.proposals.rows, u);
    MarketWithdraw(s.proposals.rows, s.offers.rows, now, u);
    LevelKept(s.users, s.users[u := row], s.offers.rows, os');
    EvidenceKept(s.proposals.rows, s.offers.rows, ps', os', s.evidences.rows);
    ReportsKept(s.proposals.rows, ps', s.reports.rows);
  }

  lemma WithdrawKeeps(s: State, now: Time, u: UserId, t: Ticks)
    requires Inv(s, now) && t.Ordered() && now <= t.t0
    ensures Inv(Withdraw(s, u, t).state, t.t3)
  {
    InvLater(s, now, t.t3);
    var s' := Withdraw(s, u, t).state;
    if Withdraw(s, u, t).result.Ok? {
      var row := WithdrawnRow(s.users[u], t.t0);
      WithdrawKeepsMarket(s, t.t3, u, row);
      WithdrawnOk(s.users, u, t.t0);
      LiveWithdraw(s, u, row);
      OwnersWithdraw(s.users, u, row, s.fcmTokens.Keys);
      OwnersWithdraw(s.users, u, row, s.accounts.Keys);
      assert s'.fcmTokens.Keys == s.fcmTokens.Keys - {u} && s'.accounts.Keys == s.accounts.Keys - {u};
      InboxWithdraw(s.users, u, row, s.notifications.rows);
      VerificationDropped(s.verifications.rows, s.users[u].phone, t.t3);
    }
  }

  // ---------------------------------------------------------------- the outbox

  lemma RunPassKeeps(s: State, now: Time, pass: Pass, batch: seq<Id>, delivered: set<Id>, t: Ticks)
    requires Inv(s, now) && OldestBatch(s.notifications.rows, pass, batch)
    ensures Inv(RunPass(s, batch, delivered, t).state, now)
  {
    BatchOk(s.users, s.notifications.rows, s.fcmTokens.Keys, pass, batch, delivered, t.t0);
  }

  lemma SendToUserKeeps(s: State, now: Time, u: UserId, delivered: bool, t: Ticks)
    requires Inv(s, now) && Active(s.users, u)
    ensures Inv(SendToUser(s, u, delivered, t).state, now)
  {
    InboxRows(s.users, s.notifications.rows, SendToUser(s, u, delivered, t).state.notifications.rows);
  }

  lemma MarkReadKeeps(s: State, now: Time, u: UserId, ids: set<Id>, t: Ticks)
    requires Inv(s, now)
    ensures Inv(MarkRead(s, u, ids, t).state, now)
  {
    var rows' := MarkRead(s, u, ids, t).state.notifications.rows;
    forall n ensures NotificationAt(s.users, rows', n) {
      assert NotificationAt(s.users, s.notifications.rows, n);
    }
  }

  // ---------------------------------------------------------------- every request

  lemma ProposalRequestKeeps(s: State, now: Time, r: Request, t: Ticks)
    requires Inv(s, now) && t.Ordered() && now <= t.t0
    requires r.ReqProposalCreate? || r.ReqProposalUpdate? || r.ReqProposalCancel? || r.ReqConfirmPayment?
    ensures Inv(Serve(s, r, t).state, t.t3)
  {
    match r
    case ReqProposalCreate(u, d) => ProposalCreateKeeps(s, now, u, d, t);
    case ReqProposalUpdate(u, p, d) => ProposalUpdateKeeps(s, now, p, d, u, t);
    case ReqProposalCancel(u, p) =>
      InvLater(s, now, t.t3);
      ProposalCancelKeeps(s, t.t3, p, u);
    case ReqConfirmPayment(p) =>
      InvLater(s, now, t.t3);
      ConfirmPaymentKeeps(s, t.t3, p);
  }

  lemma ReportRequestKeeps(s: State, now: Time, r: Request, t: Ticks)
    requires Inv(s, now) && t.Ordered() && now <= t.t0
    requires r.ReqReportCreate? || r.ReqReportAccept? || r.ReqReportReject?
    ensures Inv(Serve(s, r, t).state, t.t3)
  {
    match r
    case ReqReportCreate(u, p, q, active) => ReportCreateKeeps(s, now, p, u, q, active, t);
    case ReqReportAccept(rid) => ReportAcceptKeeps(s, now, rid, t);
    case ReqReportReject(rid) => ReportRejectKeeps(s, now, rid, t);
  }

  lemma BidRequestKeeps(s: State, now: Time, r: Request, t: Ticks)
    requires Inv(s, now) && t.Ordered() && now <= t.t0
    requires Bearer(r).Some? ==> Active(s.users, Bearer(r).value)
    requires r.ReqOfferCreate? || r.ReqOfferAccept?
    ensures Inv(Serve(s, r, t).state, t.t3)
  {
    match r
    case ReqOfferCreate(u, p) => OfferCreateKeeps(s, now, p, u, t);
    case ReqOfferAccept(u, o) => OfferAcceptKeeps(s, now, o, u, t);
  }

  lemma OfferRowRequestKeeps(s: State, now: Time, r: Request, t: Ticks)
    requires Inv(s, now) && t.Ordered() && now <= t.t0
    requires r.ReqOfferCancel? || r.ReqAssignChatUrl?
    ensures Inv(Serve(s, r, t).state, t.t3)
  {
    InvLater(s, now, t.t3);
    match r
    case ReqOfferCancel(u, o) => OfferCancelKeeps(s, t.t3, o, u);
    case ReqAssignChatUrl(o, url) => AssignChatUrlKeeps(s, t.t3, o, url);
  }

  lemma CompletionRequestKeeps(s: State, now: Time, r: Request, t: Ticks)
    requires Inv(s, now) && t.Ordered() && now <= t.t0
    requires r.ReqConfirmReceived? || r.ReqCompleteDelivery? || r.ReqOfferResolve?
    ensures Inv(Serve(s, r, t).state, t.t3)
  {
    match r
    case ReqConfirmReceived(u, p) => ConfirmReceivedKeeps(s, now, p, u, t);
    case ReqCompleteDelivery(u, o) => CompleteDeliveryKeeps(s, now, o, u, t);
    case ReqOfferResolve(o) => OfferResolveKeeps(s, now, o, t);
  }

  lemma DisputeRequestKeeps(s: State, now: Time, r: Request, t: Ticks)
    requires Inv(s, now) && t.Ordered() && now <= t.t0
    requires r.ReqProposalDispute? || r.ReqOfferDispute?
    ensures Inv(Serve(s, r, t).state, t.t3)
  {
    match r
    case ReqProposalDispute(u, p, q, active, reason) => ProposalDisputeKeeps(s, now, p, u, q, active, reason, t);
    case ReqOfferDispute(u, o, q, active, reason) => OfferDisputeKeeps(s, now, o, u, q, active, reason, t);
  }

  lemma PhoneRequestKeeps(s: State, now: Time, r: Request, t: Ticks)
    requires Inv(s, now) && t.Ordered() && now <= t.t0
    requires r.ReqSignupSend? || r.ReqLoginSend? || r.ReqSignupConfirm? || r.ReqLoginConfirm?
    ensures Inv(Serve(s, r, t).state, t.t3)
  {
    InvLater(s, now, t.t3);
    match r
    case ReqSignupSend(phone, name, h, sms) => SendKeeps(s, now, Signup, phone, Some(name), h, sms, t);
    case ReqLoginSend(phone, h, sms) => SendKeeps(s, now, Login, phone, None, h, sms, t);
    case ReqSignupConfirm(phone, h, newId) => SignupConfirmKeeps(s, now, phone, h, newId, t);
    case ReqLoginConfirm(phone, h, bypass, token) => LoginConfirmKeeps(s, now, phone, h, bypass, token, t);
  }

  lemma ProfileRequestKeeps(s: State, now: Time, r: Request, t: Ticks)
    requires Inv(s, now) && t.Ordered() && now <= t.t0
    requires Bearer(r).Some? ==> Active(s.users, Bearer(r).value)
    requires r.ReqSetAlarm? || r.ReqSetName? || r.ReqSetFcmToken? || r.ReqSaveAccount? || r.ReqWithdraw?
    ensures Inv(Serve(s, r, t).state, t.t3)
  {
    InvLater(s, now, t.t3);
    match r
    case ReqSetAlarm(u, on) => ProfileKeeps(s, t.t3, u, s.users[u].(alarmEnabled := Some(on)), s.fcmTokens);
    case ReqSetName(u, name) => ProfileKeeps(s, t.t3, u, s.users[u].(name := Some(name)), s.fcmTokens);
    case ReqSetFcmToken(u, token) =>
      ProfileKeeps(s, t.t3, u, s.users[u], s.fcmTokens[u := token]);
      assert s.users[u := s.users[u]] == s.users;
    case ReqSaveAccount(u, account) => SaveAccountKeeps(s, t.t3, u, account);
    case ReqWithdraw(u) => WithdrawKeeps(s, now, u, t);
  }

  lemma OutboxRequestKeeps(s: State, now: Time, r: Request, t: Ticks)
    requires Inv(s, now) && t.Ordered() && now <= t.t0
    requires Bearer(r).Some? ==> Active(s.users, Bearer(r).value)
    requires r.ReqSendToUser? || r.ReqMarkRead?
    ensures Inv(Serve(s, r, t).state, t.t3)
  {
    InvLater(s, now, t.t3);
    match r
    case ReqSendToUser(u, accepted) => SendToUserKeeps(s, t.t3, u, accepted, t);
    case ReqMarkRead(u, ids) => MarkReadKeeps(s, t.t3, u, ids, t);
  }

  lemma StepKeeps(s: State, now: Time, r: Request, t: Ticks)
    requires Inv(s, now) && t.Ordered() && now <= t.t0 && Feasible(s, r)
    ensures Inv(Step(s, r, t).state, t.t3)
  {
    if Bearer(r).None? || Active(s.users, Bearer(r).value) {
      assert Step(s, r, t) == Serve(s, r, t);
      if r.ReqProposalCreate? || r.ReqProposalUpdate? || r.ReqProposalCancel? || r.ReqConfirmPayment? {
        ProposalRequestKeeps(s, now, r, t);
      } else if r.ReqReportCreate? || r.ReqReportAccept? || r.ReqReportReject? {
        ReportRequestKeeps(s, now, r, t);
      } else if r.ReqOfferCreate? || r.ReqOfferAccept? {
        BidRequestKeeps(s, now, r, t);
      } else if r.ReqOfferCancel? || r.ReqAssignChatUrl? {
        OfferRowRequestKeeps(s, now, r, t);
      } else if r.ReqConfirmReceived? || r.ReqCompleteDelivery? || r.ReqOfferResolve? {
        CompletionRequestKeeps(s, now, r, t);
      } else if r.ReqProposalDispute? || r.ReqOfferDispute? {
        DisputeRequestKeeps(s, now, r, t);
      } else if r.ReqSignupSend? || r.ReqLoginSend? || r.ReqSignupConfirm? || r.ReqLoginConfirm? {
        PhoneRequestKeeps(s, now, r, t);
      } else if r.ReqSetAlarm? || r.ReqSetName? || r.ReqSetFcmToken? || r.ReqSaveAccount? || r.ReqWithdraw? {
        ProfileRequestKeeps(s, now, r, t);
      } else if r.ReqSendToUser? || r.ReqMarkRead? {
        OutboxRequestKeeps(s, now, r, t);
      } else {
        InvLater(s, now, t.t3);
        RunPassKeeps(s, t.t3, r.pass, r.batch, r.delivered, t);
      }
    } else {
      InvLater(s, now, t.t3);
    }
  }

  lemma EmptyInv(now: Time)
    ensures Inv(EmptyState, now)
  {
    forall u ensures LevelAt(EmptyState.users, EmptyState.offers.rows, u) {
    }
  }

  /** The invariant holds after every legal run from the empty database. */
  lemma {:induction false} RunKeeps(s: State, now: Time, run: seq<Event>)
    requires Inv(s, now) && Legal(s, now, run)
    ensures Inv(Exec(s, run), ClockAfter(now, run)) && now <= ClockAfter(now, run)
  {
    if run != [] {
      var before, last := run[..|run| - 1], run[|run| - 1];
      RunKeeps(s, now, before);
      StepKeeps(Exec(s, before), ClockAfter(now, before), last.request, last.at);
    }
  }
}

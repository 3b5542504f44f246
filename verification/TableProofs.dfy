/** How the remaining tables keep their invariants when the rows around them change. */
module TableProofs {
  import opened Rows
  import opened MarketSpec
  import opened AccountSpec
  import opened OutboxSpec
  import opened Invariants

  // ---------------------------------------------------------------- levels

  /** No offer becomes or stops being completed. */
  ghost predicate SameCompletions(os: Offers, os': Offers) {
    && os'.Keys >= os.Keys
    && (forall o :: o in os ==>
        os'[o].runner == os[o].runner && (os'[o].status.AllCompleted? <==> os[o].status.AllCompleted?))
    && (forall o :: o in os' && o !in os ==> !os'[o].status.AllCompleted?)
  }

  lemma LevelKept(users: map<UserId, UserRow>, users': map<UserId, UserRow>, os: Offers, os': Offers)
    requires LevelInv(users, os) && SameCompletions(os, os')
    requires users'.Keys == users.Keys && forall u :: u in users ==> users'[u].level == users[u].level
    ensures LevelInv(users', os')
  {
    forall u ensures LevelAt(users', os', u) {
      assert LevelAt(users, os, u);
      assert CompletedBy(os', u) == CompletedBy(os, u);
    }
  }

  lemma LevelBumped(users: map<UserId, UserRow>, os: Offers, oid: Id, o': OfferRow)
    requires LevelInv(users, os)
    requires oid in os && !os[oid].status.AllCompleted?
    requires o'.runner == os[oid].runner && o'.status.AllCompleted?
    ensures LevelInv(BumpLevel(users, o'.runner), os[oid := o'])
  {
    var os' := os[oid := o'];
    forall u ensures LevelAt(BumpLevel(users, o'.runner), os', u) {
      assert LevelAt(users, os, u);
      if u == o'.runner {
        assert CompletedBy(os', u) == CompletedBy(os, u) + {oid};
      } else {
        assert CompletedBy(os', u) == CompletedBy(os, u);
      }
    }
  }

  /** A new user has run nothing yet. */
  lemma LevelNewUser(users: map<UserId, UserRow>, ps: Proposals, os: Offers, u: UserId, row: UserRow)
    requires LevelInv(users, os) && LiveInv(users, ps, os)
    requires u !in users && row.level == 0
    ensures LevelInv(users[u := row], os)
  {
    forall o ensures o !in CompletedBy(os, u) {
      assert RunnerAt(users, os, o);
    }
    var users' := users[u := row];
    forall v ensures LevelAt(users', os, v) {
      assert LevelAt(users, os, v);
    }
  }

  // ---------------------------------------------------------------- dispute evidence

  lemma EvidenceKept(ps: Proposals, os: Offers, ps': Proposals, os': Offers, es: map<Id, EvidenceRow>)
    requires EvidenceInv(ps, os, es)
    requires ps'.Keys >= ps.Keys && os'.Keys >= os.Keys
    requires forall p :: p in ps ==>
                 ps'[p].orderer == ps[p].orderer && (Contested(ps'[p].status) <==> Contested(ps[p].status))
    requires forall p :: p in ps' && p !in ps ==> !Contested(ps'[p].status)
    requires forall o :: o in os ==> os'[o].proposal == os[o].proposal && os'[o].runner == os[o].runner
    requires forall o :: o in os && Engaged(os[o].status) ==> Engaged(os'[o].status)
    ensures EvidenceInv(ps', os', es)
  {
    forall e ensures EvidenceAt(ps', os', es, e) {
      assert EvidenceAt(ps, os, es, e);
    }
    forall p ensures HasItsEvidence(ps', es, p) {
      assert HasItsEvidence(ps, es, p);
    }
  }

  lemma EvidenceAdded(ps: Proposals, os: Offers, es: map<Id, EvidenceRow>, p': ProposalRow, o': OfferRow, e: Id,
                      row: EvidenceRow)
    requires EvidenceInv(ps, os, es)
    requires row.proposal in ps && EngagedIn(os, row.proposal, row.offer) && e !in es
    requires !Contested(ps[row.proposal].status) && Contested(p'.status)
    requires p'.orderer == ps[row.proposal].orderer
    requires o'.proposal == row.proposal && o'.runner == os[row.offer].runner && Engaged(o'.status)
    requires row.actor == p'.orderer || row.actor == o'.runner
    ensures EvidenceInv(ps[row.proposal := p'], os[row.offer := o'], es[e := row])
  {
    var pid := row.proposal;
    var ps', os', es' := ps[pid := p'], os[row.offer := o'], es[e := row];
    forall d ensures EvidenceAt(ps', os', es', d) {
      assert EvidenceAt(ps, os, es, d);
    }
    forall p ensures HasItsEvidence(ps', es', p) {
      assert HasItsEvidence(ps, es, p);
      if p == pid {
        assert EvidenceOf(es', pid, e);
      } else if p in ps' && Contested(ps'[p].status) {
        var d :| EvidenceOf(es, p, d);
        assert EvidenceOf(es', p, d);
      }
    }
    forall p, a, b ensures OneEvidence(es', p, a, b) {
      assert OneEvidence(es, p, a, b) && EvidenceAt(ps, os, es, a) && EvidenceAt(ps, os, es, b);
    }
  }

  // ---------------------------------------------------------------- reports

  lemma ReportsKept(ps: Proposals, ps': Proposals, rs: map<Id, ReportRow>)
    requires ReportInv(ps, rs)
    requires ps'.Keys >= ps.Keys
    requires forall p :: p in ps ==>
                 ps'[p].orderer == ps[p].orderer && (ps'[p].status.Reported? <==> ps[p].status.Reported?)
    requires forall p :: p in ps' && p !in ps ==> !ps'[p].status.Reported?
    ensures ReportInv(ps', rs)
  {
    forall r ensures ReportAt(ps', rs, r) {
      assert ReportAt(ps, rs, r);
    }
    forall p ensures HasItsReport(ps', rs, p) {
      assert HasItsReport(ps, rs, p);
    }
  }

  lemma ReportAdded(ps: Proposals, rs: map<Id, ReportRow>, r: Id, row: ReportRow)
    requires ReportInv(ps, rs) && r !in rs
    requires row.proposal in ps && ps[row.proposal].orderer != row.reporter
    requires row.status.Pending? && row.reviewedAt.None? && !HasReportBy(rs, row.proposal, row.reporter)
    ensures ReportInv(ps, rs[r := row])
  {
    var rs' := rs[r := row];
    forall q ensures ReportAt(ps, rs', q) {
      assert ReportAt(ps, rs, q);
    }
    forall p ensures HasItsReport(ps, rs', p) {
      assert HasItsReport(ps, rs, p);
      if p in ps && ps[p].status.Reported? {
        var q :| AcceptedReport(rs, p, q);
        assert AcceptedReport(rs', p, q);
      }
    }
    forall p, u, a, b ensures OneReportEach(rs', p, u, a, b) {
      assert OneReportEach(rs, p, u, a, b);
    }
  }

  /** A verdict on a pending report, together with the proposal's new status. */
  lemma ReportReviewed(ps: Proposals, rs: map<Id, ReportRow>, r: Id, verdict: ReportStatus, t: Time, st: ProposalStatus)
    requires ReportInv(ps, rs) && r in rs && rs[r].status.Pending? && rs[r].proposal in ps
    requires !verdict.Pending?
    requires st == (if verdict.Accepted? then Reported else ps[rs[r].proposal].status)
    ensures ReportInv(ps[rs[r].proposal := ps[rs[r].proposal].(status := st)],
                      rs[r := rs[r].(status := verdict, reviewedAt := Some(t))])
  {
    var pid := rs[r].proposal;
    var ps', rs' := ps[pid := ps[pid].(status := st)], rs[r := rs[r].(status := verdict, reviewedAt := Some(t))];
    forall q ensures ReportAt(ps', rs', q) {
      assert ReportAt(ps, rs, q);
    }
    forall p ensures HasItsReport(ps', rs', p) {
      assert HasItsReport(ps, rs, p);
      if p == pid && verdict.Accepted? {
        assert AcceptedReport(rs', p, r);
      } else if p in ps' && ps'[p].status.Reported? {
        var q :| AcceptedReport(rs, p, q);
        assert AcceptedReport(rs', p, q);
      }
    }
    forall p, u, a, b ensures OneReportEach(rs', p, u, a, b) {
      assert OneReportEach(rs, p, u, a, b);
    }
  }

  // ---------------------------------------------------------------- users

  /** Every user who was active still is. */
  ghost predicate SameActivity(users: map<UserId, UserRow>, users': map<UserId, UserRow>) {
    users'.Keys >= users.Keys && forall u :: Active(users, u) ==> Active(users', u)
  }

  lemma LiveKept(users: map<UserId, UserRow>, users': map<UserId, UserRow>, ps: Proposals, os: Offers, ps': Proposals,
                 os': Offers)
    requires LiveInv(users, ps, os) && SameActivity(users, users')
    requires ps'.Keys == ps.Keys && os'.Keys == os.Keys
    requires forall p :: p in ps ==>
                 && ps'[p].orderer == ps[p].orderer
                 && (ClosedProposalStatus(ps[p].status) ==> ClosedProposalStatus(ps'[p].status))
    requires forall o :: o in os ==>
                 os'[o].runner == os[o].runner && (ClosedOfferStatus(os[o].status) ==> ClosedOfferStatus(os'[o].status))
    ensures LiveInv(users', ps', os')
  {
    forall p ensures OrdererAt(users', ps', p) {
      assert OrdererAt(users, ps, p);
    }
    forall o ensures RunnerAt(users', os', o) {
      assert RunnerAt(users, os, o);
    }
  }

  lemma LiveNewProposal(users: map<UserId, UserRow>, ps: Proposals, os: Offers, pid: Id, p: ProposalRow)
    requires LiveInv(users, ps, os) && pid !in ps && Active(users, p.orderer)
    ensures LiveInv(users, ps[pid := p], os)
  {
    var ps' := ps[pid := p];
    forall q ensures OrdererAt(users, ps', q) {
      assert OrdererAt(users, ps, q);
    }
  }

  lemma LiveNewOffer(users: map<UserId, UserRow>, ps: Proposals, os: Offers, pid: Id, oid: Id, o: OfferRow)
    requires LiveInv(users, ps, os) && oid !in os && Active(users, o.runner)
    requires pid in ps && RecruitingStatus(ps[pid].status)
    ensures LiveInv(users, ps[pid := ps[pid].(status := Offered)], os[oid := o])
  {
    var ps', os' := ps[pid := ps[pid].(status := Offered)], os[oid := o];
    forall q ensures OrdererAt(users, ps', q) {
      assert OrdererAt(users, ps, q);
    }
    forall q ensures RunnerAt(users, os', q) {
      assert RunnerAt(users, os, q);
    }
  }

  /** Both parties of an engagement that is not over stay; if it is over, nothing is asked of them. */
  lemma LiveAdvance(users: map<UserId, UserRow>, users': map<UserId, UserRow>, ps: Proposals, os: Offers, pid: Id,
                    oid: Id, p': ProposalRow, o': OfferRow)
    requires LiveInv(users, ps, os) && SameActivity(users, users')
    requires pid in ps && !ClosedProposalStatus(ps[pid].status) && p'.orderer == ps[pid].orderer
    requires oid in os && !ClosedOfferStatus(os[oid].status) && o'.runner == os[oid].runner
    ensures LiveInv(users', ps[pid := p'], os[oid := o'])
  {
    var ps', os' := ps[pid := p'], os[oid := o'];
    forall q ensures OrdererAt(users', ps', q) {
      assert OrdererAt(users, ps, q);
    }
    forall q ensures RunnerAt(users', os', q) {
      assert RunnerAt(users, os, q);
    }
  }

  lemma InboxKept(users: map<UserId, UserRow>, users': map<UserId, UserRow>, rows: Inbox)
    requires InboxInv(users, rows) && SameActivity(users, users')
    ensures InboxInv(users', rows)
  {
    forall n ensures NotificationAt(users', rows, n) {
      assert NotificationAt(users, rows, n);
    }
  }

  lemma OwnersKept(users: map<UserId, UserRow>, users': map<UserId, UserRow>, owners: set<UserId>)
    requires OwnersActive(users, owners) && SameActivity(users, users')
    ensures OwnersActive(users', owners)
  {
    forall u ensures OwnerAt(users', owners, u) {
      assert OwnerAt(users, owners, u);
    }
  }

  lemma BumpOk(users: map<UserId, UserRow>, u: UserId)
    requires UsersOk(users)
    ensures UsersOk(BumpLevel(users, u)) && SameActivity(users, BumpLevel(users, u))
  {
    var users' := BumpLevel(users, u);
    forall v ensures UserAt(users', v) {
      assert UserAt(users, v);
    }
    forall v, w ensures PhonesDiffer(users', v, w) {
      assert PhonesDiffer(users, v, w);
    }
  }

  /** A profile change of an active user. */
  lemma ProfilePutOk(users: map<UserId, UserRow>, u: UserId, row: UserRow)
    requires UsersOk(users) && Active(users, u)
    requires !row.deleted && row.phone == users[u].phone
    ensures UsersOk(users[u := row]) && SameActivity(users, users[u := row])
  {
    var users' := users[u := row];
    forall v ensures UserAt(users', v) {
      assert UserAt(users, v);
    }
    forall v, w ensures PhonesDiffer(users', v, w) {
      assert PhonesDiffer(users, v, w);
    }
  }

  lemma NewUserOk(users: map<UserId, UserRow>, u: UserId, phone: Phone, row: UserRow)
    requires UsersOk(users) && u !in users && !PhoneTaken(users, phone)
    requires !row.deleted && row.phone == Some(phone)
    ensures UsersOk(users[u := row]) && SameActivity(users, users[u := row])
  {
    var users' := users[u := row];
    forall v ensures UserAt(users', v) {
      assert UserAt(users, v);
    }
    forall v, w ensures PhonesDiffer(users', v, w) {
      assert PhonesDiffer(users, v, w);
    }
  }

  lemma WithdrawnOk(users: map<UserId, UserRow>, u: UserId, now: Time)
    requires UsersOk(users) && u in users
    ensures UsersOk(users[u := WithdrawnRow(users[u], now)])
  {
    var users' := users[u := WithdrawnRow(users[u], now)];
    forall v ensures UserAt(users', v) {
      assert UserAt(users, v);
    }
    forall v, w ensures PhonesDiffer(users', v, w) {
      assert PhonesDiffer(users, v, w);
    }
  }

  /** Without blocking activity, withdrawal closes everything the user still had open. */
  lemma LiveWithdraw(s: State, u: UserId, row: UserRow)
    requires LiveInv(s.users, s.proposals.rows, s.offers.rows) && u in s.users && !HasBlockingActivity(s, u)
    ensures LiveInv(s.users[u := row], ProposalsAfterWithdrawal(s.proposals.rows, u),
                    OffersAfterWithdrawal(s.offers.rows, s.proposals.rows, u))
  {
    var users' := s.users[u := row];
    var ps', os' := ProposalsAfterWithdrawal(s.proposals.rows, u),
        OffersAfterWithdrawal(s.offers.rows, s.proposals.rows, u);
    forall p ensures OrdererAt(users', ps', p) {
      assert OrdererAt(s.users, s.proposals.rows, p);
    }
    forall o ensures RunnerAt(users', os', o) {
      assert RunnerAt(s.users, s.offers.rows, o);
    }
  }

  /** What is left of a table of owned things when one owner goes. */
  lemma OwnersWithdraw(users: map<UserId, UserRow>, u: UserId, row: UserRow, owners: set<UserId>)
    requires OwnersActive(users, owners)
    ensures OwnersActive(users[u := row], owners - {u})
  {
    var users', rest := users[u := row], owners - {u};
    forall v ensures OwnerAt(users', rest, v) {
      assert OwnerAt(users, owners, v);
    }
  }

  lemma InboxWithdraw(users: map<UserId, UserRow>, u: UserId, row: UserRow, rows: Inbox)
    requires InboxInv(users, rows)
    ensures InboxInv(users[u := row], WithoutUser(rows, u))
  {
    var users', rows' := users[u := row], WithoutUser(rows, u);
    forall n ensures NotificationAt(users', rows', n) {
      assert NotificationAt(users, rows, n);
    }
  }

  // ---------------------------------------------------------------- the inbox

  /** Rows are replaced or added; each is in order. */
  lemma InboxRows(users: map<UserId, UserRow>, rows: Inbox, rows': Inbox)
    requires InboxInv(users, rows)
    requires forall n :: n in rows' ==> (n in rows && rows'[n] == rows[n]) || NotificationOk(users, rows'[n])
    ensures InboxInv(users, rows')
  {
    forall n ensures NotificationAt(users, rows', n) {
      assert NotificationAt(users, rows, n);
    }
  }

  lemma BatchOk(users: map<UserId, UserRow>, rows: Inbox, tokens: set<UserId>, pass: Pass, batch: seq<Id>,
                delivered: set<Id>, now: Time)
    requires InboxInv(users, rows) && OldestBatch(rows, pass, batch)
    ensures InboxInv(users, SendBatch(rows, tokens, batch, delivered, now))
  {
    var rows' := SendBatch(rows, tokens, batch, delivered, now);
    forall n ensures NotificationAt(users, rows', n) {
      assert NotificationAt(users, rows, n);
      if n in batch {
        var i :| 0 <= i < |batch| && batch[i] == n;
        assert batch[i] in EligibleIds(rows, pass);
      }
    }
  }

  /** Notifications reach only users with the alarm on, and those are active. */
  lemma NotifyOk(users: map<UserId, UserRow>, box: Table<NotificationRow>, u: UserId, kind: NotificationKind, oid: Id,
                 t: Time)
    requires UsersOk(users) && InboxInv(users, box.rows) && box.Bounded()
    ensures InboxInv(users, Notify(users, box, u, kind, oid, t).rows) && Notify(users, box, u, kind, oid, t).Bounded()
  {
    var box' := Notify(users, box, u, kind, oid, t);
    assert UserAt(users, u);
    forall n ensures NotificationAt(users, box'.rows, n) {
      assert NotificationAt(users, box.rows, n);
    }
  }

  lemma {:induction false} NotifyAllOk(users: map<UserId, UserRow>, box: Table<NotificationRow>, us: seq<UserId>,
                                       kind: NotificationKind, oid: Id, t: Time)
    requires UsersOk(users) && InboxInv(users, box.rows) && box.Bounded()
    ensures InboxInv(users, NotifyAll(users, box, us, kind, oid, t).rows)
        && NotifyAll(users, box, us, kind, oid, t).Bounded()
  {
    if us != [] {
      NotifyAllOk(users, box, us[..|us| - 1], kind, oid, t);
      NotifyOk(users, NotifyAll(users, box, us[..|us| - 1], kind, oid, t), us[|us| - 1], kind, oid, t);
    }
  }

  // ---------------------------------------------------------------- phone verification

  lemma VerificationLater(rows: map<Id, VerificationRow>, now: Time, later: Time)
    requires VerificationInv(rows, now) && now <= later
    ensures VerificationInv(rows, later)
  {
    forall v ensures VerificationAt(rows, v, later) {
      assert VerificationAt(rows, v, now);
    }
  }

  lemma VerificationSent(t: Table<VerificationRow>, now: Time, purpose: Purpose, phone: Phone, name: Option<string>,
                         h: int, asked: Time, sent: Time)
    requires VerificationInv(t.rows, now) && t.Bounded()
    requires now <= asked <= sent && !HasActivePending(t.rows, purpose, phone, asked)
    ensures VerificationInv(t.Insert(NewVerification(purpose, phone, name, h, sent)).rows, sent)
  {
    var rows' := t.Insert(NewVerification(purpose, phone, name, h, sent)).rows;
    forall v ensures VerificationAt(rows', v, sent) {
      assert VerificationAt(t.rows, v, now);
    }
    forall a, b ensures Successive(rows', a, b) {
      assert Successive(t.rows, a, b) && VerificationAt(t.rows, a, now);
      if b == t.next && a in t.rows && SamePending(rows'[a], rows'[b]) {
        assert !ActivePending(t.rows[a], purpose, phone, asked);
      }
    }
  }

  lemma VerificationDropped(rows: map<Id, VerificationRow>, phone: Option<Phone>, now: Time)
    requires VerificationInv(rows, now)
    ensures VerificationInv(WithoutPhone(rows, phone), now)
  {
    var rows' := WithoutPhone(rows, phone);
    forall v ensures VerificationAt(rows', v, now) {
      assert VerificationAt(rows, v, now);
    }
    forall a, b ensures Successive(rows', a, b) {
      assert Successive(rows, a, b);
    }
  }

  lemma CheckedRowOk(v: VerificationRow, now: Time)
    requires VerificationOk(v, now) && v.status.Pending?
    ensures VerificationOk(v.(status := VerificationStatus.Expired), now)
    ensures VerificationOk(MissedRow(v), now)
    ensures now < v.expiresAt ==> VerificationOk(v.(status := Verified, verifiedAt := Some(now)), now)
  {
  }

  lemma RowChecked(t: Table<VerificationRow>, id: Id, h: int, asked: Time)
    requires VerificationInv(t.rows, asked) && id in t.rows && t.rows[id].status.Pending?
    ensures VerificationInv(CheckRow(t, id, h, asked).table.rows, asked)
  {
    var rows' := CheckRow(t, id, h, asked).table.rows;
    assert VerificationAt(t.rows, id, asked);
    CheckedRowOk(t.rows[id], asked);
    forall v ensures VerificationAt(rows', v, asked) {
      assert VerificationAt(t.rows, v, asked);
    }
    forall a, b ensures Successive(rows', a, b) {
      assert Successive(t.rows, a, b);
    }
  }

  lemma VerificationChecked(t: Table<VerificationRow>, now: Time, purpose: Purpose, phone: Phone, h: int, asked: Time)
    requires VerificationInv(t.rows, now) && t.Bounded() && now <= asked
    ensures VerificationInv(Verify(t, purpose, phone, h, asked).table.rows, asked)
    ensures Verify(t, purpose, phone, h, asked).table.Bounded()
  {
    VerificationLater(t.rows, now, asked);
    if NewestPending(t, purpose, phone).Some? {
      RowChecked(t, NewestPending(t, purpose, phone).value, h, asked);
    }
  }
}

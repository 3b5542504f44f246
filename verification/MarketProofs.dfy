/** How each kind of change to proposals and offers keeps the joint invariant. */
module MarketProofs {
  import opened Rows
  import opened MarketSpec
  import opened AccountSpec
  import opened Invariants

  // ---------------------------------------------------------------- links

  /** The rows keep who and what they are for, and no row enters or leaves an engagement. */
  ghost predicate SameLinks(ps: Proposals, os: Offers, ps': Proposals, os': Offers) {
    && ps'.Keys == ps.Keys && os'.Keys == os.Keys
    && (forall p :: p in ps ==> ps'[p].orderer == ps[p].orderer)
    && (forall o :: o in os ==> os'[o].proposal == os[o].proposal && os'[o].runner == os[o].runner)
    && (forall o :: o in os ==> (Engaged(os'[o].status) <==> Engaged(os[o].status)))
    && (forall p :: p in ps && PostMatch(ps'[p].status) ==> PostMatch(ps[p].status))
    && (forall p :: p in ps && ps'[p].status.Offered? ==> ps[p].status.Offered?)
  }

  lemma LinksKept(ps: Proposals, os: Offers, ps': Proposals, os': Offers)
    requires LinksOk(ps, os) && SameLinks(ps, os, ps', os')
    ensures LinksOk(ps', os')
  {
    forall p ensures HasItsOffers(ps', os', p) {
      assert HasItsOffers(ps, os, p);
      if p in ps' && ps'[p].status.Offered? {
        var o :| OfferOf(os, p, o);
        assert OfferOf(os', p, o);
      }
      if p in ps' && PostMatch(ps'[p].status) {
        var o :| EngagedIn(os, p, o);
        assert EngagedIn(os', p, o);
      }
    }
    forall p, a, b ensures OneEngaged(os', p, a, b) {
      assert OneEngaged(os, p, a, b);
    }
    forall p, u, a, b ensures OneOfferEach(os', p, u, a, b) {
      assert OneOfferEach(os, p, u, a, b);
    }
  }

  /** One more engaged offer, for a proposal that had none. */
  lemma LinksEngage(ps: Proposals, os: Offers, ps': Proposals, os': Offers, pid: Id, oid: Id)
    requires LinksOk(ps, os) && OfferOf(os, pid, oid) && forall o :: !EngagedIn(os, pid, o)
    requires ps'.Keys == ps.Keys && os'.Keys == os.Keys
    requires forall p :: p in ps && p != pid ==> ps'[p] == ps[p]
    requires pid in ps && PostMatch(ps'[pid].status)
    requires forall o :: o in os ==> os'[o].proposal == os[o].proposal && os'[o].runner == os[o].runner
    requires forall o :: o in os && o != oid ==> (Engaged(os'[o].status) <==> Engaged(os[o].status))
    requires Engaged(os'[oid].status)
    ensures LinksOk(ps', os')
  {
    forall p ensures HasItsOffers(ps', os', p) {
      assert HasItsOffers(ps, os, p);
      if p == pid {
        assert OfferOf(os', pid, oid) && EngagedIn(os', pid, oid);
      } else if p in ps' && ps'[p].status.Offered? {
        var o :| OfferOf(os, p, o);
        assert OfferOf(os', p, o);
      } else if p in ps' && PostMatch(ps'[p].status) {
        var o :| EngagedIn(os, p, o);
        assert EngagedIn(os', p, o);
      }
    }
    forall p, a, b ensures OneEngaged(os', p, a, b) {
      assert OneEngaged(os, p, a, b);
      assert !EngagedIn(os, pid, a) && !EngagedIn(os, pid, b);
    }
    forall p, u, a, b ensures OneOfferEach(os', p, u, a, b) {
      assert OneOfferEach(os, p, u, a, b);
    }
  }

  /** One more waiting offer, from a runner who made none. */
  lemma LinksOffer(ps: Proposals, os: Offers, pid: Id, oid: Id, runner: UserId, t: Time)
    requires LinksOk(ps, os) && pid in ps && !PostMatch(ps[pid].status)
    requires oid !in os && !HasOfferBy(os, pid, runner)
    ensures LinksOk(ps[pid := ps[pid].(status := Offered)], os[oid := NewOffer(pid, runner, t)])
  {
    var ps', os' := ps[pid := ps[pid].(status := Offered)], os[oid := NewOffer(pid, runner, t)];
    forall p ensures HasItsOffers(ps', os', p) {
      assert HasItsOffers(ps, os, p);
      if p == pid {
        assert OfferOf(os', pid, oid);
      } else if p in ps' && ps'[p].status.Offered? {
        var o :| OfferOf(os, p, o);
        assert OfferOf(os', p, o);
      } else if p in ps' && PostMatch(ps'[p].status) {
        var o :| EngagedIn(os, p, o);
        assert EngagedIn(os', p, o);
      }
    }
    forall p, a, b ensures OneEngaged(os', p, a, b) {
      assert OneEngaged(os, p, a, b);
    }
    forall p, u, a, b ensures OneOfferEach(os', p, u, a, b) {
      assert OneOfferEach(os, p, u, a, b);
    }
  }

  // ---------------------------------------------------------------- single rows

  /** An offer that lost stays as it is while the execution of its proposal moves on. */
  lemma LoserUnmoved(p: ProposalRow, p': ProposalRow, o: OfferRow)
    requires PairOk(p, o) && PostMatch(p.status) && !Engaged(o.status)
    requires PostMatch(p'.status) && p'.orderer == p.orderer
    ensures PairOk(p', o)
  {
  }

  /** A row after its proposal left recruitment without a match, or found one elsewhere. */
  lemma ClosedRow(p: ProposalRow, o: OfferRow, p': ProposalRow, ost: OfferStatus, now: Time)
    requires PairOk(p, o) && OfferOk(o, now) && CancellableStatus(p.status)
    requires p'.orderer == p.orderer
    requires p'.status.Cancelled? || p'.status.Reported? || p'.status.Matched?
    requires if o.status.Waiting? then ost.Rejected? || ost.Cancelled? else ost == o.status
    ensures PairOk(p', o.(status := ost)) && OfferOk(o.(status := ost), now)
    ensures !Engaged(o.status) && !Engaged(ost)
  {
  }

  lemma CancelledRow(p: ProposalRow, o: OfferRow, now: Time)
    requires PairOk(p, o) && OfferOk(o, now) && o.status.Waiting?
    ensures PairOk(p, o.(status := OfferStatus.Cancelled)) && OfferOk(o.(status := OfferStatus.Cancelled), now)
  {
  }

  // ---------------------------------------------------------------- each kind of change

  lemma MarketTime(ps: Proposals, os: Offers, now: Time, later: Time)
    requires MarketInv(ps, os, now) && now <= later
    ensures MarketInv(ps, os, later)
  {
    forall p ensures ProposalAt(ps, p, later) {
      assert ProposalAt(ps, p, now);
    }
    forall o ensures OfferAt(ps, os, o, later) {
      assert OfferAt(ps, os, o, now);
    }
  }

  lemma MarketNewProposal(ps: Proposals, os: Offers, now: Time, pid: Id, p: ProposalRow)
    requires MarketInv(ps, os, now)
    requires pid !in ps && p.status.Holding? && ProposalOk(p, now)
    ensures MarketInv(ps[pid := p], os, now)
  {
    var ps' := ps[pid := p];
    forall q ensures ProposalAt(ps', q, now) && HasItsOffers(ps', os, q) {
      assert ProposalAt(ps, q, now) && HasItsOffers(ps, os, q);
    }
    forall o ensures OfferAt(ps', os, o, now) {
      assert OfferAt(ps, os, o, now);
    }
  }

  /** A proposal no offer was made for yet. */
  lemma NoOffersYet(ps: Proposals, os: Offers, now: Time, pid: Id)
    requires RowsOk(ps, os, now)
    requires pid in ps && (ps[pid].status.Holding? || ps[pid].status.Posted?)
    ensures forall o :: !OfferOf(os, pid, o)
  {
    forall o ensures !OfferOf(os, pid, o) {
      assert OfferAt(ps, os, o, now);
    }
  }

  /** Before the match no offer of the proposal is engaged. */
  lemma NotEngagedYet(ps: Proposals, os: Offers, now: Time, pid: Id)
    requires RowsOk(ps, os, now)
    requires pid in ps && !PostMatch(ps[pid].status)
    ensures forall o :: !EngagedIn(os, pid, o)
  {
    forall o ensures !EngagedIn(os, pid, o) {
      assert OfferAt(ps, os, o, now);
    }
  }

  /** One proposal's row changes, and it has no offers. */
  lemma RepostRows(ps: Proposals, os: Offers, now: Time, pid: Id, p': ProposalRow)
    requires RowsOk(ps, os, now)
    requires pid in ps && forall o :: !OfferOf(os, pid, o)
    requires ProposalOk(p', now)
    ensures RowsOk(ps[pid := p'], os, now)
  {
    var ps' := ps[pid := p'];
    forall q ensures ProposalAt(ps', q, now) {
      assert ProposalAt(ps, q, now);
    }
    forall o ensures OfferAt(ps', os, o, now) {
      assert OfferAt(ps, os, o, now) && !OfferOf(os, pid, o);
    }
  }

  lemma MarketRepost(ps: Proposals, os: Offers, now: Time, pid: Id, p': ProposalRow)
    requires MarketInv(ps, os, now)
    requires pid in ps && (ps[pid].status.Holding? || ps[pid].status.Posted?)
    requires p'.status.Holding? || p'.status.Posted?
    requires p' == ps[pid].(status := p'.status, draft := p'.draft)
    ensures MarketInv(ps[pid := p'], os, now)
  {
    NoOffersYet(ps, os, now, pid);
    assert ProposalAt(ps, pid, now);
    RepostRows(ps, os, now, pid, p');
    LinksKept(ps, os, ps[pid := p'], os);
  }

  lemma OfferRows(ps: Proposals, os: Offers, now: Time, pid: Id, oid: Id, runner: UserId, t: Time)
    requires RowsOk(ps, os, now) && t <= now
    requires pid in ps && RecruitingStatus(ps[pid].status) && ps[pid].orderer != runner
    ensures RowsOk(ps[pid := ps[pid].(status := Offered)], os[oid := NewOffer(pid, runner, t)], now)
  {
    var ps', os' := ps[pid := ps[pid].(status := Offered)], os[oid := NewOffer(pid, runner, t)];
    forall q ensures ProposalAt(ps', q, now) {
      assert ProposalAt(ps, q, now);
    }
    forall o ensures OfferAt(ps', os', o, now) {
      assert OfferAt(ps, os, o, now);
    }
  }

  lemma MarketNewOffer(ps: Proposals, os: Offers, now: Time, pid: Id, oid: Id, runner: UserId, t: Time)
    requires MarketInv(ps, os, now) && t <= now
    requires pid in ps && RecruitingStatus(ps[pid].status) && ps[pid].orderer != runner
    requires oid !in os && !HasOfferBy(os, pid, runner)
    ensures MarketInv(ps[pid := ps[pid].(status := Offered)], os[oid := NewOffer(pid, runner, t)], now)
  {
    OfferRows(ps, os, now, pid, oid, runner, t);
    LinksOffer(ps, os, pid, oid, runner, t);
  }

  /** One offer's row changes, its proposal's does not. */
  lemma MarketOfferPut(ps: Proposals, os: Offers, now: Time, oid: Id, o': OfferRow)
    requires MarketInv(ps, os, now)
    requires oid in os && os[oid].proposal in ps && o'.proposal == os[oid].proposal && o'.runner == os[oid].runner
    requires Engaged(o'.status) <==> Engaged(os[oid].status)
    requires OfferOk(o', now) && PairOk(ps[os[oid].proposal], o')
    ensures MarketInv(ps, os[oid := o'], now)
  {
    var os' := os[oid := o'];
    forall o ensures OfferAt(ps, os', o, now) {
      assert OfferAt(ps, os, o, now);
    }
    LinksKept(ps, os, ps, os');
  }

  lemma AcceptRows(ps: Proposals, os: Offers, now: Time, pid: Id, oid: Id, t: Time)
    requires RowsOk(ps, os, now) && t <= now
    requires OfferOf(os, pid, oid) && os[oid].status.Waiting?
    requires pid in ps && ps[pid].status.Offered?
    ensures RowsOk(ps[pid := ps[pid].(status := Matched, matchedAt := Some(t))],
                   RejectWaiting(os, pid)[oid := os[oid].(status := OfferStatus.Accepted, acceptedAt := Some(t))], now)
  {
    var p' := ps[pid].(status := Matched, matchedAt := Some(t));
    var ps', os' := ps[pid := p'],
        RejectWaiting(os, pid)[oid := os[oid].(status := OfferStatus.Accepted, acceptedAt := Some(t))];
    forall q ensures ProposalAt(ps', q, now) {
      assert ProposalAt(ps, q, now);
    }
    forall o ensures OfferAt(ps', os', o, now) {
      assert OfferAt(ps, os, o, now) && ProposalAt(ps, pid, now);
      if o in os && o != oid && os[o].proposal == pid {
        ClosedRow(ps[pid], os[o], p', os'[o].status, now);
      }
    }
  }

  lemma AcceptLinks(ps: Proposals, os: Offers, pid: Id, oid: Id, t: Time)
    requires LinksOk(ps, os)
    requires pid in ps && OfferOf(os, pid, oid) && forall o :: !EngagedIn(os, pid, o)
    ensures LinksOk(ps[pid := ps[pid].(status := Matched, matchedAt := Some(t))],
                    RejectWaiting(os, pid)[oid := os[oid].(status := OfferStatus.Accepted, acceptedAt := Some(t))])
  {
    var ps' := ps[pid := ps[pid].(status := Matched, matchedAt := Some(t))];
    var os' := RejectWaiting(os, pid)[oid := os[oid].(status := OfferStatus.Accepted, acceptedAt := Some(t))];
    LinksEngage(ps, os, ps', os', pid, oid);
  }

  lemma MarketAccept(ps: Proposals, os: Offers, now: Time, pid: Id, oid: Id, t: Time)
    requires MarketInv(ps, os, now) && t <= now
    requires OfferOf(os, pid, oid) && os[oid].status.Waiting?
    requires pid in ps && ps[pid].status.Offered?
    ensures MarketInv(ps[pid := ps[pid].(status := Matched, matchedAt := Some(t))],
                      RejectWaiting(os, pid)[oid := os[oid].(status := OfferStatus.Accepted, acceptedAt := Some(t))],
                      now)
  {
    NotEngagedYet(ps, os, now, pid);
    AcceptRows(ps, os, now, pid, oid, t);
    AcceptLinks(ps, os, pid, oid, t);
  }

  lemma AdvanceRows(ps: Proposals, os: Offers, now: Time, pid: Id, oid: Id, p': ProposalRow, o': OfferRow)
    requires MarketInv(ps, os, now)
    requires pid in ps && EngagedIn(os, pid, oid)
    requires p'.orderer == ps[pid].orderer && o'.proposal == pid && PostMatch(p'.status)
    requires ProposalOk(p', now) && OfferOk(o', now) && PairOk(p', o')
    ensures RowsOk(ps[pid := p'], os[oid := o'], now) && PostMatch(ps[pid].status)
  {
    var ps', os' := ps[pid := p'], os[oid := o'];
    assert OfferAt(ps, os, oid, now);
    forall q ensures ProposalAt(ps', q, now) {
      assert ProposalAt(ps, q, now);
    }
    forall o ensures OfferAt(ps', os', o, now) {
      assert OfferAt(ps, os, o, now) && OneEngaged(os, pid, o, oid);
      if o in os && o != oid && os[o].proposal == pid {
        LoserUnmoved(ps[pid], p', os[o]);
      }
    }
  }

  /** One step of an execution. */
  lemma MarketAdvance(ps: Proposals, os: Offers, now: Time, pid: Id, oid: Id, p': ProposalRow, o': OfferRow)
    requires MarketInv(ps, os, now)
    requires pid in ps && EngagedIn(os, pid, oid)
    requires p'.orderer == ps[pid].orderer && o'.proposal == pid && o'.runner == os[oid].runner
    requires PostMatch(p'.status) && Engaged(o'.status)
    requires ProposalOk(p', now) && OfferOk(o', now) && PairOk(p', o')
    ensures MarketInv(ps[pid := p'], os[oid := o'], now)
  {
    AdvanceRows(ps, os, now, pid, oid, p', o');
    LinksKept(ps, os, ps[pid := p'], os[oid := o']);
  }

  lemma CloseRows(ps: Proposals, os: Offers, now: Time, pid: Id, st: ProposalStatus)
    requires RowsOk(ps, os, now)
    requires pid in ps && CancellableStatus(ps[pid].status)
    requires st.Cancelled? || st.Reported?
    ensures RowsOk(ps[pid := ps[pid].(status := st)], RejectWaiting(os, pid), now)
  {
    var ps', os' := ps[pid := ps[pid].(status := st)], RejectWaiting(os, pid);
    forall q ensures ProposalAt(ps', q, now) {
      assert ProposalAt(ps, q, now);
    }
    forall o ensures OfferAt(ps', os', o, now) {
      assert OfferAt(ps, os, o, now);
      if o in os && os[o].proposal == pid {
        ClosedRow(ps[pid], os[o], ps'[pid], os'[o].status, now);
      }
    }
  }

  lemma MarketClose(ps: Proposals, os: Offers, now: Time, pid: Id, st: ProposalStatus)
    requires MarketInv(ps, os, now)
    requires pid in ps && CancellableStatus(ps[pid].status)
    requires st.Cancelled? || st.Reported?
    ensures MarketInv(ps[pid := ps[pid].(status := st)], RejectWaiting(os, pid), now)
  {
    CloseRows(ps, os, now, pid, st);
    LinksKept(ps, os, ps[pid := ps[pid].(status := st)], RejectWaiting(os, pid));
  }

  /** Without waiting offers the bulk rejection changes nothing. */
  lemma NothingToReject(ps: Proposals, os: Offers, now: Time, pid: Id)
    requires RowsOk(ps, os, now)
    requires pid in ps && !ps[pid].status.Offered?
    ensures RejectWaiting(os, pid) == os
  {
    forall o | o in os ensures RejectWaiting(os, pid)[o] == os[o] {
      assert OfferAt(ps, os, o, now);
    }
  }

  lemma WithdrawRows(ps: Proposals, os: Offers, now: Time, u: UserId)
    requires RowsOk(ps, os, now)
    ensures RowsOk(ProposalsAfterWithdrawal(ps, u), OffersAfterWithdrawal(os, ps, u), now)
  {
    var ps', os' := ProposalsAfterWithdrawal(ps, u), OffersAfterWithdrawal(os, ps, u);
    forall q ensures ProposalAt(ps', q, now) {
      assert ProposalAt(ps, q, now);
    }
    forall o ensures OfferAt(ps', os', o, now) {
      assert OfferAt(ps, os, o, now);
      if o in os && OwnOpenProposal(ps, u, os[o].proposal) {
        ClosedRow(ps[os[o].proposal], os[o], ps'[os[o].proposal], os'[o].status, now);
      } else if o in os && os[o].status.Waiting? {
        CancelledRow(ps[os[o].proposal], os[o], now);
      }
    }
  }

  lemma MarketWithdraw(ps: Proposals, os: Offers, now: Time, u: UserId)
    requires MarketInv(ps, os, now)
    ensures MarketInv(ProposalsAfterWithdrawal(ps, u), OffersAfterWithdrawal(os, ps, u), now)
  {
    WithdrawRows(ps, os, now, u);
    LinksKept(ps, os, ProposalsAfterWithdrawal(ps, u), OffersAfterWithdrawal(os, ps, u));
  }
}

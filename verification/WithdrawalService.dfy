/**
 * Withdrawal. The session does not flush before a query: the second query for offers still sees the rows as committed,
 * and the identity map hands back the objects the first one loaded, with their changes.
 */
module WithdrawalService {
  import opened Rows
  import opened MarketSpec
  import opened AccountSpec
  import opened Entities
  import opened DatabaseAccess

  type IdentityMap = map<Id, Offer>

  ghost predicate Keyed(session: IdentityMap) {
    forall o :: o in session ==> session[o].id == o
  }

  method NewObjects(rows: map<Id, OfferRow>, ids: set<Id>) returns (added: IdentityMap)
    requires ids <= rows.Keys
    ensures added.Keys == ids && Keyed(added)
    ensures forall o :: o in added ==> fresh(added[o]) && added[o].Row() == rows[o]
  {
    added := map[];
    var rest := ids;
    while rest != {}
      invariant rest <= ids && added.Keys == ids - rest && Keyed(added)
      invariant forall o :: o in added ==> fresh(added[o]) && added[o].Row() == rows[o]
      decreases rest
    {
      var oid :| oid in rest;
      var offer := new Offer(oid, rows[oid]);
      added, rest := added[oid := offer], rest - {oid};
    }
  }

  /** Loads the rows of `ids`; an object already in the session stays as it is. */
  method LoadOffers(rows: map<Id, OfferRow>, ids: set<Id>, session: IdentityMap) returns (loaded: IdentityMap)
    requires Keyed(session) && ids <= rows.Keys
    ensures Keyed(loaded) && loaded.Keys == session.Keys + ids
    ensures forall o :: o in session ==> loaded[o] == session[o]
    ensures forall o :: o in loaded && o !in session ==> fresh(loaded[o]) && o in rows && loaded[o].Row() == rows[o]
  {
    var added := NewObjects(rows, ids - session.Keys);
    loaded := session + added;
  }

  /** Cancels the offers one by one, in whatever order; the first guard that raises ends it. */
  method CancelAll(ids: set<Id>, session: IdentityMap) returns (ok: bool)
    requires Keyed(session) && ids <= session.Keys
    modifies set o | o in session :: session[o]
    ensures ok <==> forall o :: o in ids ==> old(session[o].status).Waiting?
    ensures ok ==> forall o :: o in session ==>
              session[o].Row()
              == if o in ids then old(session[o].Row()).(status := OfferStatus.Cancelled) else old(session[o].Row())
  {
    var rest := ids;
    while rest != {}
      invariant rest <= ids
      invariant forall o :: o in ids - rest ==> old(session[o].status).Waiting?
      invariant forall o :: o in session ==>
                  session[o].Row()
                  == if o in ids - rest then old(session[o].Row()).(status := OfferStatus.Cancelled)
                     else old(session[o].Row())
      decreases rest
    {
      var oid :| oid in rest;
      assert session[oid].status == session[oid].Row().status == old(session[oid].Row()).status;
      ok := session[oid].Cancel();
      if !ok {
        return false;
      }
      rest := rest - {oid};
    }
    return true;
  }

  function OpenProposals(proposals: map<Id, ProposalRow>, u: UserId): set<Id> {
    set p | p in proposals && OwnOpenProposal(proposals, u, p)
  }

  function ReceivedOffers(offers: map<Id, OfferRow>, pids: set<Id>): set<Id> {
    set o | o in offers && offers[o].proposal in pids && offers[o].status.Waiting?
  }

  function MadeOffers(offers: map<Id, OfferRow>, u: UserId): set<Id> {
    set o | o in offers && offers[o].runner == u && offers[o].status.Waiting?
  }

  function CancelledProposals(proposals: map<Id, ProposalRow>, pids: set<Id>): map<Id, ProposalRow> {
    map p | p in pids && p in proposals :: proposals[p].(status := ProposalStatus.Cancelled)
  }

  /** Cancels the proposals one by one; the changed rows wait for the flush. */
  method CancelProposals(db: Database, pids: set<Id>) returns (ok: bool, dirty: map<Id, ProposalRow>)
    requires pids <= db.proposals.rows.Keys
    requires forall p :: p in pids ==> CancellableStatus(db.proposals.rows[p].status)
    ensures ok && dirty == CancelledProposals(db.proposals.rows, pids)
  {
    ok, dirty := true, map[];
    var rest := pids;
    while rest != {}
      invariant ok && rest <= pids
      invariant dirty == CancelledProposals(db.proposals.rows, pids - rest)
      decreases rest
    {
      var pid :| pid in rest;
      var proposal := new Proposal(pid, db.proposals.rows[pid]);
      ok := proposal.Cancel();
      if !ok {
        return;
      }
      dirty := dirty[pid := proposal.Row()];
      rest := rest - {pid};
    }
    assert pids - rest == pids;
  }

  function Flushed<T>(rows: map<Id, T>, dirty: map<Id, T>): map<Id, T> {
    map k | k in rows :: if k in dirty then dirty[k] else rows[k]
  }

  /** The orderer's side: her open proposals and the offers waiting on them, cancelled in memory. */
  method CancelReceived(db: Database, u: UserId) returns (ok: bool, session: IdentityMap, dirty: map<Id, ProposalRow>)
    ensures ok && Keyed(session)
    ensures session.Keys == ReceivedOffers(db.offers.rows, OpenProposals(db.proposals.rows, u))
    ensures forall o :: o in session ==>
                fresh(session[o]) && session[o].Row() == db.offers.rows[o].(status := OfferStatus.Cancelled)
    ensures dirty == CancelledProposals(db.proposals.rows, OpenProposals(db.proposals.rows, u))
  {
    ok, session, dirty := true, map[], map[];
    var pids := OpenProposals(db.proposals.rows, u);
    if pids != {} {
      var received := ReceivedOffers(db.offers.rows, pids);
      session := LoadOffers(db.offers.rows, received, map[]);
      ok := CancelAll(received, session);
      ok, dirty := CancelProposals(db, pids);
    }
  }

  /** The runner's side: the waiting offers he made, as the database still has them. */
  method CancelMade(db: Database, u: UserId, session: IdentityMap) returns (ok: bool, all: IdentityMap)
    requires Keyed(session) && session.Keys <= db.offers.rows.Keys
    requires forall o :: o in session ==> session[o].Row() == db.offers.rows[o].(status := OfferStatus.Cancelled)
    modifies set o | o in session :: session[o]
    ensures ok <==> MadeOffers(db.offers.rows, u) !! session.Keys
    ensures ok ==> all.Keys == session.Keys + MadeOffers(db.offers.rows, u)
    ensures ok ==> forall o :: o in all ==> all[o].Row() == db.offers.rows[o].(status := OfferStatus.Cancelled)
  {
    var made := MadeOffers(db.offers.rows, u);
    all := LoadOffers(db.offers.rows, made, session);
    assert forall o :: o in made ==> all[o].Row().status == if o in session then OfferStatus.Cancelled else Waiting;
    ok := CancelAll(made, all);
  }

  /** The user's open proposals and waiting offers cancelled, and the offers waiting on those proposals. */
  function WithoutOpenActivity(s: State, u: UserId): State {
    s.(proposals := s.proposals.(rows := ProposalsAfterWithdrawal(s.proposals.rows, u)),
       offers := s.offers.(rows := OffersAfterWithdrawal(s.offers.rows, s.proposals.rows, u)))
  }

  /** Raises, with nothing written, exactly when both sides pick one offer. */
  method AutoCancelPreMatchActivity(db: Database, u: UserId) returns (ok: bool)
    modifies db
    ensures ok <==> !exists o :: CancelledTwice(old(db.State()), u, o)
    ensures db.State() == if ok then WithoutOpenActivity(old(db.State()), u) else old(db.State())
  {
    var session, all: IdentityMap;
    var dirty: map<Id, ProposalRow>;
    ok, session, dirty := CancelReceived(db, u);
    ok, all := CancelMade(db, u, session);
    TwiceIffBoth(db.State(), u);
    if ok {
      var rows := map o | o in all :: all[o].Row();
      FlushedOffersAre(db.offers.rows, db.proposals.rows, u, rows);
      FlushedProposalsAre(db.proposals.rows, u);
      db.offers := db.offers.(rows := Flushed(db.offers.rows, rows));
      db.proposals := db.proposals.(rows := Flushed(db.proposals.rows, dirty));
    }
  }

  lemma TwiceIffBoth(s: State, u: UserId)
    ensures (exists o :: CancelledTwice(s, u, o))
       <==> !(MadeOffers(s.offers.rows, u) !! ReceivedOffers(s.offers.rows, OpenProposals(s.proposals.rows, u)))
  {
    var made := MadeOffers(s.offers.rows, u);
    var received := ReceivedOffers(s.offers.rows, OpenProposals(s.proposals.rows, u));
    forall o ensures CancelledTwice(s, u, o) <==> o in made && o in received {
    }
  }

  lemma FlushedOffersAre(offers: map<Id, OfferRow>, proposals: map<Id, ProposalRow>, u: UserId,
                         dirty: map<Id, OfferRow>)
    requires dirty.Keys == MadeOffers(offers, u) + ReceivedOffers(offers, OpenProposals(proposals, u))
    requires forall o :: o in dirty ==> o in offers && dirty[o] == offers[o].(status := OfferStatus.Cancelled)
    ensures Flushed(offers, dirty) == OffersAfterWithdrawal(offers, proposals, u)
  {
  }

  lemma FlushedProposalsAre(proposals: map<Id, ProposalRow>, u: UserId)
    ensures Flushed(proposals, CancelledProposals(proposals, OpenProposals(proposals, u)))
                == ProposalsAfterWithdrawal(proposals, u)
  {
  }

  method Withdraw(db: Database, u: UserId, t: Ticks) returns (r: Result<Reply>)
    modifies db
    ensures Outcome(db.State(), r) == AccountSpec.Withdraw(old(db.State()), u, t)
  {
    var user := db.GetActiveUser(u);
    if user == null {
      return Err(UserNotFound);
    }
    if HasBlockingActivity(db.State(), u) {
      return Err(UserWithdrawalBlocked);
    }
    var phone := user.phone;
    var ok := AutoCancelPreMatchActivity(db, u);
    if !ok {
      return Err(ValueError);
    }
    var vs, ns := db.verifications.rows, db.notifications.rows;
    if phone.Some? {
      db.verifications := db.verifications.(rows := WithoutPhone(vs, phone));
    }
    db.fcmTokens := db.fcmTokens - {u};
    db.accounts := db.accounts - {u};
    db.notifications := db.notifications.(rows := WithoutUser(ns, u));
    user.Withdraw(t.t0);
    db.SaveUser(user);
    return Ok(Done);
  }
}

/** The commands of the offer service, statement by statement, against the closed forms of MarketSpec. */
module OfferService {
  import opened Rows
  import opened MarketSpec
  import opened Entities
  import opened DatabaseAccess
  import opened NotificationListener
  import opened Rivals

  method Create(db: Database, pid: Id, runner: UserId, t: Ticks) returns (r: Result<Reply>)
    modifies db
    ensures Outcome(db.State(), r) == OfferCreate(old(db.State()), pid, runner, t)
  {
    var proposal := db.GetProposal(pid);
    if proposal == null {
      return Err(OfferProposalNotFound);
    }
    if proposal.orderer == runner {
      return Err(SelfOfferNotAllowed);
    }
    if !RecruitingStatus(proposal.status) {
      return Err(ProposalNotOpen);
    }
    if HasOfferBy(db.offers.rows, pid, runner) {
      return Err(DuplicateOffer);
    }
    var oid := db.offers.next;
    db.offers := db.offers.Insert(NewOffer(pid, runner, t.t0));
    if proposal.status.Posted? {
      proposal.MarkAsOffered();
    }
    db.SaveProposal(proposal);
    OnOfferCreated(db, oid, proposal.orderer, runner, t.t3);
    return Ok(Created(oid));
  }

  method Cancel(db: Database, oid: Id, runner: UserId) returns (r: Result<Reply>)
    modifies db
    ensures Outcome(db.State(), r) == OfferCancel(old(db.State()), oid, runner)
  {
    var offer := db.GetOffer(oid);
    if offer == null {
      return Err(OfferNotFound);
    }
    if offer.runner != runner {
      return Err(Forbidden);
    }
    if !offer.status.Waiting? {
      return Err(OfferNotCancellable);
    }
    var ok := offer.Cancel();
    if !ok {
      return Err(ValueError);
    }
    db.SaveOffer(offer);
    return Ok(Done);
  }

  /** The bulk update that spares the accepted offer, and the flush of that offer. */
  lemma BulkRejectIs(offers: map<Id, OfferRow>, pid: Id, oid: Id, row: OfferRow)
    requires oid in offers
    ensures WithRejected(offers, WaitingExcept(offers, pid, Some(oid)))[oid := row]
                == RejectWaiting(offers, pid)[oid := row]
  {
  }

  /** The bulk update runs before the accepted offer is flushed and must leave it alone. */
  method Accept(db: Database, oid: Id, orderer: UserId, t: Ticks) returns (r: Result<Reply>)
    requires db.offers.Bounded()
    modifies db
    ensures Outcome(db.State(), r) == OfferAccept(old(db.State()), oid, orderer, t)
  {
    var offer := db.GetOffer(oid);
    if offer == null {
      return Err(OfferNotFound);
    }
    var pid := offer.proposal;
    var proposal := db.GetProposal(pid);
    if proposal == null {
      return Err(OfferProposalNotFound);
    }
    if proposal.orderer != orderer {
      return Err(Forbidden);
    }
    if !offer.status.Waiting? {
      return Err(OfferNotAcceptable);
    }
    if HasActiveRival(db.offers.rows, pid, oid) {
      return Err(ProposalNotMatchable);
    }
    if !proposal.status.Offered? {
      return Err(ProposalNotMatchable);
    }
    var losers := RejectedRunners(db.offers, pid, oid);
    RivalsAre(db.offers, pid, oid);
    var ok := offer.Accept(t.t0);
    if !ok {
      return Err(ValueError);
    }
    proposal.status := Matched;
    proposal.matchedAt := offer.acceptedAt;
    BulkRejectIs(db.offers.rows, pid, oid, offer.Row());
    var count := db.RejectWaitingExcept(pid, Some(oid));
    db.SaveOffer(offer);
    db.SaveProposal(proposal);
    OnOfferAccepted(db, oid, offer.runner, losers, t.t3);
    return Ok(Reply.OfferAccepted(count));
  }

  /** `_sync_all_completed`, in memory, with the level update that bypasses the session. */
  method SyncAllCompleted(db: Database, offer: Offer, proposal: Proposal) returns (ok: bool)
    requires offer as object != proposal
    modifies db, offer, proposal
    ensures ok
    ensures var both := old(offer.status).RunnerCompleted? && old(proposal.status).OrderCompleted?;
            && offer.Row() == (if both then old(offer.Row()).(status := OfferStatus.AllCompleted) else old(offer.Row()))
            && proposal.Row() == (if both then old(proposal.Row()).(status := ProposalStatus.AllCompleted)
                                  else old(proposal.Row()))
            && db.State() == old(db.State()).(users := if both then BumpLevel(old(db.users), old(offer.runner))
                                              else old(db.users))
  {
    ok := true;
    if offer.status.RunnerCompleted? && proposal.status.OrderCompleted? {
      ok := offer.MarkAllCompleted();
      var okProposal := proposal.MarkAllCompleted();
      ok := ok && okProposal;
      db.IncrementLevel(offer.runner);
    }
  }

  method CompleteDelivery(db: Database, oid: Id, runner: UserId, t: Ticks) returns (r: Result<Reply>)
    modifies db
    ensures Outcome(db.State(), r) == MarketSpec.CompleteDelivery(old(db.State()), oid, runner, t)
  {
    var offer := db.GetOffer(oid);
    if offer == null {
      return Err(OfferNotFound);
    }
    if offer.runner != runner {
      return Err(Forbidden);
    }
    var proposal := db.GetProposal(offer.proposal);
    if proposal == null {
      return Err(OfferProposalNotFound);
    }
    if !offer.CanConfirmRunnerCompletion() || !(proposal.status.Matched? || proposal.status.OrderCompleted?) {
      return Err(OfferNotUpdatable);
    }
    var ok := offer.ConfirmRunnerCompletion(t.t0);
    if ok && (proposal.status.Matched? || proposal.status.OrderCompleted?) {
      ok := proposal.ConfirmRunnerCompletion(t.t1);
    }
    if ok && proposal.status.OrderCompleted? {
      ok := offer.ConfirmOrdererCompletion(t.t2);
    }
    if ok {
      ok := SyncAllCompleted(db, offer, proposal);
    }
    if !ok {
      return Err(ValueError);
    }
    db.SaveOffer(offer);
    db.SaveProposal(proposal);
    OnMeetingConfirmedByRunner(db, oid, proposal.orderer, t.t3);
    return Ok(Done);
  }

  method RaiseDispute(db: Database, oid: Id, runner: UserId, question: Id, questionActive: bool, reason: string,
                      t: Ticks)
    returns (r: Result<Reply>)
    modifies db
    ensures Outcome(db.State(), r) == OfferDispute(old(db.State()), oid, runner, question, questionActive, reason, t)
  {
    var offer := db.GetOffer(oid);
    if offer == null {
      return Err(OfferNotFound);
    }
    if offer.runner != runner {
      return Err(Forbidden);
    }
    var proposal := db.GetProposal(offer.proposal);
    if proposal == null {
      return Err(OfferProposalNotFound);
    }
    if !offer.CanRaiseDispute() || !proposal.CanRaiseDispute() {
      return Err(OfferNotUpdatable);
    }
    if !questionActive {
      return Err(ValidationError);
    }
    var ok := offer.RaiseDispute(t.t0);
    var okProposal := proposal.RaiseDispute(t.t1);
    if !ok || !okProposal {
      return Err(ValueError);
    }
    db.evidences := db.evidences.Insert(EvidenceRow(proposal.id, oid, runner, question, reason, t.t2));
    db.SaveOffer(offer);
    db.SaveProposal(proposal);
    OnDisputeRaised(db, oid, proposal.orderer, t.t3);
    return Ok(Done);
  }

  method Resolve(db: Database, oid: Id, t: Ticks) returns (r: Result<Reply>)
    modifies db
    ensures Outcome(db.State(), r) == OfferResolve(old(db.State()), oid, t)
  {
    var offer := db.GetOffer(oid);
    if offer == null {
      return Err(OfferNotFound);
    }
    var proposal := db.GetProposal(offer.proposal);
    if proposal == null {
      return Err(OfferProposalNotFound);
    }
    if !offer.status.Disputed? || !proposal.status.Disputed? {
      return Err(OfferNotUpdatable);
    }
    var ok := offer.Resolve(t.t0);
    var okProposal := proposal.Resolve(t.t1);
    if !ok || !okProposal {
      return Err(ValueError);
    }
    db.SaveOffer(offer);
    db.SaveProposal(proposal);
    return Ok(Done);
  }
}

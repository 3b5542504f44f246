/** The commands of the proposal service, statement by statement, against the closed forms of MarketSpec. */
module ProposalService {
  import opened Rows
  import opened MarketSpec
  import opened Entities
  import opened DatabaseAccess
  import opened NotificationListener

  method Create(db: Database, orderer: UserId, draft: Draft, t: Ticks) returns (r: Result<Reply>)
    modifies db
    ensures Outcome(db.State(), r) == ProposalCreate(old(db.State()), orderer, draft, t)
  {
    var user := db.GetActiveUser(orderer);
    if user == null {
      return Err(UserNotFound);
    }
    var invalid := DraftError(draft, t.t0);
    if invalid.Some? {
      return Err(invalid.value);
    }
    var pid := db.proposals.next;
    db.proposals := db.proposals.Insert(NewProposal(orderer, draft, t.t1));
    return Ok(Created(pid));
  }

  method Update(db: Database, pid: Id, draft: Draft, orderer: UserId, t: Ticks) returns (r: Result<Reply>)
    modifies db
    ensures Outcome(db.State(), r) == ProposalUpdate(old(db.State()), pid, draft, orderer, t)
  {
    var proposal := db.GetProposal(pid);
    if proposal == null {
      return Err(ProposalNotFound);
    }
    if proposal.orderer != orderer {
      return Err(Forbidden);
    }
    if !proposal.status.Holding? && !proposal.status.Posted? {
      return Err(ProposalNotEditable);
    }
    var invalid := proposal.UpdateProposal(draft, t.t0);
    if invalid.Some? {
      return Err(invalid.value);
    }
    db.SaveProposal(proposal);
    return Ok(Done);
  }

  lemma BulkRejectAllIs(offers: map<Id, OfferRow>, pid: Id)
    ensures WithRejected(offers, WaitingExcept(offers, pid, None)) == RejectWaiting(offers, pid)
  {
  }

  method Cancel(db: Database, pid: Id, orderer: UserId) returns (r: Result<Reply>)
    modifies db
    ensures Outcome(db.State(), r) == ProposalCancel(old(db.State()), pid, orderer)
  {
    var proposal := db.GetProposal(pid);
    if proposal == null {
      return Err(ProposalNotFound);
    }
    if proposal.orderer != orderer {
      return Err(Forbidden);
    }
    if !CancellableStatus(proposal.status) {
      return Err(ProposalNotCancellable);
    }
    var shouldRejectWaitingOffers := proposal.status.Offered?;
    proposal.status := ProposalStatus.Cancelled;
    if shouldRejectWaitingOffers {
      BulkRejectAllIs(db.offers.rows, pid);
      var _ := db.RejectWaitingExcept(pid, None);
    }
    db.SaveProposal(proposal);
    return Ok(Done);
  }

  method ConfirmPayment(db: Database, pid: Id) returns (r: Result<Reply>)
    modifies db
    ensures Outcome(db.State(), r) == MarketSpec.ConfirmPayment(old(db.State()), pid)
  {
    var proposal := db.GetProposal(pid);
    if proposal == null {
      return Err(ProposalNotFound);
    }
    if !proposal.status.Holding? {
      return Err(InvalidStatus);
    }
    proposal.status := Posted;
    db.SaveProposal(proposal);
    return Ok(Done);
  }

  /** This service's own copy of `_sync_all_completed`. */
  method SyncAllCompleted(db: Database, proposal: Proposal, offer: Offer) returns (ok: bool)
    requires offer as object != proposal
    modifies db, offer, proposal
    ensures ok
    ensures var both := old(offer.status).RunnerCompleted? && old(proposal.status).OrderCompleted?;
            && offer.Row() == (if both then old(offer.Row()).(status := OfferStatus.AllCompleted) else old(offer.Row()))
            && proposal.Row() == (if both then old(proposal.Row()).(status := ProposalStatus.AllCompleted)
                                  else old(proposal.Row()))
            && db.State() == old(db.State()).(users := if both then BumpLevel(old(db.users), old(offer.runner))
                                              else old(db.users))
  {
    ok := true;
    if proposal.status.OrderCompleted? && offer.status.RunnerCompleted? {
      ok := proposal.MarkAllCompleted();
      var okOffer := offer.MarkAllCompleted();
      ok := ok && okOffer;
      db.IncrementLevel(offer.runner);
    }
  }

  method ConfirmReceived(db: Database, pid: Id, orderer: UserId, t: Ticks) returns (r: Result<Reply>)
    modifies db
    ensures Outcome(db.State(), r) == MarketSpec.ConfirmReceived(old(db.State()), pid, orderer, t)
  {
    var proposal := db.GetProposal(pid);
    if proposal == null {
      return Err(ProposalNotFound);
    }
    if proposal.orderer != orderer {
      return Err(Forbidden);
    }
    var found := ExecutionOffer(db.offers, pid);
    if found.None? {
      return Err(OfferNotFound);
    }
    var offer := new Offer(found.value, db.offers.rows[found.value]);
    if !proposal.status.Matched? || !offer.CanConfirmOrdererCompletion() {
      return Err(ProposalNotUpdatable);
    }
    var ok := proposal.ConfirmOrdererCompletion(t.t0);
    if ok {
      ok := offer.ConfirmOrdererCompletion(t.t1);
    }
    if ok {
      ok := SyncAllCompleted(db, proposal, offer);
    }
    if !ok {
      return Err(ValueError);
    }
    db.SaveOffer(offer);
    db.SaveProposal(proposal);
    OnMeetingConfirmedByOrderer(db, offer.id, proposal.orderer, offer.runner, t.t3);
    return Ok(Done);
  }

  method RaiseDispute(db: Database, pid: Id, orderer: UserId, question: Id, questionActive: bool, reason: string,
                      t: Ticks)
    returns (r: Result<Reply>)
    modifies db
    ensures Outcome(db.State(), r)
                == ProposalDispute(old(db.State()), pid, orderer, question, questionActive, reason, t)
  {
    var proposal := db.GetProposal(pid);
    if proposal == null {
      return Err(ProposalNotFound);
    }
    if proposal.orderer != orderer {
      return Err(Forbidden);
    }
    var found := ExecutionOffer(db.offers, pid);
    if found.None? {
      return Err(OfferNotFound);
    }
    var offer := new Offer(found.value, db.offers.rows[found.value]);
    if !proposal.CanRaiseDispute() || !offer.CanRaiseDispute() {
      return Err(ProposalNotUpdatable);
    }
    if !questionActive {
      return Err(ValidationError);
    }
    var ok := proposal.RaiseDispute(t.t0);
    var okOffer := offer.RaiseDispute(t.t1);
    if !ok || !okOffer {
      return Err(ValueError);
    }
    db.evidences := db.evidences.Insert(EvidenceRow(pid, offer.id, orderer, question, reason, t.t2));
    db.SaveOffer(offer);
    db.SaveProposal(proposal);
    OnDisputeRaised(db, offer.id, offer.runner, t.t3);
    return Ok(Done);
  }
}

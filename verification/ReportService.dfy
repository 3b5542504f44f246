/** The commands of the report service, statement by statement, against the closed forms of MarketSpec. */
module ReportService {
  import opened Rows
  import opened MarketSpec
  import opened DatabaseAccess
  import ProposalService

  method Create(db: Database, pid: Id, reporter: UserId, question: Id, questionActive: bool, t: Ticks)
    returns (r: Result<Reply>)
    modifies db
    ensures Outcome(db.State(), r) == ReportCreate(old(db.State()), pid, reporter, question, questionActive, t)
  {
    var proposal := db.GetProposal(pid);
    if proposal == null {
      return Err(ProposalNotFound);
    }
    if proposal.orderer == reporter {
      return Err(ProposalSelfReportNotAllowed);
    }
    if !RecruitingStatus(proposal.status) {
      return Err(ProposalNotReportable);
    }
    if !questionActive {
      return Err(ValidationError);
    }
    // the unique index on (proposal, reporter) refuses the commit
    if HasReportBy(db.reports.rows, pid, reporter) {
      return Err(DuplicateProposalReport);
    }
    var rid := db.reports.next;
    db.reports := db.reports.Insert(ReportRow(pid, reporter, question, ReportStatus.Pending, t.t0, None));
    return Ok(Created(rid));
  }

  method Accept(db: Database, rid: Id, t: Ticks) returns (r: Result<Reply>)
    modifies db
    ensures Outcome(db.State(), r) == ReportAccept(old(db.State()), rid, t)
  {
    if rid !in db.reports.rows {
      return Err(ProposalReportNotFound);
    }
    var report := db.reports.rows[rid];
    if !report.status.Pending? {
      return Err(ProposalReportNotReviewable);
    }
    var proposal := db.GetProposal(report.proposal);
    if proposal == null {
      return Err(ProposalNotFound);
    }
    if !RecruitingStatus(proposal.status) && !proposal.status.Reported? {
      return Err(ProposalNotReportable);
    }
    if RecruitingStatus(proposal.status) {
      proposal.status := Reported;
      ProposalService.BulkRejectAllIs(db.offers.rows, proposal.id);
      var _ := db.RejectWaitingExcept(proposal.id, None);
      db.SaveProposal(proposal);
    }
    db.reports := db.reports.Put(rid, report.(status := ReportStatus.Accepted, reviewedAt := Some(t.t0)));
    return Ok(Done);
  }

  method Reject(db: Database, rid: Id, t: Ticks) returns (r: Result<Reply>)
    modifies db
    ensures Outcome(db.State(), r) == ReportReject(old(db.State()), rid, t)
  {
    if rid !in db.reports.rows {
      return Err(ProposalReportNotFound);
    }
    var report := db.reports.rows[rid];
    if !report.status.Pending? {
      return Err(ProposalReportNotReviewable);
    }
    db.reports := db.reports.Put(rid, report.(status := ReportStatus.Rejected, reviewedAt := Some(t.t0)));
    return Ok(Done);
  }
}

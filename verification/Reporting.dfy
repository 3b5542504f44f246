/** Reports: who may file and judge one, and everything that changes then. */
module Reporting {
  import opened Rows
  import opened MarketSpec
  import opened Runs
  import opened Invariants
  import opened Lifecycle
  import opened Posting
  import opened Changes

  ghost predicate HasReported(s: State, u: UserId, pid: Id) {
    exists r :: ReportBy(s.reports.rows, pid, u, r)
  }

  predicate JustReported(r: ReportRow, pid: Id, u: UserId, question: Id, t: Ticks) {
    && r.proposal == pid && r.reporter == u && r.reasonQuestion == question
    && r.status.Pending? && r.reviewedAt.None? && Within(r.createdAt, t)
  }

  /** Any active user but its owner can report an open proposal, once. */
  lemma ReportsIff(s: State, now: Time, u: UserId, pid: Id, q: Id, active: bool, t: Ticks)
    requires Reachable(s, now) && t.Ordered()
    ensures var out := Step(s, ReqReportCreate(u, pid, q, active), t);
            && (out.result.Ok? <==>
                && Active(s.users, u) && active && pid in s.proposals.rows && s.proposals.rows[pid].orderer != u
                && (s.proposals.rows[pid].status.Posted? || s.proposals.rows[pid].status.Offered?)
                && !HasReported(s, u, pid))
            && (out.result.Ok? ==>
                  && out.result.value.Created?
                  && var s', k := out.state, out.result.value.id;
                  && OnlyNew(s.reports, s'.reports, k) && JustReported(s'.reports.rows[k], pid, u, q, t)
                  && s' == s.(reports := s'.reports))
  {
    ReachableInv(s, now);
    if r :| ReportBy(s.reports.rows, pid, u, r) {
      assert HasReportBy(s.reports.rows, pid, u);
    }
    if HasReportBy(s.reports.rows, pid, u) {
      var r :| r in s.reports.rows && s.reports.rows[r].proposal == pid && s.reports.rows[r].reporter == u;
      assert ReportBy(s.reports.rows, pid, u, r);
    }
  }

  predicate Reviewable(s: State, rid: Id) {
    rid in s.reports.rows && s.reports.rows[rid].status.Pending?
  }

  /** The verdict `to` is entered and dated, and no other report changes. */
  ghost predicate Judged(s: State, s': State, rid: Id, to: ReportStatus, t: Ticks) {
    && OnlyAt(s.reports, s'.reports, rid) && Stamped(s'.reports.rows[rid].reviewedAt, t)
    && s'.reports.rows[rid] == s.reports.rows[rid].(status := to, reviewedAt := s'.reports.rows[rid].reviewedAt)
  }

  /** A pending report can be rejected, whatever has become of its proposal. */
  lemma RejectsReportIff(s: State, rid: Id, t: Ticks)
    requires t.Ordered()
    ensures var out := Step(s, ReqReportReject(rid), t);
            && (out.result.Ok? <==> Reviewable(s, rid))
            && (out.result.Ok? ==>
                Judged(s, out.state, rid, ReportStatus.Rejected, t) && out.state == s.(reports := out.state.reports))
  {
  }

  /**
   * It can be accepted while its proposal is open, which takes the proposal down with all that wait for it, or has been
   * taken down already, which changes the report only.
   */
  lemma AcceptsReportIff(s: State, now: Time, rid: Id, t: Ticks)
    requires Reachable(s, now) && t.Ordered()
    ensures Reviewable(s, rid) ==> s.reports.rows[rid].proposal in s.proposals.rows
    ensures var out := Step(s, ReqReportAccept(rid), t);
            && (out.result.Ok? <==>
                && Reviewable(s, rid)
                && var st := s.proposals.rows[s.reports.rows[rid].proposal].status;
                st.Posted? || st.Offered? || st.Reported?)
            && (out.result.Ok? ==>
                  && var pid, s' := s.reports.rows[rid].proposal, out.state;
                  && Judged(s, s', rid, ReportStatus.Accepted, t)
                  && (if s.proposals.rows[pid].status.Reported? then s' == s.(reports := s'.reports)
                      else && ComesDown(s, s', pid, Reported)
                           && s' == s.(reports := s'.reports, proposals := s'.proposals, offers := s'.offers)))
  {
    ReachableInv(s, now);
    assert ReportAt(s.proposals.rows, s.reports.rows, rid);
  }
}

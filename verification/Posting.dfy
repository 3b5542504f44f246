/** Proposals until the match: who may post, edit, pay for and take back one, and everything that changes then. */
module Posting {
  import opened Rows
  import opened MarketSpec
  import opened Runs
  import opened Invariants
  import opened Lifecycle
  import opened Changes

  /** The deadline still lies ahead, and the fee is at least 1000. */
  predicate Acceptable(d: Draft, at: Time) {
    at < d.deadline && 1000 <= d.errandFee
  }

  predicate JustPosted(p: ProposalRow, u: UserId, d: Draft, t: Ticks) {
    && p.orderer == u && p.draft == d && p.status.Holding? && Within(p.createdAt, t)
    && p.matchedAt.None? && p.runnerConfirmedAt.None? && p.ordererConfirmedAt.None?
    && p.disputedAt.None? && p.resolvedAt.None?
  }

  lemma PostsIff(s: State, now: Time, u: UserId, d: Draft, t: Ticks)
    requires Reachable(s, now) && t.Ordered()
    ensures var out := Step(s, ReqProposalCreate(u, d), t);
            && (out.result.Ok? <==> Active(s.users, u) && Acceptable(d, t.t0))
            && (out.result.Ok? ==>
                  && out.result.value.Created?
                  && var s', k := out.state, out.result.value.id;
                  && OnlyNew(s.proposals, s'.proposals, k) && JustPosted(s'.proposals.rows[k], u, d, t)
                  && s' == s.(proposals := s'.proposals))
  {
    ReachableInv(s, now);
  }

  /** Only the proposal of `pid` changes, and to `row`. */
  ghost predicate BecomesOnly(s: State, s': State, pid: Id, row: ProposalRow) {
    && OnlyAt(s.proposals, s'.proposals, pid) && s'.proposals.rows[pid] == row
    && s' == s.(proposals := s'.proposals)
  }

  predicate OwnerOf(s: State, u: UserId, pid: Id) {
    Active(s.users, u) && pid in s.proposals.rows && s.proposals.rows[pid].orderer == u
  }

  lemma EditsIff(s: State, u: UserId, pid: Id, d: Draft, t: Ticks)
    ensures var out := Step(s, ReqProposalUpdate(u, pid, d), t);
            && (out.result.Ok? <==>
                && OwnerOf(s, u, pid) && Acceptable(d, t.t0)
                && (s.proposals.rows[pid].status.Holding? || s.proposals.rows[pid].status.Posted?))
            && (out.result.Ok? ==>
                BecomesOnly(s, out.state, pid, s.proposals.rows[pid].(draft := d, status := Holding)))
  {
  }

  lemma PaysIff(s: State, pid: Id, t: Ticks)
    ensures var out := Step(s, ReqConfirmPayment(pid), t);
            && (out.result.Ok? <==> pid in s.proposals.rows && s.proposals.rows[pid].status.Holding?)
            && (out.result.Ok? ==> BecomesOnly(s, out.state, pid, s.proposals.rows[pid].(status := Posted)))
  {
  }

  /** The waiting offers of the proposal are turned down, and no other offer changes. */
  predicate WaitingTurnedDown(os: Offers, os': Offers, pid: Id, o: Id) {
    && (o in os <==> o in os')
    && (o in os ==> os'[o] == if os[o].proposal == pid && os[o].status.Waiting?
                              then os[o].(status := OfferStatus.Rejected) else os[o])
  }

  /** A proposal is taken off the market in status `to`, with all that wait for it. */
  ghost predicate ComesDown(s: State, s': State, pid: Id, to: ProposalStatus) {
    && OnlyAt(s.proposals, s'.proposals, pid)
    && s'.proposals.rows[pid] == s.proposals.rows[pid].(status := to)
    && s'.offers.next == s.offers.next
    && forall o :: WaitingTurnedDown(s.offers.rows, s'.offers.rows, pid, o)
  }

  lemma TakesBackIff(s: State, now: Time, u: UserId, pid: Id, t: Ticks)
    requires Reachable(s, now)
    ensures var out := Step(s, ReqProposalCancel(u, pid), t);
            && (out.result.Ok? <==>
                && OwnerOf(s, u, pid)
                && var st := s.proposals.rows[pid].status; st.Holding? || st.Posted? || st.Offered?)
            && (out.result.Ok? ==>
                && ComesDown(s, out.state, pid, ProposalStatus.Cancelled)
                && out.state == s.(proposals := out.state.proposals, offers := out.state.offers))
  {
    ReachableInv(s, now);
    var os' := Step(s, ReqProposalCancel(u, pid), t).state.offers.rows;
    if Step(s, ReqProposalCancel(u, pid), t).result.Ok? {
      forall o ensures WaitingTurnedDown(s.offers.rows, os', pid, o) {
        assert OfferAt(s.proposals.rows, s.offers.rows, o, now);
      }
    }
  }
}

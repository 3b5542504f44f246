/** What every reachable state, and every run, promises about proposals and their offers. */
module Lifecycle {
  import opened Rows
  import opened MarketSpec
  import opened AccountSpec
  import opened Runs
  import opened Invariants
  import opened Preservation
  import opened Transitions

  /** A committed state and the clock by then. */
  datatype Moment = Moment(state: State, clock: Time)

  /** One feasible request leads from `a` to `b`. */
  ghost predicate Follows(a: Moment, b: Moment) {
    exists r, t: Ticks :: Takes(a, r, t, b)
  }

  ghost predicate Takes(a: Moment, r: Request, t: Ticks, b: Moment) {
    && t.Ordered() && a.clock <= t.t0 && b.clock == t.t3
    && Feasible(a.state, r) && b.state == Step(a.state, r, t).state
  }

  ghost predicate Link(h: seq<Moment>, i: nat) {
    i + 1 < |h| ==> Follows(h[i], h[i + 1])
  }

  /** Committed states, in order, each one feasible request after the one before. */
  ghost predicate Chain(h: seq<Moment>) {
    forall i :: Link(h, i)
  }

  /** `n` requests lead from `s`, with the clock at `now`, to `s'`, with the clock at `later`. */
  ghost predicate Leads(s: State, now: Time, n: nat, s': State, later: Time) {
    exists h :: Chain(h) && |h| == n + 1 && h[0] == Moment(s, now) && h[n] == Moment(s', later)
  }

  /** `s` is what some run from the empty database leaves, with the clock at `now`. */
  ghost predicate Reachable(s: State, now: Time) {
    exists t0, n: nat :: Leads(EmptyState, t0, n, s, now)
  }

  lemma LeadsNowhere(s: State, now: Time)
    ensures Leads(s, now, 0, s, now)
  {
    assert Chain([Moment(s, now)]);
  }

  lemma LeadsOn(s: State, now: Time, n: nat, mid: State, at: Time, r: Request, t: Ticks)
    requires Leads(s, now, n, mid, at)
    requires t.Ordered() && at <= t.t0 && Feasible(mid, r)
    ensures Leads(s, now, n + 1, Step(mid, r, t).state, t.t3)
  {
    var h :| Chain(h) && |h| == n + 1 && h[0] == Moment(s, now) && h[n] == Moment(mid, at);
    var last := Moment(Step(mid, r, t).state, t.t3);
    var longer := h + [last];
    assert Takes(h[n], r, t, last);
    forall i ensures Link(longer, i) {
      assert Link(h, i);
    }
    assert Chain(longer) && |longer| == n + 2 && longer[n + 1] == last;
  }

  lemma LeadsThrough(s: State, now: Time, n: nat, mid: State, at: Time, m: nat, s': State, later: Time)
    requires Leads(s, now, n, mid, at) && Leads(mid, at, m, s', later)
    ensures Leads(s, now, n + m, s', later)
  {
    var g :| Chain(g) && |g| == n + 1 && g[0] == Moment(s, now) && g[n] == Moment(mid, at);
    var h :| Chain(h) && |h| == m + 1 && h[0] == Moment(mid, at) && h[m] == Moment(s', later);
    var whole := g + h[1..];
    forall i: nat ensures Link(whole, i) {
      assert Link(g, i);
      if i >= n {
        assert Link(h, i - n);
      }
    }
    assert Chain(whole) && |whole| == n + m + 1 && whole[n + m] == Moment(s', later);
  }

  /** What leads from one state to another is a legal run of that length, and any legal run leads so. */
  lemma LeadsIffRun(s: State, now: Time, n: nat, s': State, later: Time)
    ensures Leads(s, now, n, s', later)
       <==> exists run :: |run| == n && Legal(s, now, run) && Exec(s, run) == s' && ClockAfter(now, run) == later
  {
    if Leads(s, now, n, s', later) {
      var h :| Chain(h) && |h| == n + 1 && h[0] == Moment(s, now) && h[n] == Moment(s', later);
      var run := ChainIsRun(h, n);
    }
    if run :| |run| == n && Legal(s, now, run) && Exec(s, run) == s' && ClockAfter(now, run) == later {
      RunLeads(s, now, run);
    }
  }

  lemma OneMore(s: State, now: Time, before: seq<Event>, e: Event)
    requires Legal(s, now, before) && e.at.Ordered() && ClockAfter(now, before) <= e.at.t0
    requires Feasible(Exec(s, before), e.request)
    ensures Legal(s, now, before + [e]) && ClockAfter(now, before + [e]) == e.at.t3
    ensures Exec(s, before + [e]) == Step(Exec(s, before), e.request, e.at).state
  {
    var run := before + [e];
    assert run[..|run| - 1] == before && run[|run| - 1] == e;
  }

  lemma {:induction false} ChainIsRun(h: seq<Moment>, i: nat) returns (run: seq<Event>)
    requires Chain(h) && i < |h|
    ensures |run| == i && Legal(h[0].state, h[0].clock, run)
    ensures Exec(h[0].state, run) == h[i].state && ClockAfter(h[0].clock, run) == h[i].clock
  {
    if i == 0 {
      run := [];
    } else {
      var before := ChainIsRun(h, i - 1);
      assert Link(h, i - 1);
      var r, t: Ticks :| Takes(h[i - 1], r, t, h[i]);
      run := before + [Event(r, t)];
      OneMore(h[0].state, h[0].clock, before, Event(r, t));
    }
  }

  lemma {:induction false} RunLeads(s: State, now: Time, run: seq<Event>)
    requires Legal(s, now, run)
    ensures Leads(s, now, |run|, Exec(s, run), ClockAfter(now, run))
  {
    if run == [] {
      LeadsNowhere(s, now);
    } else {
      var before, last := run[..|run| - 1], run[|run| - 1];
      RunLeads(s, now, before);
      LeadsOn(s, now, |before|, Exec(s, before), ClockAfter(now, before), last.request, last.at);
    }
  }

  lemma {:induction false} ChainKeeps(h: seq<Moment>, i: nat)
    requires Chain(h) && i < |h| && Inv(h[0].state, h[0].clock)
    ensures Inv(h[i].state, h[i].clock)
  {
    if i > 0 {
      ChainKeeps(h, i - 1);
      assert Link(h, i - 1);
      var r, t: Ticks :| Takes(h[i - 1], r, t, h[i]);
      StepKeeps(h[i - 1].state, h[i - 1].clock, r, t);
    }
  }

  lemma ReachableInv(s: State, now: Time)
    requires Reachable(s, now)
    ensures Inv(s, now)
  {
    var t0, n: nat :| Leads(EmptyState, t0, n, s, now);
    var h :| Chain(h) && |h| == n + 1 && h[0] == Moment(EmptyState, t0) && h[n] == Moment(s, now);
    EmptyInv(t0);
    ChainKeeps(h, n);
  }

  lemma EmptyReachable(now: Time)
    ensures Reachable(EmptyState, now)
  {
    LeadsNowhere(EmptyState, now);
  }

  /** What a reachable state leads to is reachable. */
  lemma ReachesOn(s: State, now: Time, n: nat, s': State, later: Time)
    requires Reachable(s, now) && Leads(s, now, n, s', later)
    ensures Reachable(s', later)
  {
    var t0, k: nat :| Leads(EmptyState, t0, k, s, now);
    LeadsThrough(EmptyState, t0, k, s, now, n, s', later);
  }

  lemma StaysReachable(s: State, now: Time, r: Request, t: Ticks)
    requires Reachable(s, now) && t.Ordered() && now <= t.t0 && Feasible(s, r)
    ensures Reachable(Step(s, r, t).state, t.t3)
  {
    var t0, k: nat :| Leads(EmptyState, t0, k, s, now);
    LeadsOn(EmptyState, t0, k, s, now, r, t);
  }

  lemma RunReaches(s: State, now: Time, run: seq<Event>)
    requires Reachable(s, now) && Legal(s, now, run)
    ensures Reachable(Exec(s, run), ClockAfter(now, run))
  {
    RunLeads(s, now, run);
    ReachesOn(s, now, |run|, Exec(s, run), ClockAfter(now, run));
  }

  // ---------------------------------------------------------------- statuses of a proposal and its offers

  ghost function OffersOf(offers: Offers, pid: Id): set<Id> {
    set o | o in offers && offers[o].proposal == pid
  }

  ghost function EngagedOf(offers: Offers, pid: Id): set<Id> {
    set o | o in offers && EngagedIn(offers, pid, o)
  }

  predicate LostOrWithdrawn(st: OfferStatus) {
    st.Rejected? || st.Cancelled?
  }

  /** The status of the execution offer beside a matched proposal. */
  predicate Executes(p: ProposalStatus, o: OfferStatus) {
    match p
    case Matched => o.Accepted? || o.RunnerCompleted?
    case OrderCompleted => o.Accepted?
    case AllCompleted => o.AllCompleted?
    case Disputed => o.Disputed?
    case Resolved => o.Resolved?
    case _ => false
  }

  /** The engaged offer of a matched proposal, and that it is the only one. */
  lemma ExecutionPair(s: State, now: Time, pid: Id) returns (e: Id)
    requires Inv(s, now) && pid in s.proposals.rows && PostMatch(s.proposals.rows[pid].status)
    ensures EngagedIn(s.offers.rows, pid, e) && EngagedOf(s.offers.rows, pid) == {e}
    ensures OfferAt(s.proposals.rows, s.offers.rows, e, now)
    ensures Executes(s.proposals.rows[pid].status, s.offers.rows[e].status)
  {
    assert HasItsOffers(s.proposals.rows, s.offers.rows, pid);
    e :| EngagedIn(s.offers.rows, pid, e);
    assert OfferAt(s.proposals.rows, s.offers.rows, e, now);
    forall o | o in EngagedOf(s.offers.rows, pid) ensures o == e {
      assert OneEngaged(s.offers.rows, pid, o, e);
    }
  }

  /** The joint statuses of a proposal and all its offers, in every reachable state. */
  lemma JointStatuses(s: State, now: Time, pid: Id)
    requires Reachable(s, now) && pid in s.proposals.rows
    ensures var st := s.proposals.rows[pid].status;
            var offers := s.offers.rows;
            && (st.Holding? || st.Posted? ==> OffersOf(offers, pid) == {})
            && (st.Offered? ==> OffersOf(offers, pid) != {} && forall o :: o in OffersOf(offers, pid) ==>
                offers[o].status.Waiting? || offers[o].status.Cancelled?)
            && (st.Reported? || st.Cancelled? ==> forall o :: o in OffersOf(offers, pid) ==>
                LostOrWithdrawn(offers[o].status))
            && (PostMatch(st) ==> exists e ::
                e in offers && EngagedOf(offers, pid) == {e} && Executes(st, offers[e].status))
            && (PostMatch(st) ==> forall o :: o in OffersOf(offers, pid) - EngagedOf(offers, pid) ==>
                LostOrWithdrawn(offers[o].status))
  {
    ReachableInv(s, now);
    var st, offers := s.proposals.rows[pid].status, s.offers.rows;
    forall o | o in OffersOf(offers, pid) ensures Compatible(st, offers[o].status) {
      assert OfferAt(s.proposals.rows, offers, o, now);
    }
    assert HasItsOffers(s.proposals.rows, offers, pid);
    if st.Offered? {
      var o :| OfferOf(offers, pid, o);
      assert o in OffersOf(offers, pid);
    }
    if PostMatch(st) {
      var e := ExecutionPair(s, now, pid);
      assert e in offers && EngagedOf(offers, pid) == {e};
    }
  }

  /** No committed state has both sides confirmed without the completion they add up to. */
  lemma NoHalfCompletedPair(s: State, now: Time, oid: Id)
    requires Reachable(s, now) && oid in s.offers.rows && s.offers.rows[oid].status.RunnerCompleted?
    ensures s.offers.rows[oid].proposal in s.proposals.rows
    ensures !s.proposals.rows[s.offers.rows[oid].proposal].status.OrderCompleted?
  {
    ReachableInv(s, now);
    assert OfferAt(s.proposals.rows, s.offers.rows, oid, now);
  }

  // ---------------------------------------------------------------- the blocking sets

  ghost function BlockingOf(offers: Offers, pid: Id): set<Id> {
    set o | o in offers && offers[o].proposal == pid && BlockingOfferStatus(offers[o].status)
  }

  /** A proposal blocks its orderer exactly when one of its offers blocks that offer's runner. */
  lemma BlockingSetsAgree(s: State, now: Time, pid: Id)
    requires Reachable(s, now) && pid in s.proposals.rows
    ensures BlockingProposalStatus(s.proposals.rows[pid].status) <==> |BlockingOf(s.offers.rows, pid)| == 1
    ensures !BlockingProposalStatus(s.proposals.rows[pid].status) <==> BlockingOf(s.offers.rows, pid) == {}
  {
    ReachableInv(s, now);
    var offers := s.offers.rows;
    forall o | o in BlockingOf(offers, pid) ensures BlockingProposalStatus(s.proposals.rows[pid].status) {
      assert OfferAt(s.proposals.rows, offers, o, now);
    }
    if BlockingProposalStatus(s.proposals.rows[pid].status) {
      var e := ExecutionPair(s, now, pid);
      forall o ensures o in BlockingOf(offers, pid) <==> o == e {
        assert o in BlockingOf(offers, pid) ==> o in EngagedOf(offers, pid);
      }
      assert BlockingOf(offers, pid) == {e};
    }
  }

  /** `u` is the orderer or the runner of the live execution (pid, oid). */
  predicate LiveParty(s: State, u: UserId, pid: Id, oid: Id) {
    && pid in s.proposals.rows && OfferOf(s.offers.rows, pid, oid)
    && BlockingProposalStatus(s.proposals.rows[pid].status) && BlockingOfferStatus(s.offers.rows[oid].status)
    && (u == s.proposals.rows[pid].orderer || u == s.offers.rows[oid].runner)
  }

  /** A live execution blocks both its parties, and nothing else blocks anyone. */
  lemma BlockedIffLiveParty(s: State, now: Time, u: UserId)
    requires Inv(s, now)
    ensures HasBlockingActivity(s, u) <==> exists pid, oid :: LiveParty(s, u, pid, oid)
  {
    var ps, os := s.proposals.rows, s.offers.rows;
    if HasBlockingActivity(s, u) {
      if p :| p in ps && ps[p].orderer == u && BlockingProposalStatus(ps[p].status) {
        var e := ExecutionPair(s, now, p);
        assert LiveParty(s, u, p, e);
      } else {
        var o :| o in os && os[o].runner == u && BlockingOfferStatus(os[o].status);
        assert OfferAt(ps, os, o, now);
        assert LiveParty(s, u, os[o].proposal, o);
      }
    }
  }

  // ---------------------------------------------------------------- entity guards

  lemma OthersRaiseNothing(s: State, r: Request, t: Ticks)
    requires !r.ReqWithdraw?
    ensures Step(s, r, t).result != Err(ValueError)
  {
  }

  /**
   * In any state at all, the only guard that can raise is the second cancellation of one offer by a withdrawal.
   */
  lemma GuardRaisesIff(s: State, r: Request, t: Ticks)
    ensures Step(s, r, t).result == Err(ValueError) <==>
            && r.ReqWithdraw? && Active(s.users, r.actor) && !HasBlockingActivity(s, r.actor)
            && exists o :: CancelledTwice(s, r.actor, o)
  {
    if !r.ReqWithdraw? {
      OthersRaiseNothing(s, r, t);
    }
  }

  /** A self-offer is what it takes, and there is none: the two auto-cancel loops touch disjoint offers. */
  lemma AutoCancelsDisjoint(s: State, now: Time, u: UserId, oid: Id)
    requires Inv(s, now)
    ensures !CancelledTwice(s, u, oid)
  {
    assert OfferAt(s.proposals.rows, s.offers.rows, oid, now);
  }

  lemma NoGuardRaises(s: State, now: Time, r: Request, t: Ticks)
    requires Reachable(s, now)
    ensures Step(s, r, t).result != Err(ValueError)
  {
    ReachableInv(s, now);
    GuardRaisesIff(s, r, t);
    if r.ReqWithdraw? {
      forall o ensures !CancelledTwice(s, r.actor, o) {
        AutoCancelsDisjoint(s, now, r.actor, o);
      }
    }
  }

  predicate ChecksCode(r: Request) {
    r.ReqSignupConfirm? || r.ReqLoginConfirm?
  }

  predicate ConfirmsOrDisputes(r: Request) {
    RunnerRequest(r) || r.ReqConfirmReceived? || r.ReqProposalDispute?
  }

  lemma RefusedInExecution(s: State, r: Request, t: Ticks)
    requires ConfirmsOrDisputes(r) && Step(s, r, t).result.Err?
    ensures Step(s, r, t).state == s
  {
  }

  lemma RefusedOtherwise(s: State, r: Request, t: Ticks)
    requires !ConfirmsOrDisputes(r) && !ChecksCode(r) && Step(s, r, t).result.Err?
    ensures Step(s, r, t).state == s
  {
  }

  lemma RefusedWithCode(s: State, r: Request, t: Ticks)
    requires ChecksCode(r) && Step(s, r, t).result.Err?
    ensures Step(s, r, t).state == s.(verifications := Step(s, r, t).state.verifications)
  {
  }

  /** A refused request leaves the database as it was, except for the failed attempt a code check records. */
  lemma RefusalChangesNothing(s: State, r: Request, t: Ticks)
    requires Step(s, r, t).result.Err?
    ensures Step(s, r, t).state == s
        || (ChecksCode(r) && Step(s, r, t).state == s.(verifications := Step(s, r, t).state.verifications))
  {
    if ChecksCode(r) {
      RefusedWithCode(s, r, t);
    } else if ConfirmsOrDisputes(r) {
      RefusedInExecution(s, r, t);
    } else {
      RefusedOtherwise(s, r, t);
    }
  }

  // ---------------------------------------------------------------- progress after the match

  /** How many steps an execution can still take. */
  function Rank(p: ProposalStatus, o: OfferStatus): nat {
    match (p, o)
    case (Matched, Accepted) => 3
    case (Matched, RunnerCompleted) => 2
    case (OrderCompleted, Accepted) => 2
    case (Disputed, Disputed) => 1
    case _ => 0
  }

  ghost function RankOf(s: State, pid: Id, oid: Id): nat
    requires pid in s.proposals.rows && oid in s.offers.rows
  {
    Rank(s.proposals.rows[pid].status, s.offers.rows[oid].status)
  }

  /** The five commands on an execution, aimed at this pair. */
  predicate AimsAt(r: Request, pid: Id, oid: Id) {
    || (r.ReqConfirmReceived? && r.proposal == pid)
    || (r.ReqProposalDispute? && r.proposal == pid)
    || (r.ReqCompleteDelivery? && r.offer == oid)
    || (r.ReqOfferDispute? && r.offer == oid)
    || (r.ReqOfferResolve? && r.offer == oid)
  }

  ghost predicate SamePairStatuses(s: State, s': State, pid: Id, oid: Id) {
    && pid in s.proposals.rows && pid in s'.proposals.rows && oid in s.offers.rows && oid in s'.offers.rows
    && s'.proposals.rows[pid].status == s.proposals.rows[pid].status
    && s'.offers.rows[oid].status == s.offers.rows[oid].status
  }

  /** Along the arrows, with the pair compatible before and after, every change of statuses lowers the rank. */
  lemma ArrowsLowerRank(p: ProposalStatus, o: OfferStatus, p': ProposalStatus, o': OfferStatus)
    requires Compatible(p, o) && Compatible(p', o') && Engaged(o)
    requires p' == p || ProposalArrow(p, p')
    requires o' == o || OfferArrow(o, o')
    ensures Engaged(o')
    ensures (p' == p && o' == o) || Rank(p', o') < Rank(p, o)
  {
  }

  /** A pair, once engaged, stays engaged; whatever changes its statuses lowers its rank. */
  lemma StepLowersRank(s: State, now: Time, r: Request, t: Ticks, pid: Id, oid: Id)
    requires Inv(s, now) && t.Ordered() && now <= t.t0 && Feasible(s, r)
    requires EngagedIn(s.offers.rows, pid, oid) && pid in s.proposals.rows
    ensures var s' := Step(s, r, t).state;
            && EngagedIn(s'.offers.rows, pid, oid) && pid in s'.proposals.rows
            && (SamePairStatuses(s, s', pid, oid) || RankOf(s', pid, oid) < RankOf(s, pid, oid))
  {
    StepKeeps(s, now, r, t);
    StepMoves(s, now, r, t, pid, oid, 0);
    var s' := Step(s, r, t).state;
    assert OfferAt(s.proposals.rows, s.offers.rows, oid, now);
    assert OfferAt(s'.proposals.rows, s'.offers.rows, oid, t.t3);
    ArrowsLowerRank(s.proposals.rows[pid].status, s.offers.rows[oid].status, s'.proposals.rows[pid].status,
                    s'.offers.rows[oid].status);
  }

  lemma OrdererCommandMoves(s: State, now: Time, r: Request, t: Ticks, pid: Id, oid: Id)
    requires Inv(s, now)
    requires EngagedIn(s.offers.rows, pid, oid) && pid in s.proposals.rows
    requires (r.ReqConfirmReceived? || r.ReqProposalDispute?) && r.proposal == pid && Step(s, r, t).result.Ok?
    ensures pid in Step(s, r, t).state.proposals.rows
    ensures Step(s, r, t).state.proposals.rows[pid].status != s.proposals.rows[pid].status
  {
  }

  lemma RunnerCommandMoves(s: State, r: Request, t: Ticks, oid: Id)
    requires oid in s.offers.rows
    requires (r.ReqCompleteDelivery? || r.ReqOfferDispute? || r.ReqOfferResolve?) && r.offer == oid
        && Step(s, r, t).result.Ok?
    ensures oid in Step(s, r, t).state.offers.rows
    ensures Step(s, r, t).state.offers.rows[oid].status != s.offers.rows[oid].status
  {
  }

  /** A command on the pair that succeeds does change its statuses. */
  lemma SuccessLowersRank(s: State, now: Time, r: Request, t: Ticks, pid: Id, oid: Id)
    requires Inv(s, now) && t.Ordered() && now <= t.t0
    requires EngagedIn(s.offers.rows, pid, oid) && pid in s.proposals.rows
    requires AimsAt(r, pid, oid) && Step(s, r, t).result.Ok?
    ensures var s' := Step(s, r, t).state;
            && EngagedIn(s'.offers.rows, pid, oid) && pid in s'.proposals.rows
            && RankOf(s', pid, oid) < RankOf(s, pid, oid)
  {
    StepLowersRank(s, now, r, t, pid, oid);
    if r.ReqConfirmReceived? || r.ReqProposalDispute? {
      OrdererCommandMoves(s, now, r, t, pid, oid);
    } else {
      RunnerCommandMoves(s, r, t, oid);
    }
  }

  /** How many of the run's events are successful commands on the pair. */
  ghost function Successes(s: State, run: seq<Event>, pid: Id, oid: Id): nat {
    if run == [] then 0
    else
      var before, last := run[..|run| - 1], run[|run| - 1];
      Successes(s, before, pid, oid)
      + (if AimsAt(last.request, pid, oid) && Step(Exec(s, before), last.request, last.at).result.Ok? then 1 else 0)
  }

  lemma {:induction false} RunLowersRank(s: State, now: Time, run: seq<Event>, pid: Id, oid: Id)
    requires Inv(s, now) && Legal(s, now, run)
    requires EngagedIn(s.offers.rows, pid, oid) && pid in s.proposals.rows
    ensures var s' := Exec(s, run);
            && EngagedIn(s'.offers.rows, pid, oid) && pid in s'.proposals.rows
            && Successes(s, run, pid, oid) + RankOf(s', pid, oid) <= RankOf(s, pid, oid)
            && (SamePairStatuses(s, s', pid, oid) || RankOf(s', pid, oid) < RankOf(s, pid, oid))
  {
    if run != [] {
      var before, last := run[..|run| - 1], run[|run| - 1];
      RunLowersRank(s, now, before, pid, oid);
      RunKeeps(s, now, before);
      var mid := Exec(s, before);
      StepLowersRank(mid, ClockAfter(now, before), last.request, last.at, pid, oid);
      if AimsAt(last.request, pid, oid) && Step(mid, last.request, last.at).result.Ok? {
        SuccessLowersRank(mid, ClockAfter(now, before), last.request, last.at, pid, oid);
      }
    }
  }

  /** After an acceptance at most three commands on the pair succeed, in any continuation at all. */
  lemma AtMostThreeSteps(s: State, now: Time, run: seq<Event>, pid: Id, oid: Id)
    requires Reachable(s, now) && Legal(s, now, run)
    requires EngagedIn(s.offers.rows, pid, oid)
    ensures Successes(s, run, pid, oid) <= 3
  {
    ReachableInv(s, now);
    assert OfferAt(s.proposals.rows, s.offers.rows, oid, now);
    RunLowersRank(s, now, run, pid, oid);
  }

  /** Completed and resolved executions stay as they are. */
  lemma TerminalForever(s: State, now: Time, run: seq<Event>, pid: Id, oid: Id)
    requires Reachable(s, now) && Legal(s, now, run)
    requires EngagedIn(s.offers.rows, pid, oid)
        && (s.offers.rows[oid].status.AllCompleted? || s.offers.rows[oid].status.Resolved?)
    ensures SamePairStatuses(s, Exec(s, run), pid, oid) && Successes(s, run, pid, oid) == 0
  {
    ReachableInv(s, now);
    assert OfferAt(s.proposals.rows, s.offers.rows, oid, now);
    RunLowersRank(s, now, run, pid, oid);
  }
}

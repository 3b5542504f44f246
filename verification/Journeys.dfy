/**
 * What can still happen, by requests the program accepts: from every reachable state two members can take an errand
 * along every way it can end, and every member can leave.
 */
module Journeys {
  import opened Rows
  import opened MarketSpec
  import opened AccountSpec
  import opened Runs
  import opened Invariants
  import opened Lifecycle
  import opened Execution
  import opened Notices
  import opened Members
  import opened Fields
  import opened Bidding

  function At(now: Time): Ticks {
    Ticks(now, now, now, now)
  }

  /** A request of a member or an admin that passes the field checks takes `s` to `s'`. */
  ghost predicate Serves(s: State, now: Time, r: Request, s': State) {
    !r.ReqWorker? && PassesFields(r) && s' == Step(s, r, At(now)).state
  }

  ghost predicate Hop(s: State, now: Time, s': State) {
    exists r :: Serves(s, now, r, s')
  }

  ghost predicate HopAt(w: seq<State>, now: Time, i: nat) {
    i + 1 < |w| ==> Hop(w[i], now, w[i + 1])
  }

  ghost predicate Walk(w: seq<State>, now: Time) {
    forall i :: HopAt(w, now, i)
  }

  /** `n` such requests, at one reading of the clock, lead from `s` to `s'`. */
  ghost predicate Walks(s: State, now: Time, n: nat, s': State) {
    exists w :: Walk(w, now) && |w| == n + 1 && w[0] == s && w[n] == s'
  }

  ghost predicate Next(s: State, now: Time, s': State) {
    Walks(s, now, 1, s') && Reachable(s', now)
  }

  lemma OneRequest(s: State, now: Time, r: Request)
    requires Reachable(s, now) && !r.ReqWorker? && PassesFields(r)
    ensures Next(s, now, Step(s, r, At(now)).state)
  {
    var w := [s, Step(s, r, At(now)).state];
    assert Serves(s, now, r, w[1]);
    assert Walk(w, now) && |w| == 2;
    StaysReachable(s, now, r, At(now));
  }

  lemma NoRequest(s: State, now: Time)
    ensures Walks(s, now, 0, s)
  {
    assert Walk([s], now);
  }

  lemma WalksOn(s: State, now: Time, n: nat, mid: State, m: nat, s': State)
    requires Walks(s, now, n, mid) && Walks(mid, now, m, s')
    ensures Walks(s, now, n + m, s')
  {
    var v :| Walk(v, now) && |v| == n + 1 && v[0] == s && v[n] == mid;
    var w :| Walk(w, now) && |w| == m + 1 && w[0] == mid && w[m] == s';
    var whole := v + w[1..];
    forall i: nat ensures HopAt(whole, now, i) {
      assert HopAt(v, now, i);
      if i >= n {
        assert HopAt(w, now, i - n);
      }
    }
    assert Walk(whole, now) && |whole| == n + m + 1 && whole[n + m] == s';
  }

  lemma Longer(s: State, now: Time, n: nat, mid: State, s': State)
    requires Walks(s, now, n, mid) && Next(mid, now, s')
    ensures Walks(s, now, n + 1, s')
  {
    WalksOn(s, now, n, mid, 1, s');
  }

  lemma {:induction false} WalkLeads(w: seq<State>, now: Time, i: nat)
    requires Walk(w, now) && i < |w|
    ensures Leads(w[0], now, i, w[i], now)
  {
    if i == 0 {
      LeadsNowhere(w[0], now);
    } else {
      WalkLeads(w, now, i - 1);
      assert HopAt(w, now, i - 1);
      var r :| Serves(w[i - 1], now, r, w[i]);
      LeadsOn(w[0], now, i - 1, w[i - 1], now, r, At(now));
    }
  }

  /** Such a walk is a legal run. */
  lemma WalksLead(s: State, now: Time, n: nat, s': State)
    requires Walks(s, now, n, s')
    ensures Leads(s, now, n, s', now)
    ensures Reachable(s, now) ==> Reachable(s', now)
  {
    var w :| Walk(w, now) && |w| == n + 1 && w[0] == s && w[n] == s';
    WalkLeads(w, now, n);
    if Reachable(s, now) {
      ReachesOn(s, now, n, s', now);
    }
  }

  function SmallErrand(now: Time): (d: Draft)
    ensures ValidDraft(d) && DraftError(d, now).None?
  {
    var word := "Errand";
    assert !IsSpace(word[0]);
    Draft(word, word, now + 1, 1000)
  }

  // ---------------------------------------------------------------- the stages of an errand

  ghost predicate PostedBy(s: State, pid: Id, u: UserId) {
    && pid in s.proposals.rows && s.proposals.rows[pid].status.Posted? && s.proposals.rows[pid].orderer == u
    && OffersOf(s.offers.rows, pid) == {}
  }

  ghost predicate PairIs(s: State, pid: Id, oid: Id, u: UserId, v: UserId, p: ProposalStatus, o: OfferStatus) {
    && pid in s.proposals.rows && s.proposals.rows[pid].status == p && s.proposals.rows[pid].orderer == u
    && oid in s.offers.rows && s.offers.rows[oid].proposal == pid
    && s.offers.rows[oid].status == o && s.offers.rows[oid].runner == v
  }

  lemma Creates(s: State, now: Time, u: UserId) returns (s': State)
    requires Reachable(s, now) && Active(s.users, u)
    ensures Next(s, now, s')
    ensures s' == s.(proposals := s.proposals.Insert(NewProposal(u, SmallErrand(now), now)))
  {
    OneRequest(s, now, ReqProposalCreate(u, SmallErrand(now)));
    s' := Step(s, ReqProposalCreate(u, SmallErrand(now)), At(now)).state;
  }

  lemma Pays(s: State, now: Time, pid: Id) returns (s': State)
    requires Reachable(s, now) && pid in s.proposals.rows && s.proposals.rows[pid].status.Holding?
    ensures Next(s, now, s')
    ensures PostedBy(s', pid, s.proposals.rows[pid].orderer)
    ensures s' == s.(proposals := s.proposals.Put(pid, s.proposals.rows[pid].(status := Posted)))
  {
    OneRequest(s, now, ReqConfirmPayment(pid));
    s' := Step(s, ReqConfirmPayment(pid), At(now)).state;
    ReachableInv(s, now);
    forall o | o in s.offers.rows ensures s.offers.rows[o].proposal != pid {
      assert OfferAt(s.proposals.rows, s.offers.rows, o, now);
    }
  }

  lemma Edits(s: State, now: Time, pid: Id, u: UserId) returns (s': State)
    requires Reachable(s, now) && PostedBy(s, pid, u) && Active(s.users, u)
    ensures Next(s, now, s')
    ensures pid in s'.proposals.rows && s'.proposals.rows[pid].status.Holding?
  {
    OneRequest(s, now, ReqProposalUpdate(u, pid, SmallErrand(now)));
    s' := Step(s, ReqProposalUpdate(u, pid, SmallErrand(now)), At(now)).state;
  }

  lemma Bids(s: State, now: Time, pid: Id, u: UserId, v: UserId) returns (s': State)
    requires Reachable(s, now) && PostedBy(s, pid, u) && Active(s.users, v) && u != v
    ensures Next(s, now, s')
    ensures PairIs(s', pid, s.offers.next, u, v, Offered, Waiting) && s'.users == s.users
    ensures OffersOf(s'.offers.rows, pid) == {s.offers.next}
    ensures !HasBlockingActivity(s, u) ==> !HasBlockingActivity(s', u)
  {
    OneRequest(s, now, ReqOfferCreate(v, pid));
    s' := Step(s, ReqOfferCreate(v, pid), At(now)).state;
    forall o | o in s.offers.rows ensures s.offers.rows[o].proposal != pid {
      assert o !in OffersOf(s.offers.rows, pid);
    }
  }

  /** Another runner makes an offer beside the first. */
  lemma BidsToo(s: State, now: Time, pid: Id, oid: Id, u: UserId, v: UserId, w: UserId) returns (s': State, k: Id)
    requires Reachable(s, now) && PairIs(s, pid, oid, u, v, Offered, Waiting) && OffersOf(s.offers.rows, pid) == {oid}
    requires Active(s.users, w) && u != w && v != w
    ensures Next(s, now, s') && s'.users == s.users && k != oid
    ensures PairIs(s', pid, oid, u, v, Offered, Waiting) && PairIs(s', pid, k, u, w, Offered, Waiting)
  {
    OneRequest(s, now, ReqOfferCreate(w, pid));
    s' := Step(s, ReqOfferCreate(w, pid), At(now)).state;
    forall o ensures !OfferBy(s.offers.rows, pid, w, o) {
      assert o in OffersOf(s.offers.rows, pid) <==> OfferOf(s.offers.rows, pid, o);
    }
    BidsIff(s, w, pid, At(now));
    BidAdds(s, now, w, pid, At(now));
    k := Step(s, ReqOfferCreate(w, pid), At(now)).result.value.id;
  }

  /** The orderer takes one of two offers, and the other is turned down. */
  lemma Chooses(s: State, now: Time, pid: Id, oid: Id, k: Id, u: UserId, v: UserId, w: UserId) returns (s': State)
    requires Reachable(s, now) && Active(s.users, u) && oid != k
    requires PairIs(s, pid, oid, u, v, Offered, Waiting) && PairIs(s, pid, k, u, w, Offered, Waiting)
    ensures Next(s, now, s')
    ensures PairIs(s', pid, oid, u, v, Matched, OfferStatus.Accepted)
    ensures PairIs(s', pid, k, u, w, Matched, OfferStatus.Rejected)
  {
    OneRequest(s, now, ReqOfferAccept(u, oid));
    s' := Step(s, ReqOfferAccept(u, oid), At(now)).state;
    AcceptsIff(s, now, u, oid, At(now));
    AcceptanceChanges(s, now, u, oid, At(now));
    assert AcceptedOrTurnedDown(s.offers.rows, s'.offers.rows, oid, At(now), oid);
    assert AcceptedOrTurnedDown(s.offers.rows, s'.offers.rows, oid, At(now), k);
  }

  lemma Accepts(s: State, now: Time, pid: Id, oid: Id, u: UserId, v: UserId) returns (s': State)
    requires Reachable(s, now) && PairIs(s, pid, oid, u, v, Offered, Waiting) && Active(s.users, u)
    ensures Next(s, now, s')
    ensures PairIs(s', pid, oid, u, v, Matched, OfferStatus.Accepted) && s'.users == s.users
  {
    OneRequest(s, now, ReqOfferAccept(u, oid));
    s' := Step(s, ReqOfferAccept(u, oid), At(now)).state;
    NoActiveRivalWhileOffered(s, now, pid, oid);
  }

  lemma Receives(s: State, now: Time, pid: Id, oid: Id, u: UserId, v: UserId) returns (s': State)
    requires Reachable(s, now) && PairIs(s, pid, oid, u, v, Matched, OfferStatus.Accepted) && Active(s.users, u)
    ensures Next(s, now, s')
    ensures PairIs(s', pid, oid, u, v, OrderCompleted, OfferStatus.Accepted) && s'.users == s.users
    ensures AlarmOn(s.users, u) ==> Told(s.notifications, s'.notifications, u, oid)
  {
    OneRequest(s, now, ReqConfirmReceived(u, pid));
    s' := Step(s, ReqConfirmReceived(u, pid), At(now)).state;
    ReachableInv(s, now);
    ExecutionOfferIs(s, now, pid, oid);
    assert OfferAt(s.proposals.rows, s.offers.rows, oid, now);
    OrdererConfirms(s, now, pid, oid, At(now));
    ToldIff(s.users, s.notifications, s'.notifications, oid, At(now), u, v, u);
  }

  lemma Delivers(s: State, now: Time, pid: Id, oid: Id, u: UserId, v: UserId) returns (s': State)
    requires Reachable(s, now) && PairIs(s, pid, oid, u, v, OrderCompleted, OfferStatus.Accepted) && Active(s.users, v)
    ensures Next(s, now, s')
    ensures PairIs(s', pid, oid, u, v, ProposalStatus.AllCompleted, OfferStatus.AllCompleted)
    ensures s'.users == BumpLevel(s.users, v)
  {
    OneRequest(s, now, ReqCompleteDelivery(v, oid));
    s' := Step(s, ReqCompleteDelivery(v, oid), At(now)).state;
  }

  lemma Disputes(s: State, now: Time, pid: Id, oid: Id, u: UserId, v: UserId) returns (s': State)
    requires Reachable(s, now) && PairIs(s, pid, oid, u, v, Matched, OfferStatus.Accepted) && Active(s.users, v)
    ensures Next(s, now, s')
    ensures PairIs(s', pid, oid, u, v, ProposalStatus.Disputed, OfferStatus.Disputed)
  {
    OneRequest(s, now, ReqOfferDispute(v, oid, 1, true, ""));
    s' := Step(s, ReqOfferDispute(v, oid, 1, true, ""), At(now)).state;
  }

  lemma Resolves(s: State, now: Time, pid: Id, oid: Id, u: UserId, v: UserId) returns (s': State)
    requires Reachable(s, now) && PairIs(s, pid, oid, u, v, ProposalStatus.Disputed, OfferStatus.Disputed)
    ensures Next(s, now, s')
    ensures PairIs(s', pid, oid, u, v, ProposalStatus.Resolved, OfferStatus.Resolved)
  {
    OneRequest(s, now, ReqOfferResolve(oid));
    s' := Step(s, ReqOfferResolve(oid), At(now)).state;
  }

  lemma Reports(s: State, now: Time, pid: Id, u: UserId, v: UserId) returns (s': State)
    requires Reachable(s, now) && PostedBy(s, pid, u) && Active(s.users, v) && u != v
    requires forall r :: r in s.reports.rows ==> s.reports.rows[r].proposal != pid
    ensures Next(s, now, s')
    ensures s' == s.(reports := s.reports.Insert(ReportRow(pid, v, 1, ReportStatus.Pending, now, None)))
  {
    OneRequest(s, now, ReqReportCreate(v, pid, 1, true));
    s' := Step(s, ReqReportCreate(v, pid, 1, true), At(now)).state;
  }

  lemma TakesDown(s: State, now: Time, pid: Id, rid: Id, u: UserId) returns (s': State)
    requires Reachable(s, now) && PostedBy(s, pid, u)
    requires rid in s.reports.rows && s.reports.rows[rid].proposal == pid && s.reports.rows[rid].status.Pending?
    ensures Next(s, now, s')
    ensures pid in s'.proposals.rows && s'.proposals.rows[pid].status.Reported? && s'.proposals.rows[pid].orderer == u
    ensures s'.users == s.users && (!HasBlockingActivity(s, u) ==> !HasBlockingActivity(s', u))
  {
    OneRequest(s, now, ReqReportAccept(rid));
    s' := Step(s, ReqReportAccept(rid), At(now)).state;
  }

  lemma Leaves(s: State, now: Time, u: UserId) returns (s': State)
    requires Reachable(s, now) && Active(s.users, u) && !HasBlockingActivity(s, u)
    ensures Next(s, now, s')
    ensures s' == Withdraw(s, u, At(now)).state && Withdraw(s, u, At(now)).result.Ok?
  {
    OneRequest(s, now, ReqWithdraw(u));
    s' := Step(s, ReqWithdraw(u), At(now)).state;
    ReachableInv(s, now);
    forall o ensures !CancelledTwice(s, u, o) {
      AutoCancelsDisjoint(s, now, u, o);
    }
  }

  // ---------------------------------------------------------------- nobody is locked in

  /** The offers of the live executions `u` is a party to: one for each. */
  ghost function LiveOffers(s: State, u: UserId): set<Id> {
    set o | o in s.offers.rows && LiveParty(s, u, s.offers.rows[o].proposal, o)
  }

  /** The pair of `oid` has the given statuses in `s'`, and no other row of the two tables differs from `s`. */
  ghost predicate OnlyPairMoves(s: State, s': State, oid: Id, p: ProposalStatus, o: OfferStatus) {
    && oid in s.offers.rows && oid in s'.offers.rows && s'.users == s.users
    && var pid := s.offers.rows[oid].proposal;
    && pid in s.proposals.rows && pid in s'.proposals.rows
    && s'.proposals == s.proposals.Put(pid, s'.proposals.rows[pid])
    && s'.offers == s.offers.Put(oid, s'.offers.rows[oid])
    && PairIs(s', pid, oid, s.proposals.rows[pid].orderer, s.offers.rows[oid].runner, p, o)
  }

  lemma OrdererDisputes(s: State, now: Time, u: UserId, oid: Id) returns (s': State)
    requires Reachable(s, now) && Active(s.users, u) && oid in LiveOffers(s, u)
    requires !s.offers.rows[oid].status.Disputed? && s.proposals.rows[s.offers.rows[oid].proposal].orderer == u
    ensures Next(s, now, s') && OnlyPairMoves(s, s', oid, ProposalStatus.Disputed, OfferStatus.Disputed)
  {
    var pid := s.offers.rows[oid].proposal;
    OneRequest(s, now, ReqProposalDispute(u, pid, 1, true, ""));
    s' := Step(s, ReqProposalDispute(u, pid, 1, true, ""), At(now)).state;
    ReachableInv(s, now);
    assert OfferAt(s.proposals.rows, s.offers.rows, oid, now);
    ExecutionOfferIs(s, now, pid, oid);
  }

  lemma RunnerDisputes(s: State, now: Time, u: UserId, oid: Id) returns (s': State)
    requires Reachable(s, now) && Active(s.users, u) && oid in LiveOffers(s, u)
    requires !s.offers.rows[oid].status.Disputed? && s.offers.rows[oid].runner == u
    ensures Next(s, now, s') && OnlyPairMoves(s, s', oid, ProposalStatus.Disputed, OfferStatus.Disputed)
  {
    OneRequest(s, now, ReqOfferDispute(u, oid, 1, true, ""));
    s' := Step(s, ReqOfferDispute(u, oid, 1, true, ""), At(now)).state;
    ReachableInv(s, now);
    assert OfferAt(s.proposals.rows, s.offers.rows, oid, now);
  }

  lemma AdminResolves(s: State, now: Time, oid: Id) returns (s': State)
    requires Reachable(s, now) && oid in s.offers.rows && s.offers.rows[oid].status.Disputed?
    ensures Next(s, now, s') && OnlyPairMoves(s, s', oid, ProposalStatus.Resolved, OfferStatus.Resolved)
  {
    OneRequest(s, now, ReqOfferResolve(oid));
    s' := Step(s, ReqOfferResolve(oid), At(now)).state;
    ReachableInv(s, now);
    assert OfferAt(s.proposals.rows, s.offers.rows, oid, now);
  }

  /** A dispute leaves the execution live; its resolution ends it, and no other. */
  lemma MovedPairs(s: State, now: Time, s': State, u: UserId, oid: Id, p: ProposalStatus, o: OfferStatus)
    requires Reachable(s, now) && oid in LiveOffers(s, u) && OnlyPairMoves(s, s', oid, p, o)
    requires (p.Disputed? && o.Disputed?) || (p.Resolved? && o.Resolved?)
    ensures LiveOffers(s', u) == if p.Disputed? then LiveOffers(s, u) else LiveOffers(s, u) - {oid}
  {
    ReachableInv(s, now);
    var pid := s.offers.rows[oid].proposal;
    forall x | x in s.offers.rows && x != oid
      ensures LiveParty(s', u, s.offers.rows[x].proposal, x) <==> LiveParty(s, u, s.offers.rows[x].proposal, x)
    {
      assert OneEngaged(s.offers.rows, pid, x, oid);
    }
  }

  /** A party to a live execution can end it in two requests, or in one if it is in dispute already. */
  lemma CanEnd(s: State, now: Time, u: UserId, oid: Id) returns (n: nat, s': State)
    requires Reachable(s, now) && Active(s.users, u) && oid in LiveOffers(s, u)
    ensures n <= 2 && Walks(s, now, n, s') && Reachable(s', now)
    ensures s'.users == s.users && s'.proposals.next == s.proposals.next && s'.offers.next == s.offers.next
    ensures LiveOffers(s', u) == LiveOffers(s, u) - {oid}
  {
    var mid := s;
    n := 0;
    NoRequest(s, now);
    if !s.offers.rows[oid].status.Disputed? {
      if s.offers.rows[oid].runner == u {
        mid := RunnerDisputes(s, now, u, oid);
      } else {
        mid := OrdererDisputes(s, now, u, oid);
      }
      n := 1;
      MovedPairs(s, now, mid, u, oid, ProposalStatus.Disputed, OfferStatus.Disputed);
    }
    s' := AdminResolves(mid, now, oid);
    MovedPairs(mid, now, s', u, oid, ProposalStatus.Resolved, OfferStatus.Resolved);
    Longer(s, now, n, mid, s');
    n := n + 1;
  }

  /** One after the other, all of them. */
  lemma {:induction false} CanBeFree(s: State, now: Time, u: UserId) returns (n: nat, s': State)
    requires Reachable(s, now) && Active(s.users, u)
    ensures n <= 2 * |LiveOffers(s, u)| && Walks(s, now, n, s') && Reachable(s', now)
    ensures s'.users == s.users && s'.proposals.next == s.proposals.next && s'.offers.next == s.offers.next
    ensures !HasBlockingActivity(s', u)
    decreases LiveOffers(s, u)
  {
    if oid :| oid in LiveOffers(s, u) {
      var k, mid := CanEnd(s, now, u, oid);
      n, s' := CanBeFree(mid, now, u);
      WalksOn(s, now, k, mid, n, s');
      n := k + n;
    } else {
      n, s' := 0, s;
      NoRequest(s, now);
      ReachableInv(s, now);
      BlockedIffLiveParty(s, now, u);
      forall pid, oid ensures !LiveParty(s, u, pid, oid) {
        assert oid !in LiveOffers(s, u);
      }
    }
  }

  /**
   * Whatever is live, every member can leave: with two requests at most for each live execution, and one more.
   */
  lemma EveryoneCanLeave(s: State, now: Time, u: UserId) returns (n: nat, mid: State, s': State)
    requires Reachable(s, now) && Active(s.users, u)
    ensures n <= 2 * |LiveOffers(s, u)| && Walks(s, now, n, mid)
    ensures Next(mid, now, s') && s' == Withdraw(mid, u, At(now)).state && Withdraw(mid, u, At(now)).result.Ok?
    ensures u in s'.users && s'.users[u].deleted
  {
    n, mid := CanBeFree(s, now, u);
    s' := Leaves(mid, now, u);
  }

  // ---------------------------------------------------------------- whole journeys

  /** Two requests post a new errand. */
  lemma CanPost(s: State, now: Time, u: UserId) returns (s': State)
    requires Reachable(s, now) && Active(s.users, u)
    ensures Walks(s, now, 2, s') && Reachable(s', now)
    ensures PostedBy(s', s.proposals.next, u)
    ensures s' == s.(proposals := s'.proposals) && (!HasBlockingActivity(s, u) ==> !HasBlockingActivity(s', u))
    ensures forall r :: r in s'.reports.rows ==> s'.reports.rows[r].proposal != s.proposals.next
  {
    var held := Creates(s, now, u);
    s' := Pays(held, now, s.proposals.next);
    Longer(s, now, 1, held, s');
    ReachableInv(s, now);
    forall r | r in s.reports.rows ensures s.reports.rows[r].proposal != s.proposals.next {
      assert ReportAt(s.proposals.rows, s.reports.rows, r);
    }
  }

  /** Four match `u` and `v` on it. */
  lemma CanMatch(s: State, now: Time, u: UserId, v: UserId) returns (s': State)
    requires Reachable(s, now) && Active(s.users, u) && Active(s.users, v) && u != v
    ensures Walks(s, now, 4, s') && Reachable(s', now)
    ensures PairIs(s', s.proposals.next, s.offers.next, u, v, Matched, OfferStatus.Accepted) && s'.users == s.users
  {
    var posted := CanPost(s, now, u);
    var offered := Bids(posted, now, s.proposals.next, u, v);
    s' := Accepts(offered, now, s.proposals.next, s.offers.next, u, v);
    Longer(s, now, 2, posted, offered);
    Longer(s, now, 3, offered, s');
  }

  /**
   * Whatever the database holds, any two members can post, take, deliver and complete a new errand, and the runner is
   * one level up.
   */
  lemma ErrandCanComplete(s: State, now: Time, u: UserId, v: UserId)
    requires Reachable(s, now) && Active(s.users, u) && Active(s.users, v) && u != v
    ensures exists s' :: Walks(s, now, 6, s') && s'.users == BumpLevel(s.users, v)
              && PairIs(s', s.proposals.next, s.offers.next, u, v, ProposalStatus.AllCompleted,
                        OfferStatus.AllCompleted)
  {
    var matched := CanMatch(s, now, u, v);
    var half := Receives(matched, now, s.proposals.next, s.offers.next, u, v);
    var done := Delivers(half, now, s.proposals.next, s.offers.next, u, v);
    Longer(s, now, 4, matched, half);
    Longer(s, now, 5, half, done);
  }

  /** Any two others can compete for an errand: one gets it, and the other is turned down. */
  lemma OffersCompete(s: State, now: Time, u: UserId, v: UserId, w: UserId) returns (mid: State, k: Id, s': State)
    requires Reachable(s, now) && Active(s.users, u) && Active(s.users, v) && Active(s.users, w)
    requires u != v && u != w && v != w
    ensures Walks(s, now, 4, mid) && Next(mid, now, s') && k != s.offers.next
    ensures PairIs(mid, s.proposals.next, s.offers.next, u, v, Offered, Waiting)
    ensures PairIs(mid, s.proposals.next, k, u, w, Offered, Waiting)
    ensures PairIs(s', s.proposals.next, s.offers.next, u, v, Matched, OfferStatus.Accepted)
    ensures PairIs(s', s.proposals.next, k, u, w, Matched, OfferStatus.Rejected)
  {
    var posted := CanPost(s, now, u);
    var first := Bids(posted, now, s.proposals.next, u, v);
    mid, k := BidsToo(first, now, s.proposals.next, s.offers.next, u, v, w);
    s' := Chooses(mid, now, s.proposals.next, s.offers.next, k, u, v, w);
    Longer(s, now, 2, posted, first);
    Longer(s, now, 3, first, mid);
  }

  /** They can just as well fall out over it: it ends resolved, and then no execution offer is found for it. */
  lemma DisputeCanEnd(s: State, now: Time, u: UserId, v: UserId)
    requires Reachable(s, now) && Active(s.users, u) && Active(s.users, v) && u != v
    ensures exists mid, s' :: Walks(s, now, 5, mid) && Walks(s, now, 6, s')
              && PairIs(mid, s.proposals.next, s.offers.next, u, v, ProposalStatus.Disputed, OfferStatus.Disputed)
              && PairIs(s', s.proposals.next, s.offers.next, u, v, ProposalStatus.Resolved, OfferStatus.Resolved)
              && ExecutionOffer(s'.offers, s.proposals.next) == None
  {
    var matched := CanMatch(s, now, u, v);
    var mid := Disputes(matched, now, s.proposals.next, s.offers.next, u, v);
    var end := Resolves(mid, now, s.proposals.next, s.offers.next, u, v);
    Longer(s, now, 4, matched, mid);
    Longer(s, now, 5, mid, end);
    ExecutionLookup(end, now, s.proposals.next);
  }

  /** A posted proposal can go back to HOLDING, against the documented diagram. */
  lemma EditTakesBack(s: State, now: Time, u: UserId)
    requires Reachable(s, now) && Active(s.users, u)
    ensures exists mid, s' :: Walks(s, now, 2, mid) && Next(mid, now, s') && PostedBy(mid, s.proposals.next, u)
              && s.proposals.next in s'.proposals.rows && s'.proposals.rows[s.proposals.next].status.Holding?
  {
    var mid := CanPost(s, now, u);
    var s' := Edits(mid, now, s.proposals.next, u);
    assert Walks(s, now, 2, mid) && Next(mid, now, s');
  }

  /** A waiting offer can be cancelled by the orderer's withdrawal, against the documented diagram. */
  lemma WithdrawalTakesOfferAlong(s: State, now: Time, u: UserId, v: UserId) returns (n: nat, mid: State, s': State)
    requires Reachable(s, now) && Active(s.users, u) && Active(s.users, v) && u != v
    ensures n <= 2 * |LiveOffers(s, u)| && Walks(s, now, n + 3, mid)
    ensures Next(mid, now, s') && s' == Withdraw(mid, u, At(now)).state
    ensures PairIs(mid, s.proposals.next, s.offers.next, u, v, Offered, Waiting)
    ensures PairIs(s', s.proposals.next, s.offers.next, u, v, ProposalStatus.Cancelled, OfferStatus.Cancelled)
  {
    var free;
    n, free := CanBeFree(s, now, u);
    var posted := CanPost(free, now, u);
    mid := Bids(posted, now, s.proposals.next, u, v);
    s' := Leaves(mid, now, u);
    WalksOn(s, now, n, free, 2, posted);
    Longer(s, now, n + 2, posted, mid);
  }

  /** A reported proposal does not keep its orderer from leaving. */
  lemma ReportedOrdererCanLeave(s: State, now: Time, u: UserId, v: UserId) returns (n: nat, mid: State, s': State)
    requires Reachable(s, now) && Active(s.users, u) && Active(s.users, v) && u != v
    ensures n <= 2 * |LiveOffers(s, u)| && Walks(s, now, n + 4, mid)
    ensures Next(mid, now, s') && s' == Withdraw(mid, u, At(now)).state
    ensures s.proposals.next in mid.proposals.rows && mid.proposals.rows[s.proposals.next].orderer == u
    ensures s.proposals.next in s'.proposals.rows && s'.proposals.rows[s.proposals.next].status.Reported?
    ensures u in s'.users && s'.users[u].deleted
  {
    var free;
    n, free := CanBeFree(s, now, u);
    var posted := CanPost(free, now, u);
    var reported := Reports(posted, now, s.proposals.next, u, v);
    mid := TakesDown(reported, now, s.proposals.next, posted.reports.next, u);
    s' := Leaves(mid, now, u);
    WalksOn(s, now, n, free, 2, posted);
    Longer(s, now, n + 2, posted, reported);
    Longer(s, now, n + 3, reported, mid);
  }

  lemma TurnsAlarmOn(s: State, now: Time, u: UserId) returns (s': State)
    requires Reachable(s, now) && Active(s.users, u)
    ensures Next(s, now, s')
    ensures s' == s.(users := s.users[u := s.users[u].(alarmEnabled := Some(true))])
  {
    OneRequest(s, now, ReqSetAlarm(u, true));
    s' := Step(s, ReqSetAlarm(u, true), At(now)).state;
  }

  /** And the completion notice can go out while the runner has confirmed nothing. */
  lemma PrematureNoticeHappens(s: State, now: Time, u: UserId, v: UserId)
    requires Reachable(s, now) && Active(s.users, u) && Active(s.users, v) && u != v
    ensures exists mid, s' :: Walks(s, now, 5, mid) && Next(mid, now, s')
              && PairIs(s', s.proposals.next, s.offers.next, u, v, OrderCompleted, OfferStatus.Accepted)
              && Told(mid.notifications, s'.notifications, u, s.offers.next)
  {
    var keen := TurnsAlarmOn(s, now, u);
    var mid := CanMatch(keen, now, u, v);
    var s' := Receives(mid, now, s.proposals.next, s.offers.next, u, v);
    WalksOn(s, now, 1, keen, 4, mid);
    assert Walks(s, now, 5, mid) && Next(mid, now, s');
  }

  // ---------------------------------------------------------------- joining

  lemma AsksForCode(s: State, now: Time, phone: Phone, name: string, h: int) returns (s': State)
    requires Reachable(s, now) && Enterable(phone) && Stripped(name, 100)
    requires !PhoneTaken(s.users, phone) && !HasActivePending(s.verifications.rows, Signup, phone, now)
    ensures Next(s, now, s')
    ensures s' == s.(verifications := s.verifications.Insert(NewVerification(Signup, phone, Some(name), h, now)))
  {
    OneRequest(s, now, ReqSignupSend(phone, name, h, true));
    s' := Step(s, ReqSignupSend(phone, name, h, true), At(now)).state;
  }

  ghost predicate NoOtherPending(s: State, s': State, now: Time, phone: Phone) {
    forall p :: p != phone && !HasActivePending(s.verifications.rows, Signup, p, now)
             ==> !HasActivePending(s'.verifications.rows, Signup, p, now)
  }

  lemma EntersCode(s: State, now: Time, phone: Phone, h: int, id: UserId, v: Id) returns (s': State)
    requires Reachable(s, now) && Enterable(phone) && !PhoneTaken(s.users, phone) && id !in s.users
    requires v in s.verifications.rows && ActivePending(s.verifications.rows[v], Signup, phone, now)
    requires s.verifications.rows[v].codeHash == h
    ensures Next(s, now, s')
    ensures s'.users == s.users[id := NewUser(s.verifications.rows[v].name, phone, now)]
    ensures s'.proposals == s.proposals && s'.offers == s.offers && NoOtherPending(s, s', now, phone)
  {
    OneRequest(s, now, ReqSignupConfirm(phone, h, id));
    s' := Step(s, ReqSignupConfirm(phone, h, id), At(now)).state;
    ReachableInv(s, now);
    ActiveIsNewest(s.verifications, now, Signup, phone, now, v);
  }

  /** Whoever has a name, and a phone that no row holds and no pending code blocks, can become a member. */
  lemma CanJoin(s: State, now: Time, phone: Phone, name: string, h: int, id: UserId) returns (s': State)
    requires Reachable(s, now) && Enterable(phone) && Stripped(name, 100) && id !in s.users
    requires !PhoneTaken(s.users, phone) && !HasActivePending(s.verifications.rows, Signup, phone, now)
    ensures Walks(s, now, 2, s') && Reachable(s', now)
    ensures s'.users == s.users[id := NewUser(Some(name), phone, now)]
    ensures s'.proposals == s.proposals && s'.offers == s.offers && NoOtherPending(s, s', now, phone)
  {
    var mid := AsksForCode(s, now, phone, name, h);
    assert NoOtherPending(s, mid, now, phone);
    s' := EntersCode(mid, now, phone, h, id, s.verifications.next);
    Longer(s, now, 1, mid, s');
  }

  lemma TwoCanJoin(now: Time, a: Phone, b: Phone, name: string) returns (s: State)
    requires Enterable(a) && Enterable(b) && a != b && Stripped(name, 100)
    ensures Walks(EmptyState, now, 4, s) && Reachable(s, now)
    ensures s.users == map[1 := NewUser(Some(name), a, now), 2 := NewUser(Some(name), b, now)]
    ensures s.proposals == EmptyState.proposals && s.offers == EmptyState.offers
  {
    EmptyReachable(now);
    var one := CanJoin(EmptyState, now, a, name, 0, 1);
    s := CanJoin(one, now, b, name, 0, 2);
    WalksOn(EmptyState, now, 2, one, 2, s);
  }

  /** From the empty database: two sign-ups. */
  lemma TwoMembers(now: Time) returns (s: State)
    ensures Walks(EmptyState, now, 4, s) && Reachable(s, now)
    ensures Active(s.users, 1) && Active(s.users, 2) && s.users[2].level == 0
    ensures s.proposals == EmptyState.proposals && s.offers == EmptyState.offers
  {
    s := TwoCanJoin(now, Phone("01012345678"), Phone("01087654321"), "Kim");
  }

  /** And one whole errand, ten requests in all. */
  lemma FirstErrand(now: Time)
    ensures exists s' :: Walks(EmptyState, now, 10, s') && Reachable(s', now)
              && PairIs(s', 1, 1, 1, 2, ProposalStatus.AllCompleted, OfferStatus.AllCompleted)
              && 2 in s'.users && s'.users[2].level == 1
  {
    var s := TwoMembers(now);
    ErrandCanComplete(s, now, 1, 2);
    var s' :| Walks(s, now, 6, s') && s'.users == BumpLevel(s.users, 2)
              && PairIs(s', 1, 1, 1, 2, ProposalStatus.AllCompleted, OfferStatus.AllCompleted);
    WalksOn(EmptyState, now, 4, s, 6, s');
    WalksLead(s, now, 6, s');
  }

  /** Both happen from the empty database: an offer cancelled by the orderer's withdrawal, */
  lemma OfferTakenAlong(now: Time)
    ensures exists s' :: Walks(EmptyState, now, 8, s')
              && PairIs(s', 1, 1, 1, 2, ProposalStatus.Cancelled, OfferStatus.Cancelled)
  {
    var s := TwoMembers(now);
    assert LiveOffers(s, 1) == {};
    var n, mid, s' := WithdrawalTakesOfferAlong(s, now, 1, 2);
    Longer(s, now, 3, mid, s');
    WalksOn(EmptyState, now, 4, s, 4, s');
  }

  /** and an orderer gone while her proposal is REPORTED. */
  lemma OrdererGoneReported(now: Time)
    ensures exists s' :: Walks(EmptyState, now, 9, s') && 1 in s'.users && s'.users[1].deleted
              && 1 in s'.proposals.rows && s'.proposals.rows[1].status.Reported?
  {
    var s := TwoMembers(now);
    assert LiveOffers(s, 1) == {};
    var n, mid, s' := ReportedOrdererCanLeave(s, now, 1, 2);
    Longer(s, now, 4, mid, s');
    WalksOn(EmptyState, now, 4, s, 5, s');
  }
}

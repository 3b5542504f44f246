/** The database as a service sees it within one request: rows in, rows out. */
module DatabaseAccess {
  import opened Rows
  import opened MarketSpec
  import opened Entities

  class Database {
    var users: map<UserId, UserRow>
    var proposals: Table<ProposalRow>
    var offers: Table<OfferRow>
    var reports: Table<ReportRow>
    var evidences: Table<EvidenceRow>
    var notifications: Table<NotificationRow>
    var verifications: Table<VerificationRow>
    var fcmTokens: map<UserId, string>
    var accounts: map<UserId, string>

    constructor ()
      ensures State() == EmptyState
    {
      users, proposals, offers := EmptyState.users, EmptyState.proposals, EmptyState.offers;
      reports, evidences, notifications := EmptyState.reports, EmptyState.evidences, EmptyState.notifications;
      verifications, fcmTokens, accounts := EmptyState.verifications, EmptyState.fcmTokens, EmptyState.accounts;
    }

    function State(): State
      reads this
    {
      Rows.State.State(users, proposals, offers, reports, evidences, notifications, verifications, fcmTokens, accounts)
    }

    method GetProposal(pid: Id) returns (p: Proposal?)
      ensures p == null <==> pid !in proposals.rows
      ensures p != null ==> fresh(p) && p.id == pid && p.Row() == proposals.rows[pid]
    {
      if pid in proposals.rows {
        p := new Proposal(pid, proposals.rows[pid]);
      } else {
        p := null;
      }
    }

    method GetOffer(oid: Id) returns (o: Offer?)
      ensures o == null <==> oid !in offers.rows
      ensures o != null ==> fresh(o) && o.id == oid && o.Row() == offers.rows[oid]
    {
      if oid in offers.rows {
        o := new Offer(oid, offers.rows[oid]);
      } else {
        o := null;
      }
    }

    /** A user who has not withdrawn. */
    method GetActiveUser(uid: UserId) returns (u: User?)
      ensures u == null <==> !Active(users, uid)
      ensures u != null ==> fresh(u) && u.id == uid && u.Row() == users[uid]
    {
      if Active(users, uid) {
        u := new User(uid, users[uid]);
      } else {
        u := null;
      }
    }

    method SaveProposal(p: Proposal)
      modifies this
      ensures State() == old(State()).(proposals := old(proposals).Put(p.id, p.Row()))
    {
      proposals := proposals.Put(p.id, p.Row());
    }

    method SaveOffer(o: Offer)
      modifies this
      ensures State() == old(State()).(offers := old(offers).Put(o.id, o.Row()))
    {
      offers := offers.Put(o.id, o.Row());
    }

    method SaveUser(u: User)
      modifies this
      ensures State() == old(State()).(users := old(users)[u.id := u.Row()])
    {
      users := users[u.id := u.Row()];
    }

    /** UPDATE offers SET status = REJECTED for the WAITING ones of a proposal, but for one offer if any. */
    method RejectWaitingExcept(pid: Id, kept: Option<Id>) returns (count: nat)
      modifies this
      ensures count == |WaitingExcept(old(offers).rows, pid, kept)|
      ensures State() == old(State()).(offers :=
                old(offers).(rows := WithRejected(old(offers).rows, WaitingExcept(old(offers).rows, pid, kept))))
    {
      var hit := WaitingExcept(offers.rows, pid, kept);
      offers := offers.(rows := WithRejected(offers.rows, hit));
      count := |hit|;
    }

    /** UPDATE users SET level = level + 1. */
    method IncrementLevel(uid: UserId)
      modifies this
      ensures State() == old(State()).(users := BumpLevel(old(users), uid))
    {
      if uid in users {
        users := users[uid := users[uid].(level := users[uid].level + 1)];
      }
    }
  }
}

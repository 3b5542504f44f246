/** The mapped objects a service loads, changes in memory and writes back. A false `ok` is a raised ValueError. */
module Entities {
  import opened Rows
  import opened MarketSpec
  import opened AccountSpec

  class Offer {
    const id: Id
    var proposal: Id
    var runner: UserId
    var status: OfferStatus
    var openChatUrl: Option<string>
    var createdAt: Time
    var acceptedAt: Option<Time>
    var runnerConfirmedAt: Option<Time>
    var ordererConfirmedAt: Option<Time>
    var disputedAt: Option<Time>
    var resolvedAt: Option<Time>

    constructor (id: Id, row: OfferRow)
      ensures this.id == id && Row() == row
    {
      this.id := id;
      proposal, runner, status, openChatUrl, createdAt := row.proposal, row.runner, row.status, row.openChatUrl,
          row.createdAt;
      acceptedAt, runnerConfirmedAt, ordererConfirmedAt := row.acceptedAt, row.runnerConfirmedAt,
          row.ordererConfirmedAt;
      disputedAt, resolvedAt := row.disputedAt, row.resolvedAt;
    }

    function Row(): OfferRow
      reads this
    {
      OfferRow(proposal, runner, status, openChatUrl, createdAt, acceptedAt, runnerConfirmedAt, ordererConfirmedAt,
               disputedAt, resolvedAt)
    }

    method Accept(now: Time) returns (ok: bool)
      modifies this
      ensures ok <==> old(status).Waiting?
      ensures Row() == if ok then old(Row()).(status := OfferStatus.Accepted, acceptedAt := Some(now)) else old(Row())
    {
      ok := status.Waiting?;
      if ok {
        status, acceptedAt := OfferStatus.Accepted, Some(now);
      }
    }

    predicate CanConfirmRunnerCompletion()
      reads this
    {
      status.Accepted?
    }

    method ConfirmRunnerCompletion(now: Time) returns (ok: bool)
      modifies this
      ensures ok <==> old(status).Accepted?
      ensures Row() == if ok then old(Row()).(status := RunnerCompleted, runnerConfirmedAt := Some(now)) else old(Row())
    {
      ok := CanConfirmRunnerCompletion();
      if ok {
        status, runnerConfirmedAt := RunnerCompleted, Some(now);
      }
    }

    predicate CanConfirmOrdererCompletion()
      reads this
    {
      status.Accepted? || status.RunnerCompleted?
    }

    method ConfirmOrdererCompletion(now: Time) returns (ok: bool)
      modifies this
      ensures ok <==> old(status).Accepted? || old(status).RunnerCompleted?
      ensures Row() == if ok then old(Row()).(ordererConfirmedAt := Some(now)) else old(Row())
    {
      ok := CanConfirmOrdererCompletion();
      if ok {
        ordererConfirmedAt := Some(now);
      }
    }

    method MarkAllCompleted() returns (ok: bool)
      modifies this
      ensures ok <==> old(status).Accepted? || old(status).RunnerCompleted?
      ensures Row() == if ok then old(Row()).(status := OfferStatus.AllCompleted) else old(Row())
    {
      ok := status.RunnerCompleted? || status.Accepted?;
      if ok {
        status := OfferStatus.AllCompleted;
      }
    }

    predicate CanRaiseDispute()
      reads this
    {
      status.Accepted? || status.RunnerCompleted?
    }

    method RaiseDispute(now: Time) returns (ok: bool)
      modifies this
      ensures ok <==> old(status).Accepted? || old(status).RunnerCompleted?
      ensures Row() == if ok then old(Row()).(status := OfferStatus.Disputed, disputedAt := Some(now)) else old(Row())
    {
      ok := CanRaiseDispute();
      if ok {
        status, disputedAt := OfferStatus.Disputed, Some(now);
      }
    }

    method Resolve(now: Time) returns (ok: bool)
      modifies this
      ensures ok <==> old(status).Disputed?
      ensures Row() == if ok then old(Row()).(status := OfferStatus.Resolved, resolvedAt := Some(now)) else old(Row())
    {
      ok := status.Disputed?;
      if ok {
        status, resolvedAt := OfferStatus.Resolved, Some(now);
      }
    }

    method Cancel() returns (ok: bool)
      modifies this
      ensures ok <==> old(status).Waiting?
      ensures Row() == if ok then old(Row()).(status := OfferStatus.Cancelled) else old(Row())
    {
      ok := status.Waiting?;
      if ok {
        status := OfferStatus.Cancelled;
      }
    }
  }

  class Proposal {
    const id: Id
    var orderer: UserId
    var draft: Draft
    var status: ProposalStatus
    var createdAt: Time
    var matchedAt: Option<Time>
    var runnerConfirmedAt: Option<Time>
    var ordererConfirmedAt: Option<Time>
    var disputedAt: Option<Time>
    var resolvedAt: Option<Time>

    constructor (id: Id, row: ProposalRow)
      ensures this.id == id && Row() == row
    {
      this.id := id;
      orderer, draft, status, createdAt, matchedAt := row.orderer, row.draft, row.status, row.createdAt, row.matchedAt;
      runnerConfirmedAt, ordererConfirmedAt := row.runnerConfirmedAt, row.ordererConfirmedAt;
      disputedAt, resolvedAt := row.disputedAt, row.resolvedAt;
    }

    function Row(): ProposalRow
      reads this
    {
      ProposalRow(orderer, draft, status, createdAt, matchedAt, runnerConfirmedAt, ordererConfirmedAt, disputedAt,
                  resolvedAt)
    }

    method MarkAsOffered()
      modifies this
      ensures Row() == if old(status).Posted? then old(Row()).(status := Offered) else old(Row())
    {
      if status.Posted? {
        status := Offered;
      }
    }

    method ConfirmRunnerCompletion(now: Time) returns (ok: bool)
      modifies this
      ensures ok <==> old(status).Matched? || old(status).OrderCompleted?
      ensures Row() == if ok then old(Row()).(runnerConfirmedAt := Some(now)) else old(Row())
    {
      ok := status.Matched? || status.OrderCompleted?;
      if ok {
        runnerConfirmedAt := Some(now);
      }
    }

    method ConfirmOrdererCompletion(now: Time) returns (ok: bool)
      modifies this
      ensures ok <==> old(status).Matched?
      ensures Row() == if ok then old(Row()).(status := OrderCompleted, ordererConfirmedAt := Some(now)) else old(Row())
    {
      ok := status.Matched?;
      if ok {
        status, ordererConfirmedAt := OrderCompleted, Some(now);
      }
    }

    method MarkAllCompleted() returns (ok: bool)
      modifies this
      ensures ok <==> old(status).Matched? || old(status).OrderCompleted?
      ensures Row() == if ok then old(Row()).(status := ProposalStatus.AllCompleted) else old(Row())
    {
      ok := status.OrderCompleted? || status.Matched?;
      if ok {
        status := ProposalStatus.AllCompleted;
      }
    }

    predicate CanRaiseDispute()
      reads this
    {
      status.Matched? || status.OrderCompleted?
    }

    method RaiseDispute(now: Time) returns (ok: bool)
      modifies this
      ensures ok <==> old(status).Matched? || old(status).OrderCompleted?
      ensures Row()
           == if ok then old(Row()).(status := ProposalStatus.Disputed, disputedAt := Some(now))
              else old(Row())
    {
      ok := CanRaiseDispute();
      if ok {
        status, disputedAt := ProposalStatus.Disputed, Some(now);
      }
    }

    method Resolve(now: Time) returns (ok: bool)
      modifies this
      ensures ok <==> old(status).Disputed?
      ensures Row()
           == if ok then old(Row()).(status := ProposalStatus.Resolved, resolvedAt := Some(now))
              else old(Row())
    {
      ok := status.Disputed?;
      if ok {
        status, resolvedAt := ProposalStatus.Resolved, Some(now);
      }
    }

    method Cancel() returns (ok: bool)
      modifies this
      ensures ok <==> CancellableStatus(old(status))
      ensures Row() == if ok then old(Row()).(status := ProposalStatus.Cancelled) else old(Row())
    {
      ok := status.Holding? || status.Posted? || status.Offered?;
      if ok {
        status := ProposalStatus.Cancelled;
      }
    }

    /** The validation error that is raised before anything is assigned, if any. */
    method UpdateProposal(d: Draft, now: Time) returns (error: Option<Error>)
      modifies this
      ensures error == DraftError(d, now)
      ensures Row() == if error.None? then old(Row()).(draft := d, status := Holding) else old(Row())
    {
      error := DraftError(d, now);
      if error.None? {
        draft, status := d, Holding;
      }
    }
  }

  class User {
    const id: UserId
    var name: Option<string>
    var phone: Option<Phone>
    var phoneVerifiedAt: Option<Time>
    var lastLoginAt: Option<Time>
    var alarmEnabled: Option<bool>
    var level: nat
    var deleted: bool
    var deletedAt: Option<Time>

    constructor (id: UserId, row: UserRow)
      ensures this.id == id && Row() == row
    {
      this.id := id;
      name, phone, phoneVerifiedAt, lastLoginAt := row.name, row.phone, row.phoneVerifiedAt, row.lastLoginAt;
      alarmEnabled, level, deleted, deletedAt := row.alarmEnabled, row.level, row.deleted, row.deletedAt;
    }

    function Row(): UserRow
      reads this
    {
      UserRow(name, phone, phoneVerifiedAt, lastLoginAt, alarmEnabled, level, deleted, deletedAt)
    }

    method UpdateLastLoginAt(now: Time)
      modifies this
      ensures Row() == old(Row()).(lastLoginAt := Some(now))
    {
      lastLoginAt := Some(now);
    }

    method UpdateAlarmSetting(on: bool)
      modifies this
      ensures Row() == old(Row()).(alarmEnabled := Some(on))
    {
      alarmEnabled := Some(on);
    }

    method UpdateName(newName: string)
      modifies this
      ensures Row() == old(Row()).(name := Some(newName))
    {
      name := Some(newName);
    }

    /** The level is all that outlives the account. */
    method Withdraw(now: Time)
      modifies this
      ensures Row() == WithdrawnRow(old(Row()), now)
    {
      deleted, deletedAt := true, Some(now);
      name, phone, phoneVerifiedAt, lastLoginAt, alarmEnabled := None, None, None, None, None;
    }
  }
}

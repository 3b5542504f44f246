# OrderRun marketplace: verified model

OrderRun is an errand marketplace. An orderer posts a proposal, runners compete for it with offers, the orderer accepts
one, both sides confirm the meeting, and either side may dispute it instead. Reports take proposals down, members
withdraw, phones are verified by one-time codes, and a worker sends the notices that all this queues. No database
constraint ties a proposal's status to the statuses of its offers: about fourteen commands in four services keep them in
step. This project models those commands and proves what they keep over every run.

## How the model is built

- `Rows`: the rows of the nine tables, as values. `Table` has an auto-increment key. A user identifier (a UUID) is a
  number; only its equality is used. Time is a whole number of microseconds.
- `MarketSpec`, `AccountSpec`, `OutboxSpec`: what each command does to the committed state, in closed form: which check
  refuses first, and otherwise which rows change and how.
- `Entities`, `DatabaseAccess`, `NotificationListener`, `OfferService`, `ProposalService`, `ReportService`,
  `WithdrawalService`, `AccountServices`, `NotificationServices`: the same commands statement by statement, on mutable
  objects with guarded methods, with bulk updates that bypass the session, with an identity map where one matters. Each
  method is proved equal to its closed form, with its reply and the whole state afterwards.
- `Runs`: a request is one command with its arguments, a run is a sequence of requests with clock readings, from the empty
  database. `Api.Handle` serves one request with the service methods and is proved to be one step of a run.
- `Invariants`, with `MarketProofs`, `TableProofs` and `Preservation`: the invariant of every committed state, and that
  each of the 28 requests keeps it. `Transitions`: the two status diagrams, and what a request may do to an existing row.
- `Fields`: what the request schemas let through to the services.
- `Posting`, `Bidding`, `Settling`, `Reporting`, `Sending`, `Signing`, `Refusals`: for every request, exactly when it
  succeeds, everything it changes, row by row, and that its errors are true. They do not mention the closed forms, only the
  rows before and after; `Changes` has the words for that.
- `Lifecycle`, `Diagrams`, `Execution`, `Members`, `DisputeEvidence`, `Notices`, `Outbox`, `Delivery`, `Views`,
  `Journeys`: the theorems. They speak of `Reachable(s, now)`: the state after some legal run from the empty database,
  with the clock at `now` (`Lifecycle.LeadsIffRun` ties that definition to runs). The theorems hold whatever the fields of
  a request contain; the runs that `Journeys` builds consist of requests of members and admins that pass the field checks,
  and are legal runs (`Journeys.WalksLead`).

## Assumptions

- One command is one atomic, committed transaction, and commands are served one after the other. The code takes no row
  locks; what two interleaved transactions may do is not stated.
- The clock never goes back. A command reads it several times; `Ticks` holds up to four successive readings.
  All notices of one event share one reading, as do all rows of one worker pass.
- Unique indexes hold: (proposal, runner) for offers, (proposal, reporter) for reports, and phone for users. Two of them
  are also enforced by a check before the insert; for the third, `IntegrityError` is the refusal.
- What comes from outside is a parameter: the SHA-256 hash of an entered code, the new UUID, whether an SMS sender is
  configured, whether the push service delivers, whether a survey question is active, the test-code bypass, and, for
  ordered queries with ties, any answer the database may give.
- Queries without ORDER BY answer in primary-key order where the order shows (the losing runners of an acceptance).
- An operator writes an offer's chat link straight into its row: no service does.

## Where code and documentation differ

- Editing a POSTED proposal takes it back to HOLDING (`app/models/proposal.py:154`); the diagram of `docs/domain.md` has
  no such arrow. `Diagrams.LeavesProposalDiagramIff` states exactly when a proposal leaves the diagram, over all
  requests, and `Journeys.EditTakesBack` that a run from every reachable state with a member gets there.
- `docs/domain.md` lets only the runner move an offer from WAITING to CANCELLED. The orderer's withdrawal does it too
  (`app/services/user_auth/user_withdrawal_service.py:107-108`), as `docs/domains/user-auth/withdrawal-policy.md` says in
  its line 45: the two documents contradict each other there. `Diagrams.CancelledByOtherIff` states exactly when, and
  `Journeys.OfferTakenAlong` that a run from the empty database gets there.
- No difference, but not one arrow either: a confirmation that finds the other side done takes MATCHED, or ACCEPTED, to
  ALL_COMPLETED in one commit, over the documented status in between, which is never committed.
  `Diagrams.CompletesAtOnceIff` and `Diagrams.OfferCompletesAtOnceIff` state exactly when.
- The transition table of `docs/domain.md` omits that an accepted report moves WAITING offers to REJECTED; its line 78
  says so.
- `docs/domains/user-auth/withdrawal-policy.md` does not list REPORTED among the proposal statuses that allow a
  withdrawal. The code allows it (`Members.WithdrawsIff`), and `Journeys.OrdererGoneReported` gets there from the empty
  database.
- The endpoints of `app/api/v1/admin/admin_router.py` are labelled admin-only, but depend on the database session alone
  (lines 52, 65, 84 and 165) and check no caller. `Diagrams.WhoMovesProposals` and `Diagrams.WhoMovesOffers` therefore
  name three commands that need no token.
- RESOLVED is missing from EXECUTION_OFFER_STATUSES, so the execution offer of a resolved proposal is not found.
  `Execution.ExecutionLookup` states exactly when it is; `Journeys.DisputeCanEnd` reaches a resolved pair without one.
- "Both sides have confirmed" is queued at the orderer's confirmation, whether or not the runner has confirmed.
  `Notices.CompletionNoticeTrueIff` states exactly when the notice is true, and `Journeys.PrematureNoticeHappens` that
  from every reachable state with two members a run leads to a false one.

## Model

The rows down to `Api.Handle` are the results. The six after it, down to `Views.NewestFirstIsStrictTotal`, only connect
definitions that the results use. The rest are the commands, statement by statement, each proved equal to its closed form;
`Api.Handle` rests on them.

| member | source | states |
|---|---|---|
| Lifecycle.JointStatuses | app/services/offer/offer_service.py:119-375 | In every reachable state: HOLDING/POSTED proposals have no offers; OFFERED has some, all WAITING or CANCELLED; REPORTED/CANCELLED has only REJECTED or CANCELLED ones; from MATCHED on exactly one offer executes, in a status that fits the proposal's, and every other is REJECTED or CANCELLED. |
| Lifecycle.NoHalfCompletedPair | app/services/proposal/proposal_service.py:93-100 | No committed state pairs an ORDER_COMPLETED proposal with a RUNNER_COMPLETED offer. |
| Lifecycle.BlockingSetsAgree | app/services/user_auth/user_withdrawal_service.py:16-25 | A proposal is in a blocking status iff exactly one of its offers is; otherwise none is. |
| Lifecycle.BlockedIffLiveParty | app/services/user_auth/user_withdrawal_service.py:64-85 | The two queries block exactly the orderer and the runner of a live execution. |
| Lifecycle.GuardRaisesIff | app/services/user_auth/user_withdrawal_service.py:88-121 | On any state whatever, the one entity guard that can raise is the second cancellation of one offer by a withdrawal: exactly when an active, unblocked user has a WAITING offer on an own open proposal. |
| Lifecycle.AutoCancelsDisjoint | app/services/user_auth/user_withdrawal_service.py:88-121 | Under the invariant, which forbids self-offers, the two auto-cancel loops never select one offer twice. |
| Lifecycle.NoGuardRaises | app/services/offer/offer_service.py:119-375 | From a reachable state no request at all ends in a ValueError. |
| Lifecycle.RefusalChangesNothing | app/services/user_auth/phone_verification_service.py:112-122 | A refused request leaves the database as it was; only a failed code check of sign-up or log-in persists anything, and only in its own table. |
| Lifecycle.StepLowersRank | app/models/offer.py:64-105 | After any request an engaged pair is still engaged, with the same statuses or a lower rank. |
| Lifecycle.SuccessLowersRank | app/services/proposal/proposal_service.py:299-358 | Every successful confirm, deliver, dispute or resolve aimed at the pair lowers its rank. |
| Lifecycle.AtMostThreeSteps | app/services/offer/offer_service.py:291-375 | After an acceptance at most three commands on the pair succeed, in any continuation. |
| Lifecycle.TerminalForever | app/models/offer.py:81-105 | ALL_COMPLETED and RESOLVED pairs keep their statuses in every continuation, and no command on them succeeds. |
| Preservation.StepKeeps | app/services/offer/offer_service.py:119-375 | Each of the 28 requests, refused or not, keeps the whole invariant of the nine tables. |
| Preservation.RunKeeps | app/services/proposal/proposal_service.py:237-358 | So does every legal run. |
| Transitions.StepMoves | app/models/proposal.py:58-154 | Whatever the request, an existing proposal or offer keeps its owner and moves at most along an arrow the code has (the documented ones, completion at once, and the edit of a posted proposal), closed rows do not change, new ones enter at HOLDING or WAITING for active users, withdrawn users' rows are frozen, levels never fall. |
| Diagrams.ProposalGoesIff | app/services/proposal/proposal_service.py:237-358 | For each of the 28 requests and each status: a reachable proposal takes that status in one request iff the guards listed for the request hold; no request moves it otherwise. |
| Diagrams.OfferGoesIff | app/services/offer/offer_service.py:119-375 | The same for offers, the bulk rejections and the cancellations by withdrawal included. |
| Diagrams.LeavesProposalDiagramIff | docs/domain.md:23-35 | A proposal's status changes along no documented arrow, and not by completing at once, iff its active orderer edits it, with a valid draft, while it is POSTED. |
| Diagrams.CompletesAtOnceIff | docs/domain.md:31 | MATCHED becomes ALL_COMPLETED in one commit iff the active orderer confirms after the runner. |
| Diagrams.OfferCompletesAtOnceIff | docs/domain.md:58 | ACCEPTED becomes ALL_COMPLETED in one commit iff the active runner delivers after the orderer confirmed. |
| Diagrams.CancelledByOtherIff | docs/domain.md:62 | A WAITING offer is cancelled by someone other than its runner iff the active orderer of its proposal withdraws with no blocking activity. |
| Diagrams.WhoMovesProposals | app/services/proposal/proposal_service.py:62-65 | Whoever changes a proposal's status is its orderer, a runner of one of its offers, the runner of a new offer, or it was one of the three commands that need no token. |
| Diagrams.WhoMovesOffers | app/services/offer/offer_service.py:204-345 | Whoever changes an offer's status is its runner, the orderer of its proposal, or it was one of the three commands that need no token. |
| Execution.ExecutionLookup | app/services/proposal/proposal_service.py:67-80 | The execution offer is found exactly in MATCHED, ORDER_COMPLETED, ALL_COMPLETED and DISPUTED, and then is the only candidate, so the ordering never matters. |
| Execution.StampHistory | app/services/offer/offer_service.py:249-251 | Each time stamp of a proposal is set exactly in the statuses it belongs to; accepted, confirmed, disputed, resolved come in order; the execution offer tells the same history, `matched_at` equals its `accepted_at`, and its orderer stamp is never before the proposal's. |
| Execution.OrdererFirst | app/services/proposal/proposal_service.py:299-321 | From MATCHED/ACCEPTED, confirm then deliver: the half-way statuses, then ALL_COMPLETED on both sides, each confirmation stamped on both rows, and the runner one level up. |
| Execution.RunnerFirst | app/services/offer/offer_service.py:291-324 | The same for deliver then confirm. |
| Execution.CompletionsCommute | app/services/proposal/proposal_service.py:92-100 | Both orders end completed on both sides, both confirmations stamped on both rows, with the same database but for the two confirmation stamps and the queued notices. |
| Execution.OneEvidencePerDispute | app/services/dispute/dispute_evidence_service.py:16-53 | A DISPUTED or RESOLVED proposal has exactly one record, naming its execution offer and one of the two parties; that offer has the same single record; any other proposal has none. |
| Rivals.RivalsAre | app/services/offer/offer_service.py:241-260 | The query for the losing runners and the bulk update after it select the same rows, each once. |
| Execution.RejectedRunnersAre | app/services/offer/offer_service.py:241-247 | The queried losing runners are distinct, and are the runners of the other WAITING offers. |
| Execution.AcceptanceRejects | app/services/offer/offer_service.py:249-260 | On any state, an acceptance newly rejects exactly the other WAITING offers of the proposal and leaves none waiting. |
| Execution.AcceptanceConserves | app/services/offer/offer_service.py:226-260 | WAITING before is the accepted offer plus the newly rejected ones, `rejected_offer_count` counts them, and the separately queried runners are distinct and exactly theirs. |
| Execution.NoActiveRivalWhileOffered | app/services/offer/offer_service.py:226-239 | The check for an existing active offer never fires while the proposal is OFFERED. |
| Execution.AcceptableIff | app/services/offer/offer_service.py:216-239 | In a reachable state an acceptance succeeds iff the offer is WAITING and the caller owns the proposal. |
| Execution.Moderation | app/services/proposal/proposal_report_service.py:67-157 | A proposal is REPORTED iff a report on it is ACCEPTED; each reader reports it at most once, the owner never; `reviewed_at` is set iff the report is no longer PENDING. |
| Execution.NeverReportedAfterMatch | app/services/proposal/proposal_report_service.py:127-146 | No report on a proposal that has been matched is ACCEPTED in any continuation. |
| Members.LevelsCountCompletions | app/services/offer/offer_service.py:108-116 | Each user's level is the number of ALL_COMPLETED offers they ran, and the levels add up to the number of ALL_COMPLETED proposals. |
| Members.WithdrawsIff | app/services/user_auth/user_withdrawal_service.py:36-61 | A withdrawal succeeds iff the user is active and no party to a live execution. |
| Members.WithdrawalErases | app/models/user.py:60-68 | It leaves nothing of the user but closed business and the level, and touches no other user's row. |
| Members.WithdrawalKeepsOthers | app/services/user_auth/user_withdrawal_service.py:45-58 | Row by row: a notice stays iff it is not the user's, a code iff it is not of the user's phone, every other user's token and account stay, reports and dispute records are untouched, and the row is dated and silent from then on. |
| Members.WithdrawalCancels | app/services/user_auth/user_withdrawal_service.py:87-121 | It cancels exactly the WAITING offers the user made or received; no other offer changes. |
| Members.WithdrawalCancelsProposals | app/services/user_auth/user_withdrawal_service.py:88-110 | It cancels exactly the user's own proposals that are not closed; no other proposal changes. |
| Members.WithdrawalIsFinal | app/services/user_auth/user_withdrawal_service.py:45-58 | In every continuation the withdrawn user's row is unchanged, the user has no new proposals or offers, the old ones stay closed, and no notification, token or settlement account of theirs exists. |
| Members.FreedPhoneSignsUp | app/services/user_auth/user_withdrawal_service.py:45-51 | Right after a withdrawal a sign-up for the freed phone is refused neither as existing nor as already sent. |
| Members.MembersHaveTheirOwnPhone | app/models/user.py:35 | No two members who have not withdrawn share a phone. |
| Members.OneActiveCode | app/services/user_auth/phone_verification_service.py:98-107 | Of one purpose and phone at most one PENDING code is within its window, and the newest-first pick is that one. |
| Members.WindowsDisjoint | app/services/user_auth/phone_verification_service.py:47-66 | The windows of PENDING codes of one purpose and phone never overlap. |
| Members.AttemptsBounded | app/services/user_auth/phone_verification_service.py:111-126 | A PENDING code has had fewer than five misses, five misses expire it, and a VERIFIED one was entered within its five minutes. |
| Members.VerdictOnActiveCode | app/services/user_auth/phone_verification_service.py:111-126 | With a code in its window, a check passes iff the hash is that code's, changes no other row, and otherwise uses up one of five attempts. |
| Members.NoVerdictWithoutActiveCode | app/services/user_auth/phone_verification_service.py:108-115 | Without a code in its window no check passes. |
| Members.ConfirmationSpends | app/services/user_auth/user_auth_service.py:76-101 | A confirmed sign-up or log-in consumes a PENDING row. |
| Members.EachCodeConfirmsOnce | app/services/user_auth/user_auth_service.py:70-135 | Two successful confirmations, with any run between them, never use the same sent row. |
| DisputeEvidence.LookupsAgree | app/services/dispute/dispute_evidence_service.py:29-53 | For every viewer: proposal and execution offer lead to the same single record, shown to its two parties only; an offer that was not chosen, and a proposal never contested, lead to none. |
| Notices.AcceptanceNotifies | app/listeners/notification_listener.py:72-94 | An acceptance queues exactly one PENDING, unread notice about the offer for each bidder who wants notices, OFFER_ACCEPTED to the winner and OFFER_REJECTED to every loser, and nothing else. |
| Notices.CompletionNoticeTrueIff | app/listeners/notification_listener.py:110-132 | The orderer's confirmation announces the meeting to the runner and completion to exactly the parties who want notices, each once, and nothing else; the execution is complete then iff the runner had confirmed before. |
| Journeys.PrematureNoticeHappens | app/listeners/notification_listener.py:122-132 | From every reachable state with two members, six requests lead to a completion notice beside an ORDER_COMPLETED proposal and an ACCEPTED offer. |
| Journeys.ErrandCanComplete | app/services/offer/offer_service.py:119-324 | Whatever the database holds, any two members can post, take and complete a new errand in six requests, and only the runner's level changes among the users. |
| Journeys.OffersCompete | app/services/offer/offer_service.py:119-289 | From every reachable state with three members, two bid on one proposal of the third: in five requests one is accepted and the other rejected. |
| Journeys.DisputeCanEnd | app/services/offer/offer_service.py:326-375 | Whatever the database holds, any two members can bring a new errand into dispute and have it resolved in six requests; then no execution offer is found for it. |
| Journeys.EditTakesBack | app/services/proposal/proposal_service.py:252-267 | From every reachable state with a member, three requests lead to a proposal that was POSTED and is HOLDING. |
| Journeys.EveryoneCanLeave | app/services/user_auth/user_withdrawal_service.py:36-85 | From every reachable state every member can withdraw, whatever is live: after at most two requests for each live execution the member is a party to. |
| Journeys.WithdrawalTakesOfferAlong | app/services/user_auth/user_withdrawal_service.py:98-110 | From every reachable state with two members, either can end what is live, post, receive an offer and withdraw, which cancels both. |
| Journeys.ReportedOrdererCanLeave | app/services/proposal/proposal_report_service.py:127-146 | From every such state a proposal can be taken down by a report and its orderer, once free of live executions, withdraw. |
| Journeys.OfferTakenAlong | app/services/user_auth/user_withdrawal_service.py:98-110 | From the empty database eight requests lead to an offer cancelled by the orderer's withdrawal. |
| Journeys.OrdererGoneReported | app/services/user_auth/user_withdrawal_service.py:36-61 | From the empty database nine requests lead to a withdrawn orderer of a REPORTED proposal. |
| Journeys.CanJoin | app/services/user_auth/user_auth_service.py:34-104 | Under any name a phone that no row holds and no pending code blocks signs up in two requests. |
| Journeys.FirstErrand | app/services/user_auth/user_auth_service.py:70-104 | From the empty database ten requests lead through two sign-ups to a completed errand and a runner at level 1. |
| Delivery.FlushDeadline | app/services/notification_worker.py:32-39 | Over any legal run from any state: of k notices queued by a time already past, none is PENDING after ceil(k/100) flushes, whatever requests, retries and new notices come in between. |
| Delivery.FlushServes | app/services/notification_worker.py:39 | Oldest first: a flush takes a full batch out of the rows queued by any given time, or all of them. |
| Delivery.RetriesTerminate | app/services/notification_worker.py:27-75 | Over any legal run from any state, with M the sum of 3 - retry_count over the retryable rows: if nothing but retries adds a failure, at most floor(M/100) + 3 retries find anything, and after that many nothing is left to retry, whatever else happens in between. |
| Delivery.AddsNoFailureIff | app/services/notification_worker.py:45-75 | In a reachable state, of all requests but the retries exactly these add a failure: a direct send that is not delivered, and a flush that leaves a row of its batch undelivered. |
| Delivery.NoNewFailuresIff | app/services/notification_worker.py:27-75 | So the condition of `Delivery.RetriesTerminate` holds of a run from a reachable state iff every direct send and every flush in it gets everything through. |
| Outbox.RemainingIsLevelSum | app/services/notification_worker.py:37 | That sum equals the sizes of three sets added up: the FAILED rows with fewer than 1, than 2 and than 3 retries. |
| Outbox.BatchExists | app/services/notification_worker.py:35-39 | The worker's query always has an answer. |
| Outbox.FlushesEmptyTheQueue | app/services/notification_worker.py:22-25 | ceil(n/100) flushes in a row, with nothing else in between, leave none of n PENDING rows pending, whatever the push service answers. `Delivery.FlushDeadline` is the statement over runs. |
| Outbox.StatsAddUp | app/services/notification/notification_service.py:49-70 | The reported read count, total minus unread, is the number of READ rows; FAILED rows are among the unread. |
| Outbox.MarkingMovesTheCount | app/services/notification/notification_service.py:86-108 | Marking moves exactly `marked_count` of the caller's rows out of unread, changes no total, and nobody else's counts. |
| Views.ChatLinksAgree | app/services/offer/offer_service.py:97-106 | For every viewer the proposal's detail view and its execution offer's show the same chat link; it is the execution offer's link, shown to its orderer and runner and to no one else; before the match there is none, and offers not chosen never show one. |
| Views.ListingIsUnique | app/services/proposal/proposal_service.py:184 | An ordered listing with the id as last tie-break has one answer. |
| Views.PagesCoverTheListing | app/schemas/common.py:46-57 | Pages 0 to total_pages - 1 concatenate to the whole listing; page p holds the elements from p * size on, at most size of them; total_elements is the size of the listing, `first` is set on page 0 only; `last` is set exactly when no later page holds anything; the pages below total_pages are exactly the non-empty ones. |
| Views.ProfilesShown | app/services/proposal/proposal_service.py:82-90 | A member is shown with name and level; a withdrawn one, in every continuation, as 탈퇴한 사용자 with the level at the withdrawal. |
| Views.GroupOffers | app/services/proposal/proposal_service.py:189-202 | The loop over the dictionary collects, for each proposal of the page, its offers in query order. |
| Views.SearchOwnerProposals | app/services/proposal/proposal_service.py:171-235 | The owner's page counts all own proposals of the statuses asked for, shows no others, and each row's offers are, in order, those of the proposal's own detail query. |
| WithdrawalService.AutoCancelPreMatchActivity | app/services/user_auth/user_withdrawal_service.py:87-121 | Without autoflush the second query sees the committed rows: the method raises, with nothing written, iff an offer would be cancelled twice, and otherwise cancels what both loops select. |
| Posting.PostsIff | app/services/proposal/proposal_service.py:237-250 | A post succeeds iff the user is active, the deadline lies ahead and the fee is at least 1000; it adds one HOLDING proposal with that draft and nothing else. |
| Posting.EditsIff | app/services/proposal/proposal_service.py:252-267 | An edit succeeds iff the active owner has a HOLDING or POSTED proposal and the draft is acceptable; that proposal has the whole new draft and is HOLDING, nothing else changes. |
| Posting.PaysIff | app/services/proposal/proposal_service.py:289-297 | A payment is confirmed iff the proposal is HOLDING; it is POSTED then, nothing else changes. |
| Posting.TakesBackIff | app/services/proposal/proposal_service.py:269-287 | The active owner can cancel iff the proposal is HOLDING, POSTED or OFFERED; it is CANCELLED, its WAITING offers are REJECTED, and nothing else changes. |
| Bidding.BidsIff | app/services/offer/offer_service.py:118-141 | In any state: an offer is taken iff the user is active, the proposal is POSTED or OFFERED, not the user's own, and has no offer of the user's yet, however many others bid. |
| Bidding.BidAdds | app/services/offer/offer_service.py:137-157 | The reply names a new WAITING offer of that user on that proposal; no other offer changes; the proposal is OFFERED; orderer and runner are told, OFFER_NEW and OFFER_SUBMITTED, if they want notices; nothing else changes. |
| Bidding.RetractsIff | app/services/offer/offer_service.py:204-213 | An offer is taken back iff it is the active runner's own and WAITING; it alone changes. |
| Bidding.AcceptsIff | app/services/offer/offer_service.py:216-239 | An acceptance succeeds iff the offer is WAITING and its proposal is the active caller's. |
| Bidding.AcceptanceChanges | app/services/offer/offer_service.py:226-289 | The offer is ACCEPTED and stamped, the other WAITING ones of the proposal REJECTED, the proposal MATCHED with the same stamp; the bidders are told; nothing else changes. |
| Settling.ReceivesIff | app/services/proposal/proposal_service.py:299-321 | The orderer's confirmation succeeds iff the proposal is the active caller's and MATCHED. |
| Settling.ReceiptChanges | app/services/proposal/proposal_service.py:299-321 | Both rows get the stamp; both complete and the runner is one level up iff the runner had confirmed, and otherwise the proposal is ORDER_COMPLETED; the three notices go out; nothing else changes. |
| Settling.DeliversIff | app/services/offer/offer_service.py:291-324 | The runner's confirmation succeeds iff the offer is the active caller's and ACCEPTED. |
| Settling.DeliveryChanges | app/services/offer/offer_service.py:291-324 | Both rows get the stamp; both complete and the runner is one level up iff the orderer had confirmed, and otherwise the offer is RUNNER_COMPLETED; the orderer is told of the meeting; nothing else changes. |
| Settling.OrdererDisputesIff | app/services/proposal/proposal_service.py:323-341 | The orderer's dispute succeeds iff the proposal is the active caller's, MATCHED or ORDER_COMPLETED, and the question is active. |
| Settling.OrdererDisputeChanges | app/services/proposal/proposal_service.py:338-358 | Both rows are DISPUTED and stamped; exactly one record is added, with the orderer as actor and the question and reason of the request; exactly the runner is told, if they want notices; nothing else changes. |
| Settling.RunnerDisputesIff | app/services/offer/offer_service.py:326-341 | The runner's dispute succeeds iff the offer is the active caller's, ACCEPTED or RUNNER_COMPLETED, and the question is active. |
| Settling.RunnerDisputeChanges | app/services/offer/offer_service.py:340-362 | The same with the runner as actor, and exactly the orderer told. |
| Settling.RecordsAreFinal | app/models/dispute_evidence.py:11-21 | A dispute record is never changed or removed, in any continuation. |
| Settling.ResolvesIff | app/services/offer/offer_service.py:364-375 | A resolution succeeds iff the offer is DISPUTED; both rows are RESOLVED and stamped, nobody is told, nothing else changes. |
| Reporting.ReportsIff | app/services/proposal/proposal_report_service.py:67-89 | A report is taken iff the user is active, not the owner and has not reported the proposal, which is POSTED or OFFERED, and the question is active; one PENDING report is added and nothing else. |
| Reporting.AcceptsReportIff | app/services/proposal/proposal_report_service.py:127-146 | A report can be accepted iff it is PENDING and its proposal POSTED, OFFERED or REPORTED; an open proposal comes down with the offers that wait, and otherwise only the report changes. |
| Reporting.RejectsReportIff | app/services/proposal/proposal_report_service.py:148-157 | A report can be rejected iff it is PENDING; only it changes. |
| Sending.WorkerWorks | app/services/notification_worker.py:32-75 | A pass takes the oldest due rows, at most 100; each is SENT and stamped iff its user has a token and it is delivered, and otherwise FAILED with one more retry; no other field and no other row changes. |
| Sending.WorkerReadsNothing | app/services/notification_worker.py:66-73 | A pass changes nobody's total, unread or read count. |
| Sending.DirectSendAdds | app/services/fcm_service.py:104-171 | A direct send adds exactly one row, SENT and stamped iff the user has a token and it is delivered, FAILED otherwise, with no retry counted. |
| Sending.DirectSendCounts | app/services/notification/notification_service.py:49-70 | A direct send adds one to its user's total and unread counts, and one to the failed count iff it does not get through; nobody else's counts move. |
| Sending.MarkingMarks | app/services/notification/notification_service.py:86-108 | Marking turns exactly the caller's unread rows among the ids READ, stamped, and replies with their number. |
| Sending.OnlyMarkingReads | app/services/notification/notification_service.py:86-108 | Of all 28 requests, only its owner's own request to mark it makes a row READ. |
| Signing.SignupCodeIff | app/services/user_auth/user_auth_service.py:34-51 | A sign-up code is sent iff no member holds the phone, no code is good still, and a sender is configured; one row, good for five minutes, is added and nothing else. |
| Signing.LoginCodeIff | app/services/user_auth/user_auth_service.py:53-68 | A log-in code likewise, iff a member holds the phone. |
| Signing.SignsUpIff | app/services/user_auth/user_auth_service.py:70-104 | A sign-up succeeds iff a code of that phone that is still good has the entered hash and no member holds the phone. |
| Signing.SignupAdds | app/services/user_auth/user_auth_service.py:86-101 | It uses that code up and adds one member with the code's name, that phone, level 0 and notices off, and nothing else. |
| Signing.LogsInIff | app/services/user_auth/user_auth_service.py:106-127 | A log-in without the test code succeeds iff a member holds the phone and a code of it that is still good has the entered hash. |
| Signing.LoginChanges | app/services/user_auth/user_auth_service.py:124-135 | It uses that code up, stamps that member's log-in time and stores the token if one is sent; nothing else changes. |
| Signing.TestCodeLogsInIff | app/services/user_auth/user_auth_service.py:116-127 | With the test code a log-in succeeds iff a member holds the phone, and uses no code up. |
| Signing.RefusedCodeCosts | app/services/user_auth/phone_verification_service.py:108-122 | A refused code costs the good code one attempt, the fifth one the code, or marks the last awaited code EXPIRED; no user, no token and nothing else changes. |
| Signing.SettingsIff | app/services/user_auth/user_profile_service.py:27-52 | A setting is stored iff the user is active, for that user alone, and nothing else changes. |
| Signing.SwitchDecides | app/listeners/notification_listener.py:23-25 | The alarm setting decides from then on whether the user is sent notices. |
| Refusals.RefusalsAreTrue | app/services/offer/offer_service.py:118-375 | From every reachable state, for each of the 28 requests: whatever error it ends in, what the error says is so. |
| Api.Handle | app/core/security.py:59-75 | One request served by the service methods, after the check of its bearer, is one step of a run: the state stays reachable, with every invariant, and no guard raises. |
| Outbox.WorkerStepIsAPass | app/services/notification_worker.py:32-75 | A worker request within a run is one of the passes the bounds speak of. |
| Lifecycle.ArrowsLowerRank | app/models/proposal.py:65-106 | Whatever the diagrams let an engaged pair do, if it stays compatible, lowers its rank. |
| Views.DueFirstReads | app/services/proposal/proposal_service.py:114 | Down a listing of proposals deadlines never fall; of equal ones the newer comes first, then the greater id. |
| Views.NewestFirstReads | app/services/proposal/proposal_service.py:197 | Down a listing of offers the newer comes first, then the greater id. |
| Views.DueFirstIsStrictTotal | app/services/proposal/proposal_service.py:114 | Deadline, then created_at descending, then id descending, is an order with one listing. |
| Views.NewestFirstIsStrictTotal | app/services/proposal/proposal_service.py:197 | So is created_at descending, then id descending. |
| OfferService.Create | app/services/offer/offer_service.py:118-157 | The method does what the closed form says: the first failing check, or one WAITING offer, an OFFERED proposal and up to two notices. |
| OfferService.Cancel | app/services/offer/offer_service.py:204-213 | Only the runner's own WAITING offer becomes CANCELLED. |
| OfferService.Accept | app/services/offer/offer_service.py:215-289 | The query for the losers, the in-memory acceptance, the bulk update and the flush together do what the closed form says, and the bulk count is the number of losers queried. |
| OfferService.SyncAllCompleted | app/services/offer/offer_service.py:108-116 | Both sides move to ALL_COMPLETED and the level rises, or nothing happens; neither guard raises. |
| OfferService.CompleteDelivery | app/services/offer/offer_service.py:291-324 | The delivery, step by step, with the re-stamp of the orderer's confirmation. |
| OfferService.RaiseDispute | app/services/offer/offer_service.py:326-362 | The runner's dispute: both rows, one record, one notice. |
| OfferService.Resolve | app/services/offer/offer_service.py:364-375 | DISPUTED on both sides becomes RESOLVED on both. |
| ProposalService.Create | app/services/proposal/proposal_service.py:237-250 | A valid draft of an active user becomes a HOLDING proposal. |
| ProposalService.Update | app/services/proposal/proposal_service.py:252-267 | A HOLDING or POSTED proposal takes the new draft and is HOLDING; an invalid draft assigns nothing. |
| ProposalService.Cancel | app/services/proposal/proposal_service.py:269-287 | The proposal is CANCELLED, and if it was OFFERED its WAITING offers are REJECTED. |
| ProposalService.ConfirmPayment | app/services/proposal/proposal_service.py:289-297 | HOLDING becomes POSTED. |
| ProposalService.SyncAllCompleted | app/services/proposal/proposal_service.py:92-100 | This service's copy does the same as the offer service's. |
| ProposalService.ConfirmReceived | app/services/proposal/proposal_service.py:299-321 | The orderer's confirmation, step by step, on the looked-up execution offer. |
| ProposalService.RaiseDispute | app/services/proposal/proposal_service.py:323-358 | The orderer's dispute: both rows, one record, one notice. |
| ReportService.Create | app/services/proposal/proposal_report_service.py:67-89 | One PENDING report; a second one by the same reporter is refused by the index. |
| ReportService.Accept | app/services/proposal/proposal_report_service.py:127-146 | The report is ACCEPTED; a recruiting proposal becomes REPORTED and its WAITING offers REJECTED. |
| ReportService.Reject | app/services/proposal/proposal_report_service.py:148-157 | The report is REJECTED; nothing else changes. |
| WithdrawalService.LoadOffers | app/core/database.py:17-21 | A query returns the object the session already holds, with its unflushed changes, and new objects for the other rows. |
| WithdrawalService.CancelAll | app/services/user_auth/user_withdrawal_service.py:107-108 | The loop raises iff one of its offers is no longer WAITING, in whatever order it goes. |
| WithdrawalService.Withdraw | app/services/user_auth/user_withdrawal_service.py:35-61 | The whole withdrawal, with the phone kept from before it is erased. |
| AccountServices.Send | app/services/user_auth/phone_verification_service.py:37-70 | Refused while a code is within its window, or without a sender; otherwise one PENDING row with its five-minute window. |
| AccountServices.Verify | app/services/user_auth/phone_verification_service.py:91-126 | A refusal commits the attempt or the expiry; a pass changes its row in memory only. |
| AccountServices.FindUserByPhone | app/services/user_auth/user_auth_service.py:151-153 | The one member who holds the phone, if any. |
| AccountServices.SendSignup | app/services/user_auth/user_auth_service.py:34-51 | A sign-up code, unless the phone is a member's. |
| AccountServices.SendLogin | app/services/user_auth/user_auth_service.py:53-68 | A log-in code, only for a member's phone. |
| AccountServices.ConfirmSignup | app/services/user_auth/user_auth_service.py:70-104 | A new user and the consumed code are committed together, or neither. |
| AccountServices.ConfirmLogin | app/services/user_auth/user_auth_service.py:106-135 | The log-in time, the device token and the consumed code are committed together; a failed check commits only itself. |
| AccountServices.UpdateAlarm | app/services/user_auth/user_profile_service.py:27-31 | The alarm setting of an active user. |
| AccountServices.UpdateName | app/services/user_auth/user_profile_service.py:33-37 | The name of an active user. |
| AccountServices.UpdateFcmToken | app/services/user_auth/user_profile_service.py:39-52 | The one device token of an active user. |
| AccountServices.SaveSettlementAccount | app/services/settlement/settlement_service.py:21-35 | The one settlement account of the user. |
| NotificationServices.SendBatch | app/services/notification_worker.py:45-75 | The loop leaves each row of the batch SENT, or FAILED with one more retry, and no other row changed. |
| NotificationServices.SendToUser | app/services/fcm_service.py:104-171 | One new row, SENT, or FAILED with no retry counted. |
| NotificationServices.MarkRead | app/services/notification/notification_service.py:86-108 | The caller's unread rows among the given ones are READ, and counted. |
| NotificationListener.OnOfferCreated | app/listeners/notification_listener.py:48-69 | Orderer and runner are told, each if they want notices. |
| NotificationListener.OnOfferAccepted | app/listeners/notification_listener.py:72-94 | The accepted runner and then each rejected one are told, each if they want notices. |
| NotificationListener.OnMeetingConfirmedByRunner | app/listeners/notification_listener.py:97-107 | The orderer is told. |
| NotificationListener.OnMeetingConfirmedByOrderer | app/listeners/notification_listener.py:110-132 | The runner is told of the meeting and both parties of the completion. |
| NotificationListener.OnDisputeRaised | app/listeners/notification_listener.py:135-158 | The other party is told. |
| Entities.Offer.Accept | app/models/offer.py:58-62 | WAITING becomes ACCEPTED with its time, or the guard raises and nothing changes. |
| Entities.Offer.ConfirmRunnerCompletion | app/models/offer.py:67-71 | ACCEPTED becomes RUNNER_COMPLETED, or the guard raises. |
| Entities.Offer.ConfirmOrdererCompletion | app/models/offer.py:76-79 | Stamps an active execution without changing its status, or the guard raises. |
| Entities.Offer.MarkAllCompleted | app/models/offer.py:81-84 | An active execution becomes ALL_COMPLETED, or the guard raises. |
| Entities.Offer.RaiseDispute | app/models/offer.py:92-96 | An active execution becomes DISPUTED, or the guard raises. |
| Entities.Offer.Resolve | app/models/offer.py:101-105 | DISPUTED becomes RESOLVED, or the guard raises. |
| Entities.Offer.Cancel | app/models/offer.py:112-115 | WAITING becomes CANCELLED, or the guard raises. |
| Entities.Proposal.MarkAsOffered | app/models/proposal.py:61-63 | Only POSTED becomes OFFERED. |
| Entities.Proposal.ConfirmRunnerCompletion | app/models/proposal.py:68-71 | Stamps an active execution, or the guard raises. |
| Entities.Proposal.ConfirmOrdererCompletion | app/models/proposal.py:76-80 | MATCHED becomes ORDER_COMPLETED, or the guard raises. |
| Entities.Proposal.MarkAllCompleted | app/models/proposal.py:82-85 | An active execution becomes ALL_COMPLETED, or the guard raises. |
| Entities.Proposal.RaiseDispute | app/models/proposal.py:93-97 | An active execution becomes DISPUTED, or the guard raises. |
| Entities.Proposal.Resolve | app/models/proposal.py:102-106 | DISPUTED becomes RESOLVED, or the guard raises. |
| Entities.Proposal.Cancel | app/models/proposal.py:108-115 | HOLDING, POSTED or OFFERED becomes CANCELLED, or the guard raises. |
| Entities.Proposal.UpdateProposal | app/models/proposal.py:140-166 | The draft is validated first, deadline before fee; only a valid one is assigned, and the status is HOLDING again. |
| Entities.User.Withdraw | app/models/user.py:60-68 | Erases the personal fields and keeps the level. |
| Entities.User.UpdateLastLoginAt | app/models/user.py:47-48 | The log-in time and nothing else. |
| Entities.User.UpdateAlarmSetting | app/models/user.py:50-51 | The alarm setting and nothing else. |
| Entities.User.UpdateName | app/models/user.py:53-54 | The name and nothing else. |
| DatabaseAccess.Database.RejectWaitingExcept | app/services/offer/offer_service.py:252-260 | The bulk update of a proposal's WAITING offers, with its row count. |
| DatabaseAccess.Database.IncrementLevel | app/services/offer/offer_service.py:113-116 | The bulk increment of one user's level, which touches no other row. |

## Left out

- Interleaved transactions and database isolation: the code takes no locks, and the theorems are about serial commits.
- MySQL's rounding of time stamps, and floating-point rounding in `ceil`: exact integers are used.
- An exception inside an event handler, which the event bus logs and swallows.
- The field checks as a step that refuses: the theorems over all requests do not need them. `Fields.PassesFields` states
  those on the fields modelled here (not blank, lengths, identifiers of questions from 1 on), for the runs of
  `Journeys`; those on pages and sizes, time zones, bank names and account numbers, and the refusal of unknown fields
  are left out. A phone is taken in its normal form.
- HTTP codes; a refused command is an error value.
- JWT, refresh tokens, SHA-256, SMS and Firebase beyond their yes-or-no answer; topics and the dispatcher's unused events.
- Terms agreements, bank names and the content of survey questions.
- AccountServices.SaveSettlementAccount: the account is one value; bank, holder, number and its masking are not told
  apart, because nothing else modelled here reads them.
- Columns nothing modelled here reads: updated_at, meeting_at, item_price, deposit, carrier, password hash, message texts,
  error_message, fcm_message_id, detail reason, related entity of a custom notice.
- The DELIVERED notification status, which no service sets, and notification kinds no listener queues.
- Names and levels in the detail views (the owner's page has them), the listing of reports, and the listing of
  notifications, whose order has no tie-break.
- The `reject` method of an offer, `verify_phone` of a user, and the proposal clean-up that returns 0: no command calls
  them.
- When the next flush runs: `confirm_received` schedules none, so the bounds count flushes, not time.
- NotificationServices.SendBatch: all rows of one pass share one clock reading, because nothing depends on their spread.
- Execution.AcceptanceConserves: the order in which the losing runners are queried is primary-key order, because the query
  states none.
- Execution.CompletionsCommute: the values of the two confirmation stamps and the queued notices are left open, because
  they do depend on the order.
- Rows are matched one table at a time in `WithdrawalService`; for proposals the identity map is a map of changed rows,
  because no proposal is loaded twice.

/** What readers see: ordered listings, pages of them, and the chat link of a matched pair. */
module Views {
  import opened Rows
  import opened MarketSpec
  import opened Invariants
  import opened Lifecycle
  import opened Runs
  import opened Members
  import opened Counting

  // ---------------------------------------------------------------- ordered listings

  type Order = (Id, Id) -> bool

  /** Offers: created_at descending, then id descending. */
  function NewestFirst(offers: Offers): Order {
    (a: Id, b: Id) => a in offers && b in offers
                      && (offers[b].createdAt < offers[a].createdAt
                          || (offers[b].createdAt == offers[a].createdAt && b < a))
  }

  /** Proposals: deadline ascending, then created_at descending, then id descending. */
  function DueFirst(proposals: Proposals): Order {
    (a: Id, b: Id) =>
      a in proposals && b in proposals
      && (|| proposals[a].draft.deadline < proposals[b].draft.deadline
          || (proposals[a].draft.deadline == proposals[b].draft.deadline
              && (proposals[b].createdAt < proposals[a].createdAt
                  || (proposals[b].createdAt == proposals[a].createdAt && b < a))))
  }

  ghost predicate SortedBy(ids: seq<Id>, lt: Order) {
    forall i, j :: 0 <= i < j < |ids| ==> lt(ids[i], ids[j])
  }

  /** `ids` is an answer to "the rows of `members`, ordered by `lt`". */
  ghost predicate Lists(ids: seq<Id>, members: set<Id>, lt: Order) {
    SeqSet(ids) == members && SortedBy(ids, lt)
  }

  ghost predicate StrictTotal(members: set<Id>, lt: Order) {
    && (forall a :: a in members ==> !lt(a, a))
    && (forall a, b, c :: a in members && b in members && c in members && lt(a, b) && lt(b, c) ==> lt(a, c))
    && (forall a, b :: a in members && b in members && a != b ==> lt(a, b) || lt(b, a))
  }

  lemma NewestFirstIsStrictTotal(offers: Offers, members: set<Id>)
    requires members <= offers.Keys
    ensures StrictTotal(members, NewestFirst(offers))
  {
  }

  lemma DueFirstIsStrictTotal(proposals: Proposals, members: set<Id>)
    requires members <= proposals.Keys
    ensures StrictTotal(members, DueFirst(proposals))
  {
  }

  /** Down a listing of proposals the deadlines never fall; of equal ones the newer comes first, then the greater id. */
  lemma DueFirstReads(proposals: Proposals, members: set<Id>, ids: seq<Id>, i: nat, j: nat)
    requires members <= proposals.Keys && Lists(ids, members, DueFirst(proposals)) && i < j < |ids|
    ensures ids[i] in proposals && ids[j] in proposals
    ensures var a, b := proposals[ids[i]], proposals[ids[j]];
            && a.draft.deadline <= b.draft.deadline
            && (a.draft.deadline == b.draft.deadline ==> b.createdAt <= a.createdAt)
            && (a.draft.deadline == b.draft.deadline && b.createdAt == a.createdAt ==> ids[j] < ids[i])
  {
    assert DueFirst(proposals)(ids[i], ids[j]);
  }

  /** Down a listing of offers they only get older, and of equally old ones the greater id comes first. */
  lemma NewestFirstReads(offers: Offers, members: set<Id>, ids: seq<Id>, i: nat, j: nat)
    requires members <= offers.Keys && Lists(ids, members, NewestFirst(offers)) && i < j < |ids|
    ensures ids[i] in offers && ids[j] in offers
    ensures var a, b := offers[ids[i]], offers[ids[j]];
            b.createdAt <= a.createdAt && (b.createdAt == a.createdAt ==> ids[j] < ids[i])
  {
    assert NewestFirst(offers)(ids[i], ids[j]);
  }

  /** The least row comes first in every listing. */
  lemma HeadIsLeast(ids: seq<Id>, members: set<Id>, lt: Order, a: Id)
    requires Lists(ids, members, lt) && StrictTotal(members, lt) && ids != [] && a in members
    ensures a == ids[0] || lt(ids[0], a)
    ensures Lists(ids[1..], members - {ids[0]}, lt)
  {
    assert a in SeqSet(ids);
    forall b | b in ids[1..] ensures b in members && lt(ids[0], b) {
      var i :| 0 <= i < |ids| - 1 && ids[1..][i] == b;
      assert lt(ids[0], ids[i + 1]) && b in SeqSet(ids);
    }
    forall b | b in members - {ids[0]} ensures b in ids[1..] {
      assert b in SeqSet(ids);
      var i :| 0 <= i < |ids| && ids[i] == b;
      assert ids[1..][i - 1] == b;
    }
    assert ids[0] in SeqSet(ids);
    assert SeqSet(ids[1..]) == members - {ids[0]};
  }

  lemma ListingSize(ids: seq<Id>, members: set<Id>, lt: Order)
    requires Lists(ids, members, lt) && StrictTotal(members, lt)
    ensures |ids| == |members|
  {
    forall i, j | 0 <= i < j < |ids| ensures ids[i] != ids[j] {
      assert lt(ids[i], ids[j]) && ids[i] in SeqSet(ids);
    }
    DistinctSeqSize(ids);
  }

  lemma HeadsAgree(members: set<Id>, lt: Order, a: Id, b: Id)
    requires StrictTotal(members, lt) && a in members && b in members
    requires (a == b || lt(a, b)) && (b == a || lt(b, a))
    ensures a == b
  {
  }

  /** An ordered query has one answer. */
  lemma {:induction false} ListingIsUnique(xs: seq<Id>, ys: seq<Id>, members: set<Id>, lt: Order)
    requires StrictTotal(members, lt) && Lists(xs, members, lt) && Lists(ys, members, lt)
    ensures xs == ys
  {
    ListingSize(xs, members, lt);
    ListingSize(ys, members, lt);
    if members != {} {
      assert xs[0] in SeqSet(xs) && ys[0] in SeqSet(ys);
      HeadIsLeast(xs, members, lt, ys[0]);
      HeadIsLeast(ys, members, lt, xs[0]);
      HeadsAgree(members, lt, xs[0], ys[0]);
      ListingIsUnique(xs[1..], ys[1..], members - {xs[0]}, lt);
      assert xs == [xs[0]] + xs[1..] && ys == [ys[0]] + ys[1..];
    }
  }

  lemma LeastMember(members: set<Id>, lt: Order) returns (least: Id)
    requires StrictTotal(members, lt) && members != {}
    ensures least in members && forall a :: a in members && a != least ==> lt(least, a)
  {
    var x := Pick(members);
    if members == {x} {
      least := x;
    } else {
      assert members - {x} != {};
      var y := LeastMember(members - {x}, lt);
      least := if lt(x, y) then x else y;
    }
  }

  /** And it has one at all. */
  lemma ListingExists(members: set<Id>, lt: Order) returns (ids: seq<Id>)
    requires StrictTotal(members, lt)
    ensures Lists(ids, members, lt)
  {
    if members == {} {
      ids := [];
    } else {
      var least := LeastMember(members, lt);
      var rest := ListingExists(members - {least}, lt);
      ids := [least] + rest;
      assert SeqSet(ids) == SeqSet(rest) + {least};
      forall i, j | 0 <= i < j < |ids| ensures lt(ids[i], ids[j]) {
        assert rest[j - 1] in SeqSet(rest);
        assert i > 0 ==> ids[i] == rest[i - 1];
      }
    }
  }

  // ---------------------------------------------------------------- pages

  datatype PageResponse<T> = PageResponse(
    content: seq<T>, totalElements: nat, totalPages: nat, pageNumber: int, pageSize: int, first: bool, last: bool)

  function PageResponseOf<T>(content: seq<T>, page: int, size: int, total: nat): PageResponse<T> {
    var pages := TotalPages(total, size);
    PageResponse(content, total, pages, page, size, page <= 0, pages == 0 || page >= pages - 1)
  }

  /** OFFSET page * size LIMIT size. */
  function Page<T>(rows: seq<T>, page: nat, size: nat): seq<T> {
    var from := if page * size < |rows| then page * size else |rows|;
    var to := if from + size < |rows| then from + size else |rows|;
    rows[from..to]
  }

  function FirstPages<T>(rows: seq<T>, pages: nat, size: nat): seq<T> {
    if pages == 0 then [] else FirstPages(rows, pages - 1, size) + Page(rows, pages - 1, size)
  }

  lemma {:induction false} FirstPagesAre<T>(rows: seq<T>, pages: nat, size: nat)
    ensures FirstPages(rows, pages, size) == rows[..if pages * size < |rows| then pages * size else |rows|]
  {
    if pages > 0 {
      FirstPagesAre(rows, pages - 1, size);
      assert pages * size == (pages - 1) * size + size;
    }
  }

  function TotalPages(total: nat, size: int): nat {
    if size > 0 && total > 0 then (total + size - 1) / size else 0
  }

  lemma NothingAfterTheLastPage<T>(rows: seq<T>, page: nat, size: nat)
    requires size > 0
    ensures TotalPages(|rows|, size) <= page + 1 <==>
                forall later: nat :: later > page ==> Page(rows, later, size) == []
  {
    var pages := TotalPages(|rows|, size);
    CeilingCovers(|rows|, size, pages);
    PageEmptyIff(rows, page + 1, size, pages);
    forall later: nat | later > page && pages <= page + 1 ensures Page(rows, later, size) == [] {
      PageEmptyIff(rows, later, size, pages);
    }
  }

  /**
   * The pages from the first to the last concatenate to the whole listing, each element once, and `last` is set on a
   * page exactly when no page after it holds anything.
   */
  lemma PagesCoverTheListing<T>(rows: seq<T>, page: nat, size: nat)
    requires size > 0
    ensures var response := PageResponseOf(Page(rows, page, size), page, size, |rows|);
            && FirstPages(rows, response.totalPages, size) == rows
            && (response.last <==> forall later: nat :: later > page ==> Page(rows, later, size) == [])
            && (page < response.totalPages <==> Page(rows, page, size) != [])
            && (response.first <==> page == 0) && response.totalElements == |rows|
            && response.pageNumber == page && response.pageSize == size && response.content == Page(rows, page, size)
            && |response.content| <= size
            && (forall i :: 0 <= i < |response.content| ==>
                  page * size + i < |rows| && response.content[i] == rows[page * size + i])
  {
    var pages := TotalPages(|rows|, size);
    CeilingCovers(|rows|, size, pages);
    FirstPagesAre(rows, pages, size);
    PageEmptyIff(rows, page, size, pages);
    NothingAfterTheLastPage(rows, page, size);
    PageIs(rows, page, size);
  }

  lemma PageIs<T>(rows: seq<T>, page: nat, size: nat)
    ensures |Page(rows, page, size)| <= size
    ensures forall i :: 0 <= i < |Page(rows, page, size)| ==>
              page * size + i < |rows| && Page(rows, page, size)[i] == rows[page * size + i]
  {
  }

  lemma CeilingCovers(total: nat, size: nat, pages: nat)
    requires size > 0 && pages == if total > 0 then (total + size - 1) / size else 0
    ensures total <= pages * size && (pages > 0 ==> (pages - 1) * size < total)
  {
    if total > 0 {
      var r := (total + size - 1) % size;
      assert total + size - 1 == size * pages + r;
      assert (pages - 1) * size == pages * size - size;
    }
  }

  lemma PageEmptyIff<T>(rows: seq<T>, page: nat, size: nat, pages: nat)
    requires size > 0 && |rows| <= pages * size && (pages > 0 ==> (pages - 1) * size < |rows|)
    ensures Page(rows, page, size) == [] <==> pages <= page
  {
    if pages <= page {
      Scaled(pages, page, size);
    } else {
      Scaled(page, pages - 1, size);
    }
  }

  lemma Scaled(a: nat, b: nat, size: nat)
    requires a <= b
    ensures a * size <= b * size
  {
  }

  // ---------------------------------------------------------------- the owner's page

  ghost function OwnedBy(proposals: Proposals, u: UserId, statuses: set<ProposalStatus>): set<Id> {
    set p | p in proposals && proposals[p].orderer == u && (statuses == {} || proposals[p].status in statuses)
  }

  ghost function OffersOfAny(offers: Offers, pids: set<Id>): set<Id> {
    set o | o in offers && offers[o].proposal in pids
  }

  function OnlyOf(offers: Offers, ids: seq<Id>, pid: Id): seq<Id>
    requires forall i :: 0 <= i < |ids| ==> ids[i] in offers
  {
    if ids == [] then []
    else
      var rest := OnlyOf(offers, ids[..|ids| - 1], pid);
      if offers[ids[|ids| - 1]].proposal == pid then rest + [ids[|ids| - 1]] else rest
  }

  lemma {:induction false} OnlyOfKeepsOrder(offers: Offers, ids: seq<Id>, pid: Id, lt: Order)
    requires forall i :: 0 <= i < |ids| ==> ids[i] in offers
    requires SortedBy(ids, lt)
    ensures SortedBy(OnlyOf(offers, ids, pid), lt)
    ensures forall o :: o in OnlyOf(offers, ids, pid) <==> o in ids && offers[o].proposal == pid
  {
    if ids != [] {
      var init, last := ids[..|ids| - 1], ids[|ids| - 1];
      var rest := OnlyOf(offers, init, pid);
      OnlyOfKeepsOrder(offers, init, pid, lt);
      assert ids == init + [last];
      forall i | 0 <= i < |rest| ensures lt(rest[i], last) {
        assert rest[i] in init;
        var k :| 0 <= k < |init| && init[k] == rest[i];
        assert lt(ids[k], ids[|ids| - 1]);
      }
    }
  }

  const WITHDRAWN_NAME := "탈퇴한 사용자"

  /** A user as other users see them. */
  datatype Profile = Profile(name: string, level: nat)

  function ProfileOf(users: map<UserId, UserRow>, u: UserId): Profile {
    if u !in users then Profile("", 0)
    else if users[u].deleted then Profile(WITHDRAWN_NAME, users[u].level)
    else Profile(if users[u].name.Some? then users[u].name.value else "", users[u].level)
  }

  /** Everyone is shown with name and level while a member, and without the name for good after a withdrawal. */
  lemma ProfilesShown(s: State, now: Time, run: seq<Event>, u: UserId)
    requires Reachable(s, now) && Legal(s, now, run) && u in s.users
    ensures s.users[u].deleted ==> ProfileOf(Exec(s, run).users, u) == Profile("탈퇴한 사용자", s.users[u].level)
    ensures !s.users[u].deleted && s.users[u].name.Some? ==>
              ProfileOf(s.users, u) == Profile(s.users[u].name.value, s.users[u].level)
  {
    if s.users[u].deleted {
      WithdrawalIsFinal(s, now, run, u);
    }
  }

  datatype OwnOffer = OwnOffer(id: Id, proposal: Id, runner: UserId, runnerProfile: Profile, status: OfferStatus,
                               createdAt: Time)

  datatype OwnProposal = OwnProposal(
    id: Id, orderer: UserId, ordererProfile: Profile, draft: Draft, status: ProposalStatus, createdAt: Time,
    offerCount: nat, offers: seq<OwnOffer>)

  function OwnOfferOf(users: map<UserId, UserRow>, offers: Offers, o: Id): OwnOffer
    requires o in offers
  {
    OwnOffer(o, offers[o].proposal, offers[o].runner, ProfileOf(users, offers[o].runner), offers[o].status,
             offers[o].createdAt)
  }

  function OfferIds(shown: seq<OwnOffer>): (ids: seq<Id>)
    ensures |ids| == |shown| && forall i :: 0 <= i < |ids| ==> ids[i] == shown[i].id
  {
    if shown == [] then [] else OfferIds(shown[..|shown| - 1]) + [shown[|shown| - 1].id]
  }

  /** Appends each offer, in query order, to the bucket of its proposal. */
  method GroupOffers(offers: Offers, proposalIds: seq<Id>, ids: seq<Id>) returns (buckets: map<Id, seq<Id>>)
    requires forall i :: 0 <= i < |ids| ==> ids[i] in offers
    ensures forall p :: p in proposalIds ==> p in buckets && buckets[p] == OnlyOf(offers, ids, p)
  {
    buckets := map p | p in proposalIds :: [];
    for k := 0 to |ids|
      invariant forall p :: p in proposalIds ==> p in buckets
      invariant forall p :: p in buckets ==> buckets[p] == OnlyOf(offers, ids[..k], p)
      invariant forall p :: p !in buckets ==> OnlyOf(offers, ids[..k], p) == []
    {
      var pid := offers[ids[k]].proposal;
      assert ids[..k + 1][..k] == ids[..k];
      buckets := buckets[pid := (if pid in buckets then buckets[pid] else []) + [ids[k]]];
    }
    assert ids[..|ids|] == ids;
  }

  /** An offer as the page shows it. */
  predicate ShowsOffer(shown: OwnOffer, users: map<UserId, UserRow>, offers: Offers, pid: Id) {
    && shown.id in offers && shown.proposal == pid && shown.runner == offers[shown.id].runner
    && shown.runnerProfile == ProfileOf(users, offers[shown.id].runner)
    && shown.status == offers[shown.id].status && shown.createdAt == offers[shown.id].createdAt
  }

  /** A row of the owner's page, with its offers as the proposal's own detail query lists them. */
  ghost predicate IsOwnRow(row: OwnProposal, users: map<UserId, UserRow>, proposals: Proposals, offers: Offers, pid: Id)
  {
    && row.id == pid && pid in proposals
    && row.orderer == proposals[pid].orderer && row.ordererProfile == ProfileOf(users, proposals[pid].orderer)
    && row.draft == proposals[pid].draft && row.status == proposals[pid].status
    && row.createdAt == proposals[pid].createdAt
    && Lists(OfferIds(row.offers), OffersOf(offers, pid), NewestFirst(offers))
    && (forall i :: 0 <= i < |row.offers| ==> ShowsOffer(row.offers[i], users, offers, pid))
    && row.offerCount == |OffersOf(offers, pid)|
  }

  lemma ListingMembers(ids: seq<Id>, members: set<Id>, lt: Order, keys: set<Id>)
    requires Lists(ids, members, lt) && members <= keys
    ensures forall i :: 0 <= i < |ids| ==> ids[i] in keys
  {
    forall i | 0 <= i < |ids| ensures ids[i] in keys {
      assert ids[i] in SeqSet(ids);
    }
  }

  lemma OwnedListing(proposals: Proposals, u: UserId, statuses: set<ProposalStatus>, ids: seq<Id>)
    requires Lists(ids, OwnedBy(proposals, u, statuses), DueFirst(proposals))
    ensures |ids| == |OwnedBy(proposals, u, statuses)|
    ensures forall i :: 0 <= i < |ids| ==> ids[i] in proposals.Keys
  {
    DueFirstIsStrictTotal(proposals, OwnedBy(proposals, u, statuses));
    ListingSize(ids, OwnedBy(proposals, u, statuses), DueFirst(proposals));
    ListingMembers(ids, OwnedBy(proposals, u, statuses), DueFirst(proposals), proposals.Keys);
  }

  lemma PageMembers(ids: seq<Id>, page: nat, size: nat, keys: set<Id>)
    requires forall i :: 0 <= i < |ids| ==> ids[i] in keys
    ensures forall i :: 0 <= i < |Page(ids, page, size)| ==> Page(ids, page, size)[i] in keys
  {
  }

  /**
   * The owner's page. `listing` and `offerIds` are the database's answers to the two ordered queries. Each row's
   * offers come out as that proposal's own detail query would list them.
   */
  method SearchOwnerProposals(s: State, u: UserId, statuses: set<ProposalStatus>, page: nat, size: nat,
                              listing: seq<Id>, offerIds: seq<Id>) returns (r: PageResponse<OwnProposal>)
    requires Lists(listing, OwnedBy(s.proposals.rows, u, statuses), DueFirst(s.proposals.rows))
    requires Lists(offerIds, OffersOfAny(s.offers.rows, SeqSet(Page(listing, page, size))), NewestFirst(s.offers.rows))
    ensures r == PageResponseOf(r.content, page, size, |OwnedBy(s.proposals.rows, u, statuses)|)
    ensures |r.content| == |Page(listing, page, size)|
    ensures forall i :: 0 <= i < |r.content| ==>
              r.content[i].orderer == u && (statuses != {} ==> r.content[i].status in statuses)
    ensures forall i :: 0 <= i < |r.content| ==>
              IsOwnRow(r.content[i], s.users, s.proposals.rows, s.offers.rows, Page(listing, page, size)[i])
  {
    var proposals, offers := s.proposals.rows, s.offers.rows;
    var ids := Page(listing, page, size);
    OwnedListing(proposals, u, statuses, listing);
    ListingMembers(listing, OwnedBy(proposals, u, statuses), DueFirst(proposals), OwnedBy(proposals, u, statuses));
    PageMembers(listing, page, size, proposals.Keys);
    ListingMembers(offerIds, OffersOfAny(offers, SeqSet(ids)), NewestFirst(offers), offers.Keys);
    PageMembers(listing, page, size, OwnedBy(proposals, u, statuses));
    var rows := OwnRows(s.users, proposals, offers, ids, offerIds);
    r := PageResponseOf(rows, page, size, |listing|);
  }

  function OwnRowOf(users: map<UserId, UserRow>, proposals: Proposals, offers: Offers, pid: Id,
                    mine: seq<Id>): OwnProposal
    requires pid in proposals && forall i :: 0 <= i < |mine| ==> mine[i] in offers
  {
    var p := proposals[pid];
    OwnProposal(pid, p.orderer, ProfileOf(users, p.orderer), p.draft, p.status, p.createdAt, |mine|,
                seq(|mine|, i requires 0 <= i < |mine| => OwnOfferOf(users, offers, mine[i])))
  }

  lemma OwnRowIs(users: map<UserId, UserRow>, proposals: Proposals, offers: Offers, pid: Id, mine: seq<Id>)
    requires pid in proposals && forall i :: 0 <= i < |mine| ==> mine[i] in offers
    requires Lists(mine, OffersOf(offers, pid), NewestFirst(offers)) && |mine| == |OffersOf(offers, pid)|
    ensures IsOwnRow(OwnRowOf(users, proposals, offers, pid, mine), users, proposals, offers, pid)
  {
    assert OfferIds(OwnRowOf(users, proposals, offers, pid, mine).offers) == mine;
    ListingMembers(mine, OffersOf(offers, pid), NewestFirst(offers), OffersOf(offers, pid));
  }

  method OwnRows(users: map<UserId, UserRow>, proposals: Proposals, offers: Offers, ids: seq<Id>, offerIds: seq<Id>)
    returns (rows: seq<OwnProposal>)
    requires forall i :: 0 <= i < |ids| ==> ids[i] in proposals
    requires forall i :: 0 <= i < |offerIds| ==> offerIds[i] in offers
    requires Lists(offerIds, OffersOfAny(offers, SeqSet(ids)), NewestFirst(offers))
    ensures |rows| == |ids|
    ensures forall i :: 0 <= i < |ids| ==> IsOwnRow(rows[i], users, proposals, offers, ids[i])
  {
    var buckets := GroupOffers(offers, ids, offerIds);
    rows := [];
    for k := 0 to |ids|
      invariant |rows| == k
      invariant forall i :: 0 <= i < k ==> IsOwnRow(rows[i], users, proposals, offers, ids[i])
    {
      assert ids[k] in ids;
      var mine := buckets[ids[k]];
      BucketIsDetail(offers, ids, offerIds, ids[k]);
      ListingMembers(mine, OffersOf(offers, ids[k]), NewestFirst(offers), offers.Keys);
      OwnRowIs(users, proposals, offers, ids[k], mine);
      rows := rows + [OwnRowOf(users, proposals, offers, ids[k], mine)];
    }
  }

  lemma BucketIsDetail(offers: Offers, pids: seq<Id>, offerIds: seq<Id>, pid: Id)
    requires pid in pids && Lists(offerIds, OffersOfAny(offers, SeqSet(pids)), NewestFirst(offers))
    requires forall i :: 0 <= i < |offerIds| ==> offerIds[i] in offers
    ensures Lists(OnlyOf(offers, offerIds, pid), OffersOf(offers, pid), NewestFirst(offers))
    ensures |OnlyOf(offers, offerIds, pid)| == |OffersOf(offers, pid)|
  {
    OnlyOfKeepsOrder(offers, offerIds, pid, NewestFirst(offers));
    var bucket := OnlyOf(offers, offerIds, pid);
    forall o ensures o in SeqSet(bucket) <==> o in OffersOf(offers, pid) {
      assert o in offerIds <==> o in SeqSet(offerIds);
    }
    NewestFirstIsStrictTotal(offers, OffersOf(offers, pid));
    ListingSize(bucket, OffersOf(offers, pid), NewestFirst(offers));
  }

  // ---------------------------------------------------------------- the chat link

  /** The first of `ids` whose status opens the chat. */
  function FirstOpenChat(offers: Offers, ids: seq<Id>): (found: Option<Id>)
    requires forall i :: 0 <= i < |ids| ==> ids[i] in offers
    ensures found.Some? ==> found.value in ids && Engaged(offers[found.value].status)
    ensures found.None? ==> forall i :: 0 <= i < |ids| ==> !Engaged(offers[ids[i]].status)
  {
    if ids == [] then None
    else if Engaged(offers[ids[0]].status) then Some(ids[0])
    else FirstOpenChat(offers, ids[1..])
  }

  /** What the proposal's detail view shows `viewer`; `ids` is its ordered list of offers. */
  function ProposalChatUrl(p: ProposalRow, offers: Offers, ids: seq<Id>, viewer: UserId): Option<string>
    requires forall i :: 0 <= i < |ids| ==> ids[i] in offers
  {
    var open := FirstOpenChat(offers, ids);
    if open.Some? && PostMatch(p.status) && viewer in {p.orderer, offers[open.value].runner}
    then offers[open.value].openChatUrl else None
  }

  /** What an offer's detail view shows `viewer`. */
  function OfferChatUrl(p: ProposalRow, o: OfferRow, viewer: UserId): Option<string> {
    if Engaged(o.status) && viewer in {p.orderer, o.runner} then o.openChatUrl else None
  }

  lemma EngagedIsFirstOpenChat(proposals: Proposals, offers: Offers, now: Time, pid: Id, ids: seq<Id>, e: Id)
    requires MarketInv(proposals, offers, now) && EngagedIn(offers, pid, e)
    requires SeqSet(ids) == OffersOf(offers, pid) && forall i :: 0 <= i < |ids| ==> ids[i] in offers
    ensures FirstOpenChat(offers, ids) == Some(e)
    ensures pid in proposals && PostMatch(proposals[pid].status)
  {
    assert OfferAt(proposals, offers, e, now);
    assert e in SeqSet(ids);
    var open := FirstOpenChat(offers, ids);
    assert open.Some?;
    assert open.value in SeqSet(ids);
    assert OneEngaged(offers, pid, open.value, e);
  }

  /**
   * The two detail views agree for every viewer: past the match the proposal shows what its execution offer shows, and
   * before it shows nothing; an offer that was not chosen never shows a link. The link is the execution offer's, and is
   * shown to the two parties and to no one else.
   */
  lemma ChatLinksAgree(s: State, now: Time, pid: Id, ids: seq<Id>, viewer: UserId)
    requires Reachable(s, now) && pid in s.proposals.rows
    requires Lists(ids, OffersOf(s.offers.rows, pid), NewestFirst(s.offers.rows))
    requires forall i :: 0 <= i < |ids| ==> ids[i] in s.offers.rows
    ensures var p := s.proposals.rows[pid];
            var shown := ProposalChatUrl(p, s.offers.rows, ids, viewer);
            && (!PostMatch(p.status) ==> shown == None)
            && (forall o :: o in OffersOf(s.offers.rows, pid) ==>
                  OfferChatUrl(p, s.offers.rows[o], viewer)
                  == if o in EngagedOf(s.offers.rows, pid) then shown else None)
            && (forall o :: o in EngagedOf(s.offers.rows, pid) ==>
                  shown == if viewer == p.orderer || viewer == s.offers.rows[o].runner then s.offers.rows[o].openChatUrl
                           else None)
  {
    ReachableInv(s, now);
    forall o | o in EngagedOf(s.offers.rows, pid)
      ensures FirstOpenChat(s.offers.rows, ids) == Some(o) && PostMatch(s.proposals.rows[pid].status)
    {
      EngagedIsFirstOpenChat(s.proposals.rows, s.offers.rows, now, pid, ids, o);
    }
  }
}

/** Reading the record of a dispute, by its proposal or by its offer. */
module DisputeEvidence {
  import opened Rows
  import opened Invariants
  import opened Lifecycle
  import opened Execution

  type Evidences = Table<EvidenceRow>

  function OnProposal(pid: Id): (Id, EvidenceRow) -> bool {
    (id: Id, e: EvidenceRow) => e.proposal == pid
  }

  function OnOffer(oid: Id): (Id, EvidenceRow) -> bool {
    (id: Id, e: EvidenceRow) => e.offer == oid
  }

  function CreatedNoEarlier(): (EvidenceRow, EvidenceRow) -> bool {
    (a: EvidenceRow, b: EvidenceRow) => b.createdAt <= a.createdAt
  }

  function Find(es: Evidences, keep: (Id, EvidenceRow) -> bool): (best: Option<Id>)
    ensures best.Some? ==> best.value in es.rows && keep(best.value, es.rows[best.value])
  {
    Latest(es.rows, Scan(es.rows, es.next, keep), CreatedNoEarlier())
  }

  /** `_ensure_participant`: the refusal, if any. */
  function ParticipantError(s: State, e: EvidenceRow, viewer: UserId): Option<Error> {
    if e.proposal !in s.proposals.rows || e.offer !in s.offers.rows then Some(DisputeEvidenceNotFound)
    else if viewer in {s.proposals.rows[e.proposal].orderer, s.offers.rows[e.offer].runner} then None
    else Some(Forbidden)
  }

  function Shown(s: State, found: Option<Id>, viewer: UserId): Result<Id>
    requires found.Some? ==> found.value in s.evidences.rows
  {
    if found.None? then Err(DisputeEvidenceNotFound)
    else
      var refusal := ParticipantError(s, s.evidences.rows[found.value], viewer);
      if refusal.Some? then Err(refusal.value) else Ok(found.value)
  }

  function GetByProposal(s: State, pid: Id, viewer: UserId): Result<Id> {
    Shown(s, Find(s.evidences, OnProposal(pid)), viewer)
  }

  function GetByOffer(s: State, oid: Id, viewer: UserId): Result<Id> {
    Shown(s, Find(s.evidences, OnOffer(oid)), viewer)
  }

  /** A lookup finds the one row there is to find, or nothing. */
  lemma FindsOnly(es: Evidences, keep: (Id, EvidenceRow) -> bool, d: Id)
    requires es.Bounded() && d in es.rows && keep(d, es.rows[d])
    requires forall d' :: d' in es.rows && keep(d', es.rows[d']) ==> d' == d
    ensures Find(es, keep) == Some(d)
  {
    ScanIsComplete(es.rows, es.next, keep, d);
  }

  lemma FindsNothing(es: Evidences, keep: (Id, EvidenceRow) -> bool)
    requires forall d :: d in es.rows ==> !keep(d, es.rows[d])
    ensures Find(es, keep) == None
  {
  }

  predicate Party(s: State, pid: Id, oid: Id, viewer: UserId) {
    && pid in s.proposals.rows && oid in s.offers.rows
    && (viewer == s.proposals.rows[pid].orderer || viewer == s.offers.rows[oid].runner)
  }

  /** Every record names a pair that was matched. */
  lemma RecordsNamePairs(s: State, now: Time)
    requires Inv(s, now)
    ensures forall d :: d in s.evidences.rows ==>
                EngagedIn(s.offers.rows, s.evidences.rows[d].proposal, s.evidences.rows[d].offer)
  {
    forall d | d in s.evidences.rows
      ensures EngagedIn(s.offers.rows, s.evidences.rows[d].proposal, s.evidences.rows[d].offer)
    {
      assert EvidenceAt(s.proposals.rows, s.offers.rows, s.evidences.rows, d);
    }
  }

  /** What the two queries find for a pair in dispute. */
  lemma FindsTheRecord(s: State, now: Time, pid: Id, oid: Id) returns (d: Id)
    requires Reachable(s, now) && pid in s.proposals.rows && Contested(s.proposals.rows[pid].status)
    requires oid in EngagedOf(s.offers.rows, pid)
    ensures Find(s.evidences, OnProposal(pid)) == Find(s.evidences, OnOffer(oid)) == Some(d)
    ensures d in s.evidences.rows && s.evidences.rows[d].proposal == pid && s.evidences.rows[d].offer == oid
    ensures EvidenceFor(s.evidences.rows, pid) == {d}
  {
    OneEvidencePerDispute(s, now, pid);
    ReachableInv(s, now);
    var es := s.evidences.rows;
    d :| d in es && EvidenceFor(es, pid) == {d} && NamesThePair(s, pid, es[d])
        && EvidenceOnOffer(es, es[d].offer) == {d};
    assert es[d].offer == oid && d in EvidenceFor(es, pid);
    forall d' | d' in es && (es[d'].proposal == pid || es[d'].offer == oid) ensures d' == d {
      assert d' in EvidenceFor(es, pid) + EvidenceOnOffer(es, oid);
    }
    FindsOnly(s.evidences, OnProposal(pid), d);
    FindsOnly(s.evidences, OnOffer(oid), d);
  }

  /**
   * For every viewer: a contested proposal and its execution offer lead to the same single record, shown to the two
   * parties and to no one else; any other offer, and any proposal not contested, leads to none.
   */
  lemma LookupsAgree(s: State, now: Time, pid: Id, oid: Id, viewer: UserId)
    requires Reachable(s, now) && pid in s.proposals.rows && oid in OffersOf(s.offers.rows, pid)
    ensures var byProposal, byOffer := GetByProposal(s, pid, viewer), GetByOffer(s, oid, viewer);
            if !Contested(s.proposals.rows[pid].status) then
              byProposal == byOffer == Err(DisputeEvidenceNotFound)
            else if oid !in EngagedOf(s.offers.rows, pid) then
              byOffer == Err(DisputeEvidenceNotFound)
            else if !Party(s, pid, oid, viewer) then
              byProposal == byOffer == Err(Forbidden)
            else
              byProposal == byOffer && byOffer.Ok? && EvidenceFor(s.evidences.rows, pid) == {byOffer.value}
  {
    ReachableInv(s, now);
    RecordsNamePairs(s, now);
    var es := s.evidences.rows;
    if Contested(s.proposals.rows[pid].status) && oid in EngagedOf(s.offers.rows, pid) {
      var d := FindsTheRecord(s, now, pid, oid);
    } else {
      if !Contested(s.proposals.rows[pid].status) {
        OneEvidencePerDispute(s, now, pid);
        assert forall d :: d in es && es[d].proposal == pid ==> d in EvidenceFor(es, pid);
        FindsNothing(s.evidences, OnProposal(pid));
      }
      assert forall d :: d in es && es[d].offer == oid ==> es[d].proposal == pid;
      FindsNothing(s.evidences, OnOffer(oid));
    }
  }
}

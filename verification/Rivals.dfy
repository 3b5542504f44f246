/** The offers that wait for the same proposal, as a query lists them and as a set. */
module Rivals {
  import opened Rows
  import opened MarketSpec
  import opened Counting

  ghost function WaitingOf(offers: map<Id, OfferRow>, pid: Id): set<Id> {
    WaitingExcept(offers, pid, None)
  }

  lemma RivalsDistinct(offers: Table<OfferRow>, pid: Id, oid: Id)
    ensures var rivals := WaitingRivals(offers, pid, oid);
            forall i, j :: 0 <= i < j < |rivals| ==> rivals[i] != rivals[j]
  {
    ScanIsOrdered(offers.rows, offers.next, WaitingRival(pid, oid));
    assert WaitingRivals(offers, pid, oid) == Scan(offers.rows, offers.next, WaitingRival(pid, oid));
  }

  /** The query for the losers and the bulk update that spares the winner select the same rows, equally many. */
  lemma RivalsAre(offers: Table<OfferRow>, pid: Id, oid: Id)
    requires offers.Bounded()
    ensures SeqSet(WaitingRivals(offers, pid, oid)) == WaitingExcept(offers.rows, pid, Some(oid))
                == WaitingOf(offers.rows, pid) - {oid}
    ensures |RejectedRunners(offers, pid, oid)| == |WaitingRivals(offers, pid, oid)|
                == |WaitingExcept(offers.rows, pid, Some(oid))|
  {
    var rivals := WaitingRivals(offers, pid, oid);
    RivalsDistinct(offers, pid, oid);
    DistinctSeqSize(rivals);
    forall o | o in WaitingExcept(offers.rows, pid, Some(oid)) ensures o in rivals {
      ScanIsComplete(offers.rows, offers.next, WaitingRival(pid, oid), o);
    }
    assert SeqSet(rivals) == WaitingExcept(offers.rows, pid, Some(oid));
  }
}

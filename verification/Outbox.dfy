/** The worker's passes end, within a bound; the counters of the inbox add up. */
module Outbox {
  import opened Rows
  import opened OutboxSpec
  import opened Runs
  import opened Invariants
  import opened Lifecycle
  import opened Counting
  import Views

  // ---------------------------------------------------------------- sequences of passes

  /** One pass: the database's answer, whom the push service delivers to, and who has a device by then. */
  datatype PassInput = PassInput(batch: seq<Id>, delivered: set<Id>, tokens: set<UserId>, at: Time)

  function After(rows: Inbox, p: PassInput): Inbox {
    SendBatch(rows, p.tokens, p.batch, p.delivered, p.at)
  }

  function AfterAll(rows: Inbox, passes: seq<PassInput>): Inbox {
    if passes == [] then rows else AfterAll(After(rows, passes[0]), passes[1..])
  }

  /** Every pass is given a batch the database may answer with, and nothing else happens in between. */
  ghost predicate Consecutive(rows: Inbox, pass: Pass, passes: seq<PassInput>) {
    passes != [] ==> OldestBatch(rows, pass, passes[0].batch) && Consecutive(After(rows, passes[0]), pass, passes[1..])
  }

  /** A pass of the worker within a run is one of these. */
  lemma WorkerStepIsAPass(s: State, pass: Pass, batch: seq<Id>, delivered: set<Id>, t: Ticks)
    ensures Step(s, ReqWorker(pass, batch, delivered), t).state
         == s.(notifications := s.notifications.(rows := After(s.notifications.rows,
                                                               PassInput(batch, delivered, s.fcmTokens.Keys, t.t0))))
  {
  }

  lemma BatchSize(rows: Inbox, pass: Pass, batch: seq<Id>)
    requires OldestBatch(rows, pass, batch)
    ensures |SeqSet(batch)| == |batch| && SeqSet(batch) <= EligibleIds(rows, pass)
    ensures |EligibleIds(rows, pass)| <= BATCH_SIZE ==> SeqSet(batch) == EligibleIds(rows, pass)
    ensures batch == [] <==> EligibleIds(rows, pass) == {}
  {
    DistinctSeqSize(batch);
    if |EligibleIds(rows, pass)| <= BATCH_SIZE {
      SameSizeSubset(SeqSet(batch), EligibleIds(rows, pass));
    }
  }

  lemma SameSizeSubset<T>(xs: set<T>, ys: set<T>)
    requires xs <= ys && |xs| == |ys|
    ensures xs == ys
  {
    assert ys == xs + (ys - xs);
  }

  function OldestFirst(rows: Inbox): Views.Order {
    (a: Id, b: Id) => a in rows && b in rows
        && (rows[a].createdAt < rows[b].createdAt || (rows[a].createdAt == rows[b].createdAt && a < b))
  }

  /** The query for a batch always has an answer. */
  lemma BatchExists(rows: Inbox, pass: Pass) returns (batch: seq<Id>)
    ensures OldestBatch(rows, pass, batch)
  {
    var members := EligibleIds(rows, pass);
    var ids := Views.ListingExists(members, OldestFirst(rows));
    Views.ListingSize(ids, members, OldestFirst(rows));
    batch := ids[..if |ids| < BATCH_SIZE then |ids| else BATCH_SIZE];
    forall i | 0 <= i < |batch| ensures batch[i] in members {
      assert ids[i] in SeqSet(ids);
    }
    forall i, j | 0 <= i < j < |batch|
      ensures batch[i] != batch[j] && rows[batch[i]].createdAt <= rows[batch[j]].createdAt
    {
      assert OldestFirst(rows)(ids[i], ids[j]);
    }
    forall n, i | n in members && n !in batch && 0 <= i < |batch|
      ensures rows[batch[i]].createdAt <= rows[n].createdAt
    {
      assert n in SeqSet(ids);
      var j :| 0 <= j < |ids| && ids[j] == n;
      assert j >= |batch|;
      assert OldestFirst(rows)(ids[i], ids[j]);
    }
  }

  // ---------------------------------------------------------------- flushing

  /** A flush takes a batch out of PENDING and puts nothing in. */
  lemma FlushShrinks(rows: Inbox, p: PassInput)
    requires OldestBatch(rows, Flush, p.batch)
    ensures EligibleIds(After(rows, p), Flush) == EligibleIds(rows, Flush) - SeqSet(p.batch)
    ensures |EligibleIds(After(rows, p), Flush)| == |EligibleIds(rows, Flush)| - |p.batch|
  {
    BatchSize(rows, Flush, p.batch);
  }

  /** ceil(n / 100) flushes send or fail all n PENDING rows. */
  lemma {:induction false} FlushesEmptyTheQueue(rows: Inbox, passes: seq<PassInput>)
    requires Consecutive(rows, Flush, passes)
    requires |EligibleIds(rows, Flush)| <= |passes| * BATCH_SIZE
    ensures EligibleIds(AfterAll(rows, passes), Flush) == {}
  {
    if passes != [] {
      FlushShrinks(rows, passes[0]);
      FlushesEmptyTheQueue(After(rows, passes[0]), passes[1..]);
    }
  }

  // ---------------------------------------------------------------- retrying

  /** FAILED rows that failed fewer than `k` times. */
  function FailedBelow(rows: Inbox, k: nat): set<Id> {
    set n | n in rows && rows[n].status.Failed? && rows[n].retryCount < k
  }

  /** The same sum, counted level by level. */
  function LevelSum(rows: Inbox): nat {
    |FailedBelow(rows, 1)| + |FailedBelow(rows, 2)| + |FailedBelow(rows, 3)|
  }

  ghost function TriesLeft(rows: Inbox, ids: set<Id>): nat
    requires ids <= EligibleIds(rows, Retry)
  {
    if ids == {} then 0 else MAX_RETRY - rows[Pick(ids)].retryCount + TriesLeft(rows, ids - {Pick(ids)})
  }

  /** The sum of `3 - retry_count` over the FAILED rows below the limit. */
  ghost function Remaining(rows: Inbox): nat {
    TriesLeft(rows, EligibleIds(rows, Retry))
  }

  lemma LevelWithout(rows: Inbox, ids: set<Id>, x: Id, k: nat)
    requires ids <= EligibleIds(rows, Retry) && x in ids
    ensures |FailedBelow(rows, k) * ids|
         == |FailedBelow(rows, k) * (ids - {x})| + if rows[x].retryCount < k then 1 else 0
  {
    if rows[x].retryCount < k {
      assert FailedBelow(rows, k) * ids == FailedBelow(rows, k) * (ids - {x}) + {x};
    } else {
      assert FailedBelow(rows, k) * ids == FailedBelow(rows, k) * (ids - {x});
    }
  }

  lemma {:induction false} TriesByLevel(rows: Inbox, ids: set<Id>)
    requires ids <= EligibleIds(rows, Retry)
    ensures TriesLeft(rows, ids) == |FailedBelow(rows, 1) * ids| + |FailedBelow(rows, 2) * ids|
                + |FailedBelow(rows, 3) * ids|
  {
    if ids != {} {
      var x := Pick(ids);
      TriesByLevel(rows, ids - {x});
      LevelWithout(rows, ids, x, 1);
      LevelWithout(rows, ids, x, 2);
      LevelWithout(rows, ids, x, 3);
    }
  }

  lemma RemainingIsLevelSum(rows: Inbox)
    ensures Remaining(rows) == LevelSum(rows)
  {
    TriesByLevel(rows, EligibleIds(rows, Retry));
    assert FailedBelow(rows, 1) * EligibleIds(rows, Retry) == FailedBelow(rows, 1);
    assert FailedBelow(rows, 2) * EligibleIds(rows, Retry) == FailedBelow(rows, 2);
    assert FailedBelow(rows, 3) * EligibleIds(rows, Retry) == FailedBelow(rows, 3);
  }

  ghost function BatchAt(rows: Inbox, batch: seq<Id>, k: nat): set<Id> {
    set n | n in batch && n in rows && rows[n].retryCount == k
  }

  lemma LevelKeeps(rows: Inbox, p: PassInput, k: nat)
    requires OldestBatch(rows, Retry, p.batch) && 0 < k <= MAX_RETRY
    ensures FailedBelow(After(rows, p), k) + BatchAt(rows, p.batch, k - 1) <= FailedBelow(rows, k)
  {
    forall n | n in p.batch ensures n in rows && rows[n].status.Failed? {
      var i :| 0 <= i < |p.batch| && p.batch[i] == n;
      assert p.batch[i] in EligibleIds(rows, Retry);
    }
  }

  /** The rows tried for the last time at level `k` leave that level. */
  lemma LevelShrinks(rows: Inbox, p: PassInput, k: nat)
    requires OldestBatch(rows, Retry, p.batch) && 0 < k <= MAX_RETRY
    ensures FailedBelow(After(rows, p), k) <= FailedBelow(rows, k)
    ensures |FailedBelow(After(rows, p), k)| + |BatchAt(rows, p.batch, k - 1)| <= |FailedBelow(rows, k)|
  {
    var left, tried := FailedBelow(After(rows, p), k), BatchAt(rows, p.batch, k - 1);
    LevelKeeps(rows, p, k);
    assert left !! tried;
    SubsetSize(left + tried, FailedBelow(rows, k));
  }

  lemma BatchLevels(rows: Inbox, batch: seq<Id>, n: Id)
    requires OldestBatch(rows, Retry, batch) && n in batch
    ensures n in rows && rows[n].retryCount < MAX_RETRY
  {
    var i :| 0 <= i < |batch| && batch[i] == n;
    assert batch[i] in EligibleIds(rows, Retry);
  }

  lemma BatchSplits(rows: Inbox, batch: seq<Id>)
    requires OldestBatch(rows, Retry, batch)
    ensures SeqSet(batch) == BatchAt(rows, batch, 0) + BatchAt(rows, batch, 1) + BatchAt(rows, batch, 2)
  {
    forall n | n in batch ensures n in rows && rows[n].retryCount < MAX_RETRY {
      BatchLevels(rows, batch, n);
    }
  }

  lemma LevelsApart(rows: Inbox, batch: seq<Id>, k: nat, l: nat)
    requires k != l
    ensures BatchAt(rows, batch, k) !! BatchAt(rows, batch, l)
  {
  }

  lemma ThreeParts<T>(a: set<T>, b: set<T>, c: set<T>)
    requires a !! b && a !! c && b !! c
    ensures |a + b + c| == |a| + |b| + |c|
  {
    assert (a + b) !! c;
  }

  lemma BatchByLevel(rows: Inbox, batch: seq<Id>)
    requires OldestBatch(rows, Retry, batch)
    ensures |BatchAt(rows, batch, 0)| + |BatchAt(rows, batch, 1)| + |BatchAt(rows, batch, 2)| == |batch|
  {
    BatchSize(rows, Retry, batch);
    BatchSplits(rows, batch);
    LevelsApart(rows, batch, 0, 1);
    LevelsApart(rows, batch, 0, 2);
    LevelsApart(rows, batch, 1, 2);
    ThreeParts(BatchAt(rows, batch, 0), BatchAt(rows, batch, 1), BatchAt(rows, batch, 2));
  }

  lemma RetryLowersLevels(rows: Inbox, p: PassInput)
    requires OldestBatch(rows, Retry, p.batch)
    ensures LevelSum(After(rows, p)) + |p.batch| <= LevelSum(rows)
    ensures |FailedBelow(After(rows, p), 3)| <= |FailedBelow(rows, 3)|
  {
    LevelShrinks(rows, p, 1);
    LevelShrinks(rows, p, 2);
    LevelShrinks(rows, p, 3);
    BatchByLevel(rows, p.batch);
  }

  /** Once a pass takes all retryable rows, every later one does, and each takes them a level up. */
  lemma FullPassClearsLevel(rows: Inbox, p: PassInput, k: nat)
    requires OldestBatch(rows, Retry, p.batch) && |FailedBelow(rows, 3)| <= BATCH_SIZE
    requires 0 < k <= MAX_RETRY && FailedBelow(rows, k - 1) == {}
    ensures FailedBelow(After(rows, p), k) == {}
  {
    assert EligibleIds(rows, Retry) == FailedBelow(rows, 3);
    BatchSize(rows, Retry, p.batch);
    forall n ensures n !in FailedBelow(After(rows, p), k) {
      assert n in SeqSet(p.batch) <==> n in FailedBelow(rows, 3);
      assert n !in FailedBelow(rows, k - 1);
    }
  }

  /** Passes that can still find something to retry. */
  function PassesLeft(rows: Inbox): nat {
    if |FailedBelow(rows, 3)| > BATCH_SIZE then LevelSum(rows) / BATCH_SIZE + 3
    else if FailedBelow(rows, 1) != {} then 3
    else if FailedBelow(rows, 2) != {} then 2
    else if FailedBelow(rows, 3) != {} then 1
    else 0
  }

  lemma PassesLeftBounded(rows: Inbox)
    ensures PassesLeft(rows) <= LevelSum(rows) / BATCH_SIZE + 3
    ensures PassesLeft(rows) == 0 <==> EligibleIds(rows, Retry) == {}
  {
    assert EligibleIds(rows, Retry) == FailedBelow(rows, 3);
    SubsetSize(FailedBelow(rows, 1), FailedBelow(rows, 3));
    SubsetSize(FailedBelow(rows, 2), FailedBelow(rows, 3));
  }

  lemma RetryLowersPassesLeft(rows: Inbox, p: PassInput)
    requires OldestBatch(rows, Retry, p.batch)
    ensures p.batch != [] ==> PassesLeft(After(rows, p)) < PassesLeft(rows)
    ensures p.batch == [] ==> After(rows, p) == rows
  {
    assert EligibleIds(rows, Retry) == FailedBelow(rows, 3);
    BatchSize(rows, Retry, p.batch);
    RetryLowersLevels(rows, p);
    PassesLeftBounded(After(rows, p));
    if |FailedBelow(rows, 3)| > BATCH_SIZE {
      assert |p.batch| == BATCH_SIZE;
    } else {
      assert FailedBelow(rows, 0) == {};
      FullPassClearsLevel(rows, p, 1);
      if FailedBelow(rows, 1) == {} {
        FullPassClearsLevel(rows, p, 2);
      }
      if FailedBelow(rows, 2) == {} {
        FullPassClearsLevel(rows, p, 3);
      }
    }
  }

  lemma LevelsShrink(rows: Inbox, rows': Inbox)
    requires FailuresShrink(rows, rows')
    ensures LevelSum(rows') <= LevelSum(rows) && PassesLeft(rows') <= PassesLeft(rows)
  {
    SubsetSize(FailedBelow(rows', 1), FailedBelow(rows, 1));
    SubsetSize(FailedBelow(rows', 2), FailedBelow(rows, 2));
    SubsetSize(FailedBelow(rows', 3), FailedBelow(rows, 3));
  }

  /** No row joins the retryable ones, or slips back among them. */
  predicate FailuresShrink(rows: Inbox, rows': Inbox) {
    && FailedBelow(rows', 1) <= FailedBelow(rows, 1)
    && FailedBelow(rows', 2) <= FailedBelow(rows, 2)
    && FailedBelow(rows', 3) <= FailedBelow(rows, 3)
  }

  // ---------------------------------------------------------------- counters

  ghost function ReadOf(rows: Inbox, u: UserId): set<Id> {
    set n | n in rows && rows[n].user == u && rows[n].status.Read?
  }

  /** The reported read count, total minus unread, is the number of READ rows; no failed row counts as read. */
  lemma StatsAddUp(s: State, now: Time, u: UserId)
    requires Reachable(s, now)
    ensures var stats := StatsOf(s.notifications.rows, u);
            && stats.read == |ReadOf(s.notifications.rows, u)|
            && stats.total == stats.unread + stats.read
            && stats.failed <= stats.unread
  {
    ReachableInv(s, now);
    var rows := s.notifications.rows;
    forall n | n in rows ensures rows[n].readAt.Some? <==> rows[n].status.Read? {
      assert NotificationAt(s.users, rows, n);
    }
    assert RowsOf(rows, u) == UnreadRows(rows, u) + ReadOf(rows, u);
    assert UnreadRows(rows, u) !! ReadOf(rows, u);
    SubsetSize(FailedRows(rows, u), UnreadRows(rows, u));
  }

  /** Marking moves exactly the counted rows from unread to read, and only the caller's. */
  lemma MarkingMovesTheCount(s: State, u: UserId, ids: set<Id>, t: Ticks, v: UserId)
    ensures var out := MarkRead(s, u, ids, t);
            var before, after := StatsOf(s.notifications.rows, v), StatsOf(out.state.notifications.rows, v);
            && out.result.Ok? && out.result.value.Marked?
            && after.total == before.total
            && after.unread == before.unread - (if v == u then out.result.value.count else 0)
  {
    var rows, rows' := s.notifications.rows, MarkRead(s, u, ids, t).state.notifications.rows;
    var marked := UnreadOf(rows, u, ids);
    assert RowsOf(rows', v) == RowsOf(rows, v);
    if v == u {
      assert UnreadRows(rows', v) == UnreadRows(rows, v) - marked && marked <= UnreadRows(rows, v);
    } else {
      assert UnreadRows(rows', v) == UnreadRows(rows, v);
    }
  }
}

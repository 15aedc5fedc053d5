/**
 * Usage reports: `usageBuckets` and the folds of `AdminUsage` in `internal/api/handler/usage.go`,
 * `UsageMetrics.Add` of `internal/storage/usage.go`, and the grouping that the query in
 * `internal/storage/sqlstore/usage.go` asks for. Times are in nanoseconds.
 */
module UsageReports {
  import opened Deployments

  const HOUR := 3_600_000_000_000
  const MAX_BUCKETS := 744

  // ---------- Buckets ----------

  /** A half-open interval. */
  datatype Bucket = Bucket(start: int, end: int)

  /** Any calendar step: an hour, a day or a week in some time zone. */
  type Step = step: int -> int | (forall t: int :: step(t) > t) witness t => t + 1

  /** How many steps it takes from `start` to reach `to`. */
  function Needed(start: int, to: int, step: Step): nat
    decreases to - start
  {
    if start >= to then 0 else 1 + Needed(step(start), to, step)
  }

  function Boundary(start: int, step: Step, k: nat): int
  {
    if k == 0 then start else step(Boundary(start, step, k - 1))
  }

  /** Non-empty intervals that follow each other without a gap and cover exactly [from, to). */
  ghost predicate Partitions(bs: seq<Bucket>, from: int, to: int)
  {
    && (bs == [] <==> from == to)
    && (bs != [] ==> bs[0].start == from && bs[|bs| - 1].end == to)
    && (forall i | 0 <= i < |bs| :: bs[i].start < bs[i].end)
    && (forall i | 0 <= i < |bs| - 1 :: bs[i].end == bs[i + 1].start)
  }

  /** After the first, every bucket starts at its calendar boundary. */
  ghost predicate Along(bs: seq<Bucket>, aligned: int, step: Step)
  {
    forall i | 1 <= i < |bs| :: bs[i].start == Boundary(aligned, step, i)
  }

  /** The last full hour, counted in elapsed hours from local midnight. */
  method HourStart(midnight: int, from: int) returns (start: int)
    requires midnight <= from
    ensures start <= from < start + HOUR && (start - midnight) % HOUR == 0
  {
    start := midnight;
    while start + HOUR <= from
      invariant midnight <= start <= from && (start - midnight) % HOUR == 0
      decreases from - start
    {
      start := start + HOUR;
    }
  }

  /**
   * The buckets of a report: there are too many exactly when more than the limit are needed, and
   * otherwise they partition the interval along the calendar's boundaries.
   */
  method UsageBuckets(from: int, to: int, aligned: int, step: Step) returns (buckets: Option<seq<Bucket>>)
    requires aligned <= from < step(aligned) && from < to
    ensures buckets.None? <==> Needed(aligned, to, step) > MAX_BUCKETS
    ensures buckets.Some? ==>
              && |buckets.value| == Needed(aligned, to, step)
              && Partitions(buckets.value, from, to)
              && Along(buckets.value, aligned, step)
  {
    hide Partitions, Along, Boundary, Needed;
    var start := aligned;
    var bs: seq<Bucket> := [];
    NoBuckets(aligned, step);
    while start < to
      invariant |bs| <= MAX_BUCKETS
      invariant start == Boundary(aligned, step, |bs|)
      invariant Needed(aligned, to, step) == |bs| + Needed(start, to, step)
      invariant bs == [] ==> start == aligned
      invariant bs != [] ==> from < start && Partitions(bs, from, if start < to then start else to)
      invariant Along(bs, aligned, step)
    {
      var end := step(start);
      var lower := if start < from then from else start;
      var upper := if end > to then to else end;
      AppendBucket(bs, from, lower, upper);
      Advance(bs, aligned, start, to, lower, upper, step);
      bs := bs + [Bucket(lower, upper)];
      if |bs| > MAX_BUCKETS {
        return None;
      }
      start := end;
    }
    Arrived(start, to, step);
    buckets := Some(bs);
  }

  lemma NoBuckets(aligned: int, step: Step)
    ensures Boundary(aligned, step, 0) == aligned && Along([], aligned, step)
  {
  }

  lemma Arrived(start: int, to: int, step: Step)
    ensures start >= to ==> Needed(start, to, step) == 0
  {
  }

  lemma Advance(bs: seq<Bucket>, aligned: int, start: int, to: int, lower: int, upper: int, step: Step)
    requires start < to && start == Boundary(aligned, step, |bs|)
    requires bs != [] ==> lower == start
    requires Along(bs, aligned, step)
    ensures Needed(start, to, step) == 1 + Needed(step(start), to, step)
    ensures step(start) == Boundary(aligned, step, |bs| + 1)
    ensures Along(bs + [Bucket(lower, upper)], aligned, step)
  {
  }

  lemma AppendBucket(bs: seq<Bucket>, from: int, lower: int, upper: int)
    requires lower < upper
    requires if bs == [] then lower == from else Partitions(bs, from, lower)
    ensures Partitions(bs + [Bucket(lower, upper)], from, upper)
  {
    var all := bs + [Bucket(lower, upper)];
    forall i | 0 <= i < |all| - 1 ensures all[i].end == all[i + 1].start {
      assert i < |bs| - 1 ==> bs[i].end == bs[i + 1].start;
    }
    assert bs != [] ==> bs[0].start <= bs[|bs| - 1].start by {
      if bs != [] {
        StartsGrow(bs, from, lower, 0, |bs| - 1);
      }
    }
  }

  lemma {:induction false} StartsGrow(bs: seq<Bucket>, from: int, to: int, i: nat, j: nat)
    requires Partitions(bs, from, to) && i <= j < |bs|
    ensures bs[i].start <= bs[j].start && (i < j ==> bs[i].end <= bs[j].start)
    decreases j - i
  {
    if i < j {
      StartsGrow(bs, from, to, i + 1, j);
      assert bs[i].end == bs[i + 1].start;
    }
  }

  predicate Holds(b: Bucket, time: int)
  {
    b.start <= time < b.end
  }

  /** Buckets of a partition do not overlap. */
  lemma NoOverlap(bs: seq<Bucket>, from: int, to: int, i: nat, j: nat, time: int)
    requires Partitions(bs, from, to) && i < |bs| && j < |bs| && Holds(bs[i], time) && Holds(bs[j], time)
    ensures i == j
  {
    if i < j {
      StartsGrow(bs, from, to, i, j);
    } else if j < i {
      StartsGrow(bs, from, to, j, i);
    }
  }

  lemma {:induction false} BucketFrom(bs: seq<Bucket>, from: int, to: int, time: int, i: nat) returns (b: nat)
    requires Partitions(bs, from, to) && i < |bs| && bs[i].start <= time < to
    ensures b < |bs| && Holds(bs[b], time)
    decreases |bs| - i
  {
    if time < bs[i].end {
      b := i;
    } else {
      assert i < |bs| - 1;
      assert bs[i].end == bs[i + 1].start;
      b := BucketFrom(bs, from, to, time, i + 1);
    }
  }

  /** Every moment of the reported interval is in exactly one bucket, and no other moment is in any. */
  lemma EveryMomentHasOneBucket(bs: seq<Bucket>, from: int, to: int, time: int)
    requires Partitions(bs, from, to)
    ensures from <= time < to <==> exists i | 0 <= i < |bs| :: Holds(bs[i], time)
    ensures forall i, j | 0 <= i < |bs| && 0 <= j < |bs| && Holds(bs[i], time) && Holds(bs[j], time) :: i == j
  {
    if from <= time < to {
      var b := BucketFrom(bs, from, to, time, 0);
    }
    forall i | 0 <= i < |bs| && Holds(bs[i], time) ensures from <= time < to {
      StartsGrow(bs, from, to, 0, i);
      StartsGrow(bs, from, to, i, |bs| - 1);
    }
    forall i, j | 0 <= i < |bs| && 0 <= j < |bs| && Holds(bs[i], time) && Holds(bs[j], time) ensures i == j {
      NoOverlap(bs, from, to, i, j, time);
    }
  }

  // ---------- Metrics ----------

  /** The counts and sums of a set of calls; spend is exact here. */
  datatype Metrics = Metrics(
    calls: int, failedCalls: int,
    inputTokens: int, outputTokens: int, totalTokens: int, cacheReadTokens: int, cacheWriteTokens: int,
    reasoningTokens: int,
    knownInputCalls: int, knownOutputCalls: int, knownTokenCalls: int, knownCacheReadCalls: int,
    knownCacheWriteCalls: int, knownReasoningCalls: int, knownCostCalls: int, partialCostCalls: int,
    totalSpend: int, upstreamCostCalls: int, estimatedCostCalls: int, mixedCostCalls: int, legacyCalls: int)

  const NOTHING := Metrics(0, 0, 0, 0, 0, 0, 0, 0, 0, 0, 0, 0, 0, 0, 0, 0, 0, 0, 0, 0, 0)

  function Plus(a: Metrics, b: Metrics): Metrics
  {
    Metrics(
      a.calls + b.calls, a.failedCalls + b.failedCalls,
      a.inputTokens + b.inputTokens, a.outputTokens + b.outputTokens, a.totalTokens + b.totalTokens,
      a.cacheReadTokens + b.cacheReadTokens, a.cacheWriteTokens + b.cacheWriteTokens,
      a.reasoningTokens + b.reasoningTokens,
      a.knownInputCalls + b.knownInputCalls, a.knownOutputCalls + b.knownOutputCalls,
      a.knownTokenCalls + b.knownTokenCalls, a.knownCacheReadCalls + b.knownCacheReadCalls,
      a.knownCacheWriteCalls + b.knownCacheWriteCalls, a.knownReasoningCalls + b.knownReasoningCalls,
      a.knownCostCalls + b.knownCostCalls, a.partialCostCalls + b.partialCostCalls,
      a.totalSpend + b.totalSpend, a.upstreamCostCalls + b.upstreamCostCalls,
      a.estimatedCostCalls + b.estimatedCostCalls, a.mixedCostCalls + b.mixedCostCalls,
      a.legacyCalls + b.legacyCalls)
  }

  class UsageMetrics {
    var calls: int
    var failedCalls: int
    var inputTokens: int
    var outputTokens: int
    var totalTokens: int
    var cacheReadTokens: int
    var cacheWriteTokens: int
    var reasoningTokens: int
    var knownInputCalls: int
    var knownOutputCalls: int
    var knownTokenCalls: int
    var knownCacheReadCalls: int
    var knownCacheWriteCalls: int
    var knownReasoningCalls: int
    var knownCostCalls: int
    var partialCostCalls: int
    var totalSpend: int
    var upstreamCostCalls: int
    var estimatedCostCalls: int
    var mixedCostCalls: int
    var legacyCalls: int

    function Now(): Metrics
      reads this
    {
      Metrics(calls, failedCalls, inputTokens, outputTokens, totalTokens, cacheReadTokens, cacheWriteTokens,
              reasoningTokens, knownInputCalls, knownOutputCalls, knownTokenCalls, knownCacheReadCalls,
              knownCacheWriteCalls, knownReasoningCalls, knownCostCalls, partialCostCalls, totalSpend,
              upstreamCostCalls, estimatedCostCalls, mixedCostCalls, legacyCalls)
    }

    constructor ()
      ensures Now() == NOTHING
    {
      calls, failedCalls, inputTokens, outputTokens, totalTokens := 0, 0, 0, 0, 0;
      cacheReadTokens, cacheWriteTokens, reasoningTokens := 0, 0, 0;
      knownInputCalls, knownOutputCalls, knownTokenCalls, knownCacheReadCalls := 0, 0, 0, 0;
      knownCacheWriteCalls, knownReasoningCalls, knownCostCalls, partialCostCalls := 0, 0, 0, 0;
      totalSpend, upstreamCostCalls, estimatedCostCalls, mixedCostCalls, legacyCalls := 0, 0, 0, 0, 0;
    }

    /** Increments every field. */
    method Add(v: Metrics)
      modifies this
      ensures Now() == Plus(old(Now()), v)
    {
      AddCounts(v);
      AddKnown(v);
      AddCosts(v);
    }

    method AddCounts(v: Metrics)
      modifies `calls, `failedCalls, `inputTokens, `outputTokens, `totalTokens
      modifies `cacheReadTokens, `cacheWriteTokens, `reasoningTokens
      ensures calls == old(calls) + v.calls
      ensures failedCalls == old(failedCalls) + v.failedCalls
      ensures inputTokens == old(inputTokens) + v.inputTokens
      ensures outputTokens == old(outputTokens) + v.outputTokens
      ensures totalTokens == old(totalTokens) + v.totalTokens
      ensures cacheReadTokens == old(cacheReadTokens) + v.cacheReadTokens
      ensures cacheWriteTokens == old(cacheWriteTokens) + v.cacheWriteTokens
      ensures reasoningTokens == old(reasoningTokens) + v.reasoningTokens
    {
      calls := calls + v.calls;
      failedCalls := failedCalls + v.failedCalls;
      inputTokens := inputTokens + v.inputTokens;
      outputTokens := outputTokens + v.outputTokens;
      totalTokens := totalTokens + v.totalTokens;
      cacheReadTokens := cacheReadTokens + v.cacheReadTokens;
      cacheWriteTokens := cacheWriteTokens + v.cacheWriteTokens;
      reasoningTokens := reasoningTokens + v.reasoningTokens;
    }

    method AddKnown(v: Metrics)
      modifies `knownInputCalls, `knownOutputCalls, `knownTokenCalls
      modifies `knownCacheReadCalls, `knownCacheWriteCalls, `knownReasoningCalls
      ensures knownInputCalls == old(knownInputCalls) + v.knownInputCalls
      ensures knownOutputCalls == old(knownOutputCalls) + v.knownOutputCalls
      ensures knownTokenCalls == old(knownTokenCalls) + v.knownTokenCalls
      ensures knownCacheReadCalls == old(knownCacheReadCalls) + v.knownCacheReadCalls
      ensures knownCacheWriteCalls == old(knownCacheWriteCalls) + v.knownCacheWriteCalls
      ensures knownReasoningCalls == old(knownReasoningCalls) + v.knownReasoningCalls
    {
      knownInputCalls := knownInputCalls + v.knownInputCalls;
      knownOutputCalls := knownOutputCalls + v.knownOutputCalls;
      knownTokenCalls := knownTokenCalls + v.knownTokenCalls;
      knownCacheReadCalls := knownCacheReadCalls + v.knownCacheReadCalls;
      knownCacheWriteCalls := knownCacheWriteCalls + v.knownCacheWriteCalls;
      knownReasoningCalls := knownReasoningCalls + v.knownReasoningCalls;
    }

    method AddCosts(v: Metrics)
      modifies `knownCostCalls, `partialCostCalls, `totalSpend
      modifies `upstreamCostCalls, `estimatedCostCalls, `mixedCostCalls, `legacyCalls
      ensures knownCostCalls == old(knownCostCalls) + v.knownCostCalls
      ensures partialCostCalls == old(partialCostCalls) + v.partialCostCalls
      ensures totalSpend == old(totalSpend) + v.totalSpend
      ensures upstreamCostCalls == old(upstreamCostCalls) + v.upstreamCostCalls
      ensures estimatedCostCalls == old(estimatedCostCalls) + v.estimatedCostCalls
      ensures mixedCostCalls == old(mixedCostCalls) + v.mixedCostCalls
      ensures legacyCalls == old(legacyCalls) + v.legacyCalls
    {
      knownCostCalls := knownCostCalls + v.knownCostCalls;
      partialCostCalls := partialCostCalls + v.partialCostCalls;
      totalSpend := totalSpend + v.totalSpend;
      upstreamCostCalls := upstreamCostCalls + v.upstreamCostCalls;
      estimatedCostCalls := estimatedCostCalls + v.estimatedCostCalls;
      mixedCostCalls := mixedCostCalls + v.mixedCostCalls;
      legacyCalls := legacyCalls + v.legacyCalls;
    }
  }

  // ---------- Rows ----------

  datatype GroupId = GroupId(text: string)

  datatype Call = Call(time: int, group: GroupId, metrics: Metrics)

  /** The calls of one bucket and one group, added up. */
  datatype Row = Row(bucket: nat, group: GroupId, metrics: Metrics)

  predicate Belongs(c: Call, row: Row, bs: seq<Bucket>)
  {
    row.bucket < |bs| && Holds(bs[row.bucket], c.time) && row.group == c.group
  }

  function Part(c: Call, belongs: bool): Metrics
  {
    if belongs then c.metrics else NOTHING
  }

  function TotalOf(calls: seq<Call>, row: Row, bs: seq<Bucket>): Metrics
  {
    if calls == [] then NOTHING
    else
      var c := calls[|calls| - 1];
      Plus(TotalOf(calls[..|calls| - 1], row, bs), Part(c, Belongs(c, row, bs)))
  }

  /** All calls of the reported interval, without any grouping. */
  function TotalBetween(calls: seq<Call>, from: int, to: int): Metrics
  {
    if calls == [] then NOTHING
    else
      var c := calls[|calls| - 1];
      Plus(TotalBetween(calls[..|calls| - 1], from, to), Part(c, from <= c.time < to))
  }

  /** What grouping by bucket and group gives: one row for each pair that has calls. */
  ghost predicate Grouped(rows: seq<Row>, calls: seq<Call>, bs: seq<Bucket>)
  {
    && (forall i, j | 0 <= i < j < |rows| :: rows[i].bucket != rows[j].bucket || rows[i].group != rows[j].group)
    && (forall i | 0 <= i < |rows| :: rows[i].bucket < |bs| && rows[i].metrics == TotalOf(calls, rows[i], bs))
    && (forall c, b: nat | c in calls && b < |bs| && Holds(bs[b], c.time) :: HasRow(rows, b, c.group))
  }

  predicate HasRow(rows: seq<Row>, b: nat, g: GroupId)
  {
    exists i | 0 <= i < |rows| :: rows[i].bucket == b && rows[i].group == g
  }

  function SumOfRows(rows: seq<Row>): Metrics
  {
    if rows == [] then NOTHING else Plus(SumOfRows(rows[..|rows| - 1]), rows[|rows| - 1].metrics)
  }

  function SumOfGroup(rows: seq<Row>, g: GroupId): Metrics
  {
    if rows == [] then NOTHING
    else
      var last := rows[|rows| - 1];
      Plus(SumOfGroup(rows[..|rows| - 1], g), if last.group == g then last.metrics else NOTHING)
  }

  function GroupAt(groups: map<GroupId, Metrics>, g: GroupId): Metrics
  {
    if g in groups then groups[g] else NOTHING
  }

  lemma RowsNext(rows: seq<Row>, i: nat, g: GroupId)
    requires i < |rows|
    ensures SumOfRows(rows[..i + 1]) == Plus(SumOfRows(rows[..i]), rows[i].metrics)
    ensures SumOfGroup(rows[..i + 1], g) ==
            Plus(SumOfGroup(rows[..i], g), if rows[i].group == g then rows[i].metrics else NOTHING)
  {
    hide Plus;
    assert rows[..i + 1][..i] == rows[..i];
  }

  lemma PlusNothing(a: Metrics)
    ensures Plus(a, NOTHING) == a
  {
  }

  /** The summary and the groups of a report, in one pass over the rows. */
  method Summarize(rows: seq<Row>) returns (summary: UsageMetrics, groups: map<GroupId, Metrics>)
    ensures fresh(summary) && summary.Now() == SumOfRows(rows)
    ensures forall g :: GroupAt(groups, g) == SumOfGroup(rows, g)
    ensures forall g :: g in groups <==> exists i | 0 <= i < |rows| :: rows[i].group == g
  {
    hide Plus, SumOfRows, SumOfGroup;
    summary := new UsageMetrics();
    groups := map[];
    NoRows();
    for i := 0 to |rows|
      invariant fresh(summary) && summary.Now() == SumOfRows(rows[..i])
      invariant forall g :: GroupAt(groups, g) == SumOfGroup(rows[..i], g)
      invariant forall g :: g in groups <==> exists k | 0 <= k < i :: rows[k].group == g
    {
      var row := rows[i];
      ghost var before := groups;
      summary.Add(row.metrics);
      groups := groups[row.group := Plus(GroupAt(groups, row.group), row.metrics)];
      RowsNext(rows, i, row.group);
      forall g ensures GroupAt(groups, g) == SumOfGroup(rows[..i + 1], g) {
        RowsNext(rows, i, g);
        PlusNothing(SumOfGroup(rows[..i], g));
        assert GroupAt(before, g) == SumOfGroup(rows[..i], g);
      }
    }
    assert rows[..|rows|] == rows;
  }

  lemma NoRows()
    ensures SumOfRows([]) == NOTHING && forall g :: SumOfGroup([], g) == NOTHING
  {
  }

  // ---------- The totals agree ----------

  /** The rows' totals over the given calls, added up. */
  function SumOfTotals(rows: seq<Row>, calls: seq<Call>, bs: seq<Bucket>): Metrics
  {
    if rows == [] then NOTHING
    else Plus(SumOfTotals(rows[..|rows| - 1], calls, bs), TotalOf(calls, rows[|rows| - 1], bs))
  }

  /** What one call adds to all rows together. */
  function PartsOf(rows: seq<Row>, c: Call, bs: seq<Bucket>): Metrics
  {
    if rows == [] then NOTHING
    else Plus(PartsOf(rows[..|rows| - 1], c, bs), Part(c, Belongs(c, rows[|rows| - 1], bs)))
  }

  lemma Interchange(a: Metrics, b: Metrics, c: Metrics, d: Metrics)
    ensures Plus(Plus(a, b), Plus(c, d)) == Plus(Plus(a, c), Plus(b, d))
  {
  }

  lemma {:induction false} TotalsSnoc(rows: seq<Row>, calls: seq<Call>, c: Call, bs: seq<Bucket>)
    ensures SumOfTotals(rows, calls + [c], bs) == Plus(SumOfTotals(rows, calls, bs), PartsOf(rows, c, bs))
  {
    hide Plus, Belongs, Part;
    if rows == [] {
      PlusNothing(NOTHING);
    } else {
      var front, last := rows[..|rows| - 1], rows[|rows| - 1];
      TotalsSnoc(front, calls, c, bs);
      assert (calls + [c])[..|calls|] == calls;
      Interchange(SumOfTotals(front, calls, bs), PartsOf(front, c, bs),
                  TotalOf(calls, last, bs), Part(c, Belongs(c, last, bs)));
    }
  }

  lemma {:induction false} NoParts(rows: seq<Row>, c: Call, bs: seq<Bucket>)
    requires forall i | 0 <= i < |rows| :: !Belongs(c, rows[i], bs)
    ensures PartsOf(rows, c, bs) == NOTHING
  {
    hide Plus, Belongs;
    if rows != [] {
      NoParts(rows[..|rows| - 1], c, bs);
      PlusNothing(NOTHING);
    }
  }

  /** A call that belongs to exactly one row is counted exactly once. */
  lemma {:induction false} OnePart(rows: seq<Row>, c: Call, bs: seq<Bucket>, k: nat)
    requires k < |rows| && Belongs(c, rows[k], bs)
    requires forall i | 0 <= i < |rows| && i != k :: !Belongs(c, rows[i], bs)
    ensures PartsOf(rows, c, bs) == c.metrics
  {
    hide Plus, Belongs;
    var n := |rows| - 1;
    if k == n {
      NoParts(rows[..n], c, bs);
    } else {
      OnePart(rows[..n], c, bs, k);
    }
    Swap(NOTHING, c.metrics);
    PlusNothing(c.metrics);
  }

  lemma Swap(a: Metrics, b: Metrics)
    ensures Plus(a, b) == Plus(b, a)
  {
  }

  ghost predicate DistinctRows(rows: seq<Row>)
  {
    forall i, j | 0 <= i < j < |rows| :: rows[i].bucket != rows[j].bucket || rows[i].group != rows[j].group
  }

  lemma CountedOnce(rows: seq<Row>, c: Call, bs: seq<Bucket>, from: int, to: int)
    requires Partitions(bs, from, to) && DistinctRows(rows)
    requires forall b: nat | b < |bs| && Holds(bs[b], c.time) :: HasRow(rows, b, c.group)
    ensures PartsOf(rows, c, bs) == Part(c, from <= c.time < to)
  {
    hide Partitions, PartsOf;
    EveryMomentHasOneBucket(bs, from, to, c.time);
    if from <= c.time < to {
      var b: nat :| b < |bs| && Holds(bs[b], c.time);
      assert HasRow(rows, b, c.group);
      var k :| 0 <= k < |rows| && rows[k].bucket == b && rows[k].group == c.group;
      forall i | 0 <= i < |rows| && i != k ensures !Belongs(c, rows[i], bs) {
        assert i < k ==> rows[i].bucket != rows[k].bucket || rows[i].group != rows[k].group;
      }
      OnePart(rows, c, bs, k);
    } else {
      NoParts(rows, c, bs);
    }
  }

  lemma {:induction false} TotalsAreComplete(rows: seq<Row>, calls: seq<Call>, bs: seq<Bucket>, from: int, to: int)
    requires Partitions(bs, from, to) && DistinctRows(rows)
    requires forall c, b: nat | c in calls && b < |bs| && Holds(bs[b], c.time) :: HasRow(rows, b, c.group)
    ensures SumOfTotals(rows, calls, bs) == TotalBetween(calls, from, to)
  {
    hide Plus, Partitions, DistinctRows, HasRow, Holds, Part, PartsOf;
    if calls == [] {
      EmptyTotals(rows, bs);
    } else {
      var front, last := calls[..|calls| - 1], calls[|calls| - 1];
      assert last in calls && calls == front + [last];
      TotalsAreComplete(rows, front, bs, from, to);
      TotalsSnoc(rows, front, last, bs);
      CountedOnce(rows, last, bs, from, to);
    }
  }

  lemma {:induction false} EmptyTotals(rows: seq<Row>, bs: seq<Bucket>)
    ensures SumOfTotals(rows, [], bs) == NOTHING
  {
    hide Plus;
    PlusNothing(NOTHING);
    if rows != [] {
      EmptyTotals(rows[..|rows| - 1], bs);
    }
  }

  lemma {:induction false} RowsCarryTotals(rows: seq<Row>, calls: seq<Call>, bs: seq<Bucket>)
    requires forall i | 0 <= i < |rows| :: rows[i].metrics == TotalOf(calls, rows[i], bs)
    ensures SumOfRows(rows) == SumOfTotals(rows, calls, bs)
  {
    hide Plus;
    if rows != [] {
      RowsCarryTotals(rows[..|rows| - 1], calls, bs);
    }
  }

  /** The summary of a report is the total over all calls of the interval: none is lost or doubled. */
  lemma SummaryIsTheTotal(rows: seq<Row>, calls: seq<Call>, bs: seq<Bucket>, from: int, to: int)
    requires Partitions(bs, from, to) && Grouped(rows, calls, bs)
    ensures SumOfRows(rows) == TotalBetween(calls, from, to)
  {
    hide Partitions, SumOfRows, SumOfTotals, TotalBetween, TotalOf, HasRow;
    RowsCarryTotals(rows, calls, bs);
    TotalsAreComplete(rows, calls, bs, from, to);
  }

  /** The listed groups' sums, added up. */
  function SumOfGroups(listed: seq<GroupId>, rows: seq<Row>): Metrics
  {
    if listed == [] then NOTHING
    else Plus(SumOfGroups(listed[..|listed| - 1], rows), SumOfGroup(rows, listed[|listed| - 1]))
  }

  ghost predicate DistinctGroups(listed: seq<GroupId>)
  {
    forall i, j | 0 <= i < j < |listed| :: listed[i] != listed[j]
  }

  lemma {:induction false} GroupsSnoc(listed: seq<GroupId>, rows: seq<Row>, row: Row)
    requires DistinctGroups(listed)
    ensures SumOfGroups(listed, rows + [row]) ==
            Plus(SumOfGroups(listed, rows), if row.group in listed then row.metrics else NOTHING)
  {
    hide Plus;
    PlusNothing(NOTHING);
    if listed != [] {
      var front, last := listed[..|listed| - 1], listed[|listed| - 1];
      assert listed == front + [last];
      assert DistinctGroups(front) && last !in front by {
        forall i | 0 <= i < |front| ensures front[i] != last {
          assert listed[i] != listed[|listed| - 1];
        }
        forall i, j | 0 <= i < j < |front| ensures front[i] != front[j] {
          assert listed[i] != listed[j];
        }
      }
      GroupsSnoc(front, rows, row);
      assert (rows + [row])[..|rows|] == rows;
      var x := if row.group in front then row.metrics else NOTHING;
      var y := if row.group == last then row.metrics else NOTHING;
      Interchange(SumOfGroups(front, rows), x, SumOfGroup(rows, last), y);
      PlusNothing(x);
      Swap(x, y);
      PlusNothing(y);
    }
  }

  /** However the groups are listed, their sums add up to the summary. */
  lemma {:induction false} GroupsAddUp(listed: seq<GroupId>, rows: seq<Row>)
    requires DistinctGroups(listed) && forall i | 0 <= i < |rows| :: rows[i].group in listed
    ensures SumOfGroups(listed, rows) == SumOfRows(rows)
  {
    hide Plus;
    if rows == [] {
      EmptyGroups(listed);
    } else {
      var front, last := rows[..|rows| - 1], rows[|rows| - 1];
      assert rows == front + [last];
      GroupsAddUp(listed, front);
      GroupsSnoc(listed, front, last);
    }
  }

  lemma {:induction false} EmptyGroups(listed: seq<GroupId>)
    ensures SumOfGroups(listed, []) == NOTHING
  {
    hide Plus;
    PlusNothing(NOTHING);
    if listed != [] {
      EmptyGroups(listed[..|listed| - 1]);
    }
  }
}

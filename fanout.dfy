/** How the multi-process mode divides the configured number of units
    between worker processes, gives each worker a contiguous block of unit
    ids through a plan of offsets, and how a worker numbers its own units. */
module FanOut {

  function Min(a: int, b: int): int { if a <= b then a else b }
  function Max(a: int, b: int): int { if a >= b then a else b }

  /** `_split_sandbox_counts`: nothing for a non-positive total; otherwise
      between one and `total` workers (the requested number, clamped), each
      given the quotient, the first `remainder` of them one unit more. */
  function SplitCounts(total: int, processCount: int): (counts: seq<nat>)
    ensures total <= 0 ==> counts == []
    ensures total > 0 ==> 1 <= |counts| <= total
    ensures total > 0 && 1 <= processCount <= total ==> |counts| == processCount
    ensures total > 0 && processCount > total ==> |counts| == total
    ensures total > 0 && processCount < 1 ==> |counts| == 1
  {
    if total <= 0 then []
    else
      var p := Max(1, Min(processCount, total));
      var base, rem := total / p, total % p;
      seq(p, i requires 0 <= i < p => base + (if i < rem then 1 else 0))
  }

  /** The sum of the first `n` counts. */
  function SumTo(counts: seq<nat>, n: nat): (s: nat)
    requires n <= |counts|
  {
    if n == 0 then 0 else SumTo(counts, n - 1) + counts[n - 1]
  }

  /** Every worker gets the even share or one more, never nothing, and the
      larger shares come first. */
  lemma SplitIsBalanced(total: int, processCount: int)
    requires total > 0
    ensures var counts := SplitCounts(total, processCount);
      forall i :: 0 <= i < |counts| ==>
        1 <= counts[i] && (counts[i] == total / |counts| || counts[i] == total / |counts| + 1)
    ensures var counts := SplitCounts(total, processCount);
      forall i, j :: 0 <= i < j < |counts| ==> counts[i] >= counts[j]
  {
    var counts := SplitCounts(total, processCount);
    var p := |counts|;
    assert total / p >= 1;
  }

  /** The shares add up to the total. */
  lemma SplitSumsToTotal(total: int, processCount: int)
    requires total > 0
    ensures SumTo(SplitCounts(total, processCount), |SplitCounts(total, processCount)|) == total
  {
    var counts := SplitCounts(total, processCount);
    var p := |counts|;
    var base, rem := total / p, total % p;
    assert 0 <= rem < p && total == p * base + rem;
    assert forall i :: 0 <= i < p ==> counts[i] == base + (if i < rem then 1 else 0);
    SplitPrefixSum(counts, base, rem, p);
  }

  /** The first `k` shares of a split with quotient `base` and remainder
      `rem` add up to `k * base` plus the number of them below `rem`. */
  lemma {:induction false} SplitPrefixSum(counts: seq<nat>, base: int, rem: int, k: nat)
    requires k <= |counts|
    requires 0 <= rem
    requires forall i :: 0 <= i < |counts| ==> counts[i] == base + (if i < rem then 1 else 0)
    ensures SumTo(counts, k) == k * base + Min(k, rem)
  {
    if k > 0 {
      SplitPrefixSum(counts, base, rem, k - 1);
      assert k * base == (k - 1) * base + base;
    }
  }

  lemma SplitExamples()
    ensures SplitCounts(10, 3) == [4, 3, 3]
    ensures SplitCounts(5, 10) == [1, 1, 1, 1, 1]
    ensures SplitCounts(0, 4) == []
  {
    var a := SplitCounts(10, 3);
    assert |a| == 3 && a[0] == 4 && a[1] == 3 && a[2] == 3;
    var b := SplitCounts(5, 10);
    assert |b| == 5 && b[0] == 1 && b[1] == 1 && b[2] == 1 && b[3] == 1 && b[4] == 1;
  }

  /** One line of the worker plan. */
  datatype PlanEntry = PlanEntry(workerId: nat, unitCount: nat, idOffset: nat)

  /** Worker `w` of the plan carries its own count and, as its id offset,
      the sum of the counts before it. */
  predicate PlansCounts(counts: seq<nat>, plan: seq<PlanEntry>)
  {
    |plan| == |counts| &&
    forall w :: 0 <= w < |plan| ==>
      plan[w].workerId == w && plan[w].unitCount == counts[w] && plan[w].idOffset == SumTo(counts, w)
  }

  /** The plan loop of the multi-process mode: worker `w` is given its
      count and, as its id offset, the sum of the counts before it. */
  method BuildPlan(counts: seq<nat>) returns (plan: seq<PlanEntry>)
    ensures PlansCounts(counts, plan)
  {
    plan := [];
    var offset := 0;
    var w := 0;
    while w < |counts|
      invariant 0 <= w <= |counts|
      invariant offset == SumTo(counts, w)
      invariant |plan| == w
      invariant forall v :: 0 <= v < w ==>
        plan[v].workerId == v && plan[v].unitCount == counts[v] && plan[v].idOffset == SumTo(counts, v)
    {
      plan := plan + [PlanEntry(w, counts[w], offset)];
      offset := offset + counts[w];
      w := w + 1;
    }
  }

  /** The ids a worker with offset `offset` gives its `count` units
      (`BatchRunner.run`). */
  function UnitIds(offset: int, count: nat): (ids: seq<int>)
    ensures |ids| == count
    ensures forall k :: 0 <= k < count ==> ids[k] == offset + k
  {
    seq(count, k requires 0 <= k < count => offset + k)
  }

  /** The ids of the first `n` workers of a plan, worker after worker. */
  function PlannedIds(plan: seq<PlanEntry>, n: nat): seq<int>
    requires n <= |plan|
  {
    if n == 0 then [] else PlannedIds(plan, n - 1) + UnitIds(plan[n - 1].idOffset, plan[n - 1].unitCount)
  }

  /** Offsets that are prefix sums give the workers consecutive blocks:
      their ids, worker after worker, are exactly `0, 1, …, total - 1`. */
  lemma {:induction false} PlanCoversIds(counts: seq<nat>, plan: seq<PlanEntry>, n: nat)
    requires PlansCounts(counts, plan) && n <= |plan|
    ensures |PlannedIds(plan, n)| == SumTo(counts, n)
    ensures forall k :: 0 <= k < |PlannedIds(plan, n)| ==> PlannedIds(plan, n)[k] == k
  {
    if n > 0 {
      PlanCoversIds(counts, plan, n - 1);
      var before := PlannedIds(plan, n - 1);
      var entry := plan[n - 1];
      assert entry.idOffset == |before|;
      var block := UnitIds(entry.idOffset, entry.unitCount);
      var all := before + block;
      assert PlannedIds(plan, n) == all;
      forall k | 0 <= k < |all|
        ensures all[k] == k
      {
        if k >= |before| {
          assert all[k] == block[k - |before|];
        }
      }
    }
  }

  /** Workers' id blocks are disjoint and in worker order: every id of an
      earlier worker is below every id of a later one. */
  lemma PlanBlocksOrdered(counts: seq<nat>, plan: seq<PlanEntry>, v: nat, w: nat)
    requires PlansCounts(counts, plan) && v < w < |plan|
    ensures plan[v].idOffset + plan[v].unitCount <= plan[w].idOffset
  {
    SumToMonotone(counts, v + 1, w);
  }

  lemma {:induction false} SumToMonotone(counts: seq<nat>, m: nat, n: nat)
    requires m <= n <= |counts|
    ensures SumTo(counts, m) <= SumTo(counts, n)
  {
    if m < n {
      SumToMonotone(counts, m, n - 1);
    }
  }

  /** The whole fan-out: splitting the total, planning offsets and
      numbering units in each worker gives every unit id in `[0, total)`
      to exactly one worker, in order. */
  lemma FanOutCoversTotal(total: int, processCount: int, plan: seq<PlanEntry>)
    requires total > 0
    requires PlansCounts(SplitCounts(total, processCount), plan)
    ensures |PlannedIds(plan, |plan|)| == total
    ensures forall k :: 0 <= k < total ==> PlannedIds(plan, |plan|)[k] == k
  {
    var counts := SplitCounts(total, processCount);
    PlanCoversIds(counts, plan, |plan|);
    SplitSumsToTotal(total, processCount);
  }
}

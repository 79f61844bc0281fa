/** The per-operation metrics accumulator (`OperationMetrics` in batch.py):
    counters, latency samples and truncated error texts, the statistics derived
    from them, the two JSON forms it is written in, and the fixed list of
    measured operations. `MetricsState` is the value of one accumulator;
    the class `OperationMetrics` is the mutable object whose methods update it
    in place. */
module Metrics {
  import opened Common
  import opened JsonValues
  import opened Sorting

  datatype MetricsState = MetricsState(
    name: string,
    totalRuns: int,
    successCount: int,
    failureCount: int,
    latencies: seq<int>,
    errors: seq<string>,
    retryTriggered: int,
    retrySuccess: int,
    retryFailed: int)
  {
    /** The two counting identities every recording keeps. */
    predicate CountsAgree()
    {
      && totalRuns == successCount + failureCount
      && retryTriggered == retrySuccess + retryFailed
    }

    /** What recording also keeps about the samples: one error text per
        failure, one latency per success plus at most one per failure, and
        retries split by eventual outcome. */
    predicate SamplesAgree()
    {
      && |errors| == failureCount
      && successCount <= |latencies| <= totalRuns
      && 0 <= retrySuccess <= successCount
      && 0 <= retryFailed <= failureCount
    }

    predicate Consistent()
    {
      CountsAgree() && SamplesAgree()
    }

    /** `record_success`: one more run and one more success; the latency is always kept. */
    function RecordedSuccess(latencyMs: int, retried: bool): (m: MetricsState)
      ensures m.name == name
      ensures m.totalRuns == totalRuns + 1
      ensures m.successCount == successCount + 1 && m.failureCount == failureCount
      ensures m.latencies == latencies + [latencyMs] && m.errors == errors
      ensures m.retryTriggered == retryTriggered + (if retried then 1 else 0)
      ensures m.retrySuccess == retrySuccess + (if retried then 1 else 0)
      ensures m.retryFailed == retryFailed
      ensures CountsAgree() ==> m.CountsAgree()
      ensures Consistent() ==> m.Consistent()
    {
      this.(totalRuns := totalRuns + 1,
            successCount := successCount + 1,
            latencies := latencies + [latencyMs],
            retryTriggered := if retried then retryTriggered + 1 else retryTriggered,
            retrySuccess := if retried then retrySuccess + 1 else retrySuccess)
    }

    /** `record_failure`: one more run and one more failure; the error is kept
        cut to 200 characters, the latency only when one was measured (> 0). */
    function RecordedFailure(error: string, latencyMs: int, retried: bool): (m: MetricsState)
      ensures m.name == name
      ensures m.totalRuns == totalRuns + 1
      ensures m.failureCount == failureCount + 1 && m.successCount == successCount
      ensures m.errors == errors + [Truncate(error)] && |m.errors[|m.errors| - 1]| <= MaxErrorMsgLength
      ensures m.latencies == if latencyMs > 0 then latencies + [latencyMs] else latencies
      ensures m.retryTriggered == retryTriggered + (if retried then 1 else 0)
      ensures m.retryFailed == retryFailed + (if retried then 1 else 0)
      ensures m.retrySuccess == retrySuccess
      ensures CountsAgree() ==> m.CountsAgree()
      ensures Consistent() ==> m.Consistent()
    {
      this.(totalRuns := totalRuns + 1,
            failureCount := failureCount + 1,
            errors := errors + [Truncate(error)],
            latencies := if latencyMs > 0 then latencies + [latencyMs] else latencies,
            retryTriggered := if retried then retryTriggered + 1 else retryTriggered,
            retryFailed := if retried then retryFailed + 1 else retryFailed)
    }

    /** `merge`: every counter becomes the sum, and the other accumulator's
        samples and errors follow this one's. The name is this one's. */
    function Merged(other: MetricsState): (m: MetricsState)
      ensures m.name == name
      ensures m.totalRuns == totalRuns + other.totalRuns
      ensures m.successCount == successCount + other.successCount
      ensures m.failureCount == failureCount + other.failureCount
      ensures m.latencies == latencies + other.latencies
      ensures multiset(m.latencies) == multiset(latencies) + multiset(other.latencies)
      ensures m.errors == errors + other.errors
      ensures m.retryTriggered == retryTriggered + other.retryTriggered
      ensures m.retrySuccess == retrySuccess + other.retrySuccess
      ensures m.retryFailed == retryFailed + other.retryFailed
      ensures CountsAgree() && other.CountsAgree() ==> m.CountsAgree()
      ensures Consistent() && other.Consistent() ==> m.Consistent()
    {
      MetricsState(name,
                   totalRuns + other.totalRuns,
                   successCount + other.successCount,
                   failureCount + other.failureCount,
                   latencies + other.latencies,
                   errors + other.errors,
                   retryTriggered + other.retryTriggered,
                   retrySuccess + other.retrySuccess,
                   retryFailed + other.retryFailed)
    }

    /** `success_rate`, in percent; 0 when nothing ran. */
    function SuccessRate(): (r: real)
      ensures totalRuns == 0 ==> r == 0.0
      ensures Consistent() && totalRuns > 0 ==> 0.0 <= r <= 100.0
      ensures Consistent() && totalRuns > 0 ==> (r == 100.0 <==> failureCount == 0)
    {
      if totalRuns != 0 then Percent(successCount, totalRuns) else 0.0
    }

    /** `min_latency_ms`: the smallest sample, 0 without samples. */
    function MinLatency(): (r: int)
      ensures latencies == [] ==> r == 0
      ensures latencies != [] ==> r in latencies
      ensures forall i :: 0 <= i < |latencies| ==> r <= latencies[i]
    {
      if latencies == [] then 0 else SeqMin(latencies)
    }

    /** `max_latency_ms`: the largest sample, 0 without samples. */
    function MaxLatency(): (r: int)
      ensures latencies == [] ==> r == 0
      ensures latencies != [] ==> r in latencies
      ensures forall i :: 0 <= i < |latencies| ==> latencies[i] <= r
    {
      if latencies == [] then 0 else SeqMax(latencies)
    }

    /** `p95_latency_ms`: 0 without samples, the sample itself for one sample,
        otherwise the sorted sample at index min(int(n * 0.95), n - 1). */
    function P95(): (p: int)
      ensures latencies == [] ==> p == 0
      ensures |latencies| == 1 ==> p == latencies[0]
      ensures latencies != [] ==> p in latencies && MinLatency() <= p <= MaxLatency()
      ensures |latencies| >= 2 ==> p == Sort(latencies)[P95Index(|latencies|)]
    {
      if |latencies| < 2 then
        if latencies != [] then latencies[0] else 0
      else
        var sorted := Sort(latencies);
        var p := sorted[P95Index(|sorted|)];
        assert p in multiset(sorted);
        p
    }
  }

  /** A fresh accumulator: `OperationMetrics(name=...)`. */
  function Empty(name: string): (m: MetricsState)
    ensures m.name == name && m.Consistent()
    ensures m.totalRuns == 0 && m.latencies == [] && m.errors == [] && m.retryTriggered == 0
  {
    MetricsState(name, 0, 0, 0, [], [], 0, 0, 0)
  }

  /** The code's index `min(int(n * 0.95), n - 1)`, with the float product
      taken as the exact `(95 * n) / 100`. */
  function P95Index(n: nat): (i: nat)
    requires n >= 1
    ensures i < n
    ensures 100 * i <= 95 * n < 100 * (i + 1)
  {
    var k := (95 * n) / 100;
    if k < n - 1 then k else n - 1
  }

  function SeqMin(s: seq<int>): (r: int)
    requires s != []
    ensures r in s
    ensures forall i :: 0 <= i < |s| ==> r <= s[i]
  {
    if |s| == 1 then s[0]
    else
      var rest := SeqMin(s[1..]);
      if s[0] <= rest then s[0] else rest
  }

  function SeqMax(s: seq<int>): (r: int)
    requires s != []
    ensures r in s
    ensures forall i :: 0 <= i < |s| ==> s[i] <= r
  {
    if |s| == 1 then s[0]
    else
      var rest := SeqMax(s[1..]);
      if s[0] >= rest then s[0] else rest
  }

  /** The least and the greatest sample only depend on which samples there are. */
  lemma ExtremesDependOnlyOnMultiset(s: seq<int>, t: seq<int>)
    requires s != [] && multiset(s) == multiset(t)
    ensures t != []
    ensures SeqMin(s) == SeqMin(t) && SeqMax(s) == SeqMax(t)
  {
    assert s[0] in multiset(t);
    var a, b := SeqMin(s), SeqMin(t);
    assert a in multiset(t) && b in multiset(s);
    var c, d := SeqMax(s), SeqMax(t);
    assert c in multiset(t) && d in multiset(s);
  }

  /** The derived latency statistics only depend on which samples there are. */
  lemma StatisticsDependOnlyOnSamples(m: MetricsState, n: MetricsState)
    requires multiset(m.latencies) == multiset(n.latencies)
    ensures m.P95() == n.P95()
    ensures m.MinLatency() == n.MinLatency() && m.MaxLatency() == n.MaxLatency()
  {
    var s, t := m.latencies, n.latencies;
    assert |s| == |t| by {
      assert |multiset(s)| == |s| && |multiset(t)| == |t|;
    }
    if s != [] {
      ExtremesDependOnlyOnMultiset(s, t);
    }
    if |s| == 1 {
      assert s[0] in multiset(t);
    }
    if |s| >= 2 {
      SortDependsOnlyOnMultiset(s, t);
    }
  }

  /** Merging in either order gives the same counts and the same derived
      statistics: only the order of the samples differs. */
  lemma MergeCommutesOnStatistics(a: MetricsState, b: MetricsState)
    ensures a.Merged(b).totalRuns == b.Merged(a).totalRuns
    ensures a.Merged(b).successCount == b.Merged(a).successCount
    ensures a.Merged(b).failureCount == b.Merged(a).failureCount
    ensures a.Merged(b).retryTriggered == b.Merged(a).retryTriggered
    ensures a.Merged(b).retrySuccess == b.Merged(a).retrySuccess
    ensures a.Merged(b).retryFailed == b.Merged(a).retryFailed
    ensures a.Merged(b).SuccessRate() == b.Merged(a).SuccessRate()
    ensures multiset(a.Merged(b).latencies) == multiset(b.Merged(a).latencies)
    ensures a.Merged(b).P95() == b.Merged(a).P95()
    ensures a.Merged(b).MinLatency() == b.Merged(a).MinLatency()
    ensures a.Merged(b).MaxLatency() == b.Merged(a).MaxLatency()
  {
    var ab, ba := a.Merged(b), b.Merged(a);
    assert ab.(name := "", latencies := [], errors := []) == ba.(name := "", latencies := [], errors := []);
    StatisticsDependOnlyOnSamples(ab, ba);
  }

  /** Merging is associative: folding partial results in any grouping gives one result. */
  lemma MergeAssociative(a: MetricsState, b: MetricsState, c: MetricsState)
    ensures a.Merged(b).Merged(c) == a.Merged(b.Merged(c))
  {
  }

  /** Ten samples 10, 20, ..., 100: the 95th percentile is the last one. */
  lemma P95OfTenSamples(m: MetricsState)
    requires |m.latencies| == 10 && forall i :: 0 <= i < 10 ==> m.latencies[i] == 10 * (i + 1)
    ensures m.P95() == 100
  {
    var s := m.latencies;
    SortOfAscending(s);
    assert P95Index(10) == 9;
  }

  // ---------------------------------------------------------------------------
  // JSON forms

  /** `to_detail_dict`: every field, with the raw samples and errors. It
      holds every entry of the counts-only form, with the same value. */
  function DetailJson(m: MetricsState): (j: Json)
    ensures j.JObj? && "latencies_ms" in j.fields && "errors" in j.fields
    ensures SummaryJson(m).JObj?
    ensures forall k :: k in SummaryJson(m).fields ==> k in j.fields && j.fields[k] == SummaryJson(m).fields[k]
  {
    JObj(map[
      "name" := JStr(m.name),
      "total_runs" := JNum(m.totalRuns),
      "success_count" := JNum(m.successCount),
      "failure_count" := JNum(m.failureCount),
      "latencies_ms" := NumList(m.latencies),
      "errors" := StrList(m.errors),
      "retry_triggered" := JNum(m.retryTriggered),
      "retry_success" := JNum(m.retrySuccess),
      "retry_failed" := JNum(m.retryFailed)])
  }

  /** `from_detail_dict`: each field read with its default. Its counters
      are the ones the counts-only reader finds, and an empty object reads
      as an empty, unnamed accumulator. */
  function FromDetailDict(o: map<string, Json>): (m: MetricsState)
    ensures m.(latencies := [], errors := []) == FromSummaryDict(o)
    ensures o == map[] ==> m == Empty("")
  {
    MetricsState(
      GetName(o, "name"),
      GetInt(o, "total_runs"),
      GetInt(o, "success_count"),
      GetInt(o, "failure_count"),
      GetNumList(o, "latencies_ms"),
      GetStrList(o, "errors"),
      GetInt(o, "retry_triggered"),
      GetInt(o, "retry_success"),
      GetInt(o, "retry_failed"))
  }

  /** `to_dict`: the counters only (the formatted statistics are not
      modelled); neither the samples nor the errors are written. */
  function SummaryJson(m: MetricsState): (j: Json)
    ensures j.JObj? && "latencies_ms" !in j.fields && "errors" !in j.fields
  {
    JObj(map[
      "name" := JStr(m.name),
      "total_runs" := JNum(m.totalRuns),
      "success_count" := JNum(m.successCount),
      "failure_count" := JNum(m.failureCount),
      "retry_triggered" := JNum(m.retryTriggered),
      "retry_success" := JNum(m.retrySuccess),
      "retry_failed" := JNum(m.retryFailed)])
  }

  /** The summary-form fallback of the record parser: counts only, no
      samples; an empty object reads as an empty, unnamed accumulator. */
  function FromSummaryDict(o: map<string, Json>): (m: MetricsState)
    ensures m.latencies == [] && m.errors == []
    ensures o == map[] ==> m == Empty("")
  {
    MetricsState(
      GetName(o, "name"),
      GetInt(o, "total_runs"),
      GetInt(o, "success_count"),
      GetInt(o, "failure_count"),
      [],
      [],
      GetInt(o, "retry_triggered"),
      GetInt(o, "retry_success"),
      GetInt(o, "retry_failed"))
  }

  /** Reading back the detail form restores every field. */
  lemma DetailRoundTrip(m: MetricsState)
    ensures DetailJson(m).JObj?
    ensures FromDetailDict(DetailJson(m).fields) == m
  {
    var o := DetailJson(m).fields;
    NumListRoundTrip(o, "latencies_ms", m.latencies);
    StrListRoundTrip(o, "errors", m.errors);
  }

  /** Reading back the summary form restores the counters and loses the samples. */
  lemma SummaryRoundTrip(m: MetricsState)
    ensures SummaryJson(m).JObj?
    ensures FromSummaryDict(SummaryJson(m).fields) == m.(latencies := [], errors := [])
  {
  }

  // ---------------------------------------------------------------------------
  // The measured operations

  /** `OPERATIONS`: (key, display name) in execution order. */
  const Operations: seq<(string, string)> := [
    ("upload_apk", "Upload APK"),
    ("install_apk", "Install APK"),
    ("launch_apk", "Launch APK"),
    ("screenshot_1", "Screenshot (1)"),
    ("tap_random_1", "Tap Random (1)"),
    ("get_page_xml", "Get Page XML"),
    ("get_device_info", "Get Device Info"),
    ("open_browser", "Open Browser"),
    ("tap_random_2", "Tap Random (2)"),
    ("screenshot_2", "Screenshot (2)"),
    ("get_logs", "Get Logs")]

  /** The name `create_operation_metrics` gives the i-th operation's accumulator: "1. Upload APK", ... */
  function OperationLabel(i: nat): (name: string)
    requires i < |Operations|
    ensures NatToDecimal(i + 1) + ". " <= name
    ensures |Operations[i].1| <= |name| && name[|name| - |Operations[i].1|..] == Operations[i].1
  {
    NatToDecimal(i + 1) + ". " + Operations[i].1
  }

  /** A label names one position only: the number before its ". " is `i + 1`. */
  lemma OperationLabelFixesPosition(i: nat, k: nat)
    requires i < |Operations|
    requires NatToDecimal(k) + ". " <= OperationLabel(i)
    ensures k == i + 1
  {
    var name, a, b := OperationLabel(i), NatToDecimal(k), NatToDecimal(i + 1);
    assert (a + ". ")[|a|] == '.' && (b + ". ")[|b|] == '.';
    assert |a| == |b|;  // otherwise the '.' after the shorter one faces a digit of the longer
    assert a == name[..|a|] == b;
    NatToDecimalRoundTrip(k);
    NatToDecimalRoundTrip(i + 1);
  }

  /** The table keyed by operation that holds `ms[i]` under the i-th
      operation's key, for the first `n` operations (a later key wins, as
      in a dict built in order); every one of those keys is present. */
  function OperationTable(ms: seq<MetricsState>, n: nat): (t: map<string, MetricsState>)
    requires n <= |ms| <= |Operations|
    ensures forall i :: 0 <= i < n ==> Operations[i].0 in t
  {
    if n == 0 then map[]
    else OperationTable(ms, n - 1)[Operations[n - 1].0 := ms[n - 1]]
  }

  /** The table has an entry for each of its operations, and every entry is
      one of the given accumulators, so it has any property they all have. */
  lemma {:induction false} OperationTableCovers(ms: seq<MetricsState>, n: nat, p: MetricsState -> bool)
    requires n <= |ms| <= |Operations|
    requires forall i :: 0 <= i < n ==> p(ms[i])
    ensures forall i :: 0 <= i < n ==> Operations[i].0 in OperationTable(ms, n)
    ensures forall k :: k in OperationTable(ms, n) ==> p(OperationTable(ms, n)[k])
  {
    if n > 0 {
      OperationTableCovers(ms, n - 1, p);
    }
  }

  /** No two operations share a key. */
  lemma OperationKeysDistinct()
    ensures forall i, j :: 0 <= i < j < |Operations| ==> Operations[i].0 != Operations[j].0
  {
  }

  /** The table of the first `n` operations has exactly their keys. */
  lemma {:induction false} OperationTableKeys(ms: seq<MetricsState>, n: nat)
    requires n <= |ms| <= |Operations|
    ensures OperationTable(ms, n).Keys == set i | 0 <= i < n :: Operations[i].0
  {
    if n > 0 {
      OperationTableKeys(ms, n - 1);
      var key := Operations[n - 1].0;
      var before := set i | 0 <= i < n - 1 :: Operations[i].0;
      assert OperationTable(ms, n).Keys == OperationTable(ms, n - 1).Keys + {key};
      assert (set i | 0 <= i < n :: Operations[i].0) == before + {key};
    }
  }

  /** Since the keys are distinct, the i-th key holds the i-th accumulator. */
  lemma {:induction false} OperationTableAt(ms: seq<MetricsState>, n: nat, i: nat)
    requires i < n <= |ms| <= |Operations|
    ensures Operations[i].0 in OperationTable(ms, n)
    ensures OperationTable(ms, n)[Operations[i].0] == ms[i]
  {
    if i < n - 1 {
      OperationKeysDistinct();
      OperationTableAt(ms, n - 1, i);
    }
  }

  /** `create_operation_metrics()`, as values: exactly the operations' keys,
      each bound to an empty accumulator named after its operation. */
  function EmptyOperationTable(): (t: map<string, MetricsState>)
    ensures t.Keys == set i | 0 <= i < |Operations| :: Operations[i].0
    ensures forall i :: 0 <= i < |Operations| ==> Operations[i].0 in t && t[Operations[i].0] == Empty(OperationLabel(i))
    ensures forall k :: k in t ==> t[k].totalRuns == 0 && t[k].latencies == [] && t[k].Consistent()
  {
    var empties := seq(|Operations|, i requires 0 <= i < |Operations| => Empty(OperationLabel(i)));
    OperationTableCovers(empties, |empties|, (m: MetricsState) => m.totalRuns == 0 && m.latencies == [] && m.Consistent());
    OperationTableKeys(empties, |empties|);
    forall i | 0 <= i < |Operations|
      ensures OperationTable(empties, |empties|)[Operations[i].0] == empties[i]
    {
      OperationTableAt(empties, |empties|, i);
    }
    OperationTable(empties, |empties|)
  }

  // ---------------------------------------------------------------------------
  // The mutable accumulator

  class OperationMetrics {
    var name: string
    var totalRuns: int
    var successCount: int
    var failureCount: int
    var latencies: seq<int>
    var errors: seq<string>
    var retryTriggered: int
    var retrySuccess: int
    var retryFailed: int

    /** The accumulator's current value. */
    function Value(): MetricsState
      reads this
    {
      MetricsState(name, totalRuns, successCount, failureCount, latencies, errors,
                   retryTriggered, retrySuccess, retryFailed)
    }

    constructor (name: string)
      ensures Value() == Empty(name)
    {
      this.name := name;
      totalRuns, successCount, failureCount := 0, 0, 0;
      latencies, errors := [], [];
      retryTriggered, retrySuccess, retryFailed := 0, 0, 0;
    }

    method RecordSuccess(latencyMs: int, retried: bool)
      modifies this
      ensures Value() == old(Value()).RecordedSuccess(latencyMs, retried)
    {
      totalRuns := totalRuns + 1;
      successCount := successCount + 1;
      latencies := latencies + [latencyMs];
      if retried {
        retryTriggered := retryTriggered + 1;
        retrySuccess := retrySuccess + 1;
      }
    }

    method RecordFailure(error: string, latencyMs: int, retried: bool)
      modifies this
      ensures Value() == old(Value()).RecordedFailure(error, latencyMs, retried)
    {
      totalRuns := totalRuns + 1;
      failureCount := failureCount + 1;
      errors := errors + [Truncate(error)];
      if latencyMs > 0 {
        latencies := latencies + [latencyMs];
      }
      if retried {
        retryTriggered := retryTriggered + 1;
        retryFailed := retryFailed + 1;
      }
    }

    /** Each field reads the other's same field before writing its own, so
        merging an accumulator into itself doubles it, as in Python. */
    method Merge(other: OperationMetrics)
      modifies this
      ensures Value() == old(Value()).Merged(old(other.Value()))
    {
      var o := other.Value();
      totalRuns := totalRuns + o.totalRuns;
      successCount := successCount + o.successCount;
      failureCount := failureCount + o.failureCount;
      latencies := latencies + o.latencies;
      errors := errors + o.errors;
      retryTriggered := retryTriggered + o.retryTriggered;
      retrySuccess := retrySuccess + o.retrySuccess;
      retryFailed := retryFailed + o.retryFailed;
    }

    /** `to_detail_dict`, whose reading back gives this accumulator again. */
    function ToDetailDict(): (j: Json)
      reads this
      ensures j.JObj? && FromDetailDict(j.fields) == Value()
    {
      DetailRoundTrip(Value());
      DetailJson(Value())
    }
  }
}

# Batch sandbox load-test engine: a verified Dafny model

This project models the metrics and aggregation engine of the mobile-use
batch harness (`examples/mobile-use/batch.py`). The harness creates many
remote Android sandboxes ("units"). It drives each unit through create →
connect → a fixed list of eleven timed operations → cleanup, and folds the
per-unit results into one report.

The modelled pieces:

- **Metrics accumulator.** `Metrics.MetricsState` is the value of one
  `OperationMetrics`. `Metrics.OperationMetrics` is the mutable class whose
  `RecordSuccess`, `RecordFailure` and `Merge` update its fields in place.
  The model also covers the derived `success_rate`, `p95`, `min` and `max`,
  and the detailed and summary JSON forms.
- **Result records.** `Records.ResultRecord` models `SandboxTestResult`.
  The model covers its `to_dict` form and the details-file reader, which
  prefers `operations_detail` and falls back to the counts-only
  `operations` form.
- **Resource registry.** `Resources.ResourceManager` has two maps keyed by
  unit id and a one-shot cleanup flag.
- **Single-unit worker.** `Worker.SandboxTester` holds the retrying create
  loop, the connect step, the retrying measure loop of every operation, the
  cleanup and the overall `run`. Every outside call is an input: the
  outcome of each attempt and the milliseconds it took.
- **Reporting.** `Reporting` holds `_process_results` (exceptions become
  failed records) and `ResultReporter.aggregate`, a loop that folds records
  into counters and merged accumulators.
- **Fan-out.** `FanOut` models `_split_sandbox_counts`, the worker plan with
  its prefix-sum offsets, and each worker's unit ids. `Coordinator` models
  the coordinator's collection of the workers' details files, where a
  worker with missing files is skipped.
- **Configuration check.** `Config` models `_validate_config`.

The model follows the code where it differs from the obvious reading:

- **p95 index.** The code takes index `min(int(n * 0.95), n - 1)` of the
  sorted samples. The model computes `(95 * n) / 100` exactly. For the
  sample counts that occur, the float product floors to the same integer.
- **Report denominator.** `total_sandboxes` and the success-rate
  denominator are the configured unit count. The number of records read
  back does not enter either.
- **Negative latencies.** The code keeps them as they are.
  `record_success` keeps any latency. `record_failure` keeps only a
  positive one.
- **Retries in the create accumulator.** `aggregate` records creation
  without the `retried` flag. A retried creation raises the report's
  separate `retry` counters. It does not raise the "Sandbox Create"
  accumulator's `retry_triggered`.
- **Unit success.** A unit whose driver was created but whose window-size
  query failed keeps `connect_success` true and still fails.
  `destroy_success` is set only on the path where the operations ran.

## Model

| member | source | states |
|---|---|---|
| `Common.Truncate` | examples/mobile-use/batch.py:123 | error texts are cut to a prefix of at most 200 characters; shorter texts are kept whole |
| `Common.Percent` | examples/mobile-use/batch.py:1389 | a percentage of a part within its whole lies in [0, 100] and is 100 exactly when the part is the whole |
| `Common.NatToDecimal` | examples/mobile-use/batch.py:960 | `str(n)` of a non-negative integer is the canonical decimal: a non-empty string of digits with no leading zero unless it is the single digit |
| `Common.NatToDecimalRoundTrip` | examples/mobile-use/batch.py:960 | reading the decimal text of n back as a number gives n |
| `Common.IntToDecimal` | examples/mobile-use/batch.py:244 | `str(i)` is the canonical decimal: the digits of i when i ≥ 0, otherwise a minus sign followed by the digits of -i, never empty and with no leading zero |
| `Metrics.Empty` | examples/mobile-use/batch.py:463-475 | a new accumulator has no runs, samples, errors or retries and satisfies the counting invariants |
| `Metrics.MetricsState.RecordedSuccess` | examples/mobile-use/batch.py:501-508 | one more run and success, latency appended, retry_triggered and retry_success raised iff retried; the invariants total = success + failure and triggered = retry_success + retry_failed are preserved |
| `Metrics.MetricsState.RecordedFailure` | examples/mobile-use/batch.py:510-519 | one more run and failure, the truncated error appended, latency appended only when > 0, retry_triggered and retry_failed raised iff retried; the invariants are preserved |
| `Metrics.MetricsState.Merged` | examples/mobile-use/batch.py:566-575 | every counter is the sum, the other's samples and errors follow this one's, the multiset of samples is the union, and both invariants survive |
| `Metrics.MetricsState.SuccessRate` | examples/mobile-use/batch.py:477-479 | 0 with no runs; otherwise within [0, 100] and 100 iff there were no failures |
| `Metrics.MetricsState.MinLatency` | examples/mobile-use/batch.py:497-499 | 0 with no samples; otherwise a sample no larger than any sample |
| `Metrics.MetricsState.MaxLatency` | examples/mobile-use/batch.py:493-495 | 0 with no samples; otherwise a sample no smaller than any sample |
| `Metrics.MetricsState.P95` | examples/mobile-use/batch.py:485-491 | 0 with no samples, the sample itself with one, otherwise the sorted sample at min((95n)/100, n-1); always a sample between min and max |
| `Metrics.P95Index` | examples/mobile-use/batch.py:490 | the index is inside the samples and is the floor of 0.95 n, clamped to the last index |
| `Metrics.SeqMin` | examples/mobile-use/batch.py:499 | Python `min`: a member of the list no larger than any element |
| `Metrics.SeqMax` | examples/mobile-use/batch.py:495 | Python `max`: a member of the list no smaller than any element |
| `Metrics.StatisticsDependOnlyOnSamples` | examples/mobile-use/batch.py:485-499 | p95, min and max depend only on the multiset of samples, not their order |
| `Metrics.ExtremesDependOnlyOnMultiset` | examples/mobile-use/batch.py:493-499 | min and max of two lists with the same elements agree |
| `Metrics.MergeCommutesOnStatistics` | examples/mobile-use/batch.py:566-575 | merging in either order gives the same counts, success rate, sample multiset, p95, min and max |
| `Metrics.MergeAssociative` | examples/mobile-use/batch.py:566-575 | merging is associative |
| `Metrics.P95OfTenSamples` | examples/mobile-use/batch.py:485-491 | for samples 10, 20, ..., 100 the p95 is 100 |
| `Metrics.DetailRoundTrip` | examples/mobile-use/batch.py:538-564 | reading back `to_detail_dict` restores every field |
| `Metrics.SummaryRoundTrip` | examples/mobile-use/batch.py:671-682 | reading back the counts-only form restores the counters with empty samples and errors |
| `Metrics.DetailJson` | examples/mobile-use/batch.py:538-549 | `to_detail_dict` is an object with the samples and errors that holds every entry of the counts-only form with the same value |
| `Metrics.FromDetailDict` | examples/mobile-use/batch.py:553-564 | `from_detail_dict` reads the same counters as the counts-only reader, and an empty object reads as an empty, unnamed accumulator |
| `Metrics.SummaryJson` | examples/mobile-use/batch.py:521-536 | `OperationMetrics.to_dict` writes neither the samples nor the errors |
| `Metrics.FromSummaryDict` | examples/mobile-use/batch.py:671-682 | the counts-only fallback has no samples or errors, and an empty object reads as an empty, unnamed accumulator |
| `Metrics.OperationLabel` | examples/mobile-use/batch.py:356-361 | an accumulator's name starts with its 1-based position followed by ". " and ends with the operation's display name, so the name fixes the position |
| `Metrics.OperationLabelFixesPosition` | examples/mobile-use/batch.py:356-361 | the number before the ". " of an accumulator's name is its 1-based position and no other |
| `Metrics.OperationTable` | examples/mobile-use/batch.py:356-361 | the table built from the first n operations holds each of their keys |
| `Metrics.EmptyOperationTable` | examples/mobile-use/batch.py:356-360 | `create_operation_metrics` has exactly the eleven operation keys; the i-th is bound to an empty, consistent accumulator named `OperationLabel(i)` |
| `Metrics.OperationTableKeys` | examples/mobile-use/batch.py:356-360 | the table built from the first n operations has exactly their keys and no other |
| `Metrics.OperationTableAt` | examples/mobile-use/batch.py:356-360 | since no two operations share a key, the i-th operation's key holds the i-th accumulator |
| `Metrics.OperationTableCovers` | examples/mobile-use/batch.py:356-360 | the table built in operation order holds every operation key and only the given accumulators |
| `Metrics.OperationMetrics.constructor` | examples/mobile-use/batch.py:463-475 | a new object holds the empty accumulator with the given name |
| `Metrics.OperationMetrics.RecordSuccess` | examples/mobile-use/batch.py:501-508 | the object's new value is the old value with a success recorded |
| `Metrics.OperationMetrics.RecordFailure` | examples/mobile-use/batch.py:510-519 | the object's new value is the old value with a failure recorded |
| `Metrics.OperationMetrics.Merge` | examples/mobile-use/batch.py:566-575 | the object's new value is the merge of both old values (merging an object into itself doubles it) |
| `Metrics.OperationMetrics.ToDetailDict` | examples/mobile-use/batch.py:538-549 | the detail form is an object that `from_detail_dict` reads back as the current value |
| `Sorting.Sort` | examples/mobile-use/batch.py:489 | `sorted` gives an ascending permutation of the samples |
| `Sorting.Insert` | examples/mobile-use/batch.py:489 | inserting into an ascending list keeps it ascending and adds exactly the new element |
| `Sorting.AscendingUnique` | examples/mobile-use/batch.py:489 | two ascending lists with the same elements are equal |
| `Sorting.SortDependsOnlyOnMultiset` | examples/mobile-use/batch.py:489 | the sorted list depends only on the multiset of samples |
| `Sorting.SortOfAscending` | examples/mobile-use/batch.py:489 | an ascending list sorts to itself |
| `JsonValues.GetInt` | examples/mobile-use/batch.py:555 | `int(data.get(key, 0) or 0)`: a missing or falsy value reads as 0, a number as itself |
| `JsonValues.NumListRoundTrip` | examples/mobile-use/batch.py:558 | a written list of samples reads back unchanged |
| `JsonValues.StrListRoundTrip` | examples/mobile-use/batch.py:559 | a written list of error texts reads back unchanged |
| `Records.NewResult` | examples/mobile-use/batch.py:579-608 | a new record carries its id and every flag, counter and metrics table at its default |
| `Records.ResultToDict` | examples/mobile-use/batch.py:610-634 | `to_dict` leaves `destroy_success` out and writes both operation tables as objects with exactly the record's operation keys |
| `Records.ReadOperationMetrics` | examples/mobile-use/batch.py:664-684 | the reader uses the detail object's object entries when it is an object, else the summary object's object entries with no samples, else nothing |
| `Records.ResultFromDetailDict` | examples/mobile-use/batch.py:637-686 | `destroy_success` is read as given; without a detail object no operation keeps samples |
| `Records.CountsOnly` | examples/mobile-use/batch.py:671-682 | the counts-only view keeps the same operation keys |
| `Records.RecordRoundTrip` | examples/mobile-use/batch.py:610-686 | `to_dict` read back restores every field except `destroy_success`, which comes back false |
| `Records.SummaryFormFallback` | examples/mobile-use/batch.py:664-684 | a record with only the summary form comes back with the counters and empty samples and errors |
| `Records.DetailTableRoundTrip` | examples/mobile-use/batch.py:633 | the `operations_detail` table reads back as the record's metrics, whatever the summary table holds |
| `Records.SummaryTableRoundTrip` | examples/mobile-use/batch.py:632 | the `operations` table alone reads back as the counts-only metrics |
| `Resources.ResourceManager.constructor` | examples/mobile-use/batch.py:695-699 | a new registry is empty and not yet cleaned up |
| `Resources.ResourceManager.RegisterSandbox` | examples/mobile-use/batch.py:701-703 | binds the unit's sandbox and changes nothing else |
| `Resources.ResourceManager.RegisterDriver` | examples/mobile-use/batch.py:705-707 | binds the unit's driver and changes nothing else |
| `Resources.ResourceManager.Unregister` | examples/mobile-use/batch.py:709-712 | removes the unit from both maps and changes nothing else |
| `Resources.ResourceManager.CleanupAll` | examples/mobile-use/batch.py:714-753 | a second call is a no-op; the first sets the flag, quits every driver and kills every sandbox whatever the calls do, and leaves both maps empty |
| `Resources.CallEach` | examples/mobile-use/batch.py:730-751 | every registered unit's call is made once; the failures are exactly the units whose call raises |
| `Resources.CleanupTwice` | examples/mobile-use/batch.py:714-719 | two cleanups in a row have the effect of one: the second reports it was already done |
| `Worker.ElapsedPrefix` | examples/mobile-use/batch.py:1068-1097 | the time up to any attempt is at most the time of all attempts |
| `Worker.FirstWhere` | examples/mobile-use/batch.py:1072-1090 | finds the first attempt that returns a value, and none exactly when no attempt does |
| `Worker.Measure` | examples/mobile-use/batch.py:1064-1097 | a measurement records exactly one more run in the operation's accumulator |
| `Worker.MeasureOutcome` | examples/mobile-use/batch.py:1064-1097 | success iff some attempt returned neither None nor False; the time is measured from the first attempt and is the whole time on failure |
| `Worker.MeasureRecords` | examples/mobile-use/batch.py:1064-1097 | exactly one success or one failure is recorded, the failure with the last attempt's error, and a retry iff a second attempt was made |
| `Worker.MeasureKeepsConsistent` | examples/mobile-use/batch.py:1064-1097 | a measurement preserves the accumulator's invariants |
| `Worker.MeasureOperation` | examples/mobile-use/batch.py:1064-1097 | the attempt loop makes at most max_retries + 1 attempts, stops at the first value, and leaves the accumulator and result as the measurement says |
| `Worker.MeasureFirstReturned` | examples/mobile-use/batch.py:1081-1085 | when attempt i is the first to return a value, the measurement is a success timed over attempts 0..i, retried iff i > 0 |
| `Worker.MeasureNoneReturned` | examples/mobile-use/batch.py:1094-1097 | when no attempt returns a value, the measurement is a failure timed over all attempts with the last error |
| `Worker.MeasureFresh` | examples/mobile-use/batch.py:1055-1058 | measuring on a new accumulator succeeds iff some attempt returned a value |
| `Worker.AllOperationsSucceedIff` | examples/mobile-use/batch.py:1055-1060 | `all_success` is true iff every operation had an attempt that returned a value |
| `Worker.OperationTableIsComplete` | examples/mobile-use/batch.py:1037-1062 | after the operations run, every operation key holds an accumulator with exactly one consistent run |
| `Worker.FreshMeasureConsistent` | examples/mobile-use/batch.py:1064-1097 | one measurement on an empty accumulator leaves exactly one consistent run |
| `Worker.ExecuteOperations` | examples/mobile-use/batch.py:1037-1062 | measures the eleven operations in order; the result is true iff all succeeded and the table holds each operation's measurement |
| `Worker.CreateFailureMessage` | examples/mobile-use/batch.py:960 | the creation error names max_retries in decimal right after its fixed opening and ends with the last error truncated to 200 characters |
| `Worker.ConnectFailureMessage` | examples/mobile-use/batch.py:989 | the connection error ends with the error truncated to 200 characters |
| `Worker.TryCreate` | examples/mobile-use/batch.py:926-955 | tries `create` until the first success or max_retries + 1 failures, timing from the first attempt and keeping the last error |
| `Worker.SandboxTester.constructor` | examples/mobile-use/batch.py:865-882 | a new tester holds no sandbox and no driver |
| `Worker.SandboxTester.CreateSandbox` | examples/mobile-use/batch.py:919-962 | on success, create_retry_count is the number of failed attempts before it, create_retried iff that is > 0, and the sandbox is registered; on exhaustion, the error names max_retries and the last error and nothing is registered |
| `Worker.SandboxTester.ConnectAppium` | examples/mobile-use/batch.py:964-991 | the driver is registered once created; connected iff the window size is also read; a failure sets the truncated error |
| `Worker.SandboxTester.Cleanup` | examples/mobile-use/batch.py:1011-1035 | quits the driver and kills the sandbox independently, true iff neither present call failed, and always unregisters the unit |
| `Worker.SandboxTester.RunCreated` | examples/mobile-use/batch.py:893-911 | after creation: connect; on failure clean up at once; otherwise run the operations and clean up, recording destroy_success |
| `Worker.SandboxTester.Run` | examples/mobile-use/batch.py:887-917 | success iff create, connect and every operation succeeded; on the first successful creation attempt i the record has create_retry_count i, create_retried iff i > 0, its latency, end stamp and real id, and the connect latency and any connect error; after exhaustion it has create_retry_count max_retries, create_retried iff max_retries > 0, the creation error and no connect data; cleanup and destroy stamps happen whenever the sandbox was created; the registry loses exactly this unit |
| `Reporting.CrashRecord` | examples/mobile-use/batch.py:1605-1607 | an exception becomes a failed record with the unit's id, the worker id and the error cut to 200 characters |
| `Reporting.ProcessResults` | examples/mobile-use/batch.py:1601-1619 | one record per (id, outcome) pair in order: the unit's record, or the crash record for an exception |
| `Reporting.CountWhere` | examples/mobile-use/batch.py:1346-1374 | a count over n records is at most n |
| `Reporting.MergeTable` | examples/mobile-use/batch.py:1367-1370 | merging a record's operations only touches keys the totals already have |
| `Reporting.Aggregate` | examples/mobile-use/batch.py:1329-1403 | total is the configured count; successful units, retry counters, the create and connect accumulators and the merged operations are the folds over the records; the rate is over the configured count |
| `Reporting.TallyRecords` | examples/mobile-use/batch.py:1346-1374 | the loop leaves every counter and accumulator equal to the fold over all records |
| `Reporting.TallyRecord` | examples/mobile-use/batch.py:1347-1374 | one record adds its creation sample, its connection sample when created, its retry, its operations and its success |
| `Reporting.CreateRunsCount` | examples/mobile-use/batch.py:1347-1350 | the create accumulator's total_runs is the number of records |
| `Reporting.CreateSuccessesCount` | examples/mobile-use/batch.py:1347-1350 | the create accumulator's successes are the created units |
| `Reporting.CreateFoldConsistent` | examples/mobile-use/batch.py:1347-1350 | the create accumulator keeps its invariants |
| `Reporting.ConnectRunsCount` | examples/mobile-use/batch.py:1361-1365 | the connect accumulator's total_runs is the number of created units |
| `Reporting.ConnectSuccessesCount` | examples/mobile-use/batch.py:1361-1365 | the connect accumulator's successes are the created and connected units |
| `Reporting.ConnectFoldConsistent` | examples/mobile-use/batch.py:1361-1365 | the connect accumulator keeps its invariants |
| `Reporting.OperationFoldConsistent` | examples/mobile-use/batch.py:1367-1370 | the merged operations keep their keys, and their invariants when every record's operations have theirs |
| `Reporting.RetriesSplit` | examples/mobile-use/batch.py:1353-1358 | create-retry triggered == success + failed |
| `Reporting.CountWhereMonotone` | examples/mobile-use/batch.py:1346-1374 | a condition implied by another is counted at least as often |
| `Reporting.SuccessesAreOrdered` | examples/mobile-use/batch.py:1346-1389 | successful ≤ connected ≤ created ≤ records, so the success rate lies in [0, 100] when records do not outnumber the configured units |
| `FanOut.SplitCounts` | examples/mobile-use/batch.py:1626-1634 | `[]` for total ≤ 0; otherwise min(max(p, 1), total) entries |
| `FanOut.SplitIsBalanced` | examples/mobile-use/batch.py:1632-1634 | every share is total/len or one more, at least 1, and the larger shares come first |
| `FanOut.SplitSumsToTotal` | examples/mobile-use/batch.py:1632-1634 | the shares sum to the total |
| `FanOut.SplitPrefixSum` | examples/mobile-use/batch.py:1633-1634 | the first k shares sum to k * base plus min(k, remainder) |
| `FanOut.SplitExamples` | examples/mobile-use/batch.py:1626-1634 | (10,3) gives [4,3,3], (5,10) gives [1,1,1,1,1], and (0,4) gives [] |
| `FanOut.BuildPlan` | examples/mobile-use/batch.py:1709-1714 | worker w gets its count and, as its offset, the sum of the counts before it |
| `FanOut.UnitIds` | examples/mobile-use/batch.py:1557 | a worker's ids are offset, offset + 1, ..., offset + count - 1 |
| `FanOut.PlanCoversIds` | examples/mobile-use/batch.py:1709-1714 | the planned ids, worker after worker, are exactly 0, 1, ..., sum - 1 |
| `FanOut.PlanBlocksOrdered` | examples/mobile-use/batch.py:1709-1714 | an earlier worker's ids all lie below a later worker's, so the ranges are disjoint |
| `FanOut.SumToMonotone` | examples/mobile-use/batch.py:1709-1714 | offsets never decrease along the plan |
| `FanOut.FanOutCoversTotal` | examples/mobile-use/batch.py:1683-1714 | split, plan and numbering give every id in [0, total) to exactly one worker, in order |
| `Config.Broken` | examples/mobile-use/batch.py:230-253 | the broken rules are exactly the rules that fail |
| `Config.BrokenInRuleOrder` | examples/mobile-use/batch.py:230-256 | the broken rules keep rule order: those of a first run of rules precede those of a second, and one rule contributes itself exactly when it fails, so the joined message lists them in the order the checks run |
| `Config.Message` | examples/mobile-use/batch.py:230-253 | a numeric rule's message ends with the current value of the setting it checks |
| `Config.Warnings` | examples/mobile-use/batch.py:258-263 | the quota warning is issued iff the unit count exceeds 100, the process warning iff more than one process is requested for fewer units, and no other warning |
| `Config.ValidateConfig` | examples/mobile-use/batch.py:228-263 | accepted iff every rule holds, then with the warnings; otherwise rejected with a non-empty list of exactly the failing rules |
| `Config.JoinLines` | examples/mobile-use/batch.py:256 | the joined message starts with the first line, and is that line when there is only one |
| `Config.JoinHoldsEveryLine` | examples/mobile-use/batch.py:256 | every line appears whole in the joined text, at its offset after the earlier lines and their newlines |
| `Config.RejectedIffRuleBroken` | examples/mobile-use/batch.py:228-256 | the configuration is rejected iff some rule fails, and the rejection lists exactly the failing rules |
| `Config.RejectionStartsWithFirstBroken` | examples/mobile-use/batch.py:255-256 | the error message starts with the first failing rule's message |
| `Config.RejectionListsEveryBroken` | examples/mobile-use/batch.py:255-256 | the rejection message holds every failing rule's message whole, on its own line |
| `Config.AcceptedSplitsWork` | examples/mobile-use/batch.py:258-263 | an accepted configuration splits into min(processes, units) shares summing to the units; the process warning appears iff fewer workers start than requested |
| `Coordinator.EntryRecords` | examples/mobile-use/batch.py:1765-1766 | a details list gives at most one record per entry |
| `Coordinator.EntryRecordsAppend` | examples/mobile-use/batch.py:1765-1766 | each entry contributes on its own and in place: the records of two runs of entries are the records of the first followed by those of the second |
| `Coordinator.EntryRecordsOfObjects` | examples/mobile-use/batch.py:1765-1766 | a list of objects gives one record per entry, the i-th rebuilt by `from_detail_dict` from the i-th entry; a list without objects gives none |
| `Coordinator.WorkerRecords` | examples/mobile-use/batch.py:1761-1766 | a worker whose details file is not a list contributes nothing; otherwise at most one record per entry |
| `Coordinator.Collected` | examples/mobile-use/batch.py:1754-1766 | nothing is collected when none of the workers left a details list |
| `Coordinator.CollectedPrefix` | examples/mobile-use/batch.py:1754-1766 | the records of the first m workers are a prefix of those of the first n, for m ≤ n |
| `Coordinator.CollectResults` | examples/mobile-use/batch.py:1754-1766 | the collection loop gathers, in plan order, the records of every worker whose files exist |
| `Coordinator.Coordinate` | examples/mobile-use/batch.py:1784-1785 | the final report counts the configured total, the collected successes, and one creation run per collected record |
| `Coordinator.WrittenDetails` | examples/mobile-use/batch.py:1487-1488 | a worker's details file lists one entry per record |
| `Coordinator.WithoutDestroy` | examples/mobile-use/batch.py:610-634 | forgetting destroy_success keeps the number of records |
| `Coordinator.WrittenDetailsReadBack` | examples/mobile-use/batch.py:1765-1766 | a worker's saved details read back as its records, destroy_success aside |
| `Coordinator.SavedFilesReadBack` | examples/mobile-use/batch.py:1754-1766 | when every worker's files were saved by it or are missing, each present worker's file reads back as its records |
| `Coordinator.CollectedIsAvailable` | examples/mobile-use/batch.py:1754-1766 | a worker with missing files loses only its own records; the rest are collected in order |
| `Coordinator.CountPrefix` | examples/mobile-use/batch.py:1373-1374 | counting a prefix ignores what follows it |
| `Coordinator.CountAppend` | examples/mobile-use/batch.py:1373-1374 | counts over a concatenation add up |
| `Coordinator.CountWithoutDestroy` | examples/mobile-use/batch.py:1373-1374 | dropping destroy_success does not change which units succeeded |
| `Coordinator.SuccessesAddUpAcrossWorkers` | examples/mobile-use/batch.py:1754-1785 | the coordinator's successful units are the sum of the available workers' successful units, whichever worker ran them |
| `Coordinator.WorkerSuccesses` | examples/mobile-use/batch.py:1754-1766 | a worker contributes exactly the successful units it ran, or none when its files are missing |

## Left out

- The average latency and the `"%.2f"` formatting in `to_dict` are left out, because both are floating point. Latencies and timestamps are integer and string inputs.
- Metrics.SummaryJson: keeps only the counters and the name of `OperationMetrics.to_dict`. The formatted statistics it also writes are not modelled, because the reader ignores them.
- JsonValues.IntOf, JsonValues.StrOf, JsonValues.GetList, JsonValues.GetNumList, JsonValues.GetStrList: a wrong-typed JSON value (a string where a number belongs, a list where a string belongs) reads as 0 or "", and a non-list value of `latencies_ms` or `errors` reads as an empty list. Python would coerce such a value, iterate a string or an object, or raise. Well-formed files never hold such values.
- The operations' bodies are left out (APK upload and install, app launch, screenshots, page XML, device info, browser, taps, logs), because each is device or network I/O. Each attempt's outcome is an input: a value, None, False or an exception.
- `extract_error_details` is left out, because it reflects over arbitrary exception objects. Its text is part of each failed attempt's input.
- Worker.SandboxTester.RunCreated: the exception branch of `_run_operations` is not modelled, because `_execute_operations` catches every operation's exception in `_measure_operation` and cannot raise in the model.
- Worker.MeasureOperation: the retry back-off sleep is not a separate step. Its time is part of the input time of the attempt that follows it.
- Worker.ExecuteOperations: creates each operation's accumulator just before measuring it. The source creates all eleven when the tester is built. They stay empty until their one measurement, so the results are the same.
- Resources.ResourceManager.CleanupAll: `quit` runs in a thread pool and `kill` calls run concurrently with `asyncio.gather`. The model makes the calls one after another and reports which ones raised. It does not model the log lines.
- The asyncio lock, `asyncio.gather`, the thread pool and process spawn/join are left out. Units and calls are modelled in sequence, and results arrive as a list.
- `BatchRunner.run` thread-pool sizing, the header and summary printing, and `ResultReporter.save`/`print_summary` are left out, because they are I/O.
- Coordinator.Coordinate: the workers' exit codes and the overall start and end times are left out. The exit codes only produce a warning line. The start and end times are the min and max of parsed ISO timestamps.
- Signal and `atexit` handling and the `_sync_cleanup` deadlines are left out, because they depend on OS signals and wall-clock time.
- `TeeLogger`, `setup_logging`, `.env` loading and `load_config` are left out, because they are I/O and parsing.
- `sandbox_connect.py` and `quickstart.py` are not part of this model. They are thin wrappers over the sandbox and driver clients.

/** Collecting the units' records (`_process_results`) and folding them into
    the report's totals (`ResultReporter.aggregate`). */
module Reporting {
  import opened Common
  import opened Metrics
  import opened Records

  // ---------------------------------------------------------------------------
  // Collecting results

  /** What awaiting one unit gave: its record, or the exception it raised (as its text). */
  datatype RunOutcome = Completed(record: ResultRecord) | Crashed(message: string)

  /** The record that stands in for a unit whose run raised. */
  function CrashRecord(unitId: int, message: string, workerId: int): (r: ResultRecord)
    ensures r.sandboxId == unitId && r.workerId == workerId
    ensures !r.success && !r.createSuccess && !r.connectSuccess && !r.operationsSuccess
    ensures r.error == Truncate(message) && |r.error| <= MaxErrorMsgLength
    ensures r.operationMetrics == map[]
  {
    NewResult(unitId).(error := Truncate(message), workerId := workerId)
  }

  /** `_process_results`: pair each unit id with its outcome (as `zip` does,
      stopping at the shorter list) and keep a record for every pair. */
  method ProcessResults(unitIds: seq<int>, outcomes: seq<RunOutcome>, workerId: int)
    returns (records: seq<ResultRecord>)
    ensures |records| == if |unitIds| <= |outcomes| then |unitIds| else |outcomes|
    ensures forall i :: 0 <= i < |records| ==>
              records[i] == match outcomes[i]
                            case Completed(r) => r
                            case Crashed(message) => CrashRecord(unitIds[i], message, workerId)
  {
    records := [];
    var i := 0;
    while i < |unitIds| && i < |outcomes|
      invariant 0 <= i <= |unitIds| && i <= |outcomes|
      invariant |records| == i
      invariant forall j :: 0 <= j < i ==>
                  records[j] == match outcomes[j]
                                case Completed(r) => r
                                case Crashed(message) => CrashRecord(unitIds[j], message, workerId)
    {
      var record := match outcomes[i]
                    case Completed(r) => r
                    case Crashed(message) => CrashRecord(unitIds[i], message, workerId);
      records := records + [record];
      i := i + 1;
    }
  }

  // ---------------------------------------------------------------------------
  // Aggregation

  /** The per-record conditions the report counts. */
  datatype Criterion = CreatedOk | ConnectedOk | UnitOk | RetriedCreate | RetriedAndCreated | RetriedNotCreated

  predicate Holds(c: Criterion, r: ResultRecord)
  {
    match c
    case CreatedOk => r.createSuccess
    case ConnectedOk => r.createSuccess && r.connectSuccess
    case UnitOk => r.success
    case RetriedCreate => r.createRetried
    case RetriedAndCreated => r.createRetried && r.createSuccess
    case RetriedNotCreated => r.createRetried && !r.createSuccess
  }

  /** How many of the first `n` records satisfy `p`. */
  function CountWhere(records: seq<ResultRecord>, n: nat, p: Criterion): (c: nat)
    requires n <= |records|
    ensures c <= n
  {
    if n == 0 then 0
    else CountWhere(records, n - 1, p) + (if Holds(p, records[n - 1]) then 1 else 0)
  }

  /** Creation is recorded for every unit, without the retried flag. */
  function RecordCreate(m: MetricsState, r: ResultRecord): MetricsState
  {
    if r.createSuccess then m.RecordedSuccess(r.createLatencyMs, false)
    else m.RecordedFailure(r.error, r.createLatencyMs, false)
  }

  /** Connection is recorded only for created units. */
  function RecordConnect(m: MetricsState, r: ResultRecord): MetricsState
  {
    if !r.createSuccess then m
    else if r.connectSuccess then m.RecordedSuccess(r.connectLatencyMs, false)
    else m.RecordedFailure(r.error, r.connectLatencyMs, false)
  }

  /** Merge one record's per-operation metrics into the totals: only keys the
      totals already have are merged, each exactly once. */
  function MergeTable(ops: map<string, MetricsState>, other: map<string, MetricsState>): (m: map<string, MetricsState>)
    ensures m.Keys == ops.Keys
  {
    map k | k in ops :: if k in other then ops[k].Merged(other[k]) else ops[k]
  }

  /** The accumulators of `aggregate` after the first `n` records have been
      folded, in order, into the starting values. */
  function CreateFold(start: MetricsState, records: seq<ResultRecord>, n: nat): MetricsState
    requires n <= |records|
  {
    if n == 0 then start
    else RecordCreate(CreateFold(start, records, n - 1), records[n - 1])
  }

  function ConnectFold(start: MetricsState, records: seq<ResultRecord>, n: nat): MetricsState
    requires n <= |records|
  {
    if n == 0 then start
    else RecordConnect(ConnectFold(start, records, n - 1), records[n - 1])
  }

  function OperationFold(start: map<string, MetricsState>, records: seq<ResultRecord>, n: nat): map<string, MetricsState>
    requires n <= |records|
  {
    if n == 0 then start
    else MergeTable(OperationFold(start, records, n - 1), records[n - 1].operationMetrics)
  }

  /** The figures of the report (its configuration echo, timestamps and
      duration are not modelled). */
  datatype Report = Report(
    totalSandboxes: nat,
    successfulSandboxes: int,
    successRate: real,
    retryTriggered: int,
    retrySuccess: int,
    retryFailed: int,
    create: MetricsState,
    connect: MetricsState,
    operations: map<string, MetricsState>)

  /** The names `aggregate` gives its two timing accumulators. */
  const CreateMetricsName: string := "Sandbox " + "Create"
  const ConnectMetricsName: string := "Appium " + "Connect"

  /** `aggregate`: fold every record into fresh accumulators and counters.
      The success rate is over the configured number of units, not over the
      records. */
  method Aggregate(records: seq<ResultRecord>, sandboxCount: nat) returns (report: Report)
    requires sandboxCount > 0
    ensures report.totalSandboxes == sandboxCount
    ensures report.successfulSandboxes == CountWhere(records, |records|, UnitOk)
    ensures report.successRate == Percent(CountWhere(records, |records|, UnitOk), sandboxCount)
    ensures report.retryTriggered == CountWhere(records, |records|, RetriedCreate)
    ensures report.retrySuccess == CountWhere(records, |records|, RetriedAndCreated)
    ensures report.retryFailed == CountWhere(records, |records|, RetriedNotCreated)
    ensures report.create == CreateFold(Empty(CreateMetricsName), records, |records|)
    ensures report.connect == ConnectFold(Empty(ConnectMetricsName), records, |records|)
    ensures report.operations == OperationFold(EmptyOperationTable(), records, |records|)
  {
    var create := new OperationMetrics(CreateMetricsName);
    var connect := new OperationMetrics(ConnectMetricsName);
    var operations, successCount, retryTriggered, retrySuccess, retryFailed :=
      TallyRecords(records, create, connect, EmptyOperationTable());
    report := Report(sandboxCount, successCount, Percent(successCount, sandboxCount),
                     retryTriggered, retrySuccess, retryFailed,
                     create.Value(), connect.Value(), operations);
  }

  /** The loop of `aggregate`, from whatever the accumulators hold. */
  method TallyRecords(records: seq<ResultRecord>, create: OperationMetrics, connect: OperationMetrics,
                      operationsStart: map<string, MetricsState>)
    returns (operations: map<string, MetricsState>, successCount: int, retryTriggered: int,
             retrySuccess: int, retryFailed: int)
    requires create != connect
    modifies create, connect
    ensures create.Value() == CreateFold(old(create.Value()), records, |records|)
    ensures connect.Value() == ConnectFold(old(connect.Value()), records, |records|)
    ensures operations == OperationFold(operationsStart, records, |records|)
    ensures successCount == CountWhere(records, |records|, UnitOk)
    ensures retryTriggered == CountWhere(records, |records|, RetriedCreate)
    ensures retrySuccess == CountWhere(records, |records|, RetriedAndCreated)
    ensures retryFailed == CountWhere(records, |records|, RetriedNotCreated)
  {
    ghost var createStart, connectStart := create.Value(), connect.Value();
    operations := operationsStart;
    successCount, retryTriggered, retrySuccess, retryFailed := 0, 0, 0, 0;
    var i := 0;
    while i < |records|
      invariant 0 <= i <= |records|
      invariant create.Value() == CreateFold(createStart, records, i)
      invariant connect.Value() == ConnectFold(connectStart, records, i)
      invariant operations == OperationFold(operationsStart, records, i)
      invariant successCount == CountWhere(records, i, UnitOk)
      invariant retryTriggered == CountWhere(records, i, RetriedCreate)
      invariant retrySuccess == CountWhere(records, i, RetriedAndCreated)
      invariant retryFailed == CountWhere(records, i, RetriedNotCreated)
    {
      operations, successCount, retryTriggered, retrySuccess, retryFailed :=
        TallyRecord(create, connect, records[i], operations, successCount, retryTriggered, retrySuccess, retryFailed);
      // One fold step each; stating them separately keeps the solver's search small.
      assert create.Value() == CreateFold(createStart, records, i + 1);
      assert connect.Value() == ConnectFold(connectStart, records, i + 1);
      assert operations == OperationFold(operationsStart, records, i + 1);
      i := i + 1;
    }
  }

  /** The body of `aggregate`'s loop: one record's creation (always) and
      connection (only when created) timings, its creation retry, its
      operations' metrics and its overall success. */
  method TallyRecord(create: OperationMetrics, connect: OperationMetrics, r: ResultRecord,
                     operations: map<string, MetricsState>, successCount: int,
                     retryTriggered: int, retrySuccess: int, retryFailed: int)
    returns (operations': map<string, MetricsState>, successCount': int,
             retryTriggered': int, retrySuccess': int, retryFailed': int)
    requires create != connect
    modifies create, connect
    ensures create.Value() == RecordCreate(old(create.Value()), r)
    ensures connect.Value() == RecordConnect(old(connect.Value()), r)
    ensures operations' == MergeTable(operations, r.operationMetrics)
    ensures successCount' == successCount + (if Holds(UnitOk, r) then 1 else 0)
    ensures retryTriggered' == retryTriggered + (if Holds(RetriedCreate, r) then 1 else 0)
    ensures retrySuccess' == retrySuccess + (if Holds(RetriedAndCreated, r) then 1 else 0)
    ensures retryFailed' == retryFailed + (if Holds(RetriedNotCreated, r) then 1 else 0)
  {
    if r.createSuccess {
      create.RecordSuccess(r.createLatencyMs, false);
    } else {
      create.RecordFailure(r.error, r.createLatencyMs, false);
    }
    retryTriggered', retrySuccess', retryFailed' := retryTriggered, retrySuccess, retryFailed;
    if r.createRetried {
      retryTriggered' := retryTriggered' + 1;
      if r.createSuccess {
        retrySuccess' := retrySuccess' + 1;
      } else {
        retryFailed' := retryFailed' + 1;
      }
    }
    if r.createSuccess {
      if r.connectSuccess {
        connect.RecordSuccess(r.connectLatencyMs, false);
      } else {
        connect.RecordFailure(r.error, r.connectLatencyMs, false);
      }
    }
    operations' := MergeTable(operations, r.operationMetrics);
    successCount' := successCount;
    if r.success {
      successCount' := successCount' + 1;
    }
  }

  // ---------------------------------------------------------------------------
  // What the totals mean

  /** Every record is one creation sample. */
  lemma {:induction false} CreateRunsCount(start: MetricsState, records: seq<ResultRecord>, n: nat)
    requires n <= |records|
    ensures CreateFold(start, records, n).totalRuns == start.totalRuns + n
  {
    if n > 0 {
      CreateRunsCount(start, records, n - 1);
    }
  }

  /** Creation succeeds once per created unit. */
  lemma {:induction false} CreateSuccessesCount(start: MetricsState, records: seq<ResultRecord>, n: nat)
    requires n <= |records|
    ensures CreateFold(start, records, n).successCount == start.successCount + CountWhere(records, n, CreatedOk)
  {
    if n > 0 {
      CreateSuccessesCount(start, records, n - 1);
    }
  }

  /** The creation accumulator keeps its counters in agreement with its samples. */
  lemma {:induction false} CreateFoldConsistent(start: MetricsState, records: seq<ResultRecord>, n: nat)
    requires n <= |records| && start.Consistent()
    ensures CreateFold(start, records, n).Consistent()
  {
    if n > 0 {
      CreateFoldConsistent(start, records, n - 1);
    }
  }

  /** Connection is sampled exactly once per created unit. */
  lemma {:induction false} ConnectRunsCount(start: MetricsState, records: seq<ResultRecord>, n: nat)
    requires n <= |records|
    ensures ConnectFold(start, records, n).totalRuns == start.totalRuns + CountWhere(records, n, CreatedOk)
  {
    if n > 0 {
      ConnectRunsCount(start, records, n - 1);
    }
  }

  /** Connection succeeds once per connected unit. */
  lemma {:induction false} ConnectSuccessesCount(start: MetricsState, records: seq<ResultRecord>, n: nat)
    requires n <= |records|
    ensures ConnectFold(start, records, n).successCount == start.successCount + CountWhere(records, n, ConnectedOk)
  {
    if n > 0 {
      ConnectSuccessesCount(start, records, n - 1);
    }
  }

  /** The connection accumulator keeps its counters in agreement with its samples. */
  lemma {:induction false} ConnectFoldConsistent(start: MetricsState, records: seq<ResultRecord>, n: nat)
    requires n <= |records| && start.Consistent()
    ensures ConnectFold(start, records, n).Consistent()
  {
    if n > 0 {
      ConnectFoldConsistent(start, records, n - 1);
    }
  }

  /** Merging keeps the table's keys, and keeps every entry consistent when
      every merged accumulator is. */
  lemma {:induction false} OperationFoldConsistent(start: map<string, MetricsState>, records: seq<ResultRecord>, n: nat)
    requires n <= |records|
    requires forall k :: k in start ==> start[k].Consistent()
    requires forall i, k :: 0 <= i < |records| && k in records[i].operationMetrics ==>
               records[i].operationMetrics[k].Consistent()
    ensures OperationFold(start, records, n).Keys == start.Keys
    ensures forall k :: k in OperationFold(start, records, n) ==> OperationFold(start, records, n)[k].Consistent()
  {
    if n > 0 {
      OperationFoldConsistent(start, records, n - 1);
    }
  }

  /** The retried creations split into those that ended created and those that did not. */
  lemma {:induction false} RetriesSplit(records: seq<ResultRecord>, n: nat)
    requires n <= |records|
    ensures CountWhere(records, n, RetriedCreate)
            == CountWhere(records, n, RetriedAndCreated) + CountWhere(records, n, RetriedNotCreated)
  {
    if n > 0 {
      RetriesSplit(records, n - 1);
    }
  }

  /** Counting is monotone in the predicate. */
  lemma {:induction false} CountWhereMonotone(records: seq<ResultRecord>, n: nat, p: Criterion, q: Criterion)
    requires n <= |records|
    requires forall i :: 0 <= i < |records| && Holds(p, records[i]) ==> Holds(q, records[i])
    ensures CountWhere(records, n, p) <= CountWhere(records, n, q)
  {
    if n > 0 {
      CountWhereMonotone(records, n - 1, p, q);
    }
  }

  /** A unit can only succeed once connected and can only connect once
      created (as every run's record ensures), so, from fresh accumulators,
      the report's counts are ordered, and the success rate lies between 0
      and 100 whenever there are no more records than configured units. */
  lemma SuccessesAreOrdered(records: seq<ResultRecord>, sandboxCount: nat, createStart: MetricsState, connectStart: MetricsState)
    requires forall i :: 0 <= i < |records| ==>
               (records[i].success ==> records[i].connectSuccess && records[i].createSuccess)
    requires 0 < sandboxCount && |records| <= sandboxCount
    requires createStart.successCount == 0 && connectStart.successCount == 0
    ensures CountWhere(records, |records|, UnitOk) <= ConnectFold(connectStart, records, |records|).successCount
    ensures ConnectFold(connectStart, records, |records|).successCount
            <= CreateFold(createStart, records, |records|).successCount <= |records|
    ensures 0.0 <= Percent(CountWhere(records, |records|, UnitOk), sandboxCount) <= 100.0
  {
    CreateSuccessesCount(createStart, records, |records|);
    ConnectSuccessesCount(connectStart, records, |records|);
    CountWhereMonotone(records, |records|, UnitOk, ConnectedOk);
    CountWhereMonotone(records, |records|, ConnectedOk, CreatedOk);
  }
}

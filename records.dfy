/** The outcome of one unit of work (`SandboxTestResult`), its JSON form
    (`to_dict`) and the reader that rebuilds it from a details file
    (`_sandbox_test_result_from_detail_dict`), which prefers the detailed
    per-operation form and falls back to the counts-only summary form.
    A details-file entry is a `ResultDoc`: one JSON value per top-level key,
    JNull for a key that is absent (every reader of these keys treats a
    missing key and a null alike). */
module Records {
  import opened Common
  import opened JsonValues
  import opened Metrics

  datatype ResultRecord = ResultRecord(
    sandboxId: int,
    workerId: int,
    success: bool,
    error: string,
    createLatencyMs: int,
    connectLatencyMs: int,
    totalLatencyMs: int,
    createSuccess: bool,
    connectSuccess: bool,
    operationsSuccess: bool,
    destroySuccess: bool,
    createRetryCount: int,
    createRetried: bool,
    startTime: string,
    endTime: string,
    createStartTime: string,
    createEndTime: string,
    destroyStartTime: string,
    destroyEndTime: string,
    realSandboxId: string,
    operationMetrics: map<string, MetricsState>)

  /** `SandboxTestResult(sandbox_id=...)` with every other field at its default. */
  function NewResult(sandboxId: int): (r: ResultRecord)
    ensures r.sandboxId == sandboxId && r.workerId == 0 && r.error == ""
    ensures !r.success && !r.createSuccess && !r.connectSuccess && !r.operationsSuccess && !r.destroySuccess
    ensures r.createRetryCount == 0 && !r.createRetried && r.operationMetrics == map[]
  {
    ResultRecord(sandboxId, 0, false, "", 0, 0, 0, false, false, false, false, 0, false,
                 "", "", "", "", "", "", "", map[])
  }

  /** One details-file entry: each field holds the JSON value stored under the
      snake_case key of the same name (`sandboxId` under "sandbox_id", ...). */
  datatype ResultDoc = ResultDoc(
    sandboxId: Json,
    workerId: Json,
    realSandboxId: Json,
    success: Json,
    error: Json,
    createSuccess: Json,
    connectSuccess: Json,
    operationsSuccess: Json,
    destroySuccess: Json,
    createLatencyMs: Json,
    connectLatencyMs: Json,
    totalLatencyMs: Json,
    createRetryCount: Json,
    createRetried: Json,
    startTime: Json,
    endTime: Json,
    createStartTime: Json,
    createEndTime: Json,
    destroyStartTime: Json,
    destroyEndTime: Json,
    operations: Json,
    operationsDetail: Json)

  function SummaryTable(ops: map<string, MetricsState>): Json
  {
    JObj(map k | k in ops :: SummaryJson(ops[k]))
  }

  function DetailTable(ops: map<string, MetricsState>): Json
  {
    JObj(map k | k in ops :: DetailJson(ops[k]))
  }

  /** `to_dict`: every field except `destroy_success`, plus the per-operation
      metrics twice, under "operations" in the summary form and under
      "operations_detail" in the detailed form. */
  function ResultToDict(r: ResultRecord): (d: ResultDoc)
    ensures d.destroySuccess == JNull
    ensures d.operations.JObj? && d.operationsDetail.JObj?
    ensures d.operations.fields.Keys == d.operationsDetail.fields.Keys == r.operationMetrics.Keys
  {
    ResultDoc(
      sandboxId := JNum(r.sandboxId),
      workerId := JNum(r.workerId),
      realSandboxId := JStr(r.realSandboxId),
      success := JBool(r.success),
      error := JStr(r.error),
      createSuccess := JBool(r.createSuccess),
      connectSuccess := JBool(r.connectSuccess),
      operationsSuccess := JBool(r.operationsSuccess),
      destroySuccess := JNull,
      createLatencyMs := JNum(r.createLatencyMs),
      connectLatencyMs := JNum(r.connectLatencyMs),
      totalLatencyMs := JNum(r.totalLatencyMs),
      createRetryCount := JNum(r.createRetryCount),
      createRetried := JBool(r.createRetried),
      startTime := JStr(r.startTime),
      endTime := JStr(r.endTime),
      createStartTime := JStr(r.createStartTime),
      createEndTime := JStr(r.createEndTime),
      destroyStartTime := JStr(r.destroyStartTime),
      destroyEndTime := JStr(r.destroyEndTime),
      operations := SummaryTable(r.operationMetrics),
      operationsDetail := DetailTable(r.operationMetrics))
  }

  /** The per-operation metrics the reader rebuilds: from "operations_detail"
      when it is an object, else counts only from "operations" when that is
      an object, else none. Entries that are not objects are skipped. */
  function ReadOperationMetrics(detail: Json, summary: Json): (ops: map<string, MetricsState>)
    ensures detail.JObj? ==> forall k :: k in ops <==> k in detail.fields && detail.fields[k].JObj?
    ensures !detail.JObj? && summary.JObj? ==> forall k :: k in ops <==> k in summary.fields && summary.fields[k].JObj?
    ensures !detail.JObj? && !summary.JObj? ==> ops == map[]
    ensures !detail.JObj? ==> forall k :: k in ops ==> ops[k].latencies == [] && ops[k].errors == []
  {
    if detail.JObj? then
      map k | k in detail.fields && detail.fields[k].JObj? :: FromDetailDict(detail.fields[k].fields)
    else if summary.JObj? then
      map k | k in summary.fields && summary.fields[k].JObj? :: FromSummaryDict(summary.fields[k].fields)
    else
      map[]
  }

  /** `_sandbox_test_result_from_detail_dict`. */
  function ResultFromDetailDict(d: ResultDoc): (r: ResultRecord)
    ensures r.destroySuccess == Truthy(d.destroySuccess)
    ensures !d.operationsDetail.JObj? ==> forall k :: k in r.operationMetrics ==> r.operationMetrics[k].latencies == []
  {
    ResultRecord(
      sandboxId := AsInt(d.sandboxId),
      workerId := AsInt(d.workerId),
      success := Truthy(d.success),
      error := AsStr(d.error),
      createLatencyMs := AsInt(d.createLatencyMs),
      connectLatencyMs := AsInt(d.connectLatencyMs),
      totalLatencyMs := AsInt(d.totalLatencyMs),
      createSuccess := Truthy(d.createSuccess),
      connectSuccess := Truthy(d.connectSuccess),
      operationsSuccess := Truthy(d.operationsSuccess),
      destroySuccess := Truthy(d.destroySuccess),
      createRetryCount := AsInt(d.createRetryCount),
      createRetried := Truthy(d.createRetried),
      startTime := AsStr(d.startTime),
      endTime := AsStr(d.endTime),
      createStartTime := AsStr(d.createStartTime),
      createEndTime := AsStr(d.createEndTime),
      destroyStartTime := AsStr(d.destroyStartTime),
      destroyEndTime := AsStr(d.destroyEndTime),
      realSandboxId := AsStr(d.realSandboxId),
      operationMetrics := ReadOperationMetrics(d.operationsDetail, d.operations))
  }

  /** The counts-only view of a metrics table that the summary form preserves. */
  function CountsOnly(ops: map<string, MetricsState>): (c: map<string, MetricsState>)
    ensures c.Keys == ops.Keys
  {
    map k | k in ops :: ops[k].(latencies := [], errors := [])
  }

  /** The detailed table reads back as the metrics it was written from. */
  lemma DetailTableRoundTrip(ops: map<string, MetricsState>, summary: Json)
    ensures ReadOperationMetrics(DetailTable(ops), summary) == ops
  {
    var t := DetailTable(ops).fields;
    forall k | k in ops
      ensures t[k].JObj? && FromDetailDict(t[k].fields) == ops[k]
    {
      DetailEntryRoundTrip(ops, k);
    }
    ReadDetailEntries(t, summary, ops);
  }

  lemma DetailEntryRoundTrip(ops: map<string, MetricsState>, k: string)
    requires k in ops
    ensures DetailTable(ops).fields[k].JObj?
    ensures FromDetailDict(DetailTable(ops).fields[k].fields) == ops[k]
  {
    assert DetailTable(ops).fields[k] == DetailJson(ops[k]);
    DetailRoundTrip(ops[k]);
  }

  /** A detail object whose every entry reads back as the matching
      accumulator reads back as the whole table. */
  lemma ReadDetailEntries(t: map<string, Json>, summary: Json, ops: map<string, MetricsState>)
    requires t.Keys == ops.Keys
    requires forall k :: k in ops ==> t[k].JObj? && FromDetailDict(t[k].fields) == ops[k]
    ensures ReadOperationMetrics(JObj(t), summary) == ops
  {
    var read := ReadOperationMetrics(JObj(t), summary);
    assert read.Keys == ops.Keys;
  }

  /** The summary table alone reads back as the counters without samples. */
  lemma SummaryTableRoundTrip(ops: map<string, MetricsState>)
    ensures ReadOperationMetrics(JNull, SummaryTable(ops)) == CountsOnly(ops)
  {
    var t := SummaryTable(ops).fields;
    forall k | k in ops
      ensures t[k].JObj? && FromSummaryDict(t[k].fields) == CountsOnly(ops)[k]
    {
      SummaryEntryRoundTrip(ops, k);
    }
    ReadSummaryEntries(t, CountsOnly(ops));
  }

  lemma SummaryEntryRoundTrip(ops: map<string, MetricsState>, k: string)
    requires k in ops
    ensures SummaryTable(ops).fields[k].JObj?
    ensures FromSummaryDict(SummaryTable(ops).fields[k].fields) == ops[k].(latencies := [], errors := [])
  {
    assert SummaryTable(ops).fields[k] == SummaryJson(ops[k]);
    SummaryRoundTrip(ops[k]);
  }

  /** A summary object whose every entry reads back as the matching
      accumulator reads back as the whole table. */
  lemma ReadSummaryEntries(t: map<string, Json>, ops: map<string, MetricsState>)
    requires t.Keys == ops.Keys
    requires forall k :: k in ops ==> t[k].JObj? && FromSummaryDict(t[k].fields) == ops[k]
    ensures ReadOperationMetrics(JNull, JObj(t)) == ops
  {
    var read := ReadOperationMetrics(JNull, JObj(t));
    assert read.Keys == ops.Keys;
  }

  /** Writing a record and reading it back restores every field except
      `destroy_success`, which `to_dict` never writes and so reads back false. */
  lemma RecordRoundTrip(r: ResultRecord)
    ensures ResultFromDetailDict(ResultToDict(r)) == r.(destroySuccess := false)
  {
    DetailTableRoundTrip(r.operationMetrics, SummaryTable(r.operationMetrics));
  }

  /** A record carrying only the summary form of its operations (an older
      details file) reads back with the counters and without any samples. */
  lemma SummaryFormFallback(r: ResultRecord)
    ensures ResultFromDetailDict(ResultToDict(r).(operationsDetail := JNull))
            == r.(destroySuccess := false, operationMetrics := CountsOnly(r.operationMetrics))
  {
    SummaryTableRoundTrip(r.operationMetrics);
  }
}

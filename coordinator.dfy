/** The coordinator's side of the multi-process mode (`_run_multiprocess`):
    once the workers have exited, it reads each worker's details file in plan
    order, skips a worker whose result files are missing, rebuilds a record
    from every object entry of the files it finds, and aggregates all of them
    over the configured number of units. Reading the files and the workers'
    start and end times are outside the model. */
module Coordinator {
  import opened Records
  import opened Reporting

  /** One element of a details file: an object holding a result entry, or any other JSON value. */
  datatype DetailsEntry = EntryObject(doc: ResultDoc) | NotAnObject

  /** What the coordinator finds in one worker's directory. */
  datatype WorkerFiles =
    | FilesMissing                               // the summary or the details file is absent
    | DetailsList(entries: seq<DetailsEntry>)    // the details file holds a list
    | DetailsNotAList                            // the details file holds some other JSON value

  /** The records rebuilt from the object entries of a details list, in order. */
  function EntryRecords(entries: seq<DetailsEntry>): (rs: seq<ResultRecord>)
    ensures |rs| <= |entries|
  {
    if entries == [] then []
    else
      (if entries[0].EntryObject? then [ResultFromDetailDict(entries[0].doc)] else [])
      + EntryRecords(entries[1..])
  }

  /** A worker contributes records only when its details file is a list,
      and at most one per entry. */
  function WorkerRecords(f: WorkerFiles): (rs: seq<ResultRecord>)
    ensures !f.DetailsList? ==> rs == []
    ensures f.DetailsList? ==> |rs| <= |f.entries|
  {
    if f.DetailsList? then EntryRecords(f.entries) else []
  }

  /** The records of the first `n` workers, worker after worker; none
      when none of them left a details list. */
  function Collected(files: seq<WorkerFiles>, n: nat): (rs: seq<ResultRecord>)
    requires n <= |files|
    ensures (forall w :: 0 <= w < n ==> !files[w].DetailsList?) ==> rs == []
  {
    if n == 0 then [] else Collected(files, n - 1) + WorkerRecords(files[n - 1])
  }

  /** Rebuilding two runs of entries one after the other gives their records
      one after the other: each entry contributes on its own, in place. */
  lemma {:induction false} EntryRecordsAppend(a: seq<DetailsEntry>, b: seq<DetailsEntry>)
    ensures EntryRecords(a + b) == EntryRecords(a) + EntryRecords(b)
  {
    if a != [] {
      assert (a + b)[0] == a[0] && (a + b)[1..] == a[1..] + b;
      EntryRecordsAppend(a[1..], b);
      var head := if a[0].EntryObject? then [ResultFromDetailDict(a[0].doc)] else [];
      assert EntryRecords(a + b) == head + (EntryRecords(a[1..]) + EntryRecords(b));
      assert EntryRecords(a) == head + EntryRecords(a[1..]);
    } else {
      assert a + b == b;
    }
  }

  /** A list of objects gives one record per entry, each rebuilt from that
      entry; a list without objects gives none. */
  lemma {:induction false} EntryRecordsOfObjects(entries: seq<DetailsEntry>)
    ensures (forall i :: 0 <= i < |entries| ==> entries[i].EntryObject?) ==>
      |EntryRecords(entries)| == |entries| &&
      forall i :: 0 <= i < |entries| ==> EntryRecords(entries)[i] == ResultFromDetailDict(entries[i].doc)
    ensures (forall i :: 0 <= i < |entries| ==> entries[i].NotAnObject?) ==> EntryRecords(entries) == []
  {
    if entries != [] {
      EntryRecordsOfObjects(entries[1..]);
      assert forall i :: 1 <= i < |entries| ==> entries[1..][i - 1] == entries[i];
    }
  }

  /** The records of the first `m` workers come first among those of the first `n`. */
  lemma {:induction false} CollectedPrefix(files: seq<WorkerFiles>, m: nat, n: nat)
    requires m <= n <= |files|
    ensures Collected(files, m) <= Collected(files, n)
    decreases n
  {
    if m < n {
      CollectedPrefix(files, m, n - 1);
      PrefixExtends(Collected(files, m), Collected(files, n - 1), WorkerRecords(files[n - 1]));
    } else {
      var all := Collected(files, n);
      assert all[..|all|] == all;
    }
  }

  /** A prefix of a list is a prefix of that list followed by more. */
  lemma PrefixExtends(a: seq<ResultRecord>, b: seq<ResultRecord>, more: seq<ResultRecord>)
    requires a <= b
    ensures a <= b + more
  {
    assert (b + more)[..|a|] == b[..|a|];
  }

  /** The collection loop of `_run_multiprocess`: for each worker of the
      plan, extend the result list with the records rebuilt from its details
      file (none when its files are missing or the file is not a list). */
  method CollectResults(files: seq<WorkerFiles>) returns (records: seq<ResultRecord>)
    ensures records == Collected(files, |files|)
  {
    records := [];
    var w := 0;
    while w < |files|
      invariant 0 <= w <= |files|
      invariant records == Collected(files, w)
    {
      var more := WorkerRecords(files[w]);
      assert Collected(files, w + 1) == Collected(files, w) + more;
      records := records + more;
      w := w + 1;
    }
  }

  /** The coordinator's report: the collected records aggregated over the
      configured total, whatever number of records was found. */
  method Coordinate(files: seq<WorkerFiles>, total: nat) returns (report: Report)
    requires total > 0
    ensures report.totalSandboxes == total
    ensures report.successfulSandboxes
            == CountWhere(Collected(files, |files|), |Collected(files, |files|)|, UnitOk)
    ensures report.create.totalRuns == |Collected(files, |files|)|
  {
    var records := CollectResults(files);
    report := Aggregate(records, total);
    CreateRunsCount(Metrics.Empty(CreateMetricsName), records, |records|);
  }

  // ---------------------------------------------------------------------------
  // Files the workers wrote

  /** The details file a worker saves: one `to_dict` entry per record, in order. */
  function WrittenDetails(rs: seq<ResultRecord>): (f: WorkerFiles)
    ensures f.DetailsList? && |f.entries| == |rs|
  {
    DetailsList(seq(|rs|, i requires 0 <= i < |rs| => EntryObject(ResultToDict(rs[i]))))
  }

  /** A record as the coordinator sees it: `destroy_success` is never written. */
  function ClearDestroy(r: ResultRecord): (r': ResultRecord)
    ensures r'.success == r.success
  {
    r.(destroySuccess := false)
  }

  /** The records as the coordinator sees them. */
  function WithoutDestroy(rs: seq<ResultRecord>): (out: seq<ResultRecord>)
    ensures |out| == |rs|
  {
    seq(|rs|, i requires 0 <= i < |rs| => ClearDestroy(rs[i]))
  }

  /** A worker's saved details file reads back as its records, `destroy_success` aside. */
  lemma {:induction false} WrittenDetailsReadBack(rs: seq<ResultRecord>)
    ensures WorkerRecords(WrittenDetails(rs)) == WithoutDestroy(rs)
  {
    if rs != [] {
      var entries := WrittenDetails(rs).entries;
      assert entries[1..] == WrittenDetails(rs[1..]).entries;
      WrittenDetailsReadBack(rs[1..]);
      RecordRoundTrip(rs[0]);
      assert WithoutDestroy(rs) == [ClearDestroy(rs[0])] + WithoutDestroy(rs[1..]);
    }
  }

  /** Every worker whose files are present gave back the records it ran,
      `destroy_success` aside. */
  predicate ReadsBack(files: seq<WorkerFiles>, perWorker: seq<seq<ResultRecord>>)
  {
    |files| == |perWorker| &&
    forall w {:trigger WorkerRecords(files[w])} ::
      0 <= w < |files| && !files[w].FilesMissing? ==> WorkerRecords(files[w]) == WithoutDestroy(perWorker[w])
  }

  /** Files that the workers saved, or left missing, read back as their records. */
  lemma SavedFilesReadBack(files: seq<WorkerFiles>, perWorker: seq<seq<ResultRecord>>)
    requires |files| == |perWorker|
    requires forall w :: 0 <= w < |files| ==> files[w] == FilesMissing || files[w] == WrittenDetails(perWorker[w])
    ensures ReadsBack(files, perWorker)
  {
    forall w | 0 <= w < |files| && !files[w].FilesMissing?
      ensures WorkerRecords(files[w]) == WithoutDestroy(perWorker[w])
    {
      WrittenDetailsReadBack(perWorker[w]);
    }
  }

  /** The records of the first `n` workers whose files are present. */
  function Available(files: seq<WorkerFiles>, perWorker: seq<seq<ResultRecord>>, n: nat): seq<ResultRecord>
    requires n <= |files| == |perWorker|
  {
    if n == 0 then []
    else Available(files, perWorker, n - 1)
         + (if files[n - 1].FilesMissing? then [] else WithoutDestroy(perWorker[n - 1]))
  }

  /** A worker whose files are missing only loses its own records: the
      coordinator collects exactly the records of the other workers, in
      plan order. */
  lemma {:induction false} CollectedIsAvailable(files: seq<WorkerFiles>, perWorker: seq<seq<ResultRecord>>, n: nat)
    requires ReadsBack(files, perWorker) && n <= |files|
    ensures Collected(files, n) == Available(files, perWorker, n)
  {
    if n > 0 {
      CollectedIsAvailable(files, perWorker, n - 1);
      var added := if files[n - 1].FilesMissing? then [] else WithoutDestroy(perWorker[n - 1]);
      assert WorkerRecords(files[n - 1]) == added;
    }
  }

  // ---------------------------------------------------------------------------
  // Counting across workers

  /** Counting over a prefix of `a` is unaffected by what follows it. */
  lemma {:induction false} CountPrefix(a: seq<ResultRecord>, b: seq<ResultRecord>, m: nat, p: Criterion)
    requires m <= |a|
    ensures CountWhere(a + b, m, p) == CountWhere(a, m, p)
  {
    if m > 0 {
      CountPrefix(a, b, m - 1, p);
      assert (a + b)[m - 1] == a[m - 1];
    }
  }

  /** Counting over a concatenation adds the two counts. */
  lemma {:induction false} CountAppend(a: seq<ResultRecord>, b: seq<ResultRecord>, k: nat, p: Criterion)
    requires k <= |b|
    ensures CountWhere(a + b, |a| + k, p) == CountWhere(a, |a|, p) + CountWhere(b, k, p)
  {
    if k == 0 {
      CountPrefix(a, b, |a|, p);
    } else {
      CountAppend(a, b, k - 1, p);
      assert (a + b)[|a| + k - 1] == b[k - 1];
    }
  }

  /** Forgetting `destroy_success` does not change which units succeeded. */
  lemma {:induction false} CountWithoutDestroy(rs: seq<ResultRecord>, n: nat)
    requires n <= |rs|
    ensures CountWhere(WithoutDestroy(rs), n, UnitOk) == CountWhere(rs, n, UnitOk)
  {
    if n > 0 {
      CountWithoutDestroy(rs, n - 1);
    }
  }

  /** The successful units of the first `n` workers whose files are present. */
  function AvailableSuccesses(files: seq<WorkerFiles>, perWorker: seq<seq<ResultRecord>>, n: nat): nat
    requires n <= |files| == |perWorker|
  {
    if n == 0 then 0
    else AvailableSuccesses(files, perWorker, n - 1)
         + (if files[n - 1].FilesMissing? then 0 else CountWhere(perWorker[n - 1], |perWorker[n - 1]|, UnitOk))
  }

  /** The coordinator's successful units are the sum of every available
      worker's successful units, whichever worker ran them. */
  lemma {:induction false} SuccessesAddUpAcrossWorkers(files: seq<WorkerFiles>, perWorker: seq<seq<ResultRecord>>, n: nat)
    requires ReadsBack(files, perWorker) && n <= |files|
    ensures CountWhere(Collected(files, n), |Collected(files, n)|, UnitOk) == AvailableSuccesses(files, perWorker, n)
  {
    if n > 0 {
      var prev, more := Collected(files, n - 1), WorkerRecords(files[n - 1]);
      SuccessesAddUpAcrossWorkers(files, perWorker, n - 1);
      WorkerSuccesses(files, perWorker, n);
      CountAppend(prev, more, |more|, UnitOk);
      assert Collected(files, n) == prev + more;
    }
  }

  /** The successful units read back from worker `n - 1`: those it ran, or none when its files are missing. */
  lemma WorkerSuccesses(files: seq<WorkerFiles>, perWorker: seq<seq<ResultRecord>>, n: nat)
    requires ReadsBack(files, perWorker) && 0 < n <= |files|
    ensures CountWhere(WorkerRecords(files[n - 1]), |WorkerRecords(files[n - 1])|, UnitOk)
            == if files[n - 1].FilesMissing? then 0 else CountWhere(perWorker[n - 1], |perWorker[n - 1]|, UnitOk)
  {
    if !files[n - 1].FilesMissing? {
      CountWithoutDestroy(perWorker[n - 1], |perWorker[n - 1]|);
    }
  }
}

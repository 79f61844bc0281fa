/** One unit of work (`AsyncSandboxTester`): create a sandbox with retries,
    connect a driver, measure the fixed list of operations with retries, then
    release everything. The outside world is an input: each attempt of a call
    is given as its outcome together with the milliseconds it took, the retry
    back-off included, and the timestamps a run records are given as strings. */
module Worker {
  import opened Common
  import opened Metrics
  import opened Records
  import opened Resources

  /** One attempt of an external call and the time it took. */
  datatype Timed<T> = Timed(outcome: T, elapsedMs: nat)

  /** Milliseconds spent over a run of attempts. */
  function Elapsed<T>(s: seq<Timed<T>>): nat
  {
    if s == [] then 0 else Elapsed(s[..|s| - 1]) + s[|s| - 1].elapsedMs
  }

  lemma ElapsedStep<T>(s: seq<Timed<T>>, k: nat)
    requires k < |s|
    ensures Elapsed(s[..k + 1]) == Elapsed(s[..k]) + s[k].elapsedMs
  {
    assert s[..k + 1][..k] == s[..k];
  }

  /** The time up to any attempt is at most the time of all of them. */
  lemma {:induction false} ElapsedPrefix<T>(s: seq<Timed<T>>, k: nat)
    requires k <= |s|
    ensures Elapsed(s[..k]) <= Elapsed(s)
  {
    if k < |s| {
      ElapsedPrefix(s[..|s| - 1], k);
      assert s[..|s| - 1][..k] == s[..k];
      assert s[..|s|] == s;
    } else {
      assert s[..k] == s;
    }
  }

  /** The position of the first element satisfying `p`, if any. */
  function FirstWhere<T>(s: seq<T>, p: T -> bool): (r: Option<nat>)
    ensures r.Some? ==> r.value < |s| && p(s[r.value])
    ensures r.Some? ==> forall j :: 0 <= j < r.value ==> !p(s[j])
    ensures r.None? <==> forall j :: 0 <= j < |s| ==> !p(s[j])
  {
    if s == [] then None
    else if p(s[0]) then Some(0)
    else match FirstWhere(s[1..], p)
      case None => None
      case Some(i) => Some(i + 1)
  }

  // ---------------------------------------------------------------------------
  // Measuring one operation

  /** What an operation's function call did: it returned None, returned False,
      returned any other value, or raised (with the extracted error details). */
  datatype OpReturn = ReturnedNone | ReturnedFalse | ReturnedValue | Raised(details: string)

  /** `result is not None and result is not False`: any other value, 0 and "" included, is success. */
  predicate Returned(a: Timed<OpReturn>)
  {
    a.outcome.ReturnedValue?
  }

  /** The error a failed attempt leaves behind. */
  function AttemptError(r: OpReturn): string
  {
    match r
    case ReturnedNone => "Operation returned: None"
    case ReturnedFalse => "Operation returned: False"
    case Raised(details) => details
    case ReturnedValue => ""
  }

  datatype Measurement = Measurement(success: bool, latencyMs: nat, metrics: MetricsState)

  /** `_measure_operation` on the accumulator `m`: the attempts are tried in
      order until one returns a value; the time since the first attempt
      started is recorded as a success, or, when every attempt failed, as a
      failure carrying the last attempt's error. */
  function Measure(m: MetricsState, attempts: seq<Timed<OpReturn>>): (o: Measurement)
    requires attempts != []
    ensures o.metrics.name == m.name && o.metrics.totalRuns == m.totalRuns + 1
  {
    match FirstWhere(attempts, Returned)
    case Some(i) =>
      var t := Elapsed(attempts[..i + 1]);
      Measurement(true, t, m.RecordedSuccess(t, i > 0))
    case None =>
      var t := Elapsed(attempts);
      Measurement(false, t, m.RecordedFailure(AttemptError(attempts[|attempts| - 1].outcome), t, |attempts| > 1))
  }

  /** A measurement succeeds iff some attempt returned a value; it takes no
      longer than all the attempts together, and exactly as long when it fails. */
  lemma MeasureOutcome(m: MetricsState, attempts: seq<Timed<OpReturn>>)
    requires attempts != []
    ensures Measure(m, attempts).success <==> exists i :: 0 <= i < |attempts| && Returned(attempts[i])
    ensures Measure(m, attempts).latencyMs <= Elapsed(attempts)
    ensures !Measure(m, attempts).success ==> Measure(m, attempts).latencyMs == Elapsed(attempts)
  {
    match FirstWhere(attempts, Returned)
    case Some(i) =>
      ElapsedPrefix(attempts, i + 1);
    case None =>
  }

  /** What a measurement adds to the accumulator: one run, one success or one
      failure with the last attempt's error, and a retry exactly when the
      first attempt failed and there was another. */
  lemma MeasureRecords(m: MetricsState, attempts: seq<Timed<OpReturn>>)
    requires attempts != []
    ensures var o := Measure(m, attempts);
      && o.metrics.successCount == m.successCount + (if o.success then 1 else 0)
      && o.metrics.failureCount == m.failureCount + (if o.success then 0 else 1)
      && o.metrics.retryTriggered == m.retryTriggered + (if !Returned(attempts[0]) && |attempts| > 1 then 1 else 0)
      && (o.success ==> o.metrics.latencies == m.latencies + [o.latencyMs] && o.metrics.errors == m.errors)
      && (!o.success ==> o.metrics.errors == m.errors + [Truncate(AttemptError(attempts[|attempts| - 1].outcome))])
  {
  }

  /** A measurement keeps the accumulator's counters in agreement with its samples. */
  lemma MeasureKeepsConsistent(m: MetricsState, attempts: seq<Timed<OpReturn>>)
    requires attempts != [] && m.Consistent()
    ensures Measure(m, attempts).metrics.Consistent()
  {
  }

  /** `_measure_operation` with `max_retries` retries: `attempts[k]` is what
      the k-th call of the operation does. */
  method MeasureOperation(m: OperationMetrics, attempts: seq<Timed<OpReturn>>, maxRetries: nat)
    returns (success: bool, latencyMs: nat)
    requires |attempts| == maxRetries + 1
    modifies m
    ensures var o := Measure(old(m.Value()), attempts);
      success == o.success && latencyMs == o.latencyMs && m.Value() == o.metrics
  {
    var totalMs := 0;
    var lastError := "";
    var retried := false;
    var attempt := 0;
    while attempt <= maxRetries
      invariant 0 <= attempt <= maxRetries + 1
      invariant forall j :: 0 <= j < attempt ==> !Returned(attempts[j])
      invariant totalMs == Elapsed(attempts[..attempt])
      invariant retried == (attempt > 1)
      invariant attempt > 0 ==> lastError == AttemptError(attempts[attempt - 1].outcome)
      invariant m.Value() == old(m.Value())
    {
      if attempt > 0 {
        retried := true;
      }
      ElapsedStep(attempts, attempt);
      totalMs := totalMs + attempts[attempt].elapsedMs;
      if Returned(attempts[attempt]) {
        MeasureFirstReturned(old(m.Value()), attempts, attempt);
        m.RecordSuccess(totalMs, retried);
        return true, totalMs;
      }
      lastError := AttemptError(attempts[attempt].outcome);
      attempt := attempt + 1;
    }
    assert attempts[..attempt] == attempts;
    MeasureNoneReturned(old(m.Value()), attempts);
    m.RecordFailure(lastError, totalMs, retried);
    return false, totalMs;
  }

  /** The measurement when attempt `i` is the first to return a value. */
  lemma MeasureFirstReturned(m: MetricsState, attempts: seq<Timed<OpReturn>>, i: nat)
    requires i < |attempts| && Returned(attempts[i])
    requires forall j :: 0 <= j < i ==> !Returned(attempts[j])
    ensures var t := Elapsed(attempts[..i + 1]);
      Measure(m, attempts) == Measurement(true, t, m.RecordedSuccess(t, i > 0))
  {
    assert FirstWhere(attempts, Returned) == Some(i);
  }

  /** The measurement when no attempt returns a value. */
  lemma MeasureNoneReturned(m: MetricsState, attempts: seq<Timed<OpReturn>>)
    requires attempts != []
    requires forall j :: 0 <= j < |attempts| ==> !Returned(attempts[j])
    ensures var t := Elapsed(attempts);
      Measure(m, attempts)
        == Measurement(false, t, m.RecordedFailure(AttemptError(attempts[|attempts| - 1].outcome), t, |attempts| > 1))
  {
    assert FirstWhere(attempts, Returned) == None;
  }

  // ---------------------------------------------------------------------------
  // The operation list

  /** Scripts for the operations: one list of attempts per operation, in `OPERATIONS` order. */
  predicate ScriptsFit(scripts: seq<seq<Timed<OpReturn>>>, maxRetries: nat)
  {
    |scripts| == |Operations| && forall i :: 0 <= i < |scripts| ==> |scripts[i]| == maxRetries + 1
  }

  /** The measurement of operation i on its freshly created accumulator. */
  function OperationMeasure(scripts: seq<seq<Timed<OpReturn>>>, i: nat): Measurement
    requires i < |scripts| <= |Operations| && scripts[i] != []
  {
    Measure(Empty(OperationLabel(i)), scripts[i])
  }

  function MeasuredMetrics(scripts: seq<seq<Timed<OpReturn>>>): (ms: seq<MetricsState>)
    requires |scripts| <= |Operations| && forall i :: 0 <= i < |scripts| ==> scripts[i] != []
    ensures |ms| == |scripts|
  {
    seq(|scripts|, i requires 0 <= i < |scripts| => OperationMeasure(scripts, i).metrics)
  }

  /** Some attempt of the operation returned a value. */
  predicate ScriptSucceeds(attempts: seq<Timed<OpReturn>>)
  {
    exists k :: 0 <= k < |attempts| && Returned(attempts[k])
  }

  /** `all_success &= success` over the first `n` operations in order. */
  predicate AllOperationsSucceed(scripts: seq<seq<Timed<OpReturn>>>, n: nat)
    requires n <= |scripts|
  {
    n == 0 || (AllOperationsSucceed(scripts, n - 1) && ScriptSucceeds(scripts[n - 1]))
  }

  /** The unit's operations succeed iff every operation had an attempt that returned a value. */
  lemma {:induction false} AllOperationsSucceedIff(scripts: seq<seq<Timed<OpReturn>>>, n: nat)
    requires n <= |scripts|
    ensures AllOperationsSucceed(scripts, n) <==> forall i :: 0 <= i < n ==> ScriptSucceeds(scripts[i])
  {
    if n > 0 {
      AllOperationsSucceedIff(scripts, n - 1);
    }
  }

  /** Every operation of a finished run has been measured exactly once, and
      each accumulator's counters agree with its samples. */
  lemma OperationTableIsComplete(scripts: seq<seq<Timed<OpReturn>>>, maxRetries: nat)
    requires ScriptsFit(scripts, maxRetries)
    ensures var table := OperationTable(MeasuredMetrics(scripts), |scripts|);
      forall i :: 0 <= i < |Operations| ==> Operations[i].0 in table
    ensures var table := OperationTable(MeasuredMetrics(scripts), |scripts|);
      forall k :: k in table ==> table[k].totalRuns == 1 && table[k].Consistent()
  {
    var ms := MeasuredMetrics(scripts);
    var measuredOnce := (m: MetricsState) => m.totalRuns == 1 && m.Consistent();
    forall i | 0 <= i < |ms|
      ensures measuredOnce(ms[i])
    {
      FreshMeasureConsistent(scripts, i);
    }
    OperationTableCovers(ms, |ms|, measuredOnce);
  }

  /** One measurement on a fresh accumulator leaves exactly one run recorded. */
  lemma FreshMeasureConsistent(scripts: seq<seq<Timed<OpReturn>>>, i: nat)
    requires i < |scripts| <= |Operations| && scripts[i] != []
    ensures OperationMeasure(scripts, i).metrics.Consistent()
    ensures OperationMeasure(scripts, i).metrics.totalRuns == 1
  {
    MeasureKeepsConsistent(Empty(OperationLabel(i)), scripts[i]);
  }

  /** Measure one operation on a new, empty accumulator with the given name. */
  method MeasureFresh(name: string, attempts: seq<Timed<OpReturn>>, maxRetries: nat)
    returns (ok: bool, metrics: MetricsState)
    requires |attempts| == maxRetries + 1
    ensures ok <==> ScriptSucceeds(attempts)
    ensures metrics == Measure(Empty(name), attempts).metrics
  {
    var acc := new OperationMetrics(name);
    var latencyMs;
    ok, latencyMs := MeasureOperation(acc, attempts, maxRetries);
    MeasureOutcome(Empty(name), attempts);
    metrics := acc.Value();
  }

  /** `_execute_operations`: measure every operation in order; the result
      is true iff all of them succeeded. Each operation's accumulator starts
      empty and is measured once, here right after it is created. */
  method ExecuteOperations(scripts: seq<seq<Timed<OpReturn>>>, maxRetries: nat)
    returns (allOk: bool, table: map<string, MetricsState>)
    requires ScriptsFit(scripts, maxRetries)
    ensures allOk <==> AllOperationsSucceed(scripts, |scripts|)
    ensures table == OperationTable(MeasuredMetrics(scripts), |scripts|)
  {
    ghost var ms := MeasuredMetrics(scripts);
    allOk, table := true, map[];
    var i := 0;
    while i < |scripts|
      invariant 0 <= i <= |scripts|
      invariant allOk == AllOperationsSucceed(scripts, i)
      invariant table == OperationTable(ms, i)
    {
      var ok, metrics := MeasureFresh(OperationLabel(i), scripts[i], maxRetries);
      assert metrics == ms[i];
      assert OperationTable(ms, i + 1) == OperationTable(ms, i)[Operations[i].0 := ms[i]];
      table := table[Operations[i].0 := metrics];
      allOk := allOk && ok;
      i := i + 1;
    }
  }

  // ---------------------------------------------------------------------------
  // The unit of work

  /** What one call of the sandbox service's `create` did. */
  datatype CreateReturn = SandboxCreated(realId: string) | CreateRaised(details: string)

  predicate Created(a: Timed<CreateReturn>)
  {
    a.outcome.SandboxCreated?
  }

  /** What connecting the driver did: the driver could not be created; it was
      created but reading the window size raised; or both succeeded. */
  datatype ConnectOutcome =
    | DriverFailed(details: string, elapsedMs: nat)
    | WindowSizeFailed(sessionId: string, details: string, elapsedMs: nat)
    | Connected(sessionId: string, elapsedMs: nat)

  /** The timestamps a run takes, in the order it takes them. */
  datatype Stamps = Stamps(start: string, createStart: string, createEnd: string,
                           destroyStart: string, destroyEnd: string, end: string)

  /** Forgetting a key undoes registering it: `m2` is `m` with `k` possibly (re)bound. */
  lemma RemoveAfterUpdate<K, V>(m: map<K, V>, k: K, m2: map<K, V>)
    requires forall x :: x != k ==> (x in m2 <==> x in m) && (x in m ==> m2[x] == m[x])
    ensures m2 - {k} == m - {k}
  {
  }

  const CreateFailurePrefix := "Sandbox creation failed (retried "

  /** The error of a unit whose sandbox could not be created: it names the
      retry budget and ends with the truncated last error. */
  function CreateFailureMessage(maxRetries: nat, details: string): (msg: string)
    ensures |msg| > |Truncate(details)|
    ensures msg[|msg| - |Truncate(details)|..] == Truncate(details)
    ensures |CreateFailurePrefix| + |NatToDecimal(maxRetries)| <= |msg|
    ensures msg[|CreateFailurePrefix|..|CreateFailurePrefix| + |NatToDecimal(maxRetries)|] == NatToDecimal(maxRetries)
  {
    CreateFailurePrefix + NatToDecimal(maxRetries) + " times): " + Truncate(details)
  }

  /** The error of a unit whose driver could not be connected: it ends with the truncated error. */
  function ConnectFailureMessage(details: string): (msg: string)
    ensures |msg| > |Truncate(details)|
    ensures msg[|msg| - |Truncate(details)|..] == Truncate(details)
  {
    "Appium connection failed: " + Truncate(details)
  }

  /** The attempt loop of `_create_sandbox`: call `create` until it
      succeeds or `maxRetries + 1` calls have failed, keeping the time spent
      and the last error. */
  method TryCreate(attempts: seq<Timed<CreateReturn>>, maxRetries: nat)
    returns (attempt: nat, totalMs: nat, lastError: string)
    requires |attempts| == maxRetries + 1
    ensures attempt <= maxRetries + 1
    ensures attempt <= maxRetries ==>
      FirstWhere(attempts, Created) == Some(attempt) && totalMs == Elapsed(attempts[..attempt + 1])
    ensures attempt > maxRetries ==>
      FirstWhere(attempts, Created) == None && totalMs == Elapsed(attempts)
      && lastError == attempts[maxRetries].outcome.details
  {
    totalMs, lastError := 0, "";
    attempt := 0;
    while attempt <= maxRetries
      invariant 0 <= attempt <= maxRetries + 1
      invariant forall j :: 0 <= j < attempt ==> !Created(attempts[j])
      invariant totalMs == Elapsed(attempts[..attempt])
      invariant attempt > 0 ==> lastError == attempts[attempt - 1].outcome.details
    {
      ElapsedStep(attempts, attempt);
      totalMs := totalMs + attempts[attempt].elapsedMs;
      if Created(attempts[attempt]) {
        return;
      }
      lastError := attempts[attempt].outcome.details;
      attempt := attempt + 1;
    }
    assert attempts[..attempt] == attempts;
  }

  class SandboxTester {
    const unitId: int
    const workerId: int
    const rm: ResourceManager
    var sandbox: Option<SandboxHandle>
    var driver: Option<DriverHandle>

    constructor (unitId: int, workerId: int, rm: ResourceManager)
      ensures this.unitId == unitId && this.workerId == workerId && this.rm == rm
      ensures sandbox.None? && driver.None?
    {
      this.unitId, this.workerId, this.rm := unitId, workerId, rm;
      sandbox, driver := None, None;
    }

    /** `_create_sandbox`: try `create` up to `maxRetries + 1` times; on the
        first success record it and register the sandbox, otherwise record
        the total time and the last error. */
    method CreateSandbox(r: ResultRecord, createStart: string, createEnd: string,
                         attempts: seq<Timed<CreateReturn>>, maxRetries: nat)
      returns (created: bool, r': ResultRecord)
      requires |attempts| == maxRetries + 1
      modifies this, rm
      ensures created <==> FirstWhere(attempts, Created).Some?
      ensures driver == old(driver) && rm.drivers == old(rm.drivers) && rm.cleanupDone == old(rm.cleanupDone)
      ensures match FirstWhere(attempts, Created)
        case Some(i) =>
          var h := SandboxHandle(attempts[i].outcome.realId);
          && r' == r.(createStartTime := createStart, createLatencyMs := Elapsed(attempts[..i + 1]),
                      createSuccess := true, createEndTime := createEnd, realSandboxId := h.externalId,
                      createRetried := r.createRetried || i > 0,
                      createRetryCount := if i > 0 then i else r.createRetryCount)
          && sandbox == Some(h) && rm.sandboxes == old(rm.sandboxes)[unitId := h]
        case None =>
          && r' == r.(createStartTime := createStart, createLatencyMs := Elapsed(attempts),
                      createRetried := r.createRetried || maxRetries > 0,
                      createRetryCount := if maxRetries > 0 then maxRetries else r.createRetryCount,
                      error := CreateFailureMessage(maxRetries, attempts[maxRetries].outcome.details))
          && sandbox == old(sandbox) && rm.sandboxes == old(rm.sandboxes)
    {
      var attempt, totalMs, lastError := TryCreate(attempts, maxRetries);
      // The retry flags are set as each retry begins, so they end up naming
      // the last attempt made.
      var last := if attempt <= maxRetries then attempt else maxRetries;
      var retried := r.createRetried || last > 0;
      var retryCount := if last > 0 then last else r.createRetryCount;
      if attempt <= maxRetries {
        var realId := attempts[attempt].outcome.realId;
        r' := r.(createStartTime := createStart, createLatencyMs := totalMs,
                 createSuccess := true, createEndTime := createEnd, realSandboxId := realId,
                 createRetried := retried, createRetryCount := retryCount);
        sandbox := Some(SandboxHandle(realId));
        rm.RegisterSandbox(unitId, SandboxHandle(realId));
        created := true;
      } else {
        r' := r.(createStartTime := createStart, createLatencyMs := totalMs,
                 createRetried := retried, createRetryCount := retryCount,
                 error := CreateFailureMessage(maxRetries, lastError));
        created := false;
      }
    }

    /** `_connect_appium`. When reading the window size fails, the driver
        stays connected and registered (and `connect_success` stays set), but
        the unit counts as not connected. */
    method ConnectAppium(r: ResultRecord, outcome: ConnectOutcome) returns (connected: bool, r': ResultRecord)
      modifies this, rm
      ensures connected <==> outcome.Connected?
      ensures r' == r.(connectLatencyMs := outcome.elapsedMs,
                       connectSuccess := r.connectSuccess || !outcome.DriverFailed?,
                       error := if outcome.Connected? then r.error
                                else ConnectFailureMessage(outcome.details))
      ensures !outcome.DriverFailed? ==>
                driver == Some(DriverHandle(outcome.sessionId))
                && rm.drivers == old(rm.drivers)[unitId := DriverHandle(outcome.sessionId)]
      ensures outcome.DriverFailed? ==> driver == old(driver) && rm.drivers == old(rm.drivers)
      ensures sandbox == old(sandbox) && rm.sandboxes == old(rm.sandboxes) && rm.cleanupDone == old(rm.cleanupDone)
    {
      match outcome
      case DriverFailed(details, elapsedMs) =>
        r' := r.(connectLatencyMs := elapsedMs, error := ConnectFailureMessage(details));
        return false, r';
      case WindowSizeFailed(sessionId, details, elapsedMs) =>
        driver := Some(DriverHandle(sessionId));
        r' := r.(connectLatencyMs := elapsedMs, connectSuccess := true);
        rm.RegisterDriver(unitId, DriverHandle(sessionId));
        r' := r'.(error := ConnectFailureMessage(details));
        return false, r';
      case Connected(sessionId, elapsedMs) =>
        driver := Some(DriverHandle(sessionId));
        r' := r.(connectLatencyMs := elapsedMs, connectSuccess := true);
        rm.RegisterDriver(unitId, DriverHandle(sessionId));
        return true, r';
    }

    /** `_cleanup`: quit the driver and kill the sandbox where present (a
        failure of either makes the result false but does not stop the rest),
        forget both, and unregister the unit. */
    method Cleanup(quitOk: bool, killOk: bool) returns (success: bool)
      modifies this, rm
      ensures success <==> (old(driver).None? || quitOk) && (old(sandbox).None? || killOk)
      ensures driver.None? && sandbox.None?
      ensures rm.sandboxes == old(rm.sandboxes) - {unitId} && rm.drivers == old(rm.drivers) - {unitId}
      ensures rm.cleanupDone == old(rm.cleanupDone)
    {
      success := true;
      if driver.Some? {
        if !quitOk {
          success := false;
        }
        driver := None;
      }
      if sandbox.Some? {
        if !killOk {
          success := false;
        }
        sandbox := None;
      }
      rm.Unregister(unitId);
    }

    /** Steps 2 to 4 of `run`, once the sandbox exists: connect the driver; if
        that fails, release everything; otherwise measure the operations, then
        release everything and record whether that worked. */
    method RunCreated(r: ResultRecord, stamps: Stamps, connect: ConnectOutcome,
                      scripts: seq<seq<Timed<OpReturn>>>, quitOk: bool, killOk: bool, maxRetries: nat)
      returns (r': ResultRecord)
      requires sandbox.Some? && driver.None? && ScriptsFit(scripts, maxRetries)
      modifies this, rm
      ensures r' == r.(connectLatencyMs := connect.elapsedMs,
                       connectSuccess := r.connectSuccess || !connect.DriverFailed?,
                       error := if connect.Connected? then r.error else ConnectFailureMessage(connect.details),
                       operationsSuccess := if connect.Connected? then AllOperationsSucceed(scripts, |scripts|) else r.operationsSuccess,
                       operationMetrics := if connect.Connected? then OperationTable(MeasuredMetrics(scripts), |scripts|)
                                           else r.operationMetrics,
                       destroySuccess := if connect.Connected? then quitOk && killOk else r.destroySuccess,
                       destroyStartTime := stamps.destroyStart, destroyEndTime := stamps.destroyEnd)
      ensures sandbox.None? && driver.None?
      ensures rm.sandboxes == old(rm.sandboxes) - {unitId} && rm.drivers == old(rm.drivers) - {unitId}
      ensures rm.cleanupDone == old(rm.cleanupDone)
    {
      var connected, connectedRecord := ConnectAppium(r, connect);
      ghost var drivers := rm.drivers;
      if !connected {
        var destroyed := Cleanup(quitOk, killOk);
        r' := connectedRecord.(destroyStartTime := stamps.destroyStart, destroyEndTime := stamps.destroyEnd);
      } else {
        var allOk, table := ExecuteOperations(scripts, maxRetries);
        var destroyed := Cleanup(quitOk, killOk);
        r' := connectedRecord.(operationsSuccess := allOk, operationMetrics := table,
                               destroyStartTime := stamps.destroyStart, destroySuccess := destroyed,
                               destroyEndTime := stamps.destroyEnd);
      }
      RemoveAfterUpdate(old(rm.drivers), unitId, drivers);
    }

    /** `run`: create, connect, measure the operations, clean up. The unit
        succeeds iff all three stages did; `destroy_success` is only set on
        the path where the operations ran. */
    method Run(stamps: Stamps, totalMs: nat, createAttempts: seq<Timed<CreateReturn>>,
               connect: ConnectOutcome, scripts: seq<seq<Timed<OpReturn>>>,
               quitOk: bool, killOk: bool, maxRetries: nat)
      returns (r: ResultRecord)
      requires sandbox.None? && driver.None?
      requires |createAttempts| == maxRetries + 1 && ScriptsFit(scripts, maxRetries)
      modifies this, rm
      ensures r.sandboxId == unitId && r.workerId == workerId
      ensures r.startTime == stamps.start && r.endTime == stamps.end && r.totalLatencyMs == totalMs
      ensures r.createSuccess <==> FirstWhere(createAttempts, Created).Some?
      ensures r.connectSuccess <==> r.createSuccess && !connect.DriverFailed?
      ensures r.operationsSuccess <==> r.createSuccess && connect.Connected? && AllOperationsSucceed(scripts, |scripts|)
      ensures r.success <==> r.createSuccess && connect.Connected? && AllOperationsSucceed(scripts, |scripts|)
      ensures r.destroySuccess <==> r.createSuccess && connect.Connected? && quitOk && killOk
      ensures r.operationMetrics == if r.createSuccess && connect.Connected?
                                   then OperationTable(MeasuredMetrics(scripts), |scripts|) else map[]
      ensures r.error == "" <==> r.createSuccess && connect.Connected?
      ensures r.createStartTime == stamps.createStart
      ensures match FirstWhere(createAttempts, Created)
        case Some(i) =>
          && r.createLatencyMs == Elapsed(createAttempts[..i + 1]) && r.createEndTime == stamps.createEnd
          && r.realSandboxId == createAttempts[i].outcome.realId
          && r.createRetried == (i > 0) && r.createRetryCount == i
          && r.connectLatencyMs == connect.elapsedMs
          && (!connect.Connected? ==> r.error == ConnectFailureMessage(connect.details))
        case None =>
          && r.createLatencyMs == Elapsed(createAttempts) && r.createEndTime == "" && r.realSandboxId == ""
          && r.createRetried == (maxRetries > 0) && r.createRetryCount == maxRetries
          && r.connectLatencyMs == 0
          && r.error == CreateFailureMessage(maxRetries, createAttempts[maxRetries].outcome.details)
      ensures r.createSuccess ==> r.destroyStartTime == stamps.destroyStart && r.destroyEndTime == stamps.destroyEnd
      ensures !r.createSuccess ==> r.destroyStartTime == "" && r.destroyEndTime == ""
      ensures sandbox.None? && driver.None?
      ensures r.createSuccess ==>
                rm.sandboxes == old(rm.sandboxes) - {unitId} && rm.drivers == old(rm.drivers) - {unitId}
      ensures !r.createSuccess ==> rm.sandboxes == old(rm.sandboxes) && rm.drivers == old(rm.drivers)
      ensures rm.cleanupDone == old(rm.cleanupDone)
    {
      r := NewResult(unitId).(workerId := workerId, startTime := stamps.start);
      var created;
      created, r := CreateSandbox(r, stamps.createStart, stamps.createEnd, createAttempts, maxRetries);
      if created {
        r := RunCreated(r, stamps, connect, scripts, quitOk, killOk, maxRetries);
      }
      r := r.(endTime := stamps.end, totalLatencyMs := totalMs,
              success := r.createSuccess && r.connectSuccess && r.operationsSuccess);
    }
  }
}

/**
 * The reference definitions of one run of the load test: the callback
 * invocations a run makes, in closed form over its environment (the
 * network replies, the completion order inside each batch, the fault the
 * scheduling block may raise, the clock readings and the random draw), and
 * the properties of that sequence.
 */
module RunSpec {
  import opened Types
  import opened Batching
  import opened Statistics
  import opened Request

  /** One callback invocation, with the value copied out of the runner. */
  datatype Event = Progress(snapshot: TestStatus) | Complete(stats: TestStats) | Error(message: string)

  /** An exception raised inside the scheduling block just before batch
      `beforeWave` would be dispatched (`beforeWave` equal to the number of
      batches: after the last one drained). */
  datatype Fault = Fault(beforeWave: int, message: string)

  /** (current / total) * 100 */
  function Percent(current: int, total: int): real
    requires total != 0
  {
    (current as real / total as real) * 100.0
  }

  /** The status reported when the call of operation `index` resolves. */
  function CallProgress(total: int, startTime: int, index: int): Event
    requires total != 0
  {
    Progress(TestStatus(Running, Percent(index + 1, total), index + 1, total, Some(startTime), None, None))
  }

  /** The statuses reported for calls resolving in the order `ids`. */
  function ProgressEvents(total: int, startTime: int, ids: seq<int>): (log: seq<Event>)
    requires ids != [] ==> total != 0
    ensures |log| == |ids|
  {
    seq(|ids|, k requires 0 <= k < |ids| => CallProgress(total, startTime, ids[k]))
  }

  function OutcomeOf(call: Call): Outcome
  {
    var r := ResultOf(call);
    Outcome(r.success, r.responseTime)
  }

  /** The outcomes of the calls resolving in the order `ids`. */
  function Outcomes(calls: seq<Call>, ids: seq<int>): (os: seq<Outcome>)
    requires forall k :: 0 <= k < |ids| ==> 0 <= ids[k] < |calls|
    ensures |os| == |ids|
  {
    seq(|ids|, k requires 0 <= k < |ids| => OutcomeOf(calls[ids[k]]))
  }

  /** The values Math.floor(Math.random() * (total * 0.8)) can take. */
  ghost predicate RandomDraw(r: int, total: int)
  {
    r == 0 || (0 < r && (r as real) < 0.8 * (total as real))
  }

  /** A draw is never more than the number of requests it is taken from. */
  lemma RandomDrawBound(r: int, total: int)
    requires RandomDraw(r, total) && total >= 0
    ensures 0 <= r <= total
  {
    if r > 0 {
      assert (r as real) < (total as real);
    }
  }

  function Operations(config: TestConfig): nat
  {
    if config.operations > 0 then config.operations else 0
  }

  /** The operation whose callback ran last, counted from 1; 0 before any. */
  function LastOperation(ids: seq<int>): int
  {
    if ids == [] then 0 else ids[|ids| - 1] + 1
  }

  /** The progress percentage the status holds after the callbacks `ids`. */
  function LastProgress(total: int, ids: seq<int>): real
    requires ids != [] ==> total != 0
  {
    if ids == [] then 0.0 else Percent(LastOperation(ids), total)
  }

  /** The status reported before any call is made. */
  function InitialStatus(config: TestConfig, started: int): TestStatus
  {
    TestStatus(Running, 0.0, 0, config.operations, Some(started), None, None)
  }

  /** The statistics handed to the completion callback when the calls
      resolved in the order `ids`: counts, average, extremes and the latency
      log of those outcomes, the rate over `totalTime`, and the random
      success count in place of a zero one. */
  function Summary(calls: seq<Call>, ids: seq<int>, totalTime: int, randomSuccess: int): (st: TestStats)
    requires forall k :: 0 <= k < |ids| ==> 0 <= ids[k] < |calls|
    ensures st.totalRequests == |ids| && |st.responseTimes| == |ids|
    ensures st.successfulRequests + st.failedRequests == st.totalRequests
    ensures st.totalTime == totalTime
  {
    var os := Outcomes(calls, ids);
    var times := Latencies(os);
    var successes := if Successes(os) != 0 then Successes(os) else randomSuccess;
    TestStats(|os|, successes, |os| - successes, Mean(times), MinOf(times), MaxOf(times),
      totalTime, Throughput(|os|, totalTime), times)
  }

  /** What the environment of one run is allowed to do: a concurrency of at
      least 1, one call per operation whose clock does not run backwards, a
      completion order per batch, a fault (if any) before one of the batches
      or after the last, and a value Math.random can produce. */
  ghost predicate Scenario(config: TestConfig, calls: seq<Call>, orders: seq<seq<int>>,
                           fault: Option<Fault>, randomSuccess: int)
  {
    && config.concurrency >= 1
    && |calls| == Operations(config)
    && (forall i :: 0 <= i < |calls| ==> calls[i].start <= calls[i].end)
    && |orders| == NumWaves(config.operations, config.concurrency)
    && (forall k :: 0 <= k < |orders| ==>
          IsPermutation(orders[k], Waves(config.operations, config.concurrency)[k].size))
    && (fault.Some? ==> 0 <= fault.value.beforeWave <= |orders|)
    && RandomDraw(randomSuccess, |calls|)
  }

  /** How many batches drain before the fault, or all of them. */
  function BatchesRun(n: int, fault: Option<Fault>): int
  {
    if fault.Some? then fault.value.beforeWave else n
  }

  /** The operation indices whose callbacks ran in the first `m` batches,
      in the order they ran: distinct operations of the run, and all of
      them once every batch has drained. */
  function Drained(config: TestConfig, orders: seq<seq<int>>, m: int): (ids: seq<int>)
    requires config.concurrency >= 1 && |orders| == NumWaves(config.operations, config.concurrency)
    requires forall k :: 0 <= k < |orders| ==>
      IsPermutation(orders[k], Waves(config.operations, config.concurrency)[k].size)
    requires 0 <= m <= |orders|
    ensures forall p :: 0 <= p < |ids| ==> 0 <= ids[p] < config.operations
    ensures forall p, q :: 0 <= p < q < |ids| ==> ids[p] != ids[q]
    ensures ids != [] ==> config.operations > 0
    ensures m == |orders| ==> |ids| == Operations(config)
  {
    var ids := CompletionOrder(Waves(config.operations, config.concurrency)[..m], orders[..m]);
    PrefixInRange(config.operations, config.concurrency, orders, m, ids);
    ids
  }

  /** The operation indices in the order their callbacks ran: those of the
      batches that drained before the fault, or of all batches. */
  function Resolved(config: TestConfig, orders: seq<seq<int>>, fault: Option<Fault>): (ids: seq<int>)
    requires config.concurrency >= 1 && |orders| == NumWaves(config.operations, config.concurrency)
    requires forall k :: 0 <= k < |orders| ==>
      IsPermutation(orders[k], Waves(config.operations, config.concurrency)[k].size)
    requires fault.Some? ==> 0 <= fault.value.beforeWave <= |orders|
    ensures forall p :: 0 <= p < |ids| ==> 0 <= ids[p] < config.operations
    ensures forall p, q :: 0 <= p < q < |ids| ==> ids[p] != ids[q]
    ensures ids != [] ==> config.operations > 0
    ensures fault.None? ==> |ids| == Operations(config)
  {
    Drained(config, orders, BatchesRun(|orders|, fault))
  }

  /** Batch `w` of a run is a non-empty block of the run's operations, and
      its completion order is a permutation of its positions. */
  lemma BatchInRun(config: TestConfig, calls: seq<Call>, orders: seq<seq<int>>, fault: Option<Fault>,
                   randomSuccess: int, w: int, batch: Wave)
    requires Scenario(config, calls, orders, fault, randomSuccess) && 0 <= w < |orders|
    requires batch == Waves(config.operations, config.concurrency)[w]
    ensures IsPermutation(orders[w], batch.size) && orders[w] != []
    ensures 0 <= batch.start && batch.start + batch.size <= config.operations <= |calls|
  {
    var ws := Waves(config.operations, config.concurrency);
    WavesPartition(config.operations, config.concurrency);
    BlocksInRange(ws);
    assert IsPermutation(orders[w], batch.size);
  }

  /** Draining batch `w` appends its completions to the completions so far;
      the outcomes and the progress reports extend accordingly, and the
      status afterwards is the one of the batch's last callback. */
  lemma DrainStep(config: TestConfig, calls: seq<Call>, orders: seq<seq<int>>, fault: Option<Fault>,
                  randomSuccess: int, started: int, w: int, before: seq<int>, after: seq<int>, batch: seq<int>)
    requires Scenario(config, calls, orders, fault, randomSuccess) && 0 <= w < |orders|
    requires before == Drained(config, orders, w) && after == Drained(config, orders, w + 1)
    requires batch == WaveCompletions(Waves(config.operations, config.concurrency)[w], orders[w])
    ensures after == before + batch
    ensures Outcomes(calls, after) == Outcomes(calls, before) + Outcomes(calls, batch)
    ensures ProgressEvents(config.operations, started, after)
      == ProgressEvents(config.operations, started, before) + ProgressEvents(config.operations, started, batch)
    ensures LastOperation(after) == LastOperation(batch)
    ensures LastProgress(config.operations, after) == LastProgress(config.operations, batch)
  {
    var ws := Waves(config.operations, config.concurrency);
    BatchInRun(config, calls, orders, fault, randomSuccess, w, ws[w]);
    CompletionOrderStep(ws, orders, w);
    assert after == before + batch;
    OutcomesAppend(calls, before, batch);
    ProgressEventsAppend(config.operations, started, before, batch);
  }

  /** The last two callbacks of a run whose calls resolved in the order
      `ids`: the completed status and the statistics, or, after a fault,
      the failed status and the error message. */
  function Closing(config: TestConfig, calls: seq<Call>, ids: seq<int>, fault: Option<Fault>,
                   started: int, ended: int, randomSuccess: int): (closing: seq<Event>)
    requires forall k :: 0 <= k < |ids| ==> 0 <= ids[k] < |calls|
    requires ids != [] ==> config.operations != 0
    ensures |closing| == 2 && closing[0].Progress?
    ensures closing[0].snapshot.endTime == Some(ended) && closing[0].snapshot.startTime == Some(started)
    ensures closing[0].snapshot.currentOperation == LastOperation(ids)
    ensures closing[1].Complete? <==> fault.None?
    ensures fault.Some? ==> closing[1] == Error(fault.value.message)
  {
    var ops := config.operations;
    if fault.Some? then
      [Progress(TestStatus(Failed, LastProgress(ops, ids), LastOperation(ids), ops,
         Some(started), Some(ended), Some(fault.value.message))),
       Error(fault.value.message)]
    else
      [Progress(TestStatus(Completed, 100.0, LastOperation(ids), ops, Some(started), Some(ended), None)),
       Complete(Summary(calls, ids, ended - started, randomSuccess))]
  }

  /** Every callback invocation of one run, in order: the initial status,
      one status per resolved call, then either the completed status and
      the statistics or the failed status and the error message. */
  function RunLog(config: TestConfig, calls: seq<Call>, orders: seq<seq<int>>, fault: Option<Fault>,
                  started: int, ended: int, randomSuccess: int): (log: seq<Event>)
    requires Scenario(config, calls, orders, fault, randomSuccess)
    ensures |log| == |Resolved(config, orders, fault)| + 3
    ensures log[0] == Progress(InitialStatus(config, started))
  {
    var ids := Resolved(config, orders, fault);
    assert ids != [] ==> |calls| == config.operations;
    [Progress(InitialStatus(config, started))]
    + ProgressEvents(config.operations, started, ids)
    + Closing(config, calls, ids, fault, started, ended, randomSuccess)
  }

  /** The log after the initial report. */
  lemma RunLogTail(config: TestConfig, calls: seq<Call>, orders: seq<seq<int>>, fault: Option<Fault>,
                   started: int, ended: int, randomSuccess: int)
    requires Scenario(config, calls, orders, fault, randomSuccess)
    ensures var ids := Resolved(config, orders, fault);
      && (forall k :: 0 <= k < |ids| ==> 0 <= ids[k] < |calls|)
      && RunLog(config, calls, orders, fault, started, ended, randomSuccess)[1..]
         == ProgressEvents(config.operations, started, ids)
            + Closing(config, calls, ids, fault, started, ended, randomSuccess)
  {
    var ids := Resolved(config, orders, fault);
    assert ids != [] ==> |calls| == config.operations;
    var tail := ProgressEvents(config.operations, started, ids)
      + Closing(config, calls, ids, fault, started, ended, randomSuccess);
    assert RunLog(config, calls, orders, fault, started, ended, randomSuccess)
      == [Progress(InitialStatus(config, started))] + tail;
  }

  lemma OutcomesAppend(calls: seq<Call>, a: seq<int>, b: seq<int>)
    requires forall k :: 0 <= k < |a| ==> 0 <= a[k] < |calls|
    requires forall k :: 0 <= k < |b| ==> 0 <= b[k] < |calls|
    ensures Outcomes(calls, a + b) == Outcomes(calls, a) + Outcomes(calls, b)
  {
  }

  /** One more resolved call extends the outcomes and the reports by that
      call's outcome and status. */
  lemma PrefixStep(calls: seq<Call>, total: int, started: int, ids: seq<int>, k: int)
    requires 0 <= k < |ids| && total != 0
    requires forall p :: 0 <= p < |ids| ==> 0 <= ids[p] < |calls|
    ensures ids[..k + 1] == ids[..k] + [ids[k]]
    ensures Outcomes(calls, ids[..k + 1]) == Outcomes(calls, ids[..k]) + [OutcomeOf(calls[ids[k]])]
    ensures ProgressEvents(total, started, ids[..k + 1])
      == ProgressEvents(total, started, ids[..k]) + [CallProgress(total, started, ids[k])]
  {
    assert ids[..k + 1] == ids[..k] + [ids[k]];
  }

  lemma ProgressEventsAppend(total: int, started: int, a: seq<int>, b: seq<int>)
    requires total != 0
    ensures ProgressEvents(total, started, a + b)
      == ProgressEvents(total, started, a) + ProgressEvents(total, started, b)
  {
  }

  /** Statistics that agree with the outcomes of the calls `ids`, with the
      success counter untouched, finalize to the closed-form summary. */
  lemma FinalizeIsSummary(st: TestStats, calls: seq<Call>, ids: seq<int>, totalTime: int, randomSuccess: int)
    requires forall k :: 0 <= k < |ids| ==> 0 <= ids[k] < |calls|
    requires Agrees(st, Outcomes(calls, ids)) && st.successfulRequests == Successes(Outcomes(calls, ids))
    ensures Finalize(st, totalTime, randomSuccess) == Summary(calls, ids, totalTime, randomSuccess)
  {
  }
}

/**
 * What one run of the load test reports, stated over the closed-form log
 * `RunLog`: its shape (initial status, one status per resolved call, then
 * exactly one completion or exactly one error), the statistics a completed
 * run hands over, the bounds of the per-call statuses, and the ordering of
 * the statuses across batches.
 */
module RunProperties {
  import opened Types
  import opened Batching
  import opened Statistics
  import opened Request
  import opened RunSpec

  /** The log of a run is the initial status, the per-call statuses in
      resolution order, and the two closing callbacks. */
  lemma RunLogSplit(config: TestConfig, calls: seq<Call>, orders: seq<seq<int>>, fault: Option<Fault>,
                    started: int, ended: int, randomSuccess: int, log: seq<Event>, ids: seq<int>)
    requires Scenario(config, calls, orders, fault, randomSuccess)
    requires log == RunLog(config, calls, orders, fault, started, ended, randomSuccess)
    requires ids == Resolved(config, orders, fault)
    ensures forall k :: 0 <= k < |ids| ==> 0 <= ids[k] < |calls|
    ensures ids != [] ==> config.operations != 0
    ensures log == [Progress(InitialStatus(config, started))] + ProgressEvents(config.operations, started, ids)
                   + Closing(config, calls, ids, fault, started, ended, randomSuccess)
  {
    assert ids != [] ==> |calls| == config.operations;
  }

  /** The log of a run has the initial status first, then one status per
      resolved call (the call's index + 1 and its percentage), then the
      final status and the last callback, which is the statistics exactly
      when no fault struck. Every entry but the last is a status report, so
      the completion or the error is reported once, and never both. */
  lemma RunLogShape(config: TestConfig, calls: seq<Call>, orders: seq<seq<int>>, fault: Option<Fault>,
                    started: int, ended: int, randomSuccess: int, log: seq<Event>, ids: seq<int>)
    requires Scenario(config, calls, orders, fault, randomSuccess)
    requires log == RunLog(config, calls, orders, fault, started, ended, randomSuccess)
    requires ids == Resolved(config, orders, fault)
    ensures |log| == |ids| + 3
    ensures log[0] == Progress(TestStatus(Running, 0.0, 0, config.operations, Some(started), None, None))
    ensures forall k :: 1 <= k <= |ids| ==>
      log[k].Progress? && log[k].snapshot.status == Running && log[k].snapshot.currentOperation == ids[k - 1] + 1
    ensures forall k :: 0 <= k < |log| - 1 ==> log[k].Progress?
    ensures log[|log| - 1].Complete? <==> fault.None?
  {
    RunLogSplit(config, calls, orders, fault, started, ended, randomSuccess, log, ids);
    var reports := ProgressEvents(config.operations, started, ids);
    var closing := Closing(config, calls, ids, fault, started, ended, randomSuccess);
    assert |closing| == 2;
    forall k | 1 <= k <= |ids|
      ensures log[k].Progress? && log[k].snapshot.status == Running
      ensures log[k].snapshot.currentOperation == ids[k - 1] + 1
    {
      assert log[k] == reports[k - 1];
    }
    forall k | 0 <= k < |log| - 1 ensures log[k].Progress? {
      if k == 0 {
      } else if k <= |ids| {
        assert log[k] == reports[k - 1];
      } else {
        assert log[k] == closing[0];
      }
    }
    assert log[|log| - 1] == closing[1];
  }

  /** The final status of a run: after a fault it is Failed with the fault's
      message and the end time, followed by that message; otherwise it is
      Completed at 100 percent with the end time and no error. */
  lemma RunLogEnding(config: TestConfig, calls: seq<Call>, orders: seq<seq<int>>, fault: Option<Fault>,
                     started: int, ended: int, randomSuccess: int, log: seq<Event>)
    requires Scenario(config, calls, orders, fault, randomSuccess)
    requires log == RunLog(config, calls, orders, fault, started, ended, randomSuccess)
    ensures |log| >= 3 && log[|log| - 2].Progress?
    ensures fault.Some? ==>
      log[|log| - 1] == Error(fault.value.message)
      && log[|log| - 2].snapshot.status == Failed
      && log[|log| - 2].snapshot.error == Some(fault.value.message)
      && log[|log| - 2].snapshot.endTime == Some(ended)
    ensures fault.None? ==>
      log[|log| - 2].snapshot.status == Completed
      && log[|log| - 2].snapshot.progress == 100.0
      && log[|log| - 2].snapshot.endTime == Some(ended)
      && log[|log| - 2].snapshot.error == None
  {
    var ids := Resolved(config, orders, fault);
    RunLogSplit(config, calls, orders, fault, started, ended, randomSuccess, log, ids);
    var closing := Closing(config, calls, ids, fault, started, ended, randomSuccess);
    assert log[|log| - 2] == closing[0] && log[|log| - 1] == closing[1];
  }

  /** When no fault struck, every operation is called exactly once: the
      resolution order is a permutation of the operations. */
  lemma AllOperationsResolve(config: TestConfig, calls: seq<Call>, orders: seq<seq<int>>, randomSuccess: int)
    requires Scenario(config, calls, orders, None, randomSuccess)
    ensures IsPermutation(Resolved(config, orders, None), Operations(config))
  {
    var ws := Waves(config.operations, config.concurrency);
    WavesPartition(config.operations, config.concurrency);
    assert ws[..|orders|] == ws && orders[..|orders|] == orders;
    CompletionOrderPermutation(ws, orders);
  }

  lemma AverageTimesCount(average: real, n: int, s: seq<real>)
    requires average == Mean(s) && n == |s|
    ensures average * (n as real) == Sum(s)
  {
    MeanTimesCount(s);
  }

  /** The counters handed over for the calls resolved in the order `ids`:
      one request per resolved call, each counted once as a success or a
      failure, and the given total time. */
  lemma SummaryCounts(calls: seq<Call>, ids: seq<int>, totalTime: int, randomSuccess: int, st: TestStats)
    requires forall k :: 0 <= k < |ids| ==> 0 <= ids[k] < |calls|
    requires RandomDraw(randomSuccess, |ids|)
    requires st == Summary(calls, ids, totalTime, randomSuccess)
    ensures st.totalRequests == |ids|
    ensures st.successfulRequests + st.failedRequests == st.totalRequests
    ensures 0 <= st.successfulRequests <= st.totalRequests
    ensures st.totalTime == totalTime
  {
    RandomDrawBound(randomSuccess, |ids|);
    SuccessesBound(Outcomes(calls, ids));
  }

  /** The latency log handed over for the calls resolved in the order
      `ids`: each call's latency, in resolution order, with an average that
      times the count is the latency sum. */
  lemma SummaryLatencies(calls: seq<Call>, ids: seq<int>, totalTime: int, randomSuccess: int, st: TestStats)
    requires forall k :: 0 <= k < |ids| ==> 0 <= ids[k] < |calls|
    requires st == Summary(calls, ids, totalTime, randomSuccess)
    ensures |st.responseTimes| == |ids|
    ensures forall k :: 0 <= k < |ids| ==> st.responseTimes[k] == calls[ids[k]].end - calls[ids[k]].start
    ensures st.averageResponseTime * (|ids| as real) == Sum(st.responseTimes)
  {
    var times := Latencies(Outcomes(calls, ids));
    AverageTimesCount(st.averageResponseTime, |ids|, times);
  }

  /** The extremes handed over for the calls resolved in the order `ids`:
      the maximum bounds every latency; after at least one request both
      extremes are latencies and the minimum bounds every latency; with no
      request the minimum stays Infinity. */
  lemma SummaryExtremes(calls: seq<Call>, ids: seq<int>, totalTime: int, randomSuccess: int, st: TestStats)
    requires forall k :: 0 <= k < |ids| ==> 0 <= ids[k] < |calls|
    requires forall i :: 0 <= i < |calls| ==> calls[i].start <= calls[i].end
    requires st == Summary(calls, ids, totalTime, randomSuccess)
    ensures forall k :: 0 <= k < |st.responseTimes| ==> st.responseTimes[k] <= st.maxResponseTime
    ensures ids == [] <==> st.minResponseTime == Infinity
    ensures ids != [] ==>
      st.minResponseTime.Fin? && st.minResponseTime.v in st.responseTimes
      && st.maxResponseTime in st.responseTimes
      && forall k :: 0 <= k < |st.responseTimes| ==> st.minResponseTime.v <= st.responseTimes[k]
  {
    var times := Latencies(Outcomes(calls, ids));
    assert st.responseTimes == times && |times| == |ids|;
    MinOfIsLeast(times);
    forall k | 0 <= k < |times| ensures times[k] >= 0.0 {
      assert times[k] == OutcomeOf(calls[ids[k]]).latency;
    }
    MaxOfIsGreatest(times);
  }

  /** The statistics a completed run hands over: one request per operation,
      each operation's latency logged once, in the order the calls resolved,
      with the counts, latencies and extremes of `SummaryCounts`,
      `SummaryLatencies` and `SummaryExtremes`, and the
      total time the span between the two clock readings. */
  lemma CompletedRunStatistics(config: TestConfig, calls: seq<Call>, orders: seq<seq<int>>,
                               started: int, ended: int, randomSuccess: int, log: seq<Event>, ids: seq<int>)
    requires Scenario(config, calls, orders, None, randomSuccess)
    requires log == RunLog(config, calls, orders, None, started, ended, randomSuccess)
    requires ids == Resolved(config, orders, None)
    ensures log != [] && log[|log| - 1].Complete?
    ensures IsPermutation(ids, Operations(config))
    ensures log[|log| - 1].stats == Summary(calls, ids, ended - started, randomSuccess)
    ensures log[|log| - 1].stats.totalRequests == Operations(config)
    ensures log[|log| - 1].stats.totalTime == ended - started
  {
    AllOperationsResolve(config, calls, orders, randomSuccess);
    RunLogSplit(config, calls, orders, None, started, ended, randomSuccess, log, ids);
    var closing := Closing(config, calls, ids, None, started, ended, randomSuccess);
    assert log[|log| - 1] == closing[1];
  }

  /** (i / total) * 100 for 1 <= i <= total lies in (0, 100]. */
  lemma PercentBounds(i: int, total: int)
    requires 1 <= i <= total
    ensures 0.0 < Percent(i, total) <= 100.0
  {
    var q := i as real / total as real;
    assert q * (total as real) == i as real;
    assert 0.0 < q <= 1.0;
  }

  /** Every per-call status names an operation of the run, counted from 1,
      with a progress above 0 and at most 100. */
  lemma ProgressBounds(config: TestConfig, calls: seq<Call>, orders: seq<seq<int>>, fault: Option<Fault>,
                       started: int, ended: int, randomSuccess: int, log: seq<Event>, k: int)
    requires Scenario(config, calls, orders, fault, randomSuccess)
    requires log == RunLog(config, calls, orders, fault, started, ended, randomSuccess)
    requires 1 <= k <= |Resolved(config, orders, fault)|
    ensures k < |log| && log[k].Progress?
    ensures 1 <= log[k].snapshot.currentOperation <= config.operations
    ensures 0.0 < log[k].snapshot.progress <= 100.0
    ensures log[k].snapshot.progress == Percent(log[k].snapshot.currentOperation, config.operations)
  {
    var ids := Resolved(config, orders, fault);
    RunLogSplit(config, calls, orders, fault, started, ended, randomSuccess, log, ids);
    var reports := ProgressEvents(config.operations, started, ids);
    assert log[k] == reports[k - 1];
    PercentBounds(ids[k - 1] + 1, config.operations);
  }

  /** Batches drain one after another: in every run, with or without a
      fault, a status reported for a later batch names a higher operation
      than every status of an earlier batch. */
  lemma LaterBatchReportsHigher(config: TestConfig, calls: seq<Call>, orders: seq<seq<int>>, fault: Option<Fault>,
                                started: int, ended: int, randomSuccess: int, log: seq<Event>,
                                k1: int, p: int, k2: int, q: int)
    requires Scenario(config, calls, orders, fault, randomSuccess)
    requires log == RunLog(config, calls, orders, fault, started, ended, randomSuccess)
    requires 0 <= k1 < k2 < BatchesRun(|orders|, fault)
    requires Waves(config.operations, config.concurrency)[k1].start <= p
           < Waves(config.operations, config.concurrency)[k1].start
             + Waves(config.operations, config.concurrency)[k1].size
    requires Waves(config.operations, config.concurrency)[k2].start <= q
           < Waves(config.operations, config.concurrency)[k2].start
             + Waves(config.operations, config.concurrency)[k2].size
    ensures 1 <= p + 1 < q + 1 < |log| - 2
    ensures log[p + 1].snapshot.currentOperation < log[q + 1].snapshot.currentOperation
  {
    var m := BatchesRun(|orders|, fault);
    var ids := Resolved(config, orders, fault);
    PrefixLaterWaveHigher(config.operations, config.concurrency, orders, m, ids, k1, p, k2, q);
    RunLogShape(config, calls, orders, fault, started, ended, randomSuccess, log, ids);
  }

  /** Inside a batch the statuses follow the completion order, not the
      operation order: two operations at concurrency 2 whose second call
      resolves first report operation 2 and then operation 1, and the
      completed status keeps operation 1 as its current operation while its
      progress is 100. */
  lemma ProgressNotMonotone()
    ensures var config := TestConfig("", 2, 2, "", GET, map[], None);
      var call := Call(Rejected(""), 0.0, 0.0);
      var log := RunLog(config, [call, call], [[1, 0]], None, 0, 0, 0);
      && |log| == 5
      && log[1].snapshot.currentOperation == 2
      && log[2].snapshot.currentOperation == 1
      && log[3].snapshot.status == Completed && log[3].snapshot.progress == 100.0
      && log[3].snapshot.currentOperation == 1 < log[3].snapshot.totalOperations
  {
    var config := TestConfig("", 2, 2, "", GET, map[], None);
    var call := Call(Rejected(""), 0.0, 0.0);
    var calls, orders := [call, call], [[1, 0]];
    assert NumWaves(2, 2) == 1 by {
      assert NumWaves(0, 2) == 0;
    }
    assert Waves(2, 2) == [Wave(0, 2)];
    assert IsPermutation([1, 0], 2) by {
      assert 0 in [1, 0] && 1 in [1, 0];
    }
    assert RandomDraw(0, 2);
    assert Scenario(config, calls, orders, None, 0);
    var ids := Resolved(config, orders, None);
    assert ids == [1, 0] by {
      var ws := Waves(2, 2);
      assert ws[..1] == ws && orders[..1] == orders;
      assert ws[..0] == [] && orders[..0] == [];
      assert CompletionOrder(ws, orders) == CompletionOrder([], []) + WaveCompletions(Wave(0, 2), [1, 0]);
    }
    var log := RunLog(config, calls, orders, None, 0, 0, 0);
    RunLogShape(config, calls, orders, None, 0, 0, 0, log, ids);
    var closing := Closing(config, calls, ids, None, 0, 0, 0);
    assert log[3] == closing[0];
  }
}

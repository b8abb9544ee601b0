/**
 * The load-test runner: it creates the live status and statistics, reports
 * the initial status, partitions the operations into batches of at most
 * `concurrency` calls, drains the batches one after another (each call's
 * resolution updates the statistics and reports the status), and ends in
 * the completed state (final status, then the statistics) or, if the
 * scheduling block throws, in the failed state (final status, then the
 * error message).
 *
 * Promise.all over one batch is modelled as the batch's callbacks running
 * one at a time in a completion order that is an input (a permutation of
 * the batch's positions). The network replies, the clock readings, the
 * fault that the scheduling block may raise and the value drawn by
 * Math.random are inputs as well.
 */
module TestRunner {
  import opened Types
  import opened Batching
  import opened Statistics
  import opened Request
  import opened RunSpec

  class Runner {
    const config: TestConfig
    /** The status object; a snapshot `{ ...status }` is its value. */
    var status: TestStatus
    /** The statistics object; a snapshot `{ ...stats }` is its value. */
    var stats: TestStats
    /** The callbacks invoked so far, in order. */
    var events: seq<Event>
    /** The outcomes recorded so far, in completion order. */
    ghost var outcomes: seq<Outcome>

    /** The statistics agree with the recorded outcomes (`Agrees`, written
        out on the field), and while the run is in progress the success
        counter counts the successful outcomes, no end time or error is set,
        and the total time and the rate keep their initial 0. */
    ghost predicate Valid()
      reads this
    {
      && status.totalOperations == config.operations
      && status.startTime.Some?
      && stats.totalRequests == stats.successfulRequests + stats.failedRequests
      && 0 <= stats.successfulRequests && 0 <= stats.failedRequests
      && stats.totalRequests == |outcomes|
      && stats.responseTimes == Latencies(outcomes)
      && NonNegative(stats.responseTimes)
      && stats.averageResponseTime == Mean(stats.responseTimes)
      && stats.minResponseTime == MinOf(stats.responseTimes)
      && stats.maxResponseTime == MaxOf(stats.responseTimes)
      && (status.status == Running ==>
            stats.successfulRequests == Successes(outcomes) && status.endTime == None && status.error == None
            && stats.totalTime == 0 && stats.requestsPerSecond == Fin(0.0))
    }

    /** The fresh status and statistics of a run, and the initial report. */
    constructor (config: TestConfig, now: int)
      ensures Valid() && this.config == config && outcomes == []
      ensures status == InitialStatus(config, now) && stats == NoStats()
      ensures events == [Progress(status)]
    {
      var initial := TestStatus(Running, 0.0, 0, config.operations, Some(now), None, None);
      this.config := config;
      status := initial;
      stats := NoStats();
      outcomes := [];
      events := [Progress(initial)];
    }

    /** The callback run when the call of operation `operationIndex`
        resolves with `result`. */
    method Resolve(result: RequestResult, operationIndex: int)
      requires Valid() && status.status == Running
      requires 0 <= operationIndex < status.totalOperations && result.responseTime >= 0.0
      modifies this
      ensures Valid() && status.status == Running
      ensures outcomes == old(outcomes) + [Outcome(result.success, result.responseTime)]
      ensures stats == Record(old(stats), Outcome(result.success, result.responseTime))
      ensures status == old(status).(currentOperation := operationIndex + 1,
                                     progress := Percent(operationIndex + 1, status.totalOperations))
      ensures events == old(events) + [Progress(status)]
    {
      ghost var outcome := Outcome(result.success, result.responseTime);
      assert Agrees(stats, outcomes);
      RecordKeepsAgreement(stats, outcomes, outcome);

      stats := stats.(totalRequests := stats.totalRequests + 1);
      if result.success {
        stats := stats.(successfulRequests := stats.successfulRequests + 1);
      } else {
        stats := stats.(failedRequests := stats.failedRequests + 1);
      }
      var responseTime := result.responseTime;
      stats := stats.(responseTimes := stats.responseTimes + [responseTime]);
      stats := stats.(minResponseTime := MinNum(stats.minResponseTime, responseTime));
      stats := stats.(maxResponseTime := MaxReal(stats.maxResponseTime, responseTime));
      stats := stats.(averageResponseTime :=
        RunningAverage(stats.averageResponseTime, stats.totalRequests, responseTime));
      status := status.(currentOperation := operationIndex + 1);
      status := status.(progress := Percent(status.currentOperation, status.totalOperations));
      events := events + [Progress(status)];
      outcomes := outcomes + [outcome];
    }

    /** One batch: the calls of operations w.start .. w.start + w.size - 1
        are all dispatched, and their callbacks run in the completion order
        `order` (positions within the batch). */
    method RunBatch(w: Wave, calls: seq<Call>, order: seq<int>)
      requires Valid() && status.status == Running
      requires IsPermutation(order, w.size)
      requires 0 <= w.start && w.start + w.size <= status.totalOperations <= |calls|
      requires forall i :: 0 <= i < |calls| ==> calls[i].start <= calls[i].end
      modifies this
      ensures Valid() && status.status == Running
      ensures status.totalOperations == old(status.totalOperations) && status.startTime == old(status.startTime)
      ensures outcomes == old(outcomes) + Outcomes(calls, WaveCompletions(w, order))
      ensures events == old(events)
        + ProgressEvents(status.totalOperations, status.startTime.value, WaveCompletions(w, order))
      ensures order != [] ==>
        status.currentOperation == LastOperation(WaveCompletions(w, order)) &&
        status.progress == LastProgress(status.totalOperations, WaveCompletions(w, order))
      ensures order == [] ==> status == old(status)
    {
      ghost var ids := WaveCompletions(w, order);
      ghost var total, started := status.totalOperations, status.startTime.value;
      var k := 0;
      while k < |order|
        invariant 0 <= k <= |order|
        invariant Valid() && status.status == Running
        invariant status.totalOperations == total && status.startTime == Some(started)
        invariant outcomes == old(outcomes) + Outcomes(calls, ids[..k])
        invariant events == old(events) + ProgressEvents(total, started, ids[..k])
        invariant k > 0 ==>
          status.currentOperation == ids[k - 1] + 1 && status.progress == Percent(ids[k - 1] + 1, total)
        invariant k == 0 ==> status == old(status)
      {
        var operationIndex := w.start + order[k];
        assert operationIndex == ids[k];
        var call := calls[operationIndex];
        var result := MakeRequest(call.reply, call.start, call.end);
        Resolve(result, operationIndex);
        PrefixStep(calls, total, started, ids, k);
        k := k + 1;
      }
      assert ids[..k] == ids;
    }

    /** The completion step: final time, throughput, the zero-success
        substitution, then the final status and the statistics. */
    method Finish(now: int, randomSuccess: int)
      requires Valid() && status.status == Running
      requires RandomDraw(randomSuccess, stats.totalRequests)
      modifies this
      ensures Valid() && outcomes == old(outcomes)
      ensures status == old(status).(status := Completed, progress := 100.0, endTime := Some(now))
      ensures stats == Finalize(old(stats), now - old(status).startTime.value, randomSuccess)
      ensures events == old(events) + [Progress(status), Complete(stats)]
    {
      RandomDrawBound(randomSuccess, stats.totalRequests);
      var endTime := now;
      status := status.(endTime := Some(endTime));
      status := status.(status := Completed);
      status := status.(progress := 100.0);
      stats := stats.(totalTime := endTime - status.startTime.value);
      stats := stats.(requestsPerSecond := Throughput(stats.totalRequests, stats.totalTime));
      if stats.successfulRequests == 0 {
        stats := stats.(successfulRequests := randomSuccess);
        stats := stats.(failedRequests := stats.totalRequests - randomSuccess);
      }
      events := events + [Progress(status)];
      events := events + [Complete(stats)];
    }

    /** The failure step: the status records the error, then the final
        status and the error message are reported. */
    method Fail(message: string, now: int)
      requires Valid() && status.status == Running
      modifies this
      ensures Valid() && outcomes == old(outcomes) && stats == old(stats)
      ensures status == old(status).(status := Failed, error := Some(message), endTime := Some(now))
      ensures events == old(events) + [Progress(status), Error(message)]
    {
      status := status.(status := Failed);
      status := status.(error := Some(message));
      status := status.(endTime := Some(now));
      events := events + [Progress(status)];
      events := events + [Error(message)];
    }

    /** One turn of the batch loop: batch `w` is dispatched and drained,
        which extends the outcomes and the reports from those of the first
        `w` batches to those of the first `w + 1`. */
    method DrainBatch(calls: seq<Call>, orders: seq<seq<int>>, fault: Option<Fault>, ghost randomSuccess: int,
                      w: int, batch: Wave, ghost log0: seq<Event>, ghost before: seq<int>, ghost after: seq<int>)
      requires Valid() && status.status == Running
      requires Scenario(config, calls, orders, fault, randomSuccess) && 0 <= w < |orders|
      requires batch == Waves(config.operations, config.concurrency)[w]
      requires before == Drained(config, orders, w) && after == Drained(config, orders, w + 1)
      requires status.totalOperations == config.operations
      requires outcomes == Outcomes(calls, before)
      requires events == log0 + ProgressEvents(config.operations, status.startTime.value, before)
      modifies this
      ensures Valid() && status.status == Running
      ensures status.totalOperations == old(status.totalOperations) && status.startTime == old(status.startTime)
      ensures outcomes == Outcomes(calls, after)
      ensures events == log0 + ProgressEvents(config.operations, status.startTime.value, after)
      ensures status.currentOperation == LastOperation(after)
      ensures status.progress == LastProgress(config.operations, after)
    {
      ghost var started := status.startTime.value;
      ghost var ids := WaveCompletions(batch, orders[w]);
      BatchInRun(config, calls, orders, fault, randomSuccess, w, batch);
      DrainStep(config, calls, orders, fault, randomSuccess, started, w, before, after, ids);
      ghost var done, more := ProgressEvents(config.operations, started, before), ProgressEvents(config.operations, started, ids);
      RunBatch(batch, calls, orders[w]);
      assert (log0 + done) + more == log0 + (done + more);
    }

    /** The batch loop of the scheduling block: build the batches and drain
        them one after another until the fault (if any) strikes. The calls
        resolved are those of `Resolved`, in that order. */
    method Drain(calls: seq<Call>, orders: seq<seq<int>>, fault: Option<Fault>, ghost randomSuccess: int)
      requires Valid() && outcomes == []
      requires status.status == Running && status.currentOperation == 0 && status.progress == 0.0
      requires Scenario(config, calls, orders, fault, randomSuccess)
      modifies this
      ensures Valid() && status.status == Running
      ensures status.totalOperations == old(status.totalOperations) && status.startTime == old(status.startTime)
      ensures outcomes == Outcomes(calls, Resolved(config, orders, fault))
      ensures events == old(events)
        + ProgressEvents(config.operations, status.startTime.value, Resolved(config, orders, fault))
      ensures status.currentOperation == LastOperation(Resolved(config, orders, fault))
      ensures status.progress == LastProgress(config.operations, Resolved(config, orders, fault))
    {
      var batches := BuildBatches(config.operations, config.concurrency);
      var w := 0;
      while w < |batches| && !(fault.Some? && fault.value.beforeWave == w)
        invariant 0 <= w <= |batches|
        invariant fault.Some? ==> w <= fault.value.beforeWave
        invariant Valid() && status.status == Running
        invariant status.totalOperations == config.operations && status.startTime == old(status.startTime)
        invariant outcomes == Outcomes(calls, Drained(config, orders, w))
        invariant events == old(events)
          + ProgressEvents(config.operations, status.startTime.value, Drained(config, orders, w))
        invariant status.currentOperation == LastOperation(Drained(config, orders, w))
        invariant status.progress == LastProgress(config.operations, Drained(config, orders, w))
      {
        DrainBatch(calls, orders, fault, randomSuccess, w, batches[w], old(events),
                   Drained(config, orders, w), Drained(config, orders, w + 1));
        w := w + 1;
      }
    }

    /** The scheduling block: drain the batches, then fail (when the fault
        struck) or complete. */
    method Execute(calls: seq<Call>, orders: seq<seq<int>>, fault: Option<Fault>, now: int, randomSuccess: int)
      requires Valid() && outcomes == []
      requires status.status == Running && status.currentOperation == 0 && status.progress == 0.0
      requires Scenario(config, calls, orders, fault, randomSuccess)
      modifies this
      ensures events == old(events)
        + RunLog(config, calls, orders, fault, old(status).startTime.value, now, randomSuccess)[1..]
    {
      ghost var started := status.startTime.value;
      ghost var events0 := events;
      Drain(calls, orders, fault, randomSuccess);
      ghost var ids := Resolved(config, orders, fault);
      RunLogTail(config, calls, orders, fault, started, now, randomSuccess);
      ghost var progress := ProgressEvents(config.operations, started, ids);
      ghost var closing := Closing(config, calls, ids, fault, started, now, randomSuccess);
      Conclude(calls, ids, fault, now, randomSuccess);
      assert (events0 + progress) + closing == events0 + (progress + closing);
      ghost var tail := RunLog(config, calls, orders, fault, started, now, randomSuccess)[1..];
      assert tail == progress + closing;
    }

    /** The end of the scheduling block, once the calls `ids` have resolved:
        without a fault the run completes and hands over its statistics;
        with one it fails with the fault's message. */
    method Conclude(calls: seq<Call>, ghost ids: seq<int>, fault: Option<Fault>, now: int, randomSuccess: int)
      requires Valid() && status.status == Running
      requires forall k :: 0 <= k < |ids| ==> 0 <= ids[k] < |calls|
      requires ids != [] ==> config.operations != 0
      requires outcomes == Outcomes(calls, ids)
      requires status.currentOperation == LastOperation(ids)
      requires status.progress == LastProgress(config.operations, ids)
      requires fault.None? ==> RandomDraw(randomSuccess, |ids|)
      modifies this
      ensures events == old(events)
        + Closing(config, calls, ids, fault, old(status).startTime.value, now, randomSuccess)
    {
      if fault.Some? {
        Fail(fault.value.message, now);
      } else {
        assert Agrees(stats, outcomes);
        FinalizeIsSummary(stats, calls, ids, now - status.startTime.value, randomSuccess);
        Finish(now, randomSuccess);
      }
    }
  }

  /** One run of the load test with the given environment: the sequence of
      callback invocations it makes. */
  method RunTest(config: TestConfig, calls: seq<Call>, orders: seq<seq<int>>, fault: Option<Fault>,
                 started: int, ended: int, randomSuccess: int) returns (log: seq<Event>)
    requires Scenario(config, calls, orders, fault, randomSuccess)
    ensures log == RunLog(config, calls, orders, fault, started, ended, randomSuccess)
  {
    var runner := new Runner(config, started);
    runner.Execute(calls, orders, fault, ended, randomSuccess);
    log := runner.events;
  }
}

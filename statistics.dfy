/**
 * Reference (whole-history) definitions of the run statistics, and the
 * lemmas showing that the runner's per-call updates of count, minimum,
 * maximum and average agree with them.
 */
module Statistics {
  import opened Types

  /** What one resolved call contributes to the statistics. */
  datatype Outcome = Outcome(success: bool, latency: real)

  function Sum(s: seq<real>): real
  {
    if s == [] then 0.0 else s[0] + Sum(s[1..])
  }

  /** The arithmetic mean, 0 for no samples (the initial average). */
  function Mean(s: seq<real>): real
  {
    if s == [] then 0.0 else Sum(s) / (|s| as real)
  }

  /** JavaScript's Math.min of a number and a finite sample: Infinity
      yields the sample, NaN stays NaN, and null counts as 0. */
  function MinNum(a: Num, x: real): (r: Num)
    ensures a.Fin? ==> r.Fin? && r.v <= a.v && r.v <= x && (r.v == a.v || r.v == x)
    ensures a == Infinity ==> r == Fin(x)
    ensures a == NaN <==> r == NaN
  {
    match a
    case Infinity => Fin(x)
    case Fin(v) => Fin(if x < v then x else v)
    case NaN => NaN
    case Null => Fin(if x < 0.0 then x else 0.0)
  }

  /** JavaScript's Math.max of two finite numbers: the larger one. */
  function MaxReal(a: real, b: real): (r: real)
    ensures a <= r && b <= r && (r == a || r == b)
  {
    if a < b then b else a
  }

  /** The smallest sample, Infinity for none (the initial minimum). */
  function MinOf(s: seq<real>): Num
  {
    if s == [] then Infinity else MinNum(MinOf(s[1..]), s[0])
  }

  /** The largest of 0 and the samples (the initial maximum is 0). */
  function MaxOf(s: seq<real>): real
  {
    if s == [] then 0.0 else MaxReal(s[0], MaxOf(s[1..]))
  }

  function Successes(os: seq<Outcome>): nat
  {
    if os == [] then 0 else (if os[0].success then 1 else 0) + Successes(os[1..])
  }

  function Latencies(os: seq<Outcome>): (ls: seq<real>)
    ensures |ls| == |os|
    ensures forall i :: 0 <= i < |os| ==> ls[i] == os[i].latency
  {
    seq(|os|, i requires 0 <= i < |os| => os[i].latency)
  }

  ghost predicate NonNegative(s: seq<real>)
  {
    forall i :: 0 <= i < |s| ==> s[i] >= 0.0
  }

  lemma {:induction false} SumSnoc(s: seq<real>, x: real)
    ensures Sum(s + [x]) == Sum(s) + x
  {
    if s != [] {
      assert (s + [x])[1..] == s[1..] + [x];
      SumSnoc(s[1..], x);
    }
  }

  /** The mean times the number of samples is the sum of the samples. */
  lemma MeanTimesCount(s: seq<real>)
    ensures Mean(s) * (|s| as real) == Sum(s)
  {
  }

  /** The runner's streaming average, (previous average * (n - 1) + x) / n
      with n the new request count, is the mean of all samples so far. */
  lemma MeanStep(s: seq<real>, x: real)
    ensures Mean(s + [x]) == (Mean(s) * (|s| as real) + x) / ((|s| + 1) as real)
  {
    SumSnoc(s, x);
    MeanTimesCount(s);
  }

  /** Folding Math.min over one more sample gives the minimum of all. */
  lemma {:induction false} MinOfSnoc(s: seq<real>, x: real)
    ensures MinOf(s + [x]) == MinNum(MinOf(s), x)
  {
    if s != [] {
      assert (s + [x])[1..] == s[1..] + [x];
      MinOfSnoc(s[1..], x);
    }
  }

  /** Folding Math.max over one more sample gives the maximum of all. */
  lemma {:induction false} MaxOfSnoc(s: seq<real>, x: real)
    ensures MaxOf(s + [x]) == MaxReal(MaxOf(s), x)
  {
    if s != [] {
      assert (s + [x])[1..] == s[1..] + [x];
      MaxOfSnoc(s[1..], x);
    }
  }

  /** With at least one sample the minimum is finite, is one of the samples
      and bounds every sample from below; with none it is Infinity. */
  lemma {:induction false} MinOfIsLeast(s: seq<real>)
    ensures s == [] <==> MinOf(s) == Infinity
    ensures s != [] ==> MinOf(s).Fin? && MinOf(s).v in s
    ensures s != [] ==> forall i :: 0 <= i < |s| ==> MinOf(s).v <= s[i]
  {
    if s != [] {
      MinOfIsLeast(s[1..]);
      forall i | 0 <= i < |s| ensures MinOf(s).v <= s[i] {
        if i > 0 { assert s[i] == s[1..][i - 1]; }
      }
    }
  }

  /** The maximum bounds every sample from above, and when the samples are
      non-negative and there is at least one, it is one of them. */
  lemma {:induction false} MaxOfIsGreatest(s: seq<real>)
    ensures 0.0 <= MaxOf(s)
    ensures forall i :: 0 <= i < |s| ==> s[i] <= MaxOf(s)
    ensures s != [] && NonNegative(s) ==> MaxOf(s) in s
  {
    if s != [] {
      MaxOfIsGreatest(s[1..]);
      forall i | 0 <= i < |s| ensures s[i] <= MaxOf(s) {
        if i > 0 { assert s[i] == s[1..][i - 1]; }
      }
      if NonNegative(s) && s[1..] != [] {
        assert NonNegative(s[1..]) by {
          forall i | 0 <= i < |s[1..]| ensures s[1..][i] >= 0.0 {
            assert s[1..][i] == s[i + 1];
          }
        }
      }
    }
  }

  /** With a single sample, minimum, maximum and average all equal it. */
  lemma SingleSample(x: real)
    requires x >= 0.0
    ensures MinOf([x]) == Fin(x) && MaxOf([x]) == x && Mean([x]) == x
  {
    assert [x][1..] == [];
    assert Sum([x]) == x;
    assert Mean([x]) == x / 1.0;
  }

  lemma {:induction false} SuccessesSnoc(os: seq<Outcome>, o: Outcome)
    ensures Successes(os + [o]) == Successes(os) + (if o.success then 1 else 0)
  {
    if os != [] {
      assert (os + [o])[1..] == os[1..] + [o];
      SuccessesSnoc(os[1..], o);
    }
  }

  /** Successes never exceed the number of outcomes; an outcome list with no
      successful call counts zero. */
  lemma {:induction false} SuccessesBound(os: seq<Outcome>)
    ensures Successes(os) <= |os|
    ensures (forall i :: 0 <= i < |os| ==> !os[i].success) ==> Successes(os) == 0
  {
    if os != [] {
      SuccessesBound(os[1..]);
      if forall i :: 0 <= i < |os| ==> !os[i].success {
        assert forall i :: 0 <= i < |os[1..]| ==> !os[1..][i].success by {
          forall i | 0 <= i < |os[1..]| ensures !os[1..][i].success {
            assert os[1..][i] == os[i + 1];
          }
        }
      }
    }
  }

  lemma LatenciesSnoc(os: seq<Outcome>, o: Outcome)
    ensures Latencies(os + [o]) == Latencies(os) + [o.latency]
  {
  }

  /** Statistics agree with the outcomes recorded so far: every outcome is
      counted once, as a success or as a failure, and the average, minimum
      and maximum are those of the latency log, which lists each outcome's
      latency in order. */
  ghost predicate Agrees(st: TestStats, os: seq<Outcome>)
  {
    && st.totalRequests == st.successfulRequests + st.failedRequests
    && 0 <= st.successfulRequests && 0 <= st.failedRequests
    && st.totalRequests == |os|
    && st.responseTimes == Latencies(os)
    && NonNegative(st.responseTimes)
    && st.averageResponseTime == Mean(st.responseTimes)
    && st.minResponseTime == MinOf(st.responseTimes)
    && st.maxResponseTime == MaxOf(st.responseTimes)
  }

  /** The statistics of a run before any call resolved: no requests, an
      average and a maximum of 0, and an Infinity minimum. */
  function NoStats(): TestStats
  {
    TestStats(0, 0, 0, 0.0, Infinity, 0.0, 0, Fin(0.0), [])
  }

  /** (average * (n - 1) + x) / n, with n the new request count. */
  function RunningAverage(average: real, n: int, x: real): real
    requires n != 0
  {
    (average * ((n - 1) as real) + x) / (n as real)
  }

  /** The statistics after one more call resolved with outcome `o`: the
      counters move by one, the latency is logged and folded into the
      minimum, the maximum and the running average. */
  function Record(st: TestStats, o: Outcome): (r: TestStats)
    requires st.totalRequests >= 0
    ensures r.totalRequests == st.totalRequests + 1
    ensures r.successfulRequests + r.failedRequests == st.successfulRequests + st.failedRequests + 1
    ensures o.success <==> r.successfulRequests > st.successfulRequests
    ensures r.responseTimes == st.responseTimes + [o.latency]
    ensures st.maxResponseTime <= r.maxResponseTime && o.latency <= r.maxResponseTime
    ensures st.minResponseTime != NaN ==> r.minResponseTime.Fin? && r.minResponseTime.v <= o.latency
    ensures r.totalTime == st.totalTime && r.requestsPerSecond == st.requestsPerSecond
  {
    var n := st.totalRequests + 1;
    st.(totalRequests := n,
        successfulRequests := st.successfulRequests + (if o.success then 1 else 0),
        failedRequests := st.failedRequests + (if o.success then 0 else 1),
        responseTimes := st.responseTimes + [o.latency],
        minResponseTime := MinNum(st.minResponseTime, o.latency),
        maxResponseTime := MaxReal(st.maxResponseTime, o.latency),
        averageResponseTime := RunningAverage(st.averageResponseTime, n, o.latency))
  }

  /** The streaming average over the samples so far and one more sample is
      the mean of all of them. */
  lemma RunningAverageIsMean(s: seq<real>, x: real)
    ensures RunningAverage(Mean(s), |s| + 1, x) == Mean(s + [x])
  {
    MeanStep(s, x);
    assert ((|s| + 1 - 1) as real) == |s| as real;
  }

  /** The per-call update keeps the statistics in agreement with the
      outcome history, and the success counter equal to the number of
      successful outcomes. */
  lemma RecordKeepsAgreement(st: TestStats, os: seq<Outcome>, o: Outcome)
    requires Agrees(st, os) && st.successfulRequests == Successes(os) && o.latency >= 0.0
    ensures Agrees(Record(st, o), os + [o])
    ensures Record(st, o).successfulRequests == Successes(os + [o])
  {
    var x := o.latency;
    var r := Record(st, o);
    SuccessesSnoc(os, o);
    LatenciesSnoc(os, o);
    assert r.responseTimes == st.responseTimes + [x] == Latencies(os + [o]);
    RunningAverageIsMean(st.responseTimes, x);
    assert r.averageResponseTime == Mean(r.responseTimes);
    MinOfSnoc(st.responseTimes, x);
    MaxOfSnoc(st.responseTimes, x);
    assert NonNegative(st.responseTimes + [x]);
  }

  /** JavaScript's requests / (totalTime / 1000): a finite rate for a
      non-zero time, and a division by zero otherwise. */
  function Throughput(requests: int, totalTime: int): (r: Num)
    requires requests >= 0
    ensures totalTime != 0 ==> r.Fin? && r.v * (totalTime as real) == (requests as real) * 1000.0
    ensures totalTime == 0 ==> (r == NaN <==> requests == 0) && (r == Infinity <==> requests > 0)
  {
    if totalTime != 0 then Fin((requests as real) / ((totalTime as real) / 1000.0))
    else if requests == 0 then NaN
    else Infinity
  }

  /** The completion step on the statistics: the elapsed time, the rate,
      and a random success count in place of a zero one. */
  function Finalize(st: TestStats, totalTime: int, randomSuccess: int): (f: TestStats)
    requires st.totalRequests >= 0
    ensures f.totalTime == totalTime && f.requestsPerSecond == Throughput(st.totalRequests, totalTime)
    ensures f.totalRequests == st.totalRequests && f.responseTimes == st.responseTimes
    ensures f.averageResponseTime == st.averageResponseTime
    ensures f.minResponseTime == st.minResponseTime && f.maxResponseTime == st.maxResponseTime
    ensures st.successfulRequests != 0 ==>
      f.successfulRequests == st.successfulRequests && f.failedRequests == st.failedRequests
    ensures st.successfulRequests == 0 ==>
      f.successfulRequests == randomSuccess && f.successfulRequests + f.failedRequests == st.totalRequests
  {
    var rate := Throughput(st.totalRequests, totalTime);
    if st.successfulRequests == 0 then
      st.(totalTime := totalTime, requestsPerSecond := rate,
          successfulRequests := randomSuccess, failedRequests := st.totalRequests - randomSuccess)
    else
      st.(totalTime := totalTime, requestsPerSecond := rate)
  }
}

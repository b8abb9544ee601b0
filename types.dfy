/**
 * The records shared by the load-test runner, the result history and the
 * progress view: the test configuration, the live status, the running
 * statistics and a saved result.
 */
module Types {

  datatype Option<+T> = None | Some(value: T)

  /** A JavaScript number where the runner can produce a non-finite value:
      the initial minimum response time is Infinity, and requests per second
      divides by a total time that may be zero. `Null` is what such a field
      holds after a trip through JSON, which writes Infinity and NaN as
      null. */
  datatype Num = Fin(v: real) | Infinity | NaN | Null

  /** The HTTP methods a configuration can name. HEAD is not among them. */
  datatype HttpMethod = GET | POST | PUT | DELETE | PATCH

  /** The lifecycle state of one run. */
  datatype Status = Idle | Running | Completed | Failed

  datatype TestConfig = TestConfig(
    apiKey: string,
    operations: int,
    concurrency: int,
    endpoint: string,
    httpMethod: HttpMethod,
    headers: map<string, string>,
    body: Option<string>)

  /** The statistics of a run; `responseTimes` is in completion order. */
  datatype TestStats = TestStats(
    totalRequests: int,
    successfulRequests: int,
    failedRequests: int,
    averageResponseTime: real,
    minResponseTime: Num,
    maxResponseTime: real,
    totalTime: int,
    requestsPerSecond: Num,
    responseTimes: seq<real>)

  /** The status snapshot handed to the progress callback. */
  datatype TestStatus = TestStatus(
    status: Status,
    progress: real,
    currentOperation: int,
    totalOperations: int,
    startTime: Option<int>,
    endTime: Option<int>,
    error: Option<string>)

  datatype TestResult = TestResult(
    id: string,
    timestamp: int,
    config: TestConfig,
    stats: TestStats)

  function Min(a: int, b: int): int { if a <= b then a else b }
}

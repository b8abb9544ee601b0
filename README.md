# API stress tester: load-test runner, result history and progress helpers

This project models the core of a browser-based API load tester and proves properties of the model.

- **`runTest`** issues `operations` calls against one endpoint. It dispatches them in batches of at most `concurrency` calls and drains one batch before the next is dispatched. After every resolved call it updates running statistics and reports a status snapshot. It ends in one of two ways:
  - completed: it reports a completed status and then the statistics;
  - failed: the scheduling block threw, and it reports a failed status and then the error message.
- **`makeRequest`** sends one call and always resolves to a timed result, never rejecting.
- **The result history** keeps the saved configuration and the last 20 results in the browser's key/value storage.
- **The progress panel** has two helpers: one formats a millisecond count as a duration, and one picks the progress bar's colour for each lifecycle state.

Modules, one file each:

- `Types` (`types.dfy`): the records shared by the rest of the model. A JavaScript number that can be Infinity or NaN is the datatype `Num`, which also holds the `null` that JSON writes in their place.
- `Request` (`request.dfy`): the request that is sent and the value one call resolves to. The network is an input, `Reply`. The two clock readings are inputs too.
- `Batching` (`waves.dfy`):
  - the partition loop, as the method `BuildBatches`, proved against `Waves`;
  - the order in which calls complete when the batches drain one after another.
- `Statistics` (`statistics.dfy`): reference definitions of sum, mean, minimum and maximum over the latency log, and the per-call update `Record`. It proves that the runner's running average, `Math.min` and `Math.max` agree with those definitions.
- `RunSpec` (`run_spec.dfy`): the closed-form sequence of callback invocations of one run (`RunLog`), over its environment:
  - each call's reply and clock readings;
  - the completion order inside each batch;
  - an optional fault raised by the scheduling block;
  - the start and end times;
  - the value drawn by `Math.random`.
- `TestRunner` (`runner.dfy`): the runner as a class. The status and statistics objects are fields, updated in place. One method is written per step of `runTest`. Each method is proved against `RunSpec`, and `RunTest` returns exactly `RunLog`.
- `RunProperties` (`run_properties.dfy`): what a run reports, stated over `RunLog`:
  - the shape of the log;
  - the statistics handed over;
  - the bounds of the progress values;
  - the ordering across batches.
- `TestProgress` (`progress_view.dfy`): `formatTime`, with a reader for the text it produces, and `getStatusColor`.
- `LocalStorage` (`history.dfy`): the storage functions. JSON is abstracted, except that `JSON.stringify` writes Infinity and NaN as `null`, which the model keeps (`Stringified`). The browser storage is a class whose map of items the save functions update.

In two places the code does something other than what its own comments and display suggest. The model follows the code:

- **Progress does not count completed operations.** The progress panel shows the current operation as a count out of the total ("`{status.currentOperation} / {status.totalOperations} operations`", src/components/TestProgress.tsx:89), which reads as a non-decreasing count of completed operations that reaches the total at the last call. The code instead reports `operationIndex + 1`, the position of the operation whose call just resolved. Inside a batch, calls resolve in any order, so that value can drop. The completed status can then carry a current operation below the total while its progress is 100. `RunProperties.ProgressNotMonotone` exhibits this on two operations at concurrency 2. `RunProperties.LaterBatchReportsHigher` proves what the code does guarantee: every status of a later batch names a higher operation than every status of an earlier batch, with or without a fault.
- **A run with no successful call reports random successes.** A run whose calls all fail would be expected to complete with zero successful requests. The code, under the comment "Simulate some random success rate for demonstration" (src/utils/testRunner.ts:99), replaces a zero success count with a random draw below 80% of the requests (`RandomDraw`). The model keeps the draw.

## Model

| member | source | states |
|---|---|---|
| Request.RequestHeaders | src/utils/testRunner.ts:123-129 | The headers sent are the configured ones plus `Authorization` exactly when the API key is non-empty. Configured values are kept, except that `Authorization` becomes `Bearer <key>`. |
| Request.FetchRequest | src/utils/testRunner.ts:131-135 | The request goes to the configured endpoint with the configured method and `RequestHeaders`. The body is sent exactly when the method is not GET and a body is configured. |
| Request.MakeRequest | src/utils/testRunner.ts:119-155 | The response time is always end minus start. Success holds exactly when the server answered ok and the body was read. An error message is present exactly when the transport rejected or the body could not be read; status and data are then absent. A rejection keeps its message. |
| Batching.Waves | src/utils/testRunner.ts:39-40 | There are `NumWaves` batches, none exactly when the total is at most 0. Batch k starts at k·c and holds at most c operations. |
| Batching.BatchStartsMonotone | src/utils/testRunner.ts:39 | Batch k starts at k·c, so a later batch never starts before an earlier one. |
| Batching.BuildBatches | src/utils/testRunner.ts:35-46 | The batch loop produces exactly `Waves(total, c)`: batch k starts at k·c and holds min(c, total − k·c) operations. |
| Batching.NumWavesBounds | src/utils/testRunner.ts:39 | No batches for total ≤ 0. Otherwise the n batches satisfy (n − 1)·c < total ≤ n·c. |
| Batching.WavesPartition | src/utils/testRunner.ts:39-46 | Batches start at 0, c, 2c, …. Each holds 1 to c operations, and all but the last are full. Together they cover 0 … total − 1 without gap or overlap, so the sizes sum to the total. |
| Batching.ContiguousSumSizes | src/utils/testRunner.ts:39-40 | For back-to-back batches, the sizes sum to the end of the last batch. |
| Batching.TenOperationsAtConcurrencyThree | src/utils/testRunner.ts:39-40 | 10 operations at concurrency 3 give batches of sizes 3, 3, 3, 1. |
| Batching.AppendBatch | src/utils/testRunner.ts:45-48 | A permutation of the earlier operations, followed by a batch resolving in some order of its own positions, is a permutation of all operations up to the batch's end. |
| Batching.CompletionOrderPermutation | src/utils/testRunner.ts:87-89 | When back-to-back batches drain one after another, every operation resolves exactly once. |
| Batching.CompletionOrderLength | src/utils/testRunner.ts:87-89 | The completion order has one entry per operation of the batches. |
| Batching.CompletionInBlock | src/utils/testRunner.ts:87-89 | The call resolving at a position inside batch k's range of positions is an operation of batch k. |
| Batching.CompletionOrderBlocks | src/utils/testRunner.ts:87-89 | Every batch lies within the run, and every call resolving while batch k drains belongs to batch k. |
| Batching.LaterWaveHigherIndices | src/utils/testRunner.ts:87-89 | A call of a later batch has a higher operation index than every call of an earlier batch. |
| Batching.CompletionOrderPrefix | src/utils/testRunner.ts:87-89 | The completion order of the first m batches is a prefix of the completion order of all batches. |
| Batching.PrefixLaterWaveHigher | src/utils/testRunner.ts:87-89 | When only the first m batches drain, a call of a later one of them still has a higher position in the resolved order and a higher operation index than every call of an earlier one. |
| Batching.PrefixInRange | src/utils/testRunner.ts:87-89 | After the first m batches, the resolved operations are distinct indices in 0 … total − 1. After all batches there are exactly total of them. |
| Statistics.MinNum | src/utils/testRunner.ts:61 | `Math.min` of the current minimum and a sample: the sample when the minimum is Infinity, a finite value at most both when it is finite, NaN exactly when it was NaN. |
| Statistics.MaxReal | src/utils/testRunner.ts:62 | `Math.max` of two numbers is at least both and is one of them. |
| Statistics.Record | src/utils/testRunner.ts:51-65 | One more call counts one more request and one more success or failure, a success exactly when it succeeded. Its latency is appended to the log. The maximum bounds the old maximum and the latency. A non-NaN minimum becomes a finite value at most the latency. Total time and rate are unchanged. |
| Statistics.Finalize | src/utils/testRunner.ts:96-104 | The total time is set and the rate is `Throughput` of requests and time. Requests, log, average, minimum and maximum are kept. A non-zero success count is kept. A zero one becomes the random draw, with the failures making up the rest of the requests. |
| Statistics.MeanStep | src/utils/testRunner.ts:64-65 | The mean of the samples plus one more is (previous mean · count + x) / (count + 1). |
| Statistics.RunningAverageIsMean | src/utils/testRunner.ts:64-65 | The runner's update (average · (n − 1) + x) / n, with n the new request count, is the mean of all latencies so far. |
| Statistics.MinOfSnoc | src/utils/testRunner.ts:61 | Folding `Math.min` over one more latency gives the minimum of the whole log. |
| Statistics.MaxOfSnoc | src/utils/testRunner.ts:62 | Folding `Math.max` over one more latency gives the maximum of the whole log. |
| Statistics.MinOfIsLeast | src/utils/testRunner.ts:25 | The minimum is Infinity exactly when there are no samples. Otherwise it is one of the samples and at most every sample. |
| Statistics.MaxOfIsGreatest | src/utils/testRunner.ts:26 | The maximum, starting from 0, is at least 0 and at least every sample. For non-negative samples it is one of them. |
| Statistics.SingleSample | src/utils/testRunner.ts:61-65 | After the first call, the minimum, maximum and average all equal its latency. |
| Statistics.SuccessesSnoc | src/utils/testRunner.ts:53-57 | One more outcome raises the success count by one exactly when it succeeded. |
| Statistics.SuccessesBound | src/utils/testRunner.ts:100 | Successes never exceed the outcomes and are 0 when no call succeeded. |
| Statistics.LatenciesSnoc | src/utils/testRunner.ts:59-60 | One more outcome appends its latency to the log. |
| Statistics.RecordKeepsAgreement | src/utils/testRunner.ts:51-65 | The per-call update keeps the statistics in agreement with the outcomes. Total = successes + failures = number of outcomes. The log lists the latencies in completion order, and the average, minimum and maximum are those of the log. |
| Statistics.Throughput | src/utils/testRunner.ts:97 | For a non-zero time the rate times the time is requests · 1000. For zero time it is NaN with no requests and Infinity otherwise. |
| RunSpec.Summary | src/utils/testRunner.ts:51-104 | The statistics handed over count one request and one latency per resolved call, successes + failures = requests, and the total time is the given time. |
| RunSpec.Closing | src/utils/testRunner.ts:91-116 | The two closing callbacks: a status with the end and start times naming the last resolved operation, then the statistics exactly when no fault struck, or the fault's message when one did. |
| RunSpec.RunLog | src/utils/testRunner.ts:32-116 | One entry per resolved call plus three, the first being the initial status. |
| RunSpec.RandomDrawBound | src/utils/testRunner.ts:101-103 | The random success count lies between 0 and the request count, so the failures stay non-negative. |
| RunSpec.Drained | src/utils/testRunner.ts:87-89 | The operations resolved by the first m batches are distinct operations of the run. After all batches they are all the operations. |
| RunSpec.Resolved | src/utils/testRunner.ts:87-89 | The operations whose callbacks ran are distinct operations of the run, and all of them when no fault struck. |
| RunSpec.BatchInRun | src/utils/testRunner.ts:39-46 | Every batch is a non-empty block of the run's operations, with a call for each of them. |
| RunSpec.DrainStep | src/utils/testRunner.ts:87-89 | Draining one more batch appends that batch's completions, outcomes and status reports. The last status is that of the batch's last callback. |
| RunSpec.FinalizeIsSummary | src/utils/testRunner.ts:91-104 | Finalizing statistics that agree with the resolved outcomes gives the closed-form summary of those outcomes. |
| TestRunner.Runner.constructor | src/utils/testRunner.ts:12-32 | A fresh run: running, progress 0, operation 0, the start time, zeroed statistics with an Infinity minimum, and one initial report. |
| TestRunner.Runner.Resolve | src/utils/testRunner.ts:50-70 | One resolved call: the statistics become `Record` of the outcome, and the status names operation index + 1 with progress (index + 1) / total · 100. A copy of the status is reported, and agreement with the outcomes is kept. |
| TestRunner.Runner.RunBatch | src/utils/testRunner.ts:42-83 | Draining one batch appends its outcomes and one status report per call, in completion order. The status is that of the batch's last callback. |
| TestRunner.Runner.Finish | src/utils/testRunner.ts:91-107 | Completion sets the end time, the completed state and progress 100. The statistics become `Finalize` of the old ones. The final status, then the statistics, are reported. |
| TestRunner.Runner.Fail | src/utils/testRunner.ts:108-115 | Failure sets the failed state, the message and the end time, leaves the statistics alone, and reports the final status, then the message. |
| TestRunner.Runner.DrainBatch | src/utils/testRunner.ts:87-89 | One turn of the batch loop takes the outcomes and reports from the first w batches to the first w + 1. |
| TestRunner.Runner.Drain | src/utils/testRunner.ts:35-89 | Building and draining the batches until the fault records exactly the outcomes of `Resolved` and reports one status per resolved call, in order. |
| TestRunner.Runner.Conclude | src/utils/testRunner.ts:91-116 | After the calls resolved, the run appends exactly the two closing callbacks of `Closing`: completed status and statistics, or failed status and message. |
| TestRunner.Runner.Execute | src/utils/testRunner.ts:34-116 | The scheduling block appends the rest of `RunLog`: the per-call statuses, then the completed status and statistics, or the failed status and message. |
| TestRunner.RunTest | src/utils/testRunner.ts:9-117 | A run makes exactly the callback invocations of `RunLog`. |
| RunProperties.RunLogSplit | src/utils/testRunner.ts:32-116 | The log is the initial status, then one status per resolved call, then the two closing callbacks. |
| RunProperties.RunLogShape | src/utils/testRunner.ts:32-116 | There are resolved calls + 3 entries, and the first is the initial status. Entry k names operation ids[k − 1] + 1. Every entry but the last is a status. The last is the statistics exactly when no fault struck, so completion or error is reported once, never both. |
| RunProperties.RunLogEnding | src/utils/testRunner.ts:91-115 | After a fault, the final status is Failed with the message and end time, followed by the message. Otherwise it is Completed at 100 with the end time and no error. |
| RunProperties.AllOperationsResolve | src/utils/testRunner.ts:35-89 | Without a fault, every operation's callback runs exactly once. |
| RunProperties.SummaryCounts | src/utils/testRunner.ts:51-57 | The statistics count one request per resolved call. Successes + failures = requests, with successes in 0 … requests even after the random substitution. Total time is the given time. |
| RunProperties.SummaryLatencies | src/utils/testRunner.ts:59-65 | The latency log holds each resolved call's end − start, in completion order, and average · count = sum of the log. |
| RunProperties.SummaryExtremes | src/utils/testRunner.ts:61-62 | The maximum bounds every latency, and the minimum is Infinity exactly when nothing resolved. After some call resolved, both extremes are latencies in the log and the minimum bounds every latency. |
| RunProperties.CompletedRunStatistics | src/utils/testRunner.ts:91-107 | A run without a fault ends with the statistics of all operations. Every operation is counted once, and the total time is end − start. |
| RunProperties.PercentBounds | src/utils/testRunner.ts:68 | For 1 ≤ i ≤ total, (i / total) · 100 lies in (0, 100]. |
| RunProperties.ProgressBounds | src/utils/testRunner.ts:67-68 | Every per-call status names an operation 1 … total, with progress in (0, 100] equal to its percentage. |
| RunProperties.LaterBatchReportsHigher | src/utils/testRunner.ts:67-89 | In every run, with or without a fault, every status of a later batch that ran names a higher operation than every status of an earlier batch, and comes later in the log. |
| RunProperties.ProgressNotMonotone | src/utils/testRunner.ts:67-94 | Two operations at concurrency 2, the second resolving first, report operation 2 and then 1. The completed status then has progress 100 with current operation 1 < 2. |
| TestProgress.IntToString | src/components/TestProgress.tsx:28 | An integer renders as its digits, with a leading minus exactly when it is negative. A non-negative one reads back as itself. |
| TestProgress.NatToString | src/components/TestProgress.tsx:28-33 | A whole number renders as digits only, with no leading zero. |
| TestProgress.ParseNatToString | src/components/TestProgress.tsx:28-33 | Reading the rendered digits gives the number back. |
| TestProgress.FormatTime | src/components/TestProgress.tsx:27-34 | The text always ends in "s", and ends in "ms" exactly when the count is below 1000. |
| TestProgress.ReadMillis | src/components/TestProgress.tsx:28 | A count below 1000 reads back as that many milliseconds. |
| TestProgress.ReadSeconds | src/components/TestProgress.tsx:29-30 | A count from 1000 to 59999 reads back as its whole seconds, 1 to 59. |
| TestProgress.ReadMinSecText | src/components/TestProgress.tsx:31-33 | A text of the form "Mm Ss" reads back as those minutes and seconds. |
| TestProgress.ReadMinutes | src/components/TestProgress.tsx:31-33 | A count of 60000 or more reads back as minutes ≥ 1 and seconds < 60 that add up to all its whole seconds. |
| TestProgress.FormatTimeKeepsSeconds | src/components/TestProgress.tsx:29-33 | From one second up, the text always reads back to exactly the whole seconds. |
| TestProgress.StatusColor | src/components/TestProgress.tsx:14-25 | Each state has a colour class from which the state can be read back. |
| TestProgress.StatusColorDistinct | src/components/TestProgress.tsx:14-25 | Running is blue, completed green, failed red and anything else gray. The colour gives the state back, so no two states share one. |
| LocalStorage.ConfigIn | src/utils/localStorage.ts:15-25 | A loaded configuration is the one stored under the configuration key. Null exactly when nothing is stored there or the text does not parse as a configuration. |
| LocalStorage.ResultsIn | src/utils/localStorage.ts:39-49 | The empty list when nothing is stored or the text does not parse. A non-empty list is the one stored under the results key. |
| LocalStorage.Newest | src/utils/localStorage.ts:29-33 | The new history is non-empty, starts with the new result, holds at most 20 entries, and holds nothing but the new result and earlier results. |
| LocalStorage.NewestShape | src/utils/localStorage.ts:28-36 | After saving, the new result comes first and at most 20 are kept. The rest are the earlier results in their order, of which at most 19 remain. |
| LocalStorage.WithoutId | src/utils/localStorage.ts:54 | The filter never lengthens the history, and no kept result carries the id. |
| LocalStorage.WithoutIdMembers | src/utils/localStorage.ts:52-56 | A result stays after deletion exactly when it was stored and has another id. |
| LocalStorage.WithoutIdAppend | src/utils/localStorage.ts:54 | The filter works piecewise, so the kept results keep their order. |
| LocalStorage.WithoutIdAbsent | src/utils/localStorage.ts:54 | Deleting an id no result carries changes nothing. |
| LocalStorage.WithoutIdIdempotent | src/utils/localStorage.ts:52-56 | Deleting an id twice is deleting it once. |
| LocalStorage.StringifiedAll | src/utils/localStorage.ts:35 | Storing a result list keeps its length and every result's id. |
| LocalStorage.StringifiedExactly | src/utils/localStorage.ts:35-44 | A result comes back from storage unchanged exactly when neither its minimum response time nor its rate is Infinity or NaN; such a statistic comes back as null. |
| LocalStorage.EmptyRunLosesStatistics | src/utils/localStorage.ts:28-44 | A result with an Infinity minimum and a NaN rate, as a run with no resolved call and zero time produces, does not come back from storage as saved. |
| LocalStorage.StringifiedAllKeeps | src/utils/localStorage.ts:33-44 | A list in which no minimum response time or rate is Infinity or NaN is stored as it is, and storing an already stored list changes nothing. |
| LocalStorage.StringifiedWithoutId | src/utils/localStorage.ts:52-56 | Deleting by id and storing commute, since storing leaves ids alone. |
| LocalStorage.StoreRoundTrip | src/utils/localStorage.ts:9-49 | A saved configuration loads back as written. A saved result list loads back in its stored form, which is the list itself when no minimum response time or rate in it is Infinity or NaN. Writing one key leaves what the other key loads. |
| LocalStorage.Store.LoadConfig | src/utils/localStorage.ts:15-25 | A loaded configuration is the one stored under the configuration key; none is loaded when the key is absent. |
| LocalStorage.Store.LoadResults | src/utils/localStorage.ts:39-49 | A non-empty loaded list is the one stored under the results key; the empty list when the key is absent. |
| LocalStorage.Store.SaveConfig | src/utils/localStorage.ts:9-12 | Only the configuration key changes. The configuration then loads back, and the results load as before. |
| LocalStorage.Store.SaveResult | src/utils/localStorage.ts:28-36 | Only the results key changes, to the stored form of the new result followed by the previous history, cut to 20. The results then load as that stored form, and the configuration loads as before. |
| LocalStorage.Store.DeleteResult | src/utils/localStorage.ts:52-56 | Only the results key changes, to the stored form of the previous history without the results carrying the id, in order. The configuration loads as before. |

## Left out

- The network, `fetch`, `response.text()`, `Date.now()`, `performance.now()` and `Math.random()` are inputs to the model, not modelled operations:
  - each call's reply and its two clock readings are given;
  - each batch's completion order is given;
  - the start and end times are given;
  - the random value is any value `Math.floor(Math.random() * total * 0.8)` can produce.
- `Promise.all` is modelled as the callbacks of one batch running one at a time in the given completion order. JavaScript runs callbacks on one thread, so no interleaving inside a callback is lost.
- The `.catch` handler on each call (testRunner.ts:74-79) is left out. `makeRequest` never rejects, so the handler runs only when a `.then` callback throws, which happens only when the progress callback throws. Callbacks that throw are not modelled.
- Faults of the scheduling block are modelled only before a batch is dispatched, or after the last one. A throw from the final `onProgress` or `onComplete` at testRunner.ts:106-107 would report a failed status after the completed one; this is not modelled.
- `console.error` logging is left out.
- A concurrency below 1 is excluded (`Scenario`). With 0 or a negative value, the batch loop at testRunner.ts:39 never ends for a positive total. The configuration form (src/components/TestConfigForm.tsx:133, not part of this model) offers only values from 1 up.
- JavaScript numbers are modelled as `int` for counts and millisecond times, and `real` for latencies, average and progress. Floating-point rounding is not modelled; Infinity and NaN are, through `Num`, where the code can produce them, and so is the `null` JSON turns them into.
- HEAD is not a method a configuration can name (src/types/index.ts:6), so only GET drops the body.
- Header names are compared exactly. `fetch` folds their case; that is not modelled.
- `LocalStorage.ConfigIn`: JSON is abstracted. Of its lossy encodings only Infinity and NaN becoming `null` is modelled (`Num.Null`, `LocalStorage.Stringified`); `Math.min` with a `null` operand treats it as 0 (`Statistics.MinNum`). A stored text either is one of the values the save functions write or does not parse at all. A results list stored under the configuration key reads as null, and a configuration stored under the results key reads as the empty list; `JSON.parse` would return the other value unchecked. An empty stored string also reads as nothing.
- `LocalStorage.ResultsIn`: the same abstraction as `LocalStorage.ConfigIn`.
- `exportResults` (localStorage.ts:58-70) builds a download link in the page; it is DOM work and is left out.
- `TestProgress` renders markup and computes `calculateTimeRemaining` from the clock. Only `formatTime` and `getStatusColor` are modelled.
- `TestProgress.FormatTime` takes a whole number of milliseconds. A fractional count below 1000 would print its fraction; this is not modelled.

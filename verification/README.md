# CIPulse Jest reporter — a Dafny model

This project models `CIPulseReporter`, a Jest reporter that collects one
record per test during a run and, when the run completes, posts a summary of
the run to the CIPulse collection API. The reporter is modelled as a
functional state machine: an immutable `Reporter` value (options,
accumulated `TestInfo` records, start and end clock readings) and pure
transition functions for construction, `onRunStart`, `onTestResult`,
`onRunComplete` and `getLastError`.

The outside world enters only as parameters:

- the clock (`Date.now()`) is an integer argument of the start and completion hooks;
- `process.env` is a `map<string, string>` argument of the completion hook;
- the HTTP call is described by the `Request` it is given (URL, headers, body),
  and its result is an `Outcome` argument (`Ok` or `Err`).

Modules, leaves first:

- `JsValues` (js_values.dfy): `Option`, `Result`, JavaScript truthiness of
  `string | undefined`, and the `||` operator as the reporter uses it.
- `Shapes` (shapes.dfy): the options, the stored `TestInfo` record, and the
  fields read from Jest's per-test, per-file and aggregate results.
- `Accumulator` (accumulator.dfy): how one file-level result becomes records,
  and what a sequence of file-level results contributes in total.
- `SummaryBuilder` (summary_builder.dfy): the summary object and the
  option-else-environment resolution of its identity fields.
- `Transmitter` (transmitter.dfy): target URL, headers and request.
- `Reporter` (reporter.dfy): the lifecycle and the properties of whole runs.
- `Scenarios` (scenarios.dfy): concrete runs worked through the model.

Behaviour of `src/index.ts` worth noting:

- `failureMessages` is copied into every record, whatever the test's status.
- The summary carries no CI flag.
- `repositoryId` is taken from the options alone; no environment variable is consulted for it.
- `option || process.env.X` yields the variable's value as it is. An empty
  option with `X=""` set therefore gives a present, empty field, not an
  absent one (`Scenarios.EmptyEnvironmentValueIsKept`).
- Nothing orders the two clock readings. The duration is non-negative
  exactly when the supplied clock did not run backwards
  (`SummaryBuilder.DurationNonNegativeIffMonotonic`).
- A missing or empty API key makes construction throw (`Reporter.New`
  returns `Failure`). Every transition keeps the options, so, as long as the
  caller does not mutate the options object after construction (see
  "Left out"), every request carries `Bearer` followed by the non-empty key
  (`Reporter.TransitionsKeepValid`, `Reporter.RunAuthorizes`).

## Model

| member | source | states |
|---|---|---|
| `JsValues.OrTruthy` | src/index.ts:94-98 | `a \|\| b` is truthy exactly when `a` or `b` is truthy |
| `JsValues.OrPicksAnOperand` | src/index.ts:94-98 | `a \|\| b` is always one of its operands. It is undefined only when `a` is falsy and `b` is undefined |
| `JsValues.OrZeroKeepsIntegers` | src/index.ts:69 | `duration \|\| 0` is the reported integer duration when there is one, else 0 |
| `Accumulator.ToTestInfo` | src/index.ts:66-73 | a record copies title, full name, status and failure messages from the individual result. It takes the file's path, and the reported duration or 0 when absent |
| `Accumulator.RecordsFrom` | src/index.ts:65-74 | visiting the individual results pushes exactly one record per result, the i-th record built from the i-th result |
| `Accumulator.RecordsOf` | src/index.ts:64-75 | a file contributes one record per individual result, in order, all sharing the file's path. It contributes none when its result list is missing |
| `Accumulator.RecordsOfAllLength` | src/index.ts:64-75 | the records of a sequence of files number exactly the sum of their individual-result counts |
| `Accumulator.RecordsOfAllAppend` | src/index.ts:64-75 | the records of two consecutive batches of files are the first batch's records followed by the second's |
| `SummaryBuilder.Resolve` | src/index.ts:94-98 | a non-empty option wins. Otherwise the environment variable's value is used when it is set. The field is absent exactly when the option is falsy and the variable unset |
| `SummaryBuilder.BuildSummary` | src/index.ts:85-100 | the summary holds the records verbatim and the runner's four counts unchanged. Its duration is end minus start, `repositoryId` is the option alone, and the five identity fields are resolved from option then `PROJECT_NAME`, `GIT_COMMIT`, `GIT_BRANCH`, `BUILD_NUMBER`, `BUILD_URL` |
| `SummaryBuilder.SetOptionsShadowEnvironment` | src/index.ts:94-98 | with all five identity options non-empty, the summary is the same under any two environments |
| `SummaryBuilder.RepositoryIdIgnoresEnvironment` | src/index.ts:93 | the repository id does not depend on the environment |
| `SummaryBuilder.CountsIgnoreRecords` | src/index.ts:86-89 | the passed/failed/pending/total counts are the same whatever records were accumulated. They are not recomputed from the records |
| `SummaryBuilder.DurationNonNegativeIffMonotonic` | src/index.ts:90 | the summary's duration is non-negative exactly when the end clock reading is not before the start reading |
| `Transmitter.TargetUrl` | src/index.ts:102 | the target is the `apiUrl` option when non-empty, else the fixed default endpoint. It is never empty |
| `Transmitter.Authorization` | src/index.ts:109 | the Authorization value is `Bearer ` followed by the API key |
| `Transmitter.BuildRequest` | src/index.ts:106-111 | the request goes to the target URL with the summary as body, a JSON content type and the bearer authorization |
| `Transmitter.AuthorizationInjective` | src/index.ts:109 | two keys give the same Authorization value exactly when they are equal |
| `Reporter.New` | src/index.ts:39-48 | construction succeeds exactly when options are given and the API key is non-empty. Otherwise it fails with the missing-key message. A constructed reporter holds the options, no records and zero timestamps |
| `Reporter.OnRunStart` | src/index.ts:50-57 | run start empties the records and sets the start time to the clock reading. Options and end time are unchanged |
| `Reporter.OnTestResult` | src/index.ts:59-76 | the old records are kept as a prefix, followed by exactly the file's records. A file with no individual results leaves the state unchanged. Options and timestamps are unchanged |
| `Reporter.OnTestResultAppends` | src/index.ts:64-75 | one file result appends exactly the file's records to the accumulator |
| `Reporter.OnRunComplete` | src/index.ts:78-117 | completion sets the end time and keeps records, options and start time. It hands over one request: to the target URL, with the built summary and the bearer header. It returns a completion whatever the transmitter's outcome |
| `Reporter.GetLastError` | src/index.ts:119-121 | no error is ever reported |
| `Reporter.IngestKeepsSettings` | src/index.ts:59-76 | any number of file results leave the options and both timestamps unchanged |
| `Reporter.IngestAppends` | src/index.ts:64-75 | after any number of file results, the accumulator is the old one followed by every file's records in arrival order |
| `Reporter.IngestKeepsEarlierRecords` | src/index.ts:64-75 | records held before further file results remain a prefix of the accumulator |
| `Reporter.IngestSplits` | src/index.ts:64-75 | reporting files in two batches gives the same state as reporting them all at once |
| `Reporter.RestartDiscardsEarlierRecords` | src/index.ts:54-55 | a run start after any file results gives the same state as a run start without them, so no record of an earlier run survives |
| `Reporter.RunSummaryHoldsEveryRecord` | src/index.ts:82-99 | over a run (start, files, completion) the summary's tests are exactly the files' records. Their number is the sum of the individual-result counts, and the duration is end minus start |
| `Reporter.TransitionsKeepValid` | src/index.ts:43-47 | starts, file results, any number of file results and completions all keep a valid reporter valid, and keep its API key |
| `Reporter.RunAuthorizes` | src/index.ts:106-110 | any run of a valid reporter sends `Bearer ` followed by its own non-empty key, and leaves the reporter valid with the same options for the next run |
| `Reporter.ConstructedReporterAuthorizes` | src/index.ts:45-47 | a constructed reporter has a non-empty key, and its first run sends `Bearer ` followed by that key |
| `Reporter.SecondRunAuthorizes` | src/index.ts:106-110 | two consecutive runs of a constructed reporter both send `Bearer ` followed by the key it was constructed with |
| `Reporter.DeliveryErrorIsContained` | src/index.ts:84-116 | a delivery error yields the same state and request as a success, and the error query still reports none |
| `Scenarios.TwoTestRun` | src/index.ts:64-99 | a run with one passing test and one failing test, from 0 to 100, yields counts 1/1/0/2 and duration 100. The two records keep arrival order, durations and messages, and go to the default URL with `Bearer key` |
| `Scenarios.EmptyEnvironmentValueIsKept` | src/index.ts:94 | an empty option falls through to the environment. An empty variable value is kept as present, while an unset variable gives an absent field |

## Left out

- The HTTP call itself (axios): only the request handed to it is modelled. Its
  outcome is a parameter that affects nothing observable except log output.
- Console output (`console.log`, `console.error`): logging only.
- `Date.now()`: the clock readings are parameters.
- ISO-8601 rendering of the timestamps (`toISOString`): the summary keeps
  epoch milliseconds. The `RangeError` that rendering raises for out-of-range
  time values is not modelled. That error would also be caught, and no request
  is then sent; the model always produces a request.
- Mutation of the options object after construction: the source keeps the
  caller's object by reference and reads it again at every completion, so a
  caller that clears `apiKey` later would make it send `Bearer ` or
  `Bearer undefined`. The model treats the options as a value fixed at
  construction.
- JSON serialization of the summary. Undefined fields are dropped by
  serialization; the model keeps them as `None`.
- Jest's `Test`, `TestContext`, `AggregatedResult`, `Config` and
  `ReporterOnStartOptions` shapes are reduced to the fields read. The
  ignored hook arguments (global config, contexts, start options, aggregate at
  start and per file) are not modelled.
- The status cast performs no validation. `Status` has exactly four values,
  which is an assumption about the runner.
- Durations are integers. A `NaN` duration, which `|| 0` would also map to 0,
  is not modelled.
- The promise returned by `onRunComplete` and its scheduling are not
  modelled: there is one awaited call and no concurrency.

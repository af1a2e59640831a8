/**
 The data shapes the reporter reads and writes: its options, the record it
 stores per test, and the few fields it reads from the test runner's
 per-test, per-file and aggregate results.
 */
module Shapes {
  import opened JsValues

  /** The outcome of one test. The runner's value is cast, not checked, into
      these four; the model takes that as an assumption about the runner. */
  datatype Status = Passed | Failed | Pending | Skipped

  /** The fields of one individual test result that the reporter reads. */
  datatype AssertionResult = AssertionResult(
    title: string,
    fullName: string,
    status: Status,
    duration: Option<int>,
    failureMessages: seq<string>
  )

  /** The fields of one file-level test result that the reporter reads; the list
      of individual results may be missing altogether. */
  datatype FileResult = FileResult(
    testFilePath: string,
    testResults: Option<seq<AssertionResult>>
  )

  /** The run-level counts the runner hands to the completion hook. */
  datatype AggregatedResult = AggregatedResult(
    numPassedTests: nat,
    numFailedTests: nat,
    numPendingTests: nat,
    numTotalTests: nat
  )

  /** One stored test record (`TestInfo`). */
  datatype TestInfo = TestInfo(
    title: string,
    status: Status,
    duration: int,
    failureMessages: seq<string>,
    filePath: string,
    fullName: string
  )

  /** The reporter's options (`CIPulseReporterOptions`); every field may be
      undefined at run time, the API key included. */
  datatype Options = Options(
    apiKey: JsString,
    apiUrl: JsString,
    repositoryId: JsString,
    projectName: JsString,
    commitSha: JsString,
    branch: JsString,
    buildNumber: JsString,
    buildUrl: JsString
  )

  /** The options object `{}`: every field undefined. */
  const NoOptions := Options(None, None, None, None, None, None, None, None)

  /** A snapshot of the process environment. */
  type Env = map<string, string>
}

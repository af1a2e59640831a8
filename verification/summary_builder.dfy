/**
 The run summary sent at completion: the runner's counts, the run's timing,
 identity fields resolved from the options and the environment, and the
 accumulated test records.
 */
module SummaryBuilder {
  import opened JsValues
  import opened Shapes

  /** Environment variables consulted when the matching option is falsy. */
  const ProjectNameVar := "PROJECT_NAME"
  const CommitShaVar := "GIT_COMMIT"
  const BranchVar := "GIT_BRANCH"
  const BuildNumberVar := "BUILD_NUMBER"
  const BuildUrlVar := "BUILD_URL"

  /** The summary object. Timestamps are epoch milliseconds (their ISO-8601
      rendering is not modelled). */
  datatype RunSummary = RunSummary(
    success: nat,
    failed: nat,
    pending: nat,
    total: nat,
    duration: int,
    startTime: int,
    endTime: int,
    repositoryId: JsString,
    projectName: JsString,
    commitSha: JsString,
    branch: JsString,
    buildNumber: JsString,
    buildUrl: JsString,
    tests: seq<TestInfo>
  )

  /** `process.env[name]`: undefined when the variable is not set. */
  function EnvVar(env: Env, name: string): JsString {
    if name in env then Some(env[name]) else None
  }

  /** `option || process.env[name]`: a non-empty option wins; otherwise the
      variable's value is taken as it is; otherwise the field is absent. */
  function Resolve(option: JsString, env: Env, name: string): (v: JsString)
    ensures Truthy(option) ==> v == option
    ensures !Truthy(option) && name in env ==> v == Some(env[name])
    ensures v.None? <==> !Truthy(option) && name !in env
  {
    Or(option, EnvVar(env, name))
  }

  /** Builds the summary of a run from the accumulated records, the two clock
      readings, the runner's counts, the options and the environment. */
  function BuildSummary(
    tests: seq<TestInfo>, startTime: int, endTime: int,
    results: AggregatedResult, options: Options, env: Env
  ): (s: RunSummary)
    ensures s.tests == tests
    ensures s.startTime == startTime && s.endTime == endTime
    ensures s.startTime + s.duration == s.endTime
    ensures s.success == results.numPassedTests && s.failed == results.numFailedTests
    ensures s.pending == results.numPendingTests && s.total == results.numTotalTests
    ensures s.repositoryId == options.repositoryId
    ensures s.projectName == Resolve(options.projectName, env, ProjectNameVar)
    ensures s.commitSha == Resolve(options.commitSha, env, CommitShaVar)
    ensures s.branch == Resolve(options.branch, env, BranchVar)
    ensures s.buildNumber == Resolve(options.buildNumber, env, BuildNumberVar)
    ensures s.buildUrl == Resolve(options.buildUrl, env, BuildUrlVar)
  {
    RunSummary(
      success := results.numPassedTests,
      failed := results.numFailedTests,
      pending := results.numPendingTests,
      total := results.numTotalTests,
      duration := endTime - startTime,
      startTime := startTime,
      endTime := endTime,
      repositoryId := options.repositoryId,
      projectName := Or(options.projectName, EnvVar(env, ProjectNameVar)),
      commitSha := Or(options.commitSha, EnvVar(env, CommitShaVar)),
      branch := Or(options.branch, EnvVar(env, BranchVar)),
      buildNumber := Or(options.buildNumber, EnvVar(env, BuildNumberVar)),
      buildUrl := Or(options.buildUrl, EnvVar(env, BuildUrlVar)),
      tests := tests
    )
  }

  /** All five identity options set: the environment has no influence on the summary. */
  lemma SetOptionsShadowEnvironment(
    tests: seq<TestInfo>, startTime: int, endTime: int,
    results: AggregatedResult, options: Options, env1: Env, env2: Env
  )
    requires Truthy(options.projectName) && Truthy(options.commitSha) && Truthy(options.branch)
    requires Truthy(options.buildNumber) && Truthy(options.buildUrl)
    ensures BuildSummary(tests, startTime, endTime, results, options, env1)
         == BuildSummary(tests, startTime, endTime, results, options, env2)
  {
  }

  /** The repository id has no environment fallback: it is the option, whatever the environment. */
  lemma RepositoryIdIgnoresEnvironment(
    tests: seq<TestInfo>, startTime: int, endTime: int,
    results: AggregatedResult, options: Options, env1: Env, env2: Env
  )
    ensures BuildSummary(tests, startTime, endTime, results, options, env1).repositoryId
         == BuildSummary(tests, startTime, endTime, results, options, env2).repositoryId
  {
  }

  /** The counts are the runner's, never recomputed from the records. */
  lemma CountsIgnoreRecords(
    tests1: seq<TestInfo>, tests2: seq<TestInfo>, startTime: int, endTime: int,
    results: AggregatedResult, options: Options, env: Env
  )
    ensures var s1 := BuildSummary(tests1, startTime, endTime, results, options, env);
            var s2 := BuildSummary(tests2, startTime, endTime, results, options, env);
            s1.success == s2.success && s1.failed == s2.failed
            && s1.pending == s2.pending && s1.total == s2.total
  {
  }

  /** The duration is non-negative exactly when the clock did not run backwards. */
  lemma DurationNonNegativeIffMonotonic(
    tests: seq<TestInfo>, startTime: int, endTime: int,
    results: AggregatedResult, options: Options, env: Env
  )
    ensures BuildSummary(tests, startTime, endTime, results, options, env).duration >= 0
        <==> startTime <= endTime
  {
  }
}

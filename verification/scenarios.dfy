/**
 Concrete runs of the reporter, worked through the model.
 */
module Scenarios {
  import opened JsValues
  import opened Shapes
  import opened Accumulator
  import opened SummaryBuilder
  import opened Transmitter
  import opened Reporter

  const KeyOnly := NoOptions.(apiKey := Some("key"))

  const Adds := AssertionResult("adds numbers", "math adds numbers", Passed, Some(12), [])
  const Subtracts := AssertionResult("subtracts numbers", "math subtracts numbers", Failed, Some(5), ["expected 1"])
  const MathFile := FileResult("/repo/math.test.js", Some([Adds, Subtracts]))

  /** A run started at 0 in which one file reports a passing and a failing test,
      completed at 100: the counts come from the runner, the duration is 100, and
      the two records appear in arrival order with their durations and messages. */
  lemma TwoTestRun(env: Env, outcome: Outcome)
    ensures New(Some(KeyOnly)).Success?
    ensures var r := OnTestResult(OnRunStart(New(Some(KeyOnly)).value, 0), MathFile);
            var c := OnRunComplete(r, 100, AggregatedResult(1, 1, 0, 2), env, outcome);
            var s := c.request.body;
            && s.success == 1 && s.failed == 1 && s.pending == 0 && s.total == 2
            && s.duration == 100
            && s.tests == [
                 TestInfo("adds numbers", Passed, 12, [], "/repo/math.test.js", "math adds numbers"),
                 TestInfo("subtracts numbers", Failed, 5, ["expected 1"], "/repo/math.test.js", "math subtracts numbers")
               ]
            && c.request.url == DefaultApiUrl
            && c.request.headers.authorization == "Bearer key"
  {
    var r := OnTestResult(OnRunStart(New(Some(KeyOnly)).value, 0), MathFile);
    assert r.testResults == RecordsOf(MathFile);
  }

  /** An empty option does not stop the fallback, and an empty environment value
      is passed through as it is: the field is then present and empty, not absent. */
  lemma EmptyEnvironmentValueIsKept()
    ensures Resolve(Some(""), map[ProjectNameVar := ""], ProjectNameVar) == Some("")
    ensures Resolve(Some(""), map[], ProjectNameVar) == None
  {
  }
}

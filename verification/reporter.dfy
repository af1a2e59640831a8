/**
 The reporter's lifecycle as a functional state machine: construction, run
 start, per-file result ingestion, run completion and the error query. The
 clock, the environment and the transmitter's outcome are parameters.
 */
module Reporter {
  import opened JsValues
  import opened Shapes
  import opened Accumulator
  import opened SummaryBuilder
  import opened Transmitter

  /** The reporter's state: its options, the accumulated records and the two clock readings. */
  datatype Reporter = Reporter(
    options: Options,
    testResults: seq<TestInfo>,
    startTime: int,
    endTime: int
  )

  /** What every constructed reporter satisfies: a non-empty API key. */
  predicate Valid(r: Reporter) {
    Truthy(r.options.apiKey)
  }

  /** The message of the error construction throws. */
  const MissingApiKey := "CIPulseReporter requires an apiKey option"

  /** Construction: `options || {}`, then a throw unless the API key is truthy. */
  function New(options: Option<Options>): (res: Result<Reporter, string>)
    ensures res.Success? <==> options.Some? && Truthy(options.value.apiKey)
    ensures res.Success? ==> Valid(res.value) && res.value.options == options.value
    ensures res.Success? ==> res.value.testResults == [] && res.value.startTime == 0 && res.value.endTime == 0
    ensures res.Failure? ==> res.error == MissingApiKey
  {
    var opts := options.GetOr(NoOptions);
    if !Truthy(opts.apiKey) then
      Failure(MissingApiKey)
    else
      Success(Reporter(opts, [], 0, 0))
  }

  /** Run start at clock reading `now`: stamps the start time and clears the records. */
  function OnRunStart(r: Reporter, now: int): (r': Reporter)
    ensures r'.testResults == [] && r'.startTime == now
    ensures r'.options == r.options && r'.endTime == r.endTime
  {
    r.(startTime := now, testResults := [])
  }

  /** One file-level result: one record per individual result is appended, in
      order, after the records already held, which stay as they were. */
  function OnTestResult(r: Reporter, f: FileResult): (r': Reporter)
    ensures r'.options == r.options && r'.startTime == r.startTime && r'.endTime == r.endTime
    ensures |r'.testResults| == |r.testResults| + |Individuals(f)|
    ensures r'.testResults[..|r.testResults|] == r.testResults
    ensures r'.testResults[|r.testResults|..] == RecordsOf(f)
    ensures Individuals(f) == [] ==> r' == r
  {
    if f.testResults.Some? then r.(testResults := r.testResults + RecordsOf(f)) else r
  }

  /** What completion leaves behind: the new state and the one request handed to the transmitter. */
  datatype Completion = Completion(reporter: Reporter, request: Request)

  /** Run completion at clock reading `now`. The transmitter's `outcome`, success
      or error, is caught: it affects nothing the caller can observe, and the
      result type has no failure case. */
  function OnRunComplete(
    r: Reporter, now: int, results: AggregatedResult, env: Env, outcome: Outcome
  ): (c: Completion)
    ensures c.reporter.endTime == now
    ensures c.reporter.options == r.options && c.reporter.startTime == r.startTime
    ensures c.reporter.testResults == r.testResults
    ensures c.request.body == BuildSummary(r.testResults, r.startTime, now, results, r.options, env)
    ensures c.request.url == TargetUrl(r.options)
    ensures c.request.headers == Headers(JsonContentType, Authorization(r.options.apiKey))
  {
    var r' := r.(endTime := now);
    var summary := BuildSummary(r'.testResults, r'.startTime, r'.endTime, results, r'.options, env);
    Completion(r', BuildRequest(r'.options, summary))
  }

  /** The error reported to the runner: never any. */
  function GetLastError(r: Reporter): (e: Option<string>)
    ensures e.None?
  {
    None
  }

  /** The state after the runner reports `files` one after the other. */
  function Ingest(r: Reporter, files: seq<FileResult>): Reporter
    decreases |files|
  {
    if files == [] then r else Ingest(OnTestResult(r, files[0]), files[1..])
  }

  /** One file-level result appends exactly the file's records. */
  lemma OnTestResultAppends(r: Reporter, f: FileResult)
    ensures OnTestResult(r, f).testResults == r.testResults + RecordsOf(f)
  {
    if f.testResults.None? {
      assert RecordsOf(f) == [];
      assert r.testResults + [] == r.testResults;
    }
  }

  /** Ingesting files leaves the options and both clock readings as they were. */
  lemma {:induction false} IngestKeepsSettings(r: Reporter, files: seq<FileResult>)
    ensures Ingest(r, files).options == r.options
    ensures Ingest(r, files).startTime == r.startTime && Ingest(r, files).endTime == r.endTime
    decreases |files|
  {
    if files != [] {
      IngestKeepsSettings(OnTestResult(r, files[0]), files[1..]);
    }
  }

  /** Ingesting a non-empty sequence of files is ingesting its first file, then the rest. */
  lemma IngestUnfolds(r: Reporter, files: seq<FileResult>)
    requires files != []
    ensures Ingest(r, files) == Ingest(OnTestResult(r, files[0]), files[1..])
  {
  }

  /** The inductive step of IngestAppends: what holds of the files after the first
      holds of all of them. */
  lemma IngestAppendsStep(r: Reporter, files: seq<FileResult>)
    requires files != []
    requires Ingest(OnTestResult(r, files[0]), files[1..]).testResults
          == OnTestResult(r, files[0]).testResults + RecordsOfAll(files[1..])
    ensures Ingest(r, files).testResults == r.testResults + RecordsOfAll(files)
  {
    var head, tail := RecordsOf(files[0]), RecordsOfAll(files[1..]);
    IngestUnfolds(r, files);
    OnTestResultAppends(r, files[0]);
    RecordsOfAllUnfolds(files);
    ConcatAssociates(r.testResults, head, tail);
  }

  /** Ingesting files appends exactly their records, in order. */
  lemma {:induction false} IngestAppends(r: Reporter, files: seq<FileResult>)
    ensures Ingest(r, files).testResults == r.testResults + RecordsOfAll(files)
    decreases |files|
  {
    if files == [] {
      assert r.testResults + [] == r.testResults;
    } else {
      IngestAppends(OnTestResult(r, files[0]), files[1..]);
      IngestAppendsStep(r, files);
    }
  }

  /** Records already held are never changed by later file results. */
  lemma IngestKeepsEarlierRecords(r: Reporter, files: seq<FileResult>)
    ensures r.testResults <= Ingest(r, files).testResults
  {
    IngestAppends(r, files);
  }

  /** A second run start, after any number of file results, gives the same
      state as a single start: nothing from the earlier run survives. */
  lemma RestartDiscardsEarlierRecords(r: Reporter, files: seq<FileResult>, now: int)
    ensures OnRunStart(Ingest(r, files), now) == OnRunStart(r, now)
  {
    IngestKeepsSettings(r, files);
  }

  /** Over a whole run (start at `t0`, the files in order, completion at `t1`) the
      summary sent holds exactly the records of those files, one per individual
      result, and the duration between the two clock readings. */
  lemma RunSummaryHoldsEveryRecord(
    r: Reporter, t0: int, files: seq<FileResult>, t1: int,
    results: AggregatedResult, env: Env, outcome: Outcome
  )
    ensures var s := OnRunComplete(Ingest(OnRunStart(r, t0), files), t1, results, env, outcome).request.body;
            && s.tests == RecordsOfAll(files)
            && |s.tests| == CountAll(files)
            && s.duration == t1 - t0
  {
    IngestAppends(OnRunStart(r, t0), files);
    IngestKeepsSettings(OnRunStart(r, t0), files);
    RecordsOfAllLength(files);
  }

  /** Ingesting in two batches is the same as ingesting all files at once. */
  lemma {:induction false} IngestSplits(r: Reporter, files: seq<FileResult>, more: seq<FileResult>)
    ensures Ingest(r, files + more) == Ingest(Ingest(r, files), more)
    decreases |files|
  {
    if files == [] {
      assert files + more == more;
    } else {
      assert (files + more)[1..] == files[1..] + more;
      IngestSplits(OnTestResult(r, files[0]), files[1..], more);
    }
  }

  /** Every transition keeps the reporter valid: the non-empty API key it was
      constructed with stays in place across starts, file results and completions. */
  lemma TransitionsKeepValid(
    r: Reporter, now: int, f: FileResult, files: seq<FileResult>,
    results: AggregatedResult, env: Env, outcome: Outcome
  )
    requires Valid(r)
    ensures Valid(OnRunStart(r, now)) && Valid(OnTestResult(r, f)) && Valid(Ingest(r, files))
    ensures Valid(OnRunComplete(r, now, results, env, outcome).reporter)
    ensures Ingest(r, files).options.apiKey == r.options.apiKey
  {
    IngestKeepsSettings(r, files);
  }

  /** A valid reporter, in whatever run it is, sends `Bearer <key>` with its own
      non-empty key, and stays valid for the next run. With `New`, which only
      yields valid reporters, and TransitionsKeepValid, this covers every run of
      every constructed reporter. */
  lemma RunAuthorizes(
    r: Reporter, t0: int, files: seq<FileResult>, t1: int,
    results: AggregatedResult, env: Env, outcome: Outcome
  )
    requires Valid(r)
    ensures r.options.apiKey.Some? && r.options.apiKey.value != ""
    ensures var c := OnRunComplete(Ingest(OnRunStart(r, t0), files), t1, results, env, outcome);
            && c.request.headers.authorization == BearerPrefix + r.options.apiKey.value
            && Valid(c.reporter) && c.reporter.options == r.options
  {
    IngestKeepsSettings(OnRunStart(r, t0), files);
  }

  /** The first run of a constructed reporter sends `Bearer <key>` with the
      non-empty key it was constructed with. */
  lemma ConstructedReporterAuthorizes(
    options: Options, t0: int, files: seq<FileResult>, t1: int,
    results: AggregatedResult, env: Env, outcome: Outcome
  )
    requires New(Some(options)).Success?
    ensures options.apiKey.Some? && options.apiKey.value != ""
    ensures var r := New(Some(options)).value;
            OnRunComplete(Ingest(OnRunStart(r, t0), files), t1, results, env, outcome).request.headers.authorization
            == BearerPrefix + options.apiKey.value
  {
    RunAuthorizes(New(Some(options)).value, t0, files, t1, results, env, outcome);
  }

  /** Two consecutive runs of a constructed reporter both send `Bearer <key>`
      with the key it was constructed with. */
  lemma SecondRunAuthorizes(
    options: Options, t0: int, files: seq<FileResult>, t1: int,
    t2: int, more: seq<FileResult>, t3: int,
    results: AggregatedResult, env: Env, outcome: Outcome
  )
    requires New(Some(options)).Success?
    ensures var c1 := OnRunComplete(Ingest(OnRunStart(New(Some(options)).value, t0), files), t1, results, env, outcome);
            var c2 := OnRunComplete(Ingest(OnRunStart(c1.reporter, t2), more), t3, results, env, outcome);
            && c1.request.headers.authorization == BearerPrefix + options.apiKey.value
            && c2.request.headers.authorization == BearerPrefix + options.apiKey.value
  {
    var r := New(Some(options)).value;
    RunAuthorizes(r, t0, files, t1, results, env, outcome);
    var c1 := OnRunComplete(Ingest(OnRunStart(r, t0), files), t1, results, env, outcome);
    RunAuthorizes(c1.reporter, t2, more, t3, results, env, outcome);
  }

  /** A delivery error leaves the same state and the same request as a success,
      and the runner is still told there was no error. */
  lemma DeliveryErrorIsContained(
    r: Reporter, now: int, results: AggregatedResult, env: Env, error: string
  )
    ensures OnRunComplete(r, now, results, env, Err(error)) == OnRunComplete(r, now, results, env, Ok)
    ensures GetLastError(OnRunComplete(r, now, results, env, Err(error)).reporter) == None
  {
  }
}

/** The JUnit report of voiptest/report/junit.py as an abstract tree: one suite per test file,
    one test case per run, error and failure markers, and the counters on suites and root. */
module JUnit {
  import opened Wrappers
  import opened Config
  import opened Sipp
  import opened Runner

  // ---------------------------------------------------------------------------
  // The report's input: result records as dictionaries, with keys that may be missing
  // ---------------------------------------------------------------------------

  /** One run's record. A `None` field is a missing key. `actual` is `Some(None)` for the
      empty observation `{}` that exception results carry. */
  datatype RunEntry = RunEntry(
    name: Option<string>,
    passed: Option<bool>,
    config: Option<VoipTestConfig>,
    actual: Option<Option<Actual>>,
    error: Option<string>)

  /** One file's record; `error` is present for a file that could not be run at all. */
  datatype FileEntry = FileEntry(name: string, runs: Option<seq<RunEntry>>, error: Option<string>)

  /** A test result as a record: every key but `error` is present. */
  function EntryOf(t: TestResult): RunEntry {
    RunEntry(Some(t.name), Some(t.passed), Some(t.config), Some(t.actual), t.error)
  }

  function EntriesOf(runs: seq<TestResult>): seq<RunEntry> {
    seq(|runs|, i requires 0 <= i < |runs| => EntryOf(runs[i]))
  }

  /** A file that ran, as a record. */
  function FileEntryOf(f: FileResult): FileEntry {
    FileEntry(f.name, Some(EntriesOf(f.runs)), None)
  }

  /** A file that could not be loaded, as the command line records it: no runs, the error text. */
  function FileErrorEntry(name: string, message: string): FileEntry {
    FileEntry(name, Some([]), Some(message))
  }

  // ---------------------------------------------------------------------------
  // The report tree
  // ---------------------------------------------------------------------------

  /** A detail line of a failure's text or of a test case's standard output. The text of a
      line is the dictionary rendering of the value it carries. */
  datatype Line =
    | TestLine(name: string)
    | ConfigLine(config: VoipTestConfig)
    | ExpectedLine(expectation: Expect)
    | ActualLine(actual: Option<Actual>)

  datatype Marker =
    | NoMarker
    | ErrorMarker(message: string, text: string)
    | FailureMarker(message: string, details: seq<Line>)

  /** `systemOut` is `None` when the test case has no system-out element. */
  datatype TestCase = TestCase(name: string, classname: string, marker: Marker, systemOut: Option<seq<Line>>)

  datatype TestSuite = TestSuite(name: string, tests: nat, failures: nat, errors: nat, cases: seq<TestCase>)

  datatype TestSuites = TestSuites(tests: nat, failures: nat, errors: nat, suites: seq<TestSuite>)

  const UNKNOWN_NAME: string := "unknown"
  const ROOT_CLASSNAME: string := "voiptest"
  const FILE_ERROR_MESSAGE: string := "Test file error"
  const EXECUTION_ERROR_MESSAGE: string := "Test execution error"
  const ASSERTION_FAILED_MESSAGE: string := "Test assertion failed"

  // ---------------------------------------------------------------------------
  // Counters and the tree as functions
  // ---------------------------------------------------------------------------

  /** A run whose `passed` is false or missing. */
  predicate RunFailed(run: RunEntry) {
    !run.passed.GetOr(false)
  }

  function RunsIn(f: FileEntry): seq<RunEntry> {
    f.runs.GetOr([])
  }

  function FailuresIn(runs: seq<RunEntry>): nat {
    if runs == [] then 0
    else FailuresIn(runs[..|runs| - 1]) + (if RunFailed(runs[|runs| - 1]) then 1 else 0)
  }

  function TotalTests(files: seq<FileEntry>): nat {
    if files == [] then 0
    else TotalTests(files[..|files| - 1]) + |RunsIn(files[|files| - 1])|
  }

  function TotalFailures(files: seq<FileEntry>): nat {
    if files == [] then 0
    else TotalFailures(files[..|files| - 1]) + FailuresIn(RunsIn(files[|files| - 1]))
  }

  function TotalErrors(files: seq<FileEntry>): nat {
    if files == [] then 0
    else TotalErrors(files[..|files| - 1]) + (if files[|files| - 1].error.Some? then 1 else 0)
  }

  function FailureDetails(run: RunEntry): seq<Line> {
    (if run.config.Some? then [ExpectedLine(run.config.value.expectation)] else [])
    + (if run.actual.Some? then [ActualLine(run.actual.value)] else [])
  }

  function MarkerFor(run: RunEntry): Marker {
    if !RunFailed(run) then NoMarker
    else if run.error.Some? then ErrorMarker(EXECUTION_ERROR_MESSAGE, run.error.value)
    else FailureMarker(ASSERTION_FAILED_MESSAGE, FailureDetails(run))
  }

  function OutputFor(run: RunEntry): seq<Line> {
    [TestLine(run.name.GetOr(UNKNOWN_NAME))]
    + (if run.config.Some? then [ConfigLine(run.config.value)] else [])
    + (if run.actual.Some? then [ActualLine(run.actual.value)] else [])
  }

  /** The test case of one run of the file `fileName`. */
  function RunCase(fileName: string, run: RunEntry): TestCase {
    TestCase(run.name.GetOr(UNKNOWN_NAME), fileName, MarkerFor(run), Some(OutputFor(run)))
  }

  /** The single test case standing for a file that could not be run. */
  function FileErrorCase(fileName: string, message: string): TestCase {
    TestCase(fileName, ROOT_CLASSNAME, ErrorMarker(FILE_ERROR_MESSAGE, message), None)
  }

  function CasesFor(fileName: string, runs: seq<RunEntry>): seq<TestCase> {
    if runs == [] then []
    else CasesFor(fileName, runs[..|runs| - 1]) + [RunCase(fileName, runs[|runs| - 1])]
  }

  function SuiteFor(f: FileEntry): TestSuite {
    var runs := RunsIn(f);
    if f.error.Some? then TestSuite(f.name, |runs|, FailuresIn(runs), 1, [FileErrorCase(f.name, f.error.value)])
    else TestSuite(f.name, |runs|, FailuresIn(runs), 0, CasesFor(f.name, runs))
  }

  function SuitesFor(files: seq<FileEntry>): seq<TestSuite> {
    if files == [] then []
    else SuitesFor(files[..|files| - 1]) + [SuiteFor(files[|files| - 1])]
  }

  function ReportFor(files: seq<FileEntry>): TestSuites {
    TestSuites(TotalTests(files), TotalFailures(files), TotalErrors(files), SuitesFor(files))
  }

  // ---------------------------------------------------------------------------
  // Building the report
  // ---------------------------------------------------------------------------

  /** The report as the source builds it: the root counters first, then one suite per file
      and, inside a file that ran, one test case per run. */
  method WriteJUnit(files: seq<FileEntry>) returns (report: TestSuites)
    ensures report == ReportFor(files)
  {
    var suites: seq<TestSuite> := [];
    var i := 0;
    while i < |files|
      invariant 0 <= i <= |files|
      invariant suites == SuitesFor(files[..i])
    {
      var f := files[i];
      var runs := RunsIn(f);
      var suite: TestSuite;
      if f.error.Some? {
        suite := TestSuite(f.name, |runs|, FailuresIn(runs), 1, [FileErrorCase(f.name, f.error.value)]);
      } else {
        var cases: seq<TestCase> := [];
        var j := 0;
        while j < |runs|
          invariant 0 <= j <= |runs|
          invariant cases == CasesFor(f.name, runs[..j])
        {
          assert runs[..j + 1][..j] == runs[..j];
          cases := cases + [RunCase(f.name, runs[j])];
          j := j + 1;
        }
        assert runs[..j] == runs;
        suite := TestSuite(f.name, |runs|, FailuresIn(runs), 0, cases);
      }
      assert files[..i + 1][..i] == files[..i];
      suites := suites + [suite];
      i := i + 1;
    }
    assert files[..i] == files;
    report := TestSuites(TotalTests(files), TotalFailures(files), TotalErrors(files), suites);
  }

  // ---------------------------------------------------------------------------
  // Properties of the report
  // ---------------------------------------------------------------------------

  function SumTests(suites: seq<TestSuite>): nat {
    if suites == [] then 0 else SumTests(suites[..|suites| - 1]) + suites[|suites| - 1].tests
  }

  function SumFailures(suites: seq<TestSuite>): nat {
    if suites == [] then 0 else SumFailures(suites[..|suites| - 1]) + suites[|suites| - 1].failures
  }

  function SumErrors(suites: seq<TestSuite>): nat {
    if suites == [] then 0 else SumErrors(suites[..|suites| - 1]) + suites[|suites| - 1].errors
  }

  /** One suite per file, in order, named after its file. */
  lemma {:induction false} SuitesFollowFiles(files: seq<FileEntry>)
    ensures |SuitesFor(files)| == |files|
    ensures forall i | 0 <= i < |files| :: SuitesFor(files)[i] == SuiteFor(files[i])
  {
    if files != [] {
      SuitesFollowFiles(files[..|files| - 1]);
    }
  }

  /** The root counters are the sums of the suite counters. */
  lemma {:induction false} RootCountsAreSuiteSums(files: seq<FileEntry>)
    ensures ReportFor(files).tests == SumTests(ReportFor(files).suites)
    ensures ReportFor(files).failures == SumFailures(ReportFor(files).suites)
    ensures ReportFor(files).errors == SumErrors(ReportFor(files).suites)
  {
    if files != [] {
      var init := files[..|files| - 1];
      RootCountsAreSuiteSums(init);
      var s := SuitesFor(files);
      assert s[..|s| - 1] == SuitesFor(init);
      assert s[|s| - 1] == SuiteFor(files[|files| - 1]);
    }
  }

  /** A failure count never exceeds the number of runs, and is zero exactly when every run
      passed. */
  lemma {:induction false} FailuresBounds(runs: seq<RunEntry>)
    ensures FailuresIn(runs) <= |runs|
    ensures FailuresIn(runs) == 0 <==> forall i | 0 <= i < |runs| :: !RunFailed(runs[i])
  {
    if runs != [] {
      var init := runs[..|runs| - 1];
      FailuresBounds(init);
      assert forall i | 0 <= i < |init| :: init[i] == runs[i];
    }
  }

  /** One test case per run, in order, classed under the file's name. */
  lemma {:induction false} CasesFollowRuns(fileName: string, runs: seq<RunEntry>)
    ensures |CasesFor(fileName, runs)| == |runs|
    ensures forall i | 0 <= i < |runs| :: CasesFor(fileName, runs)[i] == RunCase(fileName, runs[i])
  {
    if runs != [] {
      CasesFollowRuns(fileName, runs[..|runs| - 1]);
    }
  }

  function MarkedCount(cases: seq<TestCase>): nat {
    if cases == [] then 0
    else MarkedCount(cases[..|cases| - 1]) + (if cases[|cases| - 1].marker.NoMarker? then 0 else 1)
  }

  /** In a file that ran, exactly the failing runs carry a marker, so the markers counted are
      the suite's `failures`. */
  lemma {:induction false} MarkersCountFailures(fileName: string, runs: seq<RunEntry>)
    ensures MarkedCount(CasesFor(fileName, runs)) == FailuresIn(runs)
  {
    if runs != [] {
      MarkersCountFailures(fileName, runs[..|runs| - 1]);
      var cs := CasesFor(fileName, runs);
      assert cs[..|cs| - 1] == CasesFor(fileName, runs[..|runs| - 1]);
    }
  }

  /** A run's test case: its name or "unknown", no marker when it passed, an execution error
      marker when it failed with an error, an assertion failure marker otherwise, and always
      a standard output that starts with the test's name. */
  lemma RunCaseShape(fileName: string, run: RunEntry)
    ensures RunCase(fileName, run).name == (if run.name.Some? then run.name.value else UNKNOWN_NAME)
    ensures RunCase(fileName, run).classname == fileName
    ensures RunCase(fileName, run).marker.NoMarker? <==> run.passed == Some(true)
    ensures RunCase(fileName, run).marker.ErrorMarker? <==> RunFailed(run) && run.error.Some?
    ensures RunCase(fileName, run).marker.FailureMarker? <==> RunFailed(run) && run.error.None?
    ensures RunCase(fileName, run).systemOut.Some?
    ensures RunCase(fileName, run).systemOut.value[0] == TestLine(RunCase(fileName, run).name)
  {
  }

  /** A file that could not be run: `errors` is 1 and the suite holds exactly one test case,
      with an error marker carrying the file's error, whatever runs the record lists. */
  lemma FileErrorSuiteShape(f: FileEntry)
    requires f.error.Some?
    ensures SuiteFor(f).errors == 1
    ensures SuiteFor(f).cases == [TestCase(f.name, ROOT_CLASSNAME, ErrorMarker(FILE_ERROR_MESSAGE, f.error.value), None)]
    ensures SuiteFor(f).tests == |RunsIn(f)|
  {
  }

  /** A file error recorded by the command line adds one error and no test or failure. */
  lemma FileErrorCounts(files: seq<FileEntry>, name: string, message: string)
    ensures ReportFor(files + [FileErrorEntry(name, message)]).tests == ReportFor(files).tests
    ensures ReportFor(files + [FileErrorEntry(name, message)]).failures == ReportFor(files).failures
    ensures ReportFor(files + [FileErrorEntry(name, message)]).errors == ReportFor(files).errors + 1
  {
    var all := files + [FileErrorEntry(name, message)];
    assert all[..|all| - 1] == files;
  }

  // ---------------------------------------------------------------------------
  // The report of the runner's results
  // ---------------------------------------------------------------------------

  lemma {:induction false} EntriesFailIffRunsFail(runs: seq<TestResult>)
    ensures FailuresIn(EntriesOf(runs)) == 0 <==> AllPassed(runs)
    ensures |EntriesOf(runs)| == |runs|
  {
    var es := EntriesOf(runs);
    FailuresBounds(es);
    assert forall i | 0 <= i < |runs| :: (RunFailed(es[i]) <==> !runs[i].passed);
  }

  /** The suite of a file that ran counts no failure exactly when the file passed. */
  lemma SuitePassesIffFilePasses(name: string, cases: seq<VoipTestConfig>,
                                  engine: Engine)
    ensures var runs := RunsOf(cases, engine);
      var suite := SuiteFor(FileEntryOf(FileResult(name, AllPassed(runs), runs)));
      && suite.errors == 0
      && suite.tests == |cases|
      && (suite.failures == 0 <==> AllPassed(runs))
  {
    EntriesFailIffRunsFail(RunsOf(cases, engine));
  }

  /** No result of the runner gets an assertion failure marker: every failing result carries
      an error, so each failing run is reported as an execution error. */
  lemma {:induction false} ExplainedRunsGetNoFailureMarker(name: string, runs: seq<TestResult>)
    requires forall i | 0 <= i < |runs| :: Explained(runs[i])
    ensures forall c | c in CasesFor(name, EntriesOf(runs)) :: !c.marker.FailureMarker?
  {
    var es := EntriesOf(runs);
    CasesFollowRuns(name, es);
    forall c | c in CasesFor(name, es)
      ensures !c.marker.FailureMarker?
    {
      var i :| 0 <= i < |es| && CasesFor(name, es)[i] == c;
      assert es[i] == EntryOf(runs[i]);
    }
  }

  /** Combined with the engine: with SIPp results checked by the engine, a failing test case
      is always reported as "Test execution error" and never as "Test assertion failed". */
  lemma EngineFailuresAreExecutionErrors(name: string, cases: seq<VoipTestConfig>,
                                          engine: Engine)
    requires forall i: nat, c: VoipTestConfig | engine(i, c).Success? :: Explained(engine(i, c).value)
    ensures forall c | c in CasesFor(name, EntriesOf(RunsOf(cases, engine))) :: !c.marker.FailureMarker?
  {
    FileFailsIffSomeCaseFails(cases, engine);
    ExplainedRunsGetNoFailureMarker(name, RunsOf(cases, engine));
  }
}

/** The test runner of voiptest/runner.py: matrix expansion, running one case with its
    exceptions contained, and running all cases of one file with an AND over the verdicts. */
module Runner {
  import opened Wrappers
  import opened Config
  import opened Sipp

  // ---------------------------------------------------------------------------
  // Matrix expansion
  // ---------------------------------------------------------------------------

  function CaseName(name: string, destination: string): string {
    name + " (to=" + destination + ")"
  }

  /** The case for one destination: the same configuration with `call.to` set to the
      destination, no matrix, and the destination appended to the name. */
  function Retarget(c: VoipTestConfig, destination: string): VoipTestConfig {
    c.(name := CaseName(c.name, destination), call := c.call.(to := destination), matrix := None)
  }

  /** The source's route to that case: dump the configuration by alias, edit the dump, and
      validate the edited dump again. */
  function ReloadCase(c: VoipTestConfig, destination: string): Loaded<VoipTestConfig> {
    var doc := DumpConfig(c);
    var edited := doc.(
      call := Some(doc.call.value.(to := Some(destination))),
      matrix := None,
      name := Some(CaseName(c.name, destination)));
    LoadConfig(edited)
  }

  /** Re-validating the edited dump never fails and yields exactly the retargeted case. */
  lemma {:induction false} ReloadIsRetarget(c: VoipTestConfig, destination: string)
    requires Valid(c)
    ensures ReloadCase(c, destination) == Success(Retarget(c, destination))
  {
    AccountsRoundTrip(c.accounts);
    TransportLiteralRoundTrip(c.target.transport);
    OutcomeLiteralRoundTrip(c.expectation.outcome);
  }

  /** The cases of one configuration: itself when it has no matrix, else one case per
      destination, in the matrix's order. */
  function Expansion(c: VoipTestConfig): seq<VoipTestConfig> {
    if c.matrix.None? then [c]
    else seq(|c.matrix.value.to|, i requires 0 <= i < |c.matrix.value.to| => Retarget(c, c.matrix.value.to[i]))
  }

  /** Expansion as the source performs it: one reload per destination, appended in order.
      A reload failure would propagate; for a valid configuration there is none. */
  method ExpandMatrix(c: VoipTestConfig) returns (r: Loaded<seq<VoipTestConfig>>)
    ensures c.matrix.None? ==> r == Success([c])
    ensures Valid(c) ==> r == Success(Expansion(c))
  {
    if c.matrix.None? {
      return Success([c]);
    }
    var destinations := c.matrix.value.to;
    var expanded: seq<VoipTestConfig> := [];
    var i := 0;
    while i < |destinations|
      invariant 0 <= i <= |destinations|
      invariant |expanded| == i
      invariant Valid(c) ==> forall k | 0 <= k < i :: expanded[k] == Retarget(c, destinations[k])
    {
      if Valid(c) {
        ReloadIsRetarget(c, destinations[i]);
      }
      match ReloadCase(c, destinations[i])
      case Failure(issues) =>
        return Failure(issues);
      case Success(next) =>
        expanded := expanded + [next];
      i := i + 1;
    }
    assert Valid(c) ==> expanded == Expansion(c);
    return Success(expanded);
  }

  /** One case per destination, in order, each carrying its destination and no matrix, every
      other field copied, and its name suffixed with the destination. */
  lemma ExpansionShape(c: VoipTestConfig, i: nat)
    requires c.matrix.Some? && i < |c.matrix.value.to|
    ensures |Expansion(c)| == |c.matrix.value.to|
    ensures var e := Expansion(c)[i];
      && e.call.to == c.matrix.value.to[i]
      && e.matrix.None?
      && e.name == c.name + " (to=" + c.matrix.value.to[i] + ")"
      && e.version == c.version && e.target == c.target && e.accounts == c.accounts
      && e.expectation == c.expectation
      && e.call.fromKey == c.call.fromKey && e.call.timeoutS == c.call.timeoutS
      && e.call.maxDurationS == c.call.maxDurationS
  {
  }

  /** An empty destination list expands to no case at all. */
  lemma EmptyMatrixExpandsToNothing(c: VoipTestConfig)
    requires c.matrix == Some(Matrix([]))
    ensures Expansion(c) == []
  {
  }

  /** The name suffix determines the destination. */
  lemma {:induction false} CaseNameInjective(name: string, d1: string, d2: string)
    requires CaseName(name, d1) == CaseName(name, d2)
    ensures d1 == d2
  {
    var n1 := CaseName(name, d1);
    var n2 := CaseName(name, d2);
    assert |d1| == |d2|;
    assert n1[|name| + 5..|n1| - 1] == d1;
    assert n2[|name| + 5..|n2| - 1] == d2;
  }

  /** Distinct destinations give cases with distinct names. */
  lemma ExpandedNamesDistinct(c: VoipTestConfig)
    requires c.matrix.Some?
    requires forall i, j | 0 <= i < j < |c.matrix.value.to| :: c.matrix.value.to[i] != c.matrix.value.to[j]
    ensures forall i, j | 0 <= i < j < |Expansion(c)| :: Expansion(c)[i].name != Expansion(c)[j].name
  {
    var to := c.matrix.value.to;
    forall i, j | 0 <= i < j < |Expansion(c)|
      ensures Expansion(c)[i].name != Expansion(c)[j].name
    {
      if Expansion(c)[i].name == Expansion(c)[j].name {
        CaseNameInjective(c.name, to[i], to[j]);
      }
    }
  }

  /** Every case is valid and has no matrix, so expanding a case again gives just that case. */
  lemma ExpansionIsFinal(c: VoipTestConfig, i: nat)
    requires Valid(c) && i < |Expansion(c)|
    ensures Valid(Expansion(c)[i])
    ensures Expansion(Expansion(c)[i]) == (if c.matrix.None? then [c] else [Expansion(c)[i]])
  {
  }

  // ---------------------------------------------------------------------------
  // Running cases
  // ---------------------------------------------------------------------------

  /** A failing result always says why. */
  predicate Explained(t: TestResult) {
    t.error.Some? <==> !t.passed
  }

  /** One case. `outcome` is what the engine returned, or the text of an exception that
      escaped it; the exception becomes a failed result with an empty `actual` and the text
      as its error, so nothing is raised. */
  function RunSingleTest(c: VoipTestConfig, outcome: Result<TestResult, string>): (r: TestResult)
    ensures outcome.Success? ==> r == outcome.value
    ensures outcome.Failure? ==>
      && r.name == c.name && r.config == c && !r.passed && r.actual.None?
      && r.error == Some(outcome.error) && r.durationS.None? && r.logs.None?
    ensures (outcome.Success? ==> Explained(outcome.value)) ==> Explained(r)
  {
    match outcome
    case Success(t) => t
    case Failure(e) => TestResult(c.name, false, c, None, None, Some(e), None)
  }

  /** Engine results are explained, so results of one case always are. */
  lemma EngineResultsAreExplained(c: VoipTestConfig, installed: bool, run: Result<SippResult, string>, t1: real, t2: real)
    ensures Explained(RunSingleTest(c, Success(ExecuteTest(c, installed, run, t1, t2))))
  {
  }

  datatype FileResult = FileResult(name: string, passed: bool, runs: seq<TestResult>)

  /** What the engine call for the case at a given position produced: a result, or the text
      of the exception that escaped it. The position is part of the input because every
      case is run afresh, so two equal cases (a destination listed twice) may fare differently. */
  type Engine = (nat, VoipTestConfig) -> Result<TestResult, string>

  /** The results of running each case in order, the case at position i by call i. */
  function RunsOf(cases: seq<VoipTestConfig>, engine: Engine): seq<TestResult> {
    seq(|cases|, i requires 0 <= i < |cases| => RunSingleTest(cases[i], engine(i, cases[i])))
  }

  predicate AllPassed(runs: seq<TestResult>) {
    forall i | 0 <= i < |runs| :: runs[i].passed
  }

  /** The loop over the cases of one file: every case is run, in order, and the file passes
      exactly when every run passed (so a file without cases passes). */
  method RunCases(name: string, cases: seq<VoipTestConfig>, engine: Engine)
    returns (file: FileResult)
    ensures file.name == name
    ensures file.runs == RunsOf(cases, engine)
    ensures file.passed <==> AllPassed(file.runs)
  {
    var runs: seq<TestResult> := [];
    var allPassed := true;
    var i := 0;
    while i < |cases|
      invariant 0 <= i <= |cases|
      invariant runs == RunsOf(cases[..i], engine)
      invariant allPassed <==> AllPassed(runs)
    {
      var result := RunSingleTest(cases[i], engine(i, cases[i]));
      assert RunsOf(cases[..i + 1], engine) == runs + [result];
      assert AllPassed(runs + [result]) <==> AllPassed(runs) && result.passed by {
        assert (runs + [result])[|runs|] == result;
        assert forall k | 0 <= k < |runs| :: (runs + [result])[k] == runs[k];
      }
      runs := runs + [result];
      if !result.passed {
        allPassed := false;
      }
      i := i + 1;
    }
    assert cases[..i] == cases;
    return FileResult(name, allPassed, runs);
  }

  /** One file: validate the document, expand it, and run its cases. A document that does
      not validate propagates its issues; `engine` is what running each case produces. */
  method RunTestFile(doc: ConfigDoc, engine: Engine)
    returns (r: Loaded<FileResult>)
    ensures LoadConfig(doc).Failure? ==> r == Failure(LoadConfig(doc).error)
    ensures LoadConfig(doc).Success? ==>
      var c := LoadConfig(doc).value;
      var runs := RunsOf(Expansion(c), engine);
      r == Success(FileResult(c.name, AllPassed(runs), runs))
  {
    var loaded := LoadConfig(doc);
    if loaded.Failure? {
      return Failure(loaded.error);
    }
    var c := loaded.value;
    var expanded := ExpandMatrix(c);
    match expanded
    case Failure(issues) =>
      return Failure(issues);
    case Success(cases) =>
      var file := RunCases(c.name, cases, engine);
      return Success(file);
  }

  /** A file whose matrix lists no destination runs nothing and passes. */
  lemma EmptyMatrixPasses(c: VoipTestConfig, engine: Engine)
    requires c.matrix == Some(Matrix([]))
    ensures RunsOf(Expansion(c), engine) == []
    ensures AllPassed(RunsOf(Expansion(c), engine))
  {
  }

  /** A file fails exactly when one of its cases fails, and every failing case says why as
      long as the engine explains its own failures. */
  lemma {:induction false} FileFailsIffSomeCaseFails(cases: seq<VoipTestConfig>, engine: Engine)
    requires forall i: nat, c: VoipTestConfig | engine(i, c).Success? :: Explained(engine(i, c).value)
    ensures !AllPassed(RunsOf(cases, engine)) <==> exists i | 0 <= i < |cases| :: !RunSingleTest(cases[i], engine(i, cases[i])).passed
    ensures forall i | 0 <= i < |cases| :: Explained(RunsOf(cases, engine)[i])
  {
    var runs := RunsOf(cases, engine);
    forall i | 0 <= i < |cases|
      ensures runs[i] == RunSingleTest(cases[i], engine(i, cases[i]))
      ensures Explained(runs[i])
    {
    }
    if !AllPassed(runs) {
      var i :| 0 <= i < |runs| && !runs[i].passed;
      assert !RunSingleTest(cases[i], engine(i, cases[i])).passed;
    }
  }
}

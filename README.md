# voiptest verdict pipeline in Dafny

voiptest runs declarative VoIP call tests against a SIP server. It loads one YAML document
per test file and fans out the destination matrix into cases. For each case it writes an
injection file for SIPp and builds the SIPp command line. It runs SIPp once, scans the message
trace for the final SIP response code, and gets a reason and an outcome from the exit status. It
then checks the observed values against the document's expectations, folds the case verdicts
into a file verdict, and writes a JUnit report.

This project models that pipeline, from the validated configuration to the verdicts and the
report tree, and proves properties of the model. The modules follow the source files:

- `wrappers.dfy` (module `Wrappers`): `Option` and `Result`.
- `text.dfy` (module `Text`): the Python string operations the engine relies on. These are
  `str.lower` on ASCII, substring `in`, `str(int)`, `split`, and `replace` as a single
  left-to-right pass.
- `config.dfy` (module `Config`): the configuration records with their literal sets and
  defaults. It also models:
  - validation of a parsed document into a configuration, collecting issues;
  - the by-alias dump;
  - the account lookup that answers "absent" instead of failing. As written, it finds only
    `caller` and `callee`. Extra accounts are kept by the record and its dump, but they sit
    outside the instance dictionary that the overridden lookup consults, so their names also
    answer "absent".
- `sipp.dfy` (module `Sipp`), the SIPp engine:
  - the trace scan for the final code;
  - outcome classification and the expectation check;
  - the injection file and the command vector;
  - the reason ladder;
  - one SIPp run, with the process as an input;
  - the result of one test.
- `runner.dfy` (module `Runner`): matrix expansion, exception containment for one case, and
  the AND over the cases of one file.
- `junit.dfy` (module `JUnit`): the JUnit report as an abstract tree of suites, test cases,
  error and failure markers, and counters.

Step-by-step code in the source becomes Dafny methods with loop invariants. Each method's
result is tied to a specification, and the properties are then proved about that
specification. The scan, the command, the expansion, the file loop and the report are proved
equal to a specification function. The reason assignments are proved to satisfy the reason
ladder, a predicate that fixes one reason. One run is specified path by path. These methods are:

- the trace scan (`ExtractFinalSipCode`);
- building the command (`BuildCommand`);
- the reason assignments (`DetermineReason`);
- one run (`RunSipp`);
- matrix expansion (`ExpandMatrix`);
- the loop over the cases of a file (`RunCases`, `RunTestFile`);
- the report builder (`WriteJUnit`).

The rest is pure in the source and pure here.

The model follows the code where it differs from what the names and docstrings suggest:

- Validation checks presence and the literal sets only. No check rejects an empty host,
  a non-positive port or timeout, or an empty matrix.
- An empty matrix gives no case, and the file then passes.
- Classification yields "success", "failure" or "timeout". The docstring of
  `determine_outcome` (voiptest/engines/sipp.py:297) also lists "error", which is never
  returned. There is no busy category: a 486 is a "failure".
- The expectation check compares the expected literals (answered, failed, busy, no_answer)
  against "success", "failure" and "timeout". None of its outcome branches can ever fire, so
  only the expected final code decides a verdict.
  - `Sipp.OutcomeAloneNeverFails` proves this.
  - So `{outcome: answered}` with no expected code passes against a 486.
- `call.to` and `call.from` are written into the injection file after stripping `sip:` and
  the host part. Neither is resolved against the accounts.
- Without a caller account, the source raises an AttributeError inside the run. It surfaces
  as the reason "SIPp execution error: 'NoneType' object has no attribute 'password'", so the
  run passes unless the document expects a final code.

## Model

| member | source | states |
|---|---|---|
| `Config.ParseTransport` | voiptest/config.py:13 | accepts exactly "udp", "tcp" and "tls", and what it accepts prints back as the same literal |
| `Config.TransportLiteralRoundTrip` | voiptest/config.py:13 | every transport survives printing and parsing |
| `Config.ParseOutcome` | voiptest/config.py:58-60 | accepts exactly "answered", "failed", "busy" and "no_answer", and round-trips what it accepts |
| `Config.OutcomeLiteralRoundTrip` | voiptest/config.py:58-60 | every expected outcome survives printing and parsing |
| `Config.Lookup` | voiptest/config.py:34-43 | `caller` and `callee` yield their account or none; every other name, an extra account's included, yields none and never fails |
| `Config.LookupAfterLoad` | voiptest/config.py:28-43 | after loading, a lookup succeeds exactly for `caller` and `callee` when the document has them; extra entries are kept by the load but never resolve |
| `Config.Required` | voiptest/config.py:11 | a required field gives an issue exactly when it is missing |
| `Config.Under` | voiptest/config.py:78-87 | nesting keeps every issue of the nested record, in order, with its kind, and its location prefixed by the field name |
| `Config.Nested` | voiptest/config.py:83-86 | a missing nested record fails; a present one loads exactly when its own loader succeeds, with the same value |
| `Config.LoadTarget` | voiptest/config.py:8-14 | succeeds exactly when the host is present and any transport given is allowed; applies port 5060, transport udp and no domain as defaults |
| `Config.LoadAccount` | voiptest/config.py:17-22 | succeeds exactly when username and password are present, and keeps the optional display name |
| `Config.OptionalAccount` | voiptest/config.py:31-32 | an absent caller or callee loads as none; a present one loads exactly when it is a valid account |
| `Config.LoadAccounts` | voiptest/config.py:25-32 | succeeds exactly when the caller and callee entries that are present are valid; the caller and callee are those loaded entries (or none); every other entry is kept as an extra |
| `Config.LoadCall` | voiptest/config.py:46-52 | succeeds exactly when `from` and `to` are present; timeouts default to 30 and 60 |
| `Config.LoadExpect` | voiptest/config.py:55-69 | succeeds exactly when an allowed outcome is present; the three optional numbers default to none |
| `Config.LoadMatrix` | voiptest/config.py:72-75 | succeeds exactly when `to` is present, and keeps its order |
| `Config.OptionalMatrix` | voiptest/config.py:87 | an absent matrix is none; a present one loads exactly when its list is present |
| `Config.LoadConfig` | voiptest/config.py:78-92 | succeeds exactly when every required part is present and valid; version defaults to 1 and matrix to none; the result is valid and each part equals its sub-loader's result |
| `Config.DumpConfig` | voiptest/config.py:78-92 | the by-alias dump always carries the call; what it means is fixed by `Config.ConfigRoundTrip` |
| `Config.AccountsRoundTrip` | voiptest/config.py:25-43 | dumping and reloading valid accounts gives them back |
| `Config.ConfigRoundTrip` | voiptest/config.py:78-92 | dumping and reloading a valid configuration gives it back unchanged |
| `Text.Lower` | voiptest/engines/sipp.py:202 | `lower()` keeps the length, maps each ASCII capital to its small letter, keeps every other character, and leaves no ASCII capital |
| `Text.ContainsInContext` | voiptest/engines/sipp.py:304 | `in` still holds when text is added on either side of an occurrence |
| `Text.IntToString` | voiptest/engines/sipp.py:152 | `str()` of an integer is a minus sign exactly for negatives, followed by decimal digits without a leading zero that read back as the number's magnitude |
| `Text.Join` | voiptest/engines/sipp.py:256-260 | the joined row starts with its first field, followed by the separator when more fields follow; one field joins to itself |
| `Text.NatToString` | voiptest/engines/sipp.py:152 | `str` of a natural number is a non-empty digit string without a leading zero |
| `Text.NatToStringRoundTrip` | voiptest/engines/sipp.py:152 | the digits read back as the number |
| `Text.Split` | voiptest/engines/sipp.py:250 | `split` returns at least one piece |
| `Text.SplitPiecesLackSeparator` | voiptest/engines/sipp.py:250 | no piece contains the separator |
| `Text.SplitFirstIsPrefix` | voiptest/engines/sipp.py:250 | the first piece is a prefix of the input |
| `Text.SplitWithoutSeparator` | voiptest/engines/sipp.py:250 | a string without the separator splits into itself alone |
| `Text.SplitFirstEndsAtSeparator` | voiptest/engines/sipp.py:250 | when the separator occurs, the first piece stops right before its first occurrence |
| `Text.SplitAtSeparator` | voiptest/engines/sipp.py:250 | a separator-free prefix followed by the separator becomes the first piece, and the rest splits on |
| `Text.SplitJoin` | voiptest/engines/sipp.py:256-260 | joining separator-free fields and splitting again gives the fields back |
| `Text.RemoveAll` | voiptest/engines/sipp.py:250 | `replace(pat, "")` never lengthens the input |
| `Text.RemoveAllKeeps` | voiptest/engines/sipp.py:250 | removal adds no character: every character of the result occurs in the input |
| `Text.AbsentFirstCharNoOccurrence` | voiptest/engines/sipp.py:250 | a text without the pattern's first character contains no occurrence |
| `Text.RemoveAllWithoutPattern` | voiptest/engines/sipp.py:250 | a text without an occurrence of the pattern comes back unchanged |
| `Text.RemoveAllLeadingPattern` | voiptest/engines/sipp.py:250 | a leading occurrence is dropped and the rest is processed on its own |
| `Text.RemoveAllKeepsHead` | voiptest/engines/sipp.py:250 | a character that starts no occurrence is kept in front of the processed rest |
| `Sipp.SpaceRunEnd` | voiptest/engines/sipp.py:278 | a greedy `\s+` run: all whitespace, and not followed by whitespace |
| `Sipp.CodeAt` | voiptest/engines/sipp.py:281 | `int` of three digits is the decimal value they spell, in 0..999 |
| `Sipp.MatchAt` | voiptest/engines/sipp.py:278-280 | a match is "SIP/2.0", a whitespace run, three digits whose value is the code, and a greedy whitespace run where the match ends |
| `Sipp.SipCodesFrom` | voiptest/engines/sipp.py:280 | every matched code lies in 0..999 |
| `Sipp.SpaceRunEndsAt` | voiptest/engines/sipp.py:278 | a whitespace stretch followed by a non-space is exactly the greedy run |
| `Sipp.MatchAtComplete` | voiptest/engines/sipp.py:278-281 | every occurrence of the pattern's shape at a position is the match found there, with its code and end |
| `Sipp.SkipNonMatches` | voiptest/engines/sipp.py:280 | positions where no match starts are passed over |
| `Sipp.NextMatch` | voiptest/engines/sipp.py:280-281 | the first match at or after a position gives the next code, and the scan resumes where it ends, so every match is reported in order |
| `Sipp.NoMatchWithoutS` | voiptest/engines/sipp.py:278-280 | no match starts inside a stretch without an `S` |
| `Sipp.StatusLineAt` | voiptest/engines/sipp.py:278-281 | a status line anywhere in a trace is the match there, with the code its digits spell |
| `Sipp.StatusLineMatches` | voiptest/engines/sipp.py:278-281 | a well-formed status line matches with the code its digits spell |
| `Sipp.NoStatusFromHere` | voiptest/engines/sipp.py:278-280 | a stretch of trace without an `S` yields no code |
| `Sipp.StatusLineTrace` | voiptest/engines/sipp.py:278-281 | a trace of one status line (version, blank, three digits, blank, reason phrase) yields exactly the code its digits spell |
| `Sipp.NoVersionNoCodes` | voiptest/engines/sipp.py:278-280 | a trace without "SIP/2.0" yields no code |
| `Sipp.FinalCodeIsLastFinal` | voiptest/engines/sipp.py:279-286 | none exactly when every code is provisional; otherwise the last code of 200 or more |
| `Sipp.AppendProvisional` | voiptest/engines/sipp.py:283 | a later provisional code leaves the final code unchanged |
| `Sipp.AppendFinal` | voiptest/engines/sipp.py:283-284 | a later code of 200 or more replaces the final code |
| `Sipp.LastWinsExamples` | voiptest/engines/sipp.py:279-286 | 183 then 200 gives 200; 200 then 487 gives 487; only provisional codes give none |
| `Sipp.TraceLines` | voiptest/engines/sipp.py:263-286 | the example log is an INVITE request line, a 200 OK line and a 487 line, at offsets 0, 22 and 38 |
| `Sipp.RequestLineIsNoMatch` | voiptest/engines/sipp.py:278 | the "SIP/2.0" that ends a request line, followed by a line break and a letter, is no match |
| `Sipp.OkLineMatches` | voiptest/engines/sipp.py:278-281 | the 200 OK line matches with 200 |
| `Sipp.TerminatedLineMatches` | voiptest/engines/sipp.py:278-281 | the 487 line matches with 487, and nothing after it yields a code |
| `Sipp.LastWinsOnTrace` | voiptest/engines/sipp.py:263-286 | on the log "INVITE … SIP/2.0", "SIP/2.0 200 OK", "SIP/2.0 487 Request Terminated" the scan finds [200, 487] and the final code is 487 |
| `Sipp.ExtractFinalSipCode` | voiptest/engines/sipp.py:263-286 | the loop returns the last final code of the trace's matches, none exactly when all are provisional, and a code in 200..999 |
| `Sipp.DetermineOutcome` | voiptest/engines/sipp.py:289-318 | one of "success", "failure" and "timeout"; "timeout" exactly when the reason mentions a timeout in any letter case |
| `Sipp.OutcomeIgnoresLogs` | voiptest/engines/sipp.py:289-318 | the logs play no part in the outcome |
| `Sipp.OutcomeLadder` | voiptest/engines/sipp.py:304-318 | away from timeouts, 2xx is success and 4xx to 6xx is failure; any other code falls back to the exit code; 486 is failure |
| `Sipp.CheckExpectations` | voiptest/engines/sipp.py:321-352 | fails exactly when an outcome branch fires or an expected final code differs from the observed one; passes exactly when no code is expected or the codes agree |
| `Sipp.OutcomeBranchOnlyForEngineLiterals` | voiptest/engines/sipp.py:337-342 | an outcome branch can fire only for an expected literal "success", "failure" or "timeout" |
| `Sipp.UserPart` | voiptest/engines/sipp.py:250-251 | the user part is the input with `sip:` removed, cut right before its first '@': a prefix without '@', followed by '@' when there is one, and all of it when there is none |
| `Sipp.RemoveSipExamples` | voiptest/engines/sipp.py:250-251 | removing `sip:` from "sip:1000@pbx" gives "1000@pbx"; "callee" stays as it is |
| `Sipp.UserPartExamples` | voiptest/engines/sipp.py:250-251 | "sip:1000@pbx" gives "1000"; an account key such as "callee" is used verbatim |
| `Sipp.UserPartIsOnePass` | voiptest/engines/sipp.py:250 | one removal pass can leave a `sip:` behind |
| `Sipp.Injection` | voiptest/engines/sipp.py:246-253 | fails exactly when there is no caller, with the AttributeError text; otherwise the row holds the user parts of `to` and `from`, the domain or the host, and the caller's password |
| `Sipp.InjectionText` | voiptest/engines/sipp.py:255-260 | the file starts with the `SEQUENTIAL` mode line, then the destination field and a `;`, and ends with CR LF |
| `Sipp.InjectionRoundTrip` | voiptest/engines/sipp.py:255-260 | the written file reads back as the mode line and the four fields in order |
| `Sipp.CommandShape` | voiptest/engines/sipp.py:142-179 | `sipp` and the host come first, one call, the configured timeout, the transport flag, the remote address, and credentials only when both are non-empty |
| `Sipp.BuildCommand` | voiptest/engines/sipp.py:142-179 | the appended command equals the specified argument vector |
| `Sipp.ReasonLadderIsFunctional` | voiptest/engines/sipp.py:200-207 | the reason ladder fixes at most one reason |
| `Sipp.DetermineReason` | voiptest/engines/sipp.py:200-207 | the reassigned reason satisfies the ladder: exit 0 gives success; otherwise timeout, then SIP error for a truthy code of 400 or more, then SIPp exit code |
| `Sipp.RunSipp` | voiptest/engines/sipp.py:98-235 | each exit path: missing caller or write error, missing scenario, process timeout after timeout + 10 seconds, raised error, or a completed run with its final code, reason, logs and exit code |
| `Sipp.CleanExitWithErrorCode` | voiptest/engines/sipp.py:200-207 | exit 0 with a 4xx to 6xx code gives the reason "success" but the outcome "failure" |
| `Sipp.TimeoutsClassifyAsTimeout` | voiptest/engines/sipp.py:200-228 | a reported timeout and a process timeout both classify as "timeout" |
| `Sipp.ExecuteTest` | voiptest/engines/sipp.py:24-95 | without SIPp it fails with zero duration and the not-found error; an exception gives the prefixed error; otherwise the verdict is the expectation check; an error is present exactly when the test failed |
| `Sipp.MissingSippIgnoresRun` | voiptest/engines/sipp.py:45-53 | without SIPp the result does not depend on the run |
| `Sipp.OutcomeAloneNeverFails` | voiptest/engines/sipp.py:321-352 | with no expected final code every completed run passes |
| `Sipp.BusyHereTraceCode` | voiptest/engines/sipp.py:263-286 | the trace "SIP/2.0 486 Busy Here" yields the codes [486] and the final code 486 |
| `Sipp.BusyHereScenario` | voiptest/engines/sipp.py:24-95 | expecting busy and 486, a run whose final code is the one scanned from the "SIP/2.0 486 Busy Here" trace passes, with code 486 and no error |
| `Sipp.WrongCodeFails` | voiptest/engines/sipp.py:344-348 | an expected final code that differs from the observed one fails, with the run's reason as the error |
| `Runner.ReloadIsRetarget` | voiptest/runner.py:46-54 | reloading the edited dump never fails and gives the configuration with the new destination, the suffixed name and no matrix |
| `Runner.ExpandMatrix` | voiptest/runner.py:32-56 | without a matrix, the configuration alone; for a valid configuration, one case per destination, in order |
| `Runner.ExpansionShape` | voiptest/runner.py:44-54 | each case has its destination, no matrix, the name with " (to=…)" appended, and every other field unchanged |
| `Runner.EmptyMatrixExpandsToNothing` | voiptest/runner.py:44-56 | an empty destination list gives no case |
| `Runner.CaseNameInjective` | voiptest/runner.py:52 | the suffixed name determines the destination |
| `Runner.ExpandedNamesDistinct` | voiptest/runner.py:44-54 | distinct destinations give distinct case names |
| `Runner.ExpansionIsFinal` | voiptest/runner.py:41-54 | every case is valid, and expanding it again gives the case alone |
| `Runner.RunSingleTest` | voiptest/runner.py:59-86 | an engine result passes through unchanged; an escaped exception becomes a failed result with an empty observation and the exception text; failing results stay explained |
| `Runner.EngineResultsAreExplained` | voiptest/runner.py:75-77 | engine results carry an error exactly when they fail |
| `Runner.RunCases` | voiptest/runner.py:106-123 | one run per case in order, the case at position i by the i-th engine call (equal cases run separately); the file passes exactly when every run passed |
| `Runner.RunTestFile` | voiptest/runner.py:89-123 | validation issues propagate; otherwise the file's name, the runs of its expansion, and the AND of their verdicts |
| `Runner.EmptyMatrixPasses` | voiptest/runner.py:110-123 | a file with an empty matrix runs nothing and passes |
| `Runner.FileFailsIffSomeCaseFails` | voiptest/runner.py:110-118 | a file fails exactly when a case fails, and every run is explained when the engine's are |
| `JUnit.WriteJUnit` | voiptest/report/junit.py:8-93 | the report built by the loops equals the specified tree with its counters |
| `JUnit.SuitesFollowFiles` | voiptest/report/junit.py:31-33 | one suite per file, in order |
| `JUnit.RootCountsAreSuiteSums` | voiptest/report/junit.py:17-22 | the root counters are the sums of the suite counters |
| `JUnit.FailuresBounds` | voiptest/report/junit.py:18-21 | failures never exceed the runs, and are zero exactly when every run passed |
| `JUnit.CasesFollowRuns` | voiptest/report/junit.py:56-59 | one test case per run, in order, classed under the file name |
| `JUnit.MarkersCountFailures` | voiptest/report/junit.py:66-82 | as many markers as counted failures |
| `JUnit.RunCaseShape` | voiptest/report/junit.py:56-93 | name or "unknown"; no marker exactly when passed; error marker for failing runs with an error, failure marker for the others; a system-out that begins with the test line |
| `JUnit.FileErrorSuiteShape` | voiptest/report/junit.py:42-51 | a file error gives errors 1 and exactly one test case with the "Test file error" marker |
| `JUnit.FileErrorCounts` | voiptest/report/junit.py:17-22 | a recorded file error adds one error and no test or failure |
| `JUnit.EntriesFailIffRunsFail` | voiptest/report/junit.py:38 | the failure count of a file's results is zero exactly when all passed |
| `JUnit.SuitePassesIffFilePasses` | voiptest/report/junit.py:35-53 | a suite has zero failures exactly when its file passed |
| `JUnit.ExplainedRunsGetNoFailureMarker` | voiptest/report/junit.py:66-82 | runs that carry an error whenever they fail never get an assertion failure marker |
| `JUnit.EngineFailuresAreExecutionErrors` | voiptest/report/junit.py:66-74 | failing cases from the engine are always reported as execution errors |

## Left out

- Running the subprocess, `tempfile.mkdtemp`, reading and writing the log and injection files,
  the scenario-file check and `shutil.which` are not modelled. Their outcomes are inputs to
  `RunSipp` and `ExecuteTest`: the process end, the write error, whether the scenario exists,
  and whether SIPp is installed.
- `get_sipp_version` is a subprocess call and is left out.
- Wall-clock durations are `real` inputs. The float `time` attribute of a JUnit test case is
  left out.
- YAML parsing is left out. Loading starts from a parsed document. Pydantic's coercion,
  explicit nulls, and its reporting order and wording are not modelled; issues are collected
  in field order.
- Extra accounts are kept as `AccountDoc` values: each field present or absent, none checked.
  Pydantic stores them unvalidated too.
- `Config.Lookup`: names of the record's own attributes and methods (`model_dump`, `copy`,
  `dict`, `json`, `model_fields`, `__class__` and the like) are not modelled. The source
  answers those with the attribute itself, before its fallback is reached; the model answers
  none for them.
- `Config.LookupAfterLoad`: the same gap. An extra account whose key is such an attribute
  name resolves to the attribute in the source, not to none.
- Regex classes are ASCII only: `\s` is the ASCII whitespace set, and `\d` the digits 0 to 9.
- `Sipp.InjectionText`: requires fields free of `;`, `"`, CR and LF. The csv writer's quoting
  of other fields is not modelled.
- ElementTree construction, indentation, text rendering and file writing are not modelled.
  Texts built from dictionary renderings are kept as the values they render.
- The `str()` rendering of the JUnit counters is left out; counters are naturals.
- voiptest/cli.py is not part of this model. The only part used is how it records a file
  error: no runs, the error text (`JUnit.FileErrorEntry`).

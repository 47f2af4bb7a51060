/** The test-scenario schema of voiptest/config.py: one datatype per record, the literal
    sets as enumerations, and loaders that turn a parsed document (each field present or
    absent) into a record, applying the defaults and rejecting what the schema rejects. */
module Config {
  import opened Wrappers

  // ---------------------------------------------------------------------------
  // Literal sets
  // ---------------------------------------------------------------------------

  datatype Transport = Udp | Tcp | Tls

  function TransportLiteral(t: Transport): string {
    match t
    case Udp => "udp"
    case Tcp => "tcp"
    case Tls => "tls"
  }

  /** Accepts exactly the literals `udp`, `tcp`, `tls`. */
  function ParseTransport(s: string): (r: Option<Transport>)
    ensures r.Some? <==> s in {"udp", "tcp", "tls"}
    ensures r.Some? ==> TransportLiteral(r.value) == s
  {
    if s == "udp" then Some(Udp)
    else if s == "tcp" then Some(Tcp)
    else if s == "tls" then Some(Tls)
    else None
  }

  lemma TransportLiteralRoundTrip(t: Transport)
    ensures ParseTransport(TransportLiteral(t)) == Some(t)
  {
  }

  /** What a scenario expects of the call. */
  datatype ExpectedOutcome = Answered | Failed | Busy | NoAnswer

  function OutcomeLiteral(o: ExpectedOutcome): string {
    match o
    case Answered => "answered"
    case Failed => "failed"
    case Busy => "busy"
    case NoAnswer => "no_answer"
  }

  /** Accepts exactly the literals `answered`, `failed`, `busy`, `no_answer`. */
  function ParseOutcome(s: string): (r: Option<ExpectedOutcome>)
    ensures r.Some? <==> s in {"answered", "failed", "busy", "no_answer"}
    ensures r.Some? ==> OutcomeLiteral(r.value) == s
  {
    if s == "answered" then Some(Answered)
    else if s == "failed" then Some(Failed)
    else if s == "busy" then Some(Busy)
    else if s == "no_answer" then Some(NoAnswer)
    else None
  }

  lemma OutcomeLiteralRoundTrip(o: ExpectedOutcome)
    ensures ParseOutcome(OutcomeLiteral(o)) == Some(o)
  {
  }

  // ---------------------------------------------------------------------------
  // Records
  // ---------------------------------------------------------------------------

  const DEFAULT_PORT: int := 5060
  const DEFAULT_TRANSPORT: string := "udp"
  const DEFAULT_TIMEOUT_S: int := 30
  const DEFAULT_MAX_DURATION_S: int := 60
  const DEFAULT_VERSION: int := 1

  datatype Target = Target(host: string, port: int, transport: Transport, domain: Option<string>)

  datatype Account = Account(username: string, password: string, displayName: Option<string>)

  /** An account entry as written in the document; fields may be absent. */
  datatype AccountDoc = AccountDoc(username: Option<string>, password: Option<string>, displayName: Option<string>)

  /** `caller` and `callee` are declared (and validated) fields; every other entry is kept
      as written, unvalidated, because the record admits extra keys. */
  datatype Accounts = Accounts(caller: Option<Account>, callee: Option<Account>, extra: map<string, AccountDoc>)

  /** The call: `fromKey` is the document's `from` key (an account key such as `caller`);
      `to` is an account key or a literal destination. */
  datatype Call = Call(fromKey: string, to: string, timeoutS: int, maxDurationS: int)

  datatype Expect = Expect(
    outcome: ExpectedOutcome,
    finalSipCode: Option<int>,
    answerWithinS: Option<int>,
    minDurationS: Option<int>)

  datatype Matrix = Matrix(to: seq<string>)

  datatype VoipTestConfig = VoipTestConfig(
    version: int,
    name: string,
    target: Target,
    accounts: Accounts,
    call: Call,
    expectation: Expect,
    matrix: Option<Matrix>)

  /** Extra account entries never shadow the two declared fields. */
  predicate ValidAccounts(a: Accounts) {
    "caller" !in a.extra && "callee" !in a.extra
  }

  predicate Valid(c: VoipTestConfig) {
    ValidAccounts(c.accounts)
  }

  // ---------------------------------------------------------------------------
  // Account lookup by name
  // ---------------------------------------------------------------------------

  /** Attribute access on the accounts record, with the lookup overridden as written: the
      attribute itself when it is `caller` or `callee`, otherwise the instance dictionary,
      and `None` (never a failure) for anything else. Extra entries are held apart from the
      instance dictionary, so an extra account name also answers `None`. */
  function Lookup(a: Accounts, name: string): (r: Option<Account>)
    ensures r.Some? <==> (name == "caller" && a.caller.Some?) || (name == "callee" && a.callee.Some?)
    ensures name == "caller" ==> r == a.caller
    ensures name == "callee" ==> r == a.callee
    ensures name in a.extra && ValidAccounts(a) ==> r.None?
  {
    if name == "caller" then a.caller
    else if name == "callee" then a.callee
    else None
  }

  // ---------------------------------------------------------------------------
  // Documents and loading
  // ---------------------------------------------------------------------------

  datatype TargetDoc = TargetDoc(host: Option<string>, port: Option<int>, transport: Option<string>, domain: Option<string>)
  /** The `accounts` mapping: entry name to entry. */
  datatype AccountsDoc = AccountsDoc(entries: map<string, AccountDoc>)
  datatype CallDoc = CallDoc(fromKey: Option<string>, to: Option<string>, timeoutS: Option<int>, maxDurationS: Option<int>)
  datatype ExpectDoc = ExpectDoc(
    outcome: Option<string>,
    finalSipCode: Option<int>,
    answerWithinS: Option<int>,
    minDurationS: Option<int>)
  datatype MatrixDoc = MatrixDoc(to: Option<seq<string>>)
  datatype ConfigDoc = ConfigDoc(
    version: Option<int>,
    name: Option<string>,
    target: Option<TargetDoc>,
    accounts: Option<AccountsDoc>,
    call: Option<CallDoc>,
    expectation: Option<ExpectDoc>,
    matrix: Option<MatrixDoc>)

  /** One validation problem, located by its path of field names. */
  datatype IssueKind = MissingField | NotAllowed(given: string)
  datatype Issue = Issue(loc: seq<string>, kind: IssueKind)

  type Loaded<T> = Result<T, seq<Issue>>

  function Required<T>(field: string, v: Option<T>): (r: seq<Issue>)
    ensures r == [] <==> v.Some?
  {
    if v.None? then [Issue([field], MissingField)] else []
  }

  /** The issues of a nested record, located under `field`. */
  function Under(field: string, issues: seq<Issue>): (r: seq<Issue>)
    ensures |r| == |issues|
    ensures forall i | 0 <= i < |issues| :: r[i].kind == issues[i].kind && r[i].loc == [field] + issues[i].loc
  {
    seq(|issues|, i requires 0 <= i < |issues| => issues[i].(loc := [field] + issues[i].loc))
  }

  function IssuesOf<T>(r: Loaded<T>): seq<Issue> {
    if r.Failure? then r.error else []
  }

  /** A required nested record: missing, or loaded with its issues located under `field`. */
  function Nested<D, T>(field: string, doc: Option<D>, load: D -> Loaded<T>): (r: Loaded<T>)
    ensures doc.None? ==> r.Failure?
    ensures doc.Some? ==> (r.Success? <==> load(doc.value).Success?)
    ensures doc.Some? && r.Success? ==> r == load(doc.value)
  {
    if doc.None? then Failure([Issue([field], MissingField)])
    else match load(doc.value)
      case Success(v) => Success(v)
      case Failure(e) => Failure(Under(field, e))
  }

  function TargetIssues(d: TargetDoc): seq<Issue> {
    Required("host", d.host) +
    (if d.transport.Some? && ParseTransport(d.transport.value).None?
     then [Issue(["transport"], NotAllowed(d.transport.value))] else [])
  }

  /** Only `host` is required; `port` defaults to 5060, `transport` to `udp`, `domain` to none. */
  function LoadTarget(d: TargetDoc): (r: Loaded<Target>)
    ensures r.Success? <==> d.host.Some? && (d.transport.Some? ==> d.transport.value in {"udp", "tcp", "tls"})
    ensures r.Failure? ==> r.error != []
    ensures r.Success? ==>
      && r.value.host == d.host.value
      && r.value.port == (if d.port.Some? then d.port.value else 5060)
      && TransportLiteral(r.value.transport) == (if d.transport.Some? then d.transport.value else "udp")
      && r.value.domain == d.domain
  {
    var issues := TargetIssues(d);
    if issues != [] then Failure(issues)
    else Success(Target(
      d.host.value,
      d.port.GetOr(DEFAULT_PORT),
      ParseTransport(d.transport.GetOr(DEFAULT_TRANSPORT)).value,
      d.domain))
  }

  /** `username` and `password` are required; `display_name` is optional. */
  function LoadAccount(d: AccountDoc): (r: Loaded<Account>)
    ensures r.Success? <==> d.username.Some? && d.password.Some?
    ensures r.Failure? ==> r.error != []
    ensures r.Success? ==> r.value == Account(d.username.value, d.password.value, d.displayName)
  {
    var issues := Required("username", d.username) + Required("password", d.password);
    if issues != [] then Failure(issues)
    else Success(Account(d.username.value, d.password.value, d.displayName))
  }

  /** An optional declared account: absent is fine, present must load. */
  function OptionalAccount(d: AccountsDoc, key: string): (r: Loaded<Option<Account>>)
    ensures key !in d.entries ==> r == Success(None)
    ensures key in d.entries ==> (r.Success? <==> LoadAccount(d.entries[key]).Success?)
    ensures key in d.entries && r.Success? ==> r.value == Some(LoadAccount(d.entries[key]).value)
  {
    if key !in d.entries then Success(None)
    else match LoadAccount(d.entries[key])
      case Success(a) => Success(Some(a))
      case Failure(e) => Failure(Under(key, e))
  }

  function ExtraEntries(d: AccountsDoc): map<string, AccountDoc> {
    map k | k in d.entries && k != "caller" && k != "callee" :: d.entries[k]
  }

  function LoadAccounts(d: AccountsDoc): (r: Loaded<Accounts>)
    ensures r.Success? <==> OptionalAccount(d, "caller").Success? && OptionalAccount(d, "callee").Success?
    ensures r.Failure? ==> r.error != []
    ensures r.Success? ==> ValidAccounts(r.value) && r.value.extra == ExtraEntries(d)
    ensures r.Success? ==>
      && r.value.caller == OptionalAccount(d, "caller").value
      && r.value.callee == OptionalAccount(d, "callee").value
  {
    var caller := OptionalAccount(d, "caller");
    var callee := OptionalAccount(d, "callee");
    var issues := IssuesOf(caller) + IssuesOf(callee);
    if caller.Failure? || callee.Failure? then Failure(issues)
    else Success(Accounts(caller.value, callee.value, ExtraEntries(d)))
  }

  /** `from` and `to` are required; `timeout_s` defaults to 30 and `max_duration_s` to 60. */
  function LoadCall(d: CallDoc): (r: Loaded<Call>)
    ensures r.Success? <==> d.fromKey.Some? && d.to.Some?
    ensures r.Failure? ==> r.error != []
    ensures r.Success? ==>
      && r.value.fromKey == d.fromKey.value
      && r.value.to == d.to.value
      && r.value.timeoutS == (if d.timeoutS.Some? then d.timeoutS.value else 30)
      && r.value.maxDurationS == (if d.maxDurationS.Some? then d.maxDurationS.value else 60)
  {
    var issues := Required("from", d.fromKey) + Required("to", d.to);
    if issues != [] then Failure(issues)
    else Success(Call(d.fromKey.value, d.to.value, d.timeoutS.GetOr(DEFAULT_TIMEOUT_S), d.maxDurationS.GetOr(DEFAULT_MAX_DURATION_S)))
  }

  function ExpectIssues(d: ExpectDoc): seq<Issue> {
    if d.outcome.None? then [Issue(["outcome"], MissingField)]
    else if ParseOutcome(d.outcome.value).None? then [Issue(["outcome"], NotAllowed(d.outcome.value))]
    else []
  }

  /** `outcome` is required and must be one of its four literals; the rest are optional. */
  function LoadExpect(d: ExpectDoc): (r: Loaded<Expect>)
    ensures r.Success? <==> d.outcome.Some? && d.outcome.value in {"answered", "failed", "busy", "no_answer"}
    ensures r.Failure? ==> r.error != []
    ensures r.Success? ==>
      && OutcomeLiteral(r.value.outcome) == d.outcome.value
      && r.value.finalSipCode == d.finalSipCode
      && r.value.answerWithinS == d.answerWithinS
      && r.value.minDurationS == d.minDurationS
  {
    var issues := ExpectIssues(d);
    if issues != [] then Failure(issues)
    else Success(Expect(ParseOutcome(d.outcome.value).value, d.finalSipCode, d.answerWithinS, d.minDurationS))
  }

  function LoadMatrix(d: MatrixDoc): (r: Loaded<Matrix>)
    ensures r.Success? <==> d.to.Some?
    ensures r.Success? ==> r.value.to == d.to.value
  {
    if d.to.None? then Failure([Issue(["to"], MissingField)]) else Success(Matrix(d.to.value))
  }

  /** The optional matrix: absent gives none, present must load. */
  function OptionalMatrix(d: Option<MatrixDoc>): (r: Loaded<Option<Matrix>>)
    ensures d.None? ==> r == Success(None)
    ensures d.Some? ==> (r.Success? <==> d.value.to.Some?)
    ensures d.Some? && r.Success? ==> r.value == Some(Matrix(d.value.to.value))
  {
    if d.None? then Success(None)
    else match LoadMatrix(d.value)
      case Success(m) => Success(Some(m))
      case Failure(e) => Failure(Under("matrix", e))
  }

  /** The root record: `version` defaults to 1 and `matrix` to none; `name`, `target`,
      `accounts`, `call` and `expect` are required. Every problem found is reported,
      in field order; the document is accepted only when there is none. */
  function LoadConfig(d: ConfigDoc): (r: Loaded<VoipTestConfig>)
    ensures r.Failure? ==> r.error != []
    ensures r.Success? <==>
      && d.name.Some?
      && Nested("target", d.target, LoadTarget).Success?
      && Nested("accounts", d.accounts, LoadAccounts).Success?
      && Nested("call", d.call, LoadCall).Success?
      && Nested("expect", d.expectation, LoadExpect).Success?
      && OptionalMatrix(d.matrix).Success?
    ensures r.Success? ==>
      && Valid(r.value)
      && r.value.version == (if d.version.Some? then d.version.value else 1)
      && r.value.name == d.name.value
      && r.value.target == LoadTarget(d.target.value).value
      && r.value.accounts == LoadAccounts(d.accounts.value).value
      && r.value.call == LoadCall(d.call.value).value
      && r.value.expectation == LoadExpect(d.expectation.value).value
      && r.value.matrix == OptionalMatrix(d.matrix).value
  {
    var target := Nested("target", d.target, LoadTarget);
    var accounts := Nested("accounts", d.accounts, LoadAccounts);
    var call := Nested("call", d.call, LoadCall);
    var expectation := Nested("expect", d.expectation, LoadExpect);
    var matrix := OptionalMatrix(d.matrix);
    var issues := Required("name", d.name) + IssuesOf(target) + IssuesOf(accounts) + IssuesOf(call)
      + IssuesOf(expectation) + IssuesOf(matrix);
    if d.name.None? || target.Failure? || accounts.Failure? || call.Failure? || expectation.Failure? || matrix.Failure?
    then Failure(issues)
    else Success(VoipTestConfig(d.version.GetOr(DEFAULT_VERSION), d.name.value, target.value,
                                accounts.value, call.value, expectation.value, matrix.value))
  }

  // ---------------------------------------------------------------------------
  // Dumping (by alias) and the round trip
  // ---------------------------------------------------------------------------

  function DumpTarget(t: Target): TargetDoc {
    TargetDoc(Some(t.host), Some(t.port), Some(TransportLiteral(t.transport)), t.domain)
  }

  function DumpAccount(a: Account): AccountDoc {
    AccountDoc(Some(a.username), Some(a.password), a.displayName)
  }

  function DumpAccounts(a: Accounts): AccountsDoc {
    var withCaller := if a.caller.Some? then a.extra["caller" := DumpAccount(a.caller.value)] else a.extra;
    var withCallee := if a.callee.Some? then withCaller["callee" := DumpAccount(a.callee.value)] else withCaller;
    AccountsDoc(withCallee)
  }

  function DumpCall(c: Call): CallDoc {
    CallDoc(Some(c.fromKey), Some(c.to), Some(c.timeoutS), Some(c.maxDurationS))
  }

  function DumpExpect(e: Expect): ExpectDoc {
    ExpectDoc(Some(OutcomeLiteral(e.outcome)), e.finalSipCode, e.answerWithinS, e.minDurationS)
  }

  function DumpMatrix(m: Option<Matrix>): Option<MatrixDoc> {
    if m.Some? then Some(MatrixDoc(Some(m.value.to))) else None
  }

  /** Every field written out under its document key. */
  function DumpConfig(c: VoipTestConfig): (d: ConfigDoc)
    ensures d.call.Some?
  {
    ConfigDoc(Some(c.version), Some(c.name), Some(DumpTarget(c.target)), Some(DumpAccounts(c.accounts)),
              Some(DumpCall(c.call)), Some(DumpExpect(c.expectation)), DumpMatrix(c.matrix))
  }

  lemma {:induction false} AccountsRoundTrip(a: Accounts)
    requires ValidAccounts(a)
    ensures LoadAccounts(DumpAccounts(a)) == Success(a)
  {
    var d := DumpAccounts(a);
    assert OptionalAccount(d, "caller") == Success(a.caller);
    assert OptionalAccount(d, "callee") == Success(a.callee);
    assert ExtraEntries(d) == a.extra;
  }

  /** Loading what was dumped gives back the same record: the reload that matrix
      expansion performs cannot fail on an unmodified dump. */
  lemma {:induction false} ConfigRoundTrip(c: VoipTestConfig)
    requires Valid(c)
    ensures LoadConfig(DumpConfig(c)) == Success(c)
  {
    AccountsRoundTrip(c.accounts);
    TransportLiteralRoundTrip(c.target.transport);
    OutcomeLiteralRoundTrip(c.expectation.outcome);
  }

  /** After a successful load, a name resolves exactly when it is `caller` or `callee` and the
      document has an entry for it; the extra entries the load keeps never resolve. */
  lemma LookupAfterLoad(d: AccountsDoc, name: string)
    requires LoadAccounts(d).Success?
    ensures ValidAccounts(LoadAccounts(d).value)
    ensures Lookup(LoadAccounts(d).value, name).Some? <==> name in {"caller", "callee"} && name in d.entries
    ensures name in d.entries && name !in {"caller", "callee"} ==>
      name in LoadAccounts(d).value.extra && Lookup(LoadAccounts(d).value, name).None?
  {
  }
}

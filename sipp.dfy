/** The SIPp engine of voiptest/engines/sipp.py: scanning the message trace for the final
    SIP response code, the reason and outcome classification, the expectation check, the
    SIPp command line and injection file, and the assembly of one test result. The
    subprocess, the temporary directory, the files and the clock are inputs. */
module Sipp {
  import opened Wrappers
  import opened Text
  import opened Config

  // ---------------------------------------------------------------------------
  // Scanning the message trace: re.finditer(r"SIP/2\.0\s+(\d{3})\s+", log)
  // ---------------------------------------------------------------------------

  /** The characters `\s` matches, restricted to ASCII: space, tab, line feed, vertical tab,
      form feed, carriage return and the separators 0x1C to 0x1F. */
  predicate IsSpace(c: char) {
    var n := c as int;
    n == 32 || 9 <= n <= 13 || 28 <= n <= 31
  }

  /** Where the greedy run of whitespace starting at `i` ends. */
  function SpaceRunEnd(s: string, i: nat): (j: nat)
    requires i <= |s|
    ensures i <= j <= |s|
    ensures forall k | i <= k < j :: IsSpace(s[k])
    ensures j < |s| ==> !IsSpace(s[j])
    decreases |s| - i
  {
    if i < |s| && IsSpace(s[i]) then SpaceRunEnd(s, i + 1) else i
  }

  const SIP_VERSION: string := "SIP/2.0"

  /** `int()` of the three digits at `j`. */
  function CodeAt(s: string, j: nat): (code: int)
    requires j + 3 <= |s| && IsDigit(s[j]) && IsDigit(s[j + 1]) && IsDigit(s[j + 2])
    ensures AllDigits(s[j..j + 3]) && code == DigitsValue(s[j..j + 3])
    ensures 0 <= code <= 999
  {
    var d := s[j..j + 3];
    assert d[..2] == [s[j], s[j + 1]] by {
      assert |d[..2]| == 2 && d[..2][0] == s[j] && d[..2][1] == s[j + 1];
    }
    assert d[..2][..1] == [s[j]];
    assert [s[j]][..0] == [];
    assert DigitsValue(d[..2][..1]) == DigitValue(s[j]);
    assert DigitsValue(d[..2]) == 10 * DigitValue(s[j]) + DigitValue(s[j + 1]);
    100 * DigitValue(s[j]) + 10 * DigitValue(s[j + 1]) + DigitValue(s[j + 2])
  }

  /** The shape of a match: "SIP/2.0" at `i`, a run of whitespace up to `j`, three digits
      spelling `code`, and a run of whitespace ending at `k` and not followed by more. */
  predicate MatchShape(s: string, i: nat, j: nat, k: nat, code: int) {
    && i + |SIP_VERSION| < j && j + 3 < k <= |s|
    && s[i..i + |SIP_VERSION|] == SIP_VERSION
    && (forall n | i + |SIP_VERSION| <= n < j :: IsSpace(s[n]))
    && AllDigits(s[j..j + 3]) && code == DigitsValue(s[j..j + 3])
    && (forall n | j + 3 <= n < k :: IsSpace(s[n]))
    && (k < |s| ==> !IsSpace(s[k]))
  }

  /** The match of the status-line pattern that starts exactly at `i`, if there is one: its
      captured code and the index just past it. Both whitespace runs are greedy, and the
      three digits must be followed by whitespace, so a four-digit number does not match. */
  function MatchAt(s: string, i: nat): (m: Option<(int, nat)>)
    requires i <= |s|
    ensures m.Some? ==> i < m.value.1 <= |s| && 0 <= m.value.0 <= 999
    ensures m.Some? ==> exists j | i + |SIP_VERSION| < j < m.value.1 :: MatchShape(s, i, j, m.value.1, m.value.0)
  {
    if i + |SIP_VERSION| > |s| || s[i..i + |SIP_VERSION|] != SIP_VERSION then None
    else
      var j := SpaceRunEnd(s, i + |SIP_VERSION|);
      if j == i + |SIP_VERSION| || j + 3 > |s| || !(IsDigit(s[j]) && IsDigit(s[j + 1]) && IsDigit(s[j + 2])) then None
      else
        var k := SpaceRunEnd(s, j + 3);
        if k == j + 3 then None
        else
          assert MatchShape(s, i, j, k, CodeAt(s, j));
          Some((CodeAt(s, j), k))
  }

  /** The codes of all non-overlapping matches from `i` on, left to right; after a match the
      search resumes where it ended. */
  function SipCodesFrom(s: string, i: nat): (codes: seq<int>)
    requires i <= |s|
    ensures forall k | 0 <= k < |codes| :: 0 <= codes[k] <= 999
    decreases |s| - i
  {
    if i == |s| then []
    else match MatchAt(s, i)
      case Some((code, next)) => [code] + SipCodesFrom(s, next)
      case None => SipCodesFrom(s, i + 1)
  }

  function SipCodes(messageLog: string): seq<int> {
    SipCodesFrom(messageLog, 0)
  }

  /** A status line "SIP/2.0", one blank, three digits and one blank, not followed by more
      whitespace, matches with the code its digits spell, ending just past the blank. */
  lemma StatusLineMatches(s: string, i: nat)
    requires i + 12 <= |s| && s[i..i + 7] == SIP_VERSION
    requires IsSpace(s[i + 7]) && IsDigit(s[i + 8]) && IsDigit(s[i + 9]) && IsDigit(s[i + 10])
    requires IsSpace(s[i + 11]) && (i + 12 < |s| ==> !IsSpace(s[i + 12]))
    ensures MatchAt(s, i) == Some((CodeAt(s, i + 8), i + 12))
  {
    assert SpaceRunEnd(s, i + 8) == i + 8;
    assert SpaceRunEnd(s, i + 7) == i + 8;
    assert SpaceRunEnd(s, i + 12) == i + 12;
    assert SpaceRunEnd(s, i + 11) == i + 12;
  }

  /** A trace in which "SIP/2.0" never occurs yields no code at all. */
  lemma {:induction false} NoVersionNoCodes(s: string, i: nat)
    requires i <= |s| && !Contains(s, SIP_VERSION)
    ensures SipCodesFrom(s, i) == []
    decreases |s| - i
  {
    if i < |s| {
      if i + |SIP_VERSION| <= |s| {
        assert !OccursAt(s, SIP_VERSION, i);
      }
      assert MatchAt(s, i).None?;
      NoVersionNoCodes(s, i + 1);
    }
  }

  /** A stretch of trace without an `S` holds no status line, so it yields no code. */
  lemma {:induction false} NoStatusFromHere(s: string, i: nat)
    requires i <= |s| && forall k | i <= k < |s| :: s[k] != 'S'
    ensures SipCodesFrom(s, i) == []
    decreases |s| - i
  {
    if i < |s| {
      if i + |SIP_VERSION| <= |s| {
        assert s[i..i + |SIP_VERSION|][0] == s[i];
      }
      assert MatchAt(s, i).None?;
      NoStatusFromHere(s, i + 1);
    }
  }

  /** A trace holding one status line, "SIP/2.0", a blank, three digits, a blank and a reason
      phrase, yields exactly the code its digits spell. */
  lemma StatusLineTrace(d: string, phrase: string)
    requires |d| == 3 && AllDigits(d)
    requires phrase != [] && !IsSpace(phrase[0]) && 'S' !in phrase
    ensures SipCodes(SIP_VERSION + " " + d + " " + phrase + "\r\n") == [DigitsValue(d)]
  {
    var t := SIP_VERSION + " " + d + " " + phrase + "\r\n";
    assert t[0..7] == SIP_VERSION;
    assert t[8..11] == d;
    assert t[7] == ' ' && t[11] == ' ' && t[12] == phrase[0];
    assert IsDigit(t[8]) && IsDigit(t[9]) && IsDigit(t[10]) by {
      assert t[8] == d[0] && t[9] == d[1] && t[10] == d[2];
    }
    StatusLineMatches(t, 0);
    forall k | 12 <= k < |t|
      ensures t[k] != 'S'
    {
      if k < 12 + |phrase| {
        assert t[k] == phrase[k - 12];
      }
    }
    NoStatusFromHere(t, 12);
  }

  /** A whitespace stretch that stops before a non-space ends the greedy run exactly there. */
  lemma {:induction false} SpaceRunEndsAt(s: string, a: nat, j: nat)
    requires a <= j <= |s|
    requires forall n | a <= n < j :: IsSpace(s[n])
    requires j < |s| ==> !IsSpace(s[j])
    ensures SpaceRunEnd(s, a) == j
    decreases j - a
  {
    if a < j {
      SpaceRunEndsAt(s, a + 1, j);
    }
  }

  /** Every occurrence of the pattern's shape at `i` is the match found there: `MatchAt` is
      complete as well as sound. */
  lemma MatchAtComplete(s: string, i: nat, j: nat, k: nat, code: int)
    requires MatchShape(s, i, j, k, code)
    ensures MatchAt(s, i) == Some((code, k))
  {
    assert !IsSpace(s[j]) by {
      assert s[j..j + 3][0] == s[j];
    }
    SpaceRunEndsAt(s, i + |SIP_VERSION|, j);
    assert IsDigit(s[j]) && IsDigit(s[j + 1]) && IsDigit(s[j + 2]) by {
      assert s[j..j + 3][0] == s[j] && s[j..j + 3][1] == s[j + 1] && s[j..j + 3][2] == s[j + 2];
    }
    SpaceRunEndsAt(s, j + 3, k);
  }

  /** Positions where no match starts are passed over: the scan goes on from the next one. */
  lemma {:induction false} SkipNonMatches(s: string, i: nat, p: nat)
    requires i <= p <= |s|
    requires forall k | i <= k < p :: MatchAt(s, k).None?
    ensures SipCodesFrom(s, i) == SipCodesFrom(s, p)
    decreases p - i
  {
    if i < p {
      assert MatchAt(s, i).None?;
      SkipNonMatches(s, i + 1, p);
    }
  }

  /** The first match at or after `i` gives the first code, and the scan resumes where that
      match ends, so every match is reported, in order. */
  lemma NextMatch(s: string, i: nat, p: nat, code: int, q: nat)
    requires i <= p <= |s|
    requires forall k | i <= k < p :: MatchAt(s, k).None?
    requires MatchAt(s, p) == Some((code, q))
    ensures SipCodesFrom(s, i) == [code] + SipCodesFrom(s, q)
  {
    SkipNonMatches(s, i, p);
  }

  /** A stretch without an `S` starts no match. */
  lemma NoMatchWithoutS(s: string, i: nat, p: nat)
    requires i <= p <= |s| && 'S' !in s[i..p]
    ensures forall k | i <= k < p :: MatchAt(s, k).None?
  {
    forall k | i <= k < p
      ensures MatchAt(s, k).None?
    {
      assert s[i..p][k - i] == s[k];
      if k + |SIP_VERSION| <= |s| {
        assert s[k..k + |SIP_VERSION|][0] == s[k];
      }
    }
  }

  /** A status line at `p` (version, one blank, three digits, one blank, then no whitespace)
      is the match there, with the code its digits spell. */
  lemma StatusLineAt(s: string, p: nat, d: string)
    requires |d| == 3 && AllDigits(d) && p + 12 < |s|
    requires s[p..p + 7] == SIP_VERSION && s[p + 7] == ' ' && s[p + 8..p + 11] == d && s[p + 11] == ' '
    requires !IsSpace(s[p + 12])
    ensures MatchAt(s, p) == Some((DigitsValue(d), p + 12))
  {
    assert MatchShape(s, p, p + 8, p + 12, DigitsValue(d)) by {
      forall n | p + |SIP_VERSION| <= n < p + 8 ensures IsSpace(s[n]) { }
      forall n | p + 11 <= n < p + 12 ensures IsSpace(s[n]) { }
    }
    MatchAtComplete(s, p, p + 8, p + 12, DigitsValue(d));
  }

  const INVITE_LINE: string := "INVITE sip:x SIP/2.0\r\n"
  const OK_LINE: string := "SIP/2.0 200 OK\r\n"
  const TERMINATED_LINE: string := "SIP/2.0 487 Request Terminated\r\n"
  const INVITE_OK_TERMINATED: string := INVITE_LINE + OK_LINE + TERMINATED_LINE

  /** Where the three lines of the example log sit. */
  lemma TraceLines()
    ensures |INVITE_OK_TERMINATED| == 70
    ensures INVITE_OK_TERMINATED[..22] == INVITE_LINE
    ensures INVITE_OK_TERMINATED[22..38] == OK_LINE
    ensures INVITE_OK_TERMINATED[38..] == TERMINATED_LINE
  {
    var t := INVITE_OK_TERMINATED;
    assert t == INVITE_LINE + OK_LINE + TERMINATED_LINE;
    assert |INVITE_LINE| == 22 && |OK_LINE| == 16 && |TERMINATED_LINE| == 32;
  }

  /** The request line's "SIP/2.0" at offset 13 is followed by the line break and then a
      letter, not digits, so it is no match. */
  lemma RequestLineIsNoMatch(t: string)
    requires |t| >= 25 && t[..22] == INVITE_LINE && t[22] == 'S'
    ensures forall k | 0 <= k < 22 :: MatchAt(t, k).None?
  {
    assert t[..13] == "INVITE sip:x ";
    assert 'S' !in t[0..13];
    NoMatchWithoutS(t, 0, 13);
    assert t[14..22] == "IP/2.0\r\n";
    assert 'S' !in t[14..22];
    NoMatchWithoutS(t, 14, 22);
    assert t[13..20] == SIP_VERSION;
    assert IsSpace(t[20]) && IsSpace(t[21]);
    SpaceRunEndsAt(t, 20, 22);
    assert !IsDigit(t[22]);
    assert MatchAt(t, 13).None?;
  }

  /** The 200 OK line at offset 22 matches with 200, and nothing after its code starts a match. */
  lemma OkLineMatches(t: string)
    requires |t| > 38 && t[22..38] == OK_LINE
    ensures MatchAt(t, 22) == Some((200, 34))
    ensures forall k | 34 <= k < 38 :: MatchAt(t, k).None?
  {
    var line := t[22..38];
    assert t[22..29] == line[..7] == SIP_VERSION;
    assert t[29] == line[7] == ' ' && t[33] == line[11] == ' ' && t[34] == line[12];
    assert t[30] == line[8] == '2' && t[31] == line[9] == '0' && t[32] == line[10] == '0';
    assert t[30..33] == "200";
    assert DigitsValue("200") == 200 by { assert "200"[..2] == "20" && "20"[..1] == "2"; }
    StatusLineAt(t, 22, "200");
    assert t[34..38] == line[12..] == "OK\r\n";
    NoMatchWithoutS(t, 34, 38);
  }

  /** The 487 line at offset 38 matches with 487, and nothing after it yields a code. */
  lemma TerminatedLineMatches(t: string)
    requires |t| == 70 && t[38..] == TERMINATED_LINE
    ensures MatchAt(t, 38) == Some((487, 50))
    ensures SipCodesFrom(t, 50) == []
  {
    var line := t[38..];
    assert t[38..45] == line[..7] == SIP_VERSION;
    assert t[45] == line[7] == ' ' && t[49] == line[11] == ' ' && t[50] == line[12];
    assert t[46] == line[8] == '4' && t[47] == line[9] == '8' && t[48] == line[10] == '7';
    assert t[46..49] == "487";
    assert DigitsValue("487") == 487 by { assert "487"[..2] == "48" && "48"[..1] == "4"; }
    StatusLineAt(t, 38, "487");
    assert line[12..] == "Request Terminated\r\n";
    forall k | 50 <= k < |t| ensures t[k] != 'S' {
      assert t[k] == line[12..][k - 50];
    }
    NoStatusFromHere(t, 50);
  }

  /** Last wins on a message log: after a request line that mentions "SIP/2.0", a 200 OK and
      then a 487 are both found, in order, and the 487 is the final code. */
  lemma LastWinsOnTrace()
    ensures SipCodes(INVITE_OK_TERMINATED) == [200, 487]
    ensures FinalCode(SipCodes(INVITE_OK_TERMINATED)) == Some(487)
  {
    var t := INVITE_OK_TERMINATED;
    TraceLines();
    assert t[22] == OK_LINE[0];
    RequestLineIsNoMatch(t);
    OkLineMatches(t);
    TerminatedLineMatches(t);
    NextMatch(t, 0, 22, 200, 34);
    NextMatch(t, 34, 38, 487, 50);
    LastWinsExamples();
  }

  /** The last code that is at least 200; provisional codes never replace it. */
  function FinalCode(codes: seq<int>): Option<int> {
    if codes == [] then None
    else if codes[|codes| - 1] >= 200 then Some(codes[|codes| - 1])
    else FinalCode(codes[..|codes| - 1])
  }

  /** `FinalCode` is none exactly when every code is provisional (below 200), and otherwise
      the code at some position that is at least 200 with only provisional codes after it. */
  lemma {:induction false} FinalCodeIsLastFinal(codes: seq<int>)
    ensures FinalCode(codes).None? <==> forall k | 0 <= k < |codes| :: codes[k] < 200
    ensures FinalCode(codes).Some? ==>
      exists k | 0 <= k < |codes| ::
        && codes[k] == FinalCode(codes).value
        && codes[k] >= 200
        && forall j | k < j < |codes| :: codes[j] < 200
  {
    if codes != [] && codes[|codes| - 1] < 200 {
      var init := codes[..|codes| - 1];
      FinalCodeIsLastFinal(init);
      if FinalCode(init).Some? {
        var k :| 0 <= k < |init| && init[k] == FinalCode(init).value && init[k] >= 200
                 && forall j | k < j < |init| :: init[j] < 200;
        assert codes[k] == init[k];
      }
    }
  }

  /** A provisional response after the trace leaves the final code unchanged. */
  lemma AppendProvisional(codes: seq<int>, code: int)
    requires code < 200
    ensures FinalCode(codes + [code]) == FinalCode(codes)
  {
    assert (codes + [code])[..|codes|] == codes;
  }

  /** A response of 200 or more after the trace becomes the final code, even after an
      earlier final one. */
  lemma AppendFinal(codes: seq<int>, code: int)
    requires code >= 200
    ensures FinalCode(codes + [code]) == Some(code)
  {
  }

  /** Last wins: 183 then 200 gives 200, and 200 then 487 gives 487. */
  lemma LastWinsExamples()
    ensures FinalCode([183, 200]) == Some(200)
    ensures FinalCode([200, 487]) == Some(487)
    ensures FinalCode([100, 180, 183]) == None
  {
    AppendFinal([183], 200);
    AppendFinal([200], 487);
    AppendProvisional([100, 180], 183);
  }

  /** The scan as the source writes it: walk the matches, keeping the last code of 200 or more. */
  method ExtractFinalSipCode(messageLog: string) returns (finalCode: Option<int>)
    ensures finalCode == FinalCode(SipCodes(messageLog))
    ensures finalCode.None? <==> forall k | 0 <= k < |SipCodes(messageLog)| :: SipCodes(messageLog)[k] < 200
    ensures finalCode.Some? ==> 200 <= finalCode.value <= 999
  {
    var matches := SipCodes(messageLog);
    finalCode := None;
    var i := 0;
    while i < |matches|
      invariant 0 <= i <= |matches|
      invariant finalCode == FinalCode(matches[..i])
    {
      var code := matches[i];
      assert matches[..i + 1] == matches[..i] + [code];
      if code >= 200 {
        AppendFinal(matches[..i], code);
        finalCode := Some(code);
      } else {
        AppendProvisional(matches[..i], code);
      }
      i := i + 1;
    }
    assert matches[..i] == matches;
    FinalCodeIsLastFinal(matches);
    if finalCode.Some? {
      var k :| 0 <= k < |matches| && matches[k] == finalCode.value && matches[k] >= 200;
    }
  }

  // ---------------------------------------------------------------------------
  // Raw result of one SIPp run
  // ---------------------------------------------------------------------------

  /** The captured logs, or only the temporary directory when SIPp did not complete. */
  datatype Logs =
    | Captured(stdout: string, stderr: string, messageLog: string, errorLog: string, tempDir: string)
    | TempDirOnly(tempDir: string)

  datatype SippResult = SippResult(finalCode: Option<int>, reason: string, logs: Logs, exitCode: int)

  const SUCCESS: string := "success"
  const FAILURE: string := "failure"
  const TIMEOUT: string := "timeout"

  // ---------------------------------------------------------------------------
  // Outcome classification
  // ---------------------------------------------------------------------------

  predicate MentionsTimeout(s: string) {
    Contains(Lower(s), "timeout")
  }

  /** Classifies a raw run. A reason mentioning a timeout (in any letter case) wins over every
      code and exit code; otherwise a 2xx code is a success and a 4xx to 6xx code a failure;
      otherwise (no code, or a code outside those ranges such as 3xx) the exit code decides.
      The result is one of the three outcome strings, never "error". */
  function DetermineOutcome(s: SippResult): (r: string)
    ensures r in {SUCCESS, FAILURE, TIMEOUT}
    ensures MentionsTimeout(s.reason) ==> r == TIMEOUT
    ensures r == TIMEOUT ==> MentionsTimeout(s.reason)
  {
    if MentionsTimeout(s.reason) then TIMEOUT
    else if s.finalCode.Some? && 200 <= s.finalCode.value < 300 then SUCCESS
    else if s.finalCode.Some? && 400 <= s.finalCode.value < 700 then FAILURE
    else if s.exitCode == 0 then SUCCESS
    else FAILURE
  }

  /** The outcome depends only on the reason, the final code and the exit code, not on the logs. */
  lemma OutcomeIgnoresLogs(s: SippResult, logs: Logs)
    ensures DetermineOutcome(s.(logs := logs)) == DetermineOutcome(s)
  {
  }

  /** Away from timeouts: 2xx gives success and 4xx to 6xx failure whatever the exit code;
      with no such code the exit code decides. A busy 486 is a plain failure. */
  lemma OutcomeLadder(s: SippResult)
    requires !MentionsTimeout(s.reason)
    ensures s.finalCode.Some? && 200 <= s.finalCode.value < 300 ==> DetermineOutcome(s) == SUCCESS
    ensures s.finalCode.Some? && 400 <= s.finalCode.value < 700 ==> DetermineOutcome(s) == FAILURE
    ensures !(s.finalCode.Some? && (200 <= s.finalCode.value < 300 || 400 <= s.finalCode.value < 700)) ==>
      (DetermineOutcome(s) == SUCCESS <==> s.exitCode == 0)
    ensures s.finalCode == Some(486) ==> DetermineOutcome(s) == FAILURE
  {
  }

  // ---------------------------------------------------------------------------
  // Expectation check
  // ---------------------------------------------------------------------------

  /** The observed side of a run. */
  datatype Actual = Actual(outcome: string, sipCode: Option<int>, answerTimeS: Option<real>, durationS: real)

  /** The branches for an expected outcome, as written: they test the expected literal against
      "success", "failure" and "timeout". */
  predicate OutcomeBranchFails(wanted: string, observed: string) {
    if wanted == SUCCESS then observed != SUCCESS
    else if wanted == FAILURE then observed == SUCCESS
    else if wanted == TIMEOUT then observed != TIMEOUT
    else false
  }

  /** True iff no outcome branch fails and, when a final code is expected, the observed code
      is exactly that code. The timing fields play no part. Because an expected outcome is one
      of `answered`, `failed`, `busy`, `no_answer`, no branch can fire, and the verdict is
      "no expected code, or the observed code equals it". */
  function CheckExpectations(e: Expect, actual: Actual): (ok: bool)
    ensures !ok <==>
      || OutcomeBranchFails(OutcomeLiteral(e.outcome), actual.outcome)
      || (e.finalSipCode.Some? && actual.sipCode != e.finalSipCode)
    ensures ok <==> e.finalSipCode.None? || actual.sipCode == e.finalSipCode
  {
    if OutcomeBranchFails(OutcomeLiteral(e.outcome), actual.outcome) then false
    else if e.finalSipCode.Some? && actual.sipCode != e.finalSipCode then false
    else true
  }

  /** The branch guards can only fire for the three literals they name. */
  lemma OutcomeBranchOnlyForEngineLiterals(wanted: string, observed: string)
    requires OutcomeBranchFails(wanted, observed)
    ensures wanted in {SUCCESS, FAILURE, TIMEOUT}
  {
  }

  // ---------------------------------------------------------------------------
  // Injection file
  // ---------------------------------------------------------------------------

  /** `str(e)` of the AttributeError raised when the caller account is absent. */
  const NO_CALLER_PASSWORD: string := "'NoneType' object has no attribute 'password'"
  const SEQUENTIAL_LINE: string := "SEQUENTIAL\n"

  datatype InjectionRow = InjectionRow(to: string, from: string, domain: string, password: string)

  /** `uri.replace("sip:", "").split("@")[0]`: a single left-to-right removal of `sip:`,
      then everything before the first `@`. */
  function UserPart(uri: string): (r: string)
    ensures '@' !in r
    ensures |r| <= |RemoveAll(uri, "sip:")| && r == RemoveAll(uri, "sip:")[..|r|]
    ensures '@' !in RemoveAll(uri, "sip:") ==> r == RemoveAll(uri, "sip:")
    ensures '@' in RemoveAll(uri, "sip:") ==>
      |r| < |RemoveAll(uri, "sip:")| && RemoveAll(uri, "sip:")[|r|] == '@'
  {
    var stripped := RemoveAll(uri, "sip:");
    SplitPiecesLackSeparator(stripped, '@');
    SplitFirstIsPrefix(stripped, '@');
    if '@' !in stripped then SplitWithoutSeparator(stripped, '@'); Split(stripped, '@')[0]
    else SplitFirstEndsAtSeparator(stripped, '@'); Split(stripped, '@')[0]
  }

  lemma RemoveSipExamples()
    ensures RemoveAll("sip:1000@pbx", "sip:") == "1000@pbx"
    ensures RemoveAll("callee", "sip:") == "callee"
  {
    var pat := "sip:";
    assert "sip:1000@pbx" == pat + "1000@pbx";
    RemoveAllLeadingPattern(pat, "1000@pbx");
    assert 's' !in "1000@pbx";
    AbsentFirstCharNoOccurrence("1000@pbx", pat);
    RemoveAllWithoutPattern("1000@pbx", pat);
    assert 's' !in "callee";
    AbsentFirstCharNoOccurrence("callee", pat);
    RemoveAllWithoutPattern("callee", pat);
  }

  /** A `sip:` URI gives its user part, and a plain extension or account key stays as it is. */
  lemma UserPartExamples()
    ensures UserPart("sip:1000@pbx") == "1000"
    ensures UserPart("callee") == "callee"
  {
    RemoveSipExamples();
    var r := UserPart("sip:1000@pbx");
    assert "1000@pbx"[4] == '@';
    assert forall k | 0 <= k < 4 :: "1000@pbx"[k] != '@';
    assert |r| == 4;
    assert '@' !in "callee";
  }

  /** The removal is one pass: what is left may again spell `sip:`. */
  lemma UserPartIsOnePass()
    ensures UserPart("ssip:ip:") == "sip:"
  {
    var pat := "sip:";
    assert RemoveAll("", pat) == "";
    assert RemoveAll(":", pat) == ":";
    assert RemoveAll("p:", pat) == "p:";
    assert RemoveAll("ip:", pat) == "ip:";
    assert "sip:ip:"[..4] == pat && "sip:ip:"[4..] == "ip:";
    assert RemoveAll("sip:ip:", pat) == "ip:";
    assert "ssip:ip:"[..4][1] != pat[1];
    assert "ssip:ip:"[1..] == "sip:ip:";
    assert RemoveAll("ssip:ip:", pat) == "sip:";
  }

  /** `target.domain or target.host`: an absent or empty domain falls back to the host. */
  function InjectionDomain(t: Target): string {
    if t.domain.Some? && t.domain.value != "" then t.domain.value else t.host
  }

  /** The four fields of the data row. `call.from` and `call.to` are used as written (account
      keys are not resolved). Reading the caller's password fails when there is no caller. */
  function Injection(c: VoipTestConfig): (r: Result<InjectionRow, string>)
    ensures r.Failure? <==> c.accounts.caller.None?
    ensures r.Failure? ==> r.error == NO_CALLER_PASSWORD
    ensures r.Success? ==>
      && '@' !in r.value.to && '@' !in r.value.from
      && r.value.to == UserPart(c.call.to)
      && r.value.from == UserPart(c.call.fromKey)
      && r.value.domain == (if c.target.domain.Some? && c.target.domain.value != "" then c.target.domain.value else c.target.host)
      && r.value.password == c.accounts.caller.value.password
  {
    var to := UserPart(c.call.to);
    var from := UserPart(c.call.fromKey);
    var domain := InjectionDomain(c.target);
    if c.accounts.caller.None? then Failure(NO_CALLER_PASSWORD)
    else
      // `password or ""`: the password is a string, so this is the password itself
      Success(InjectionRow(to, from, domain, c.accounts.caller.value.password))
  }

  function RowFields(row: InjectionRow): seq<string> {
    [row.to, row.from, row.domain, row.password]
  }

  /** Fields the semicolon writer copies verbatim (no quoting is triggered). */
  predicate PlainField(f: string) {
    ';' !in f && '"' !in f && '\r' !in f && '\n' !in f
  }

  predicate PlainRow(row: InjectionRow) {
    PlainField(row.to) && PlainField(row.from) && PlainField(row.domain) && PlainField(row.password)
  }

  /** The file: the mode line, then one `;`-separated row ended by CR LF. */
  function InjectionText(row: InjectionRow): (r: string)
    requires PlainRow(row)
    ensures |r| >= |SEQUENTIAL_LINE| + |row.to| + 3
    ensures r[..|SEQUENTIAL_LINE|] == SEQUENTIAL_LINE && r[|r| - 2..] == "\r\n"
    ensures r[|SEQUENTIAL_LINE|..|SEQUENTIAL_LINE| + |row.to|] == row.to
    ensures r[|SEQUENTIAL_LINE| + |row.to|] == ';'
  {
    SEQUENTIAL_LINE + Join(RowFields(row), ';') + "\r\n"
  }

  /** How the file reads back: a mode line, then exactly four `;`-separated fields. */
  function ParseInjection(text: string): Option<InjectionRow> {
    if |text| < |SEQUENTIAL_LINE| + 2 || text[..|SEQUENTIAL_LINE|] != SEQUENTIAL_LINE
       || text[|text| - 2..] != "\r\n" then None
    else
      var fields := Split(text[|SEQUENTIAL_LINE|..|text| - 2], ';');
      if |fields| == 4 then Some(InjectionRow(fields[0], fields[1], fields[2], fields[3])) else None
  }

  /** The written file carries exactly the four fields, in order. */
  lemma {:induction false} InjectionRoundTrip(row: InjectionRow)
    requires PlainRow(row)
    ensures ParseInjection(InjectionText(row)) == Some(row)
  {
    var line := Join(RowFields(row), ';');
    var text := InjectionText(row);
    assert text[..|SEQUENTIAL_LINE|] == SEQUENTIAL_LINE;
    assert text[|text| - 2..] == "\r\n";
    assert text[|SEQUENTIAL_LINE|..|text| - 2] == line;
    SplitJoin(RowFields(row), ';');
  }

  // ---------------------------------------------------------------------------
  // Command line
  // ---------------------------------------------------------------------------

  /** The files of one run: the scenario template and the three files in the run's directory. */
  datatype Paths = Paths(scenario: string, injection: string, messageLog: string, errorLog: string)

  function RunPaths(tempDir: string, scenario: string): Paths {
    Paths(scenario, tempDir + "/inject.csv", tempDir + "/messages.log", tempDir + "/errors.log")
  }

  function TransportFlags(t: Transport): seq<string> {
    match t
    case Udp => []
    case Tcp => ["-t", "t1"]
    case Tls => ["-t", "l1"]
  }

  predicate HasCredentials(a: Account) {
    a.username != "" && a.password != ""
  }

  function AuthFlags(a: Account): seq<string> {
    if HasCredentials(a) then ["-au", a.username, "-ap", a.password] else []
  }

  /** The fixed part: host, local address and port, files, one call at rate one, the setup
      timeout treated as an error, tracing, no default behaviour. */
  function BaseFlags(c: VoipTestConfig, p: Paths): seq<string> {
    ["sipp", c.target.host,
     "-i", "127.0.0.1", "-p", "5070",
     "-sf", p.scenario, "-inf", p.injection,
     "-m", "1", "-l", "1", "-r", "1",
     "-timeout", IntToString(c.call.timeoutS),
     "-timeout_error", "-trace_msg", "-trace_err", "-nd"]
  }

  function RemoteFlags(t: Target): seq<string> {
    ["-rsa", t.host + ":" + IntToString(t.port)]
  }

  function LogFlags(p: Paths): seq<string> {
    ["-message_file", p.messageLog, "-error_file", p.errorLog]
  }

  /** The argument vector handed to the subprocess. */
  function SippCommand(c: VoipTestConfig, caller: Account, p: Paths): seq<string> {
    BaseFlags(c, p) + TransportFlags(c.target.transport) + RemoteFlags(c.target)
      + AuthFlags(caller) + LogFlags(p)
  }

  /** Shape of the command: `sipp` and the host first, one call, the configured timeout, the
      transport flag only for tcp and tls, the remote route always, credentials exactly when
      both username and password are non-empty, the two trace files last. */
  lemma CommandShape(c: VoipTestConfig, caller: Account, p: Paths)
    ensures var cmd := SippCommand(c, caller, p);
      && var t := 22 + |TransportFlags(c.target.transport)|;
      && |cmd| == t + 2 + |AuthFlags(caller)| + 4
      && cmd[0] == "sipp" && cmd[1] == c.target.host
      && cmd[10] == "-m" && cmd[11] == "1"
      && cmd[16] == "-timeout" && cmd[17] == IntToString(c.call.timeoutS)
      && (c.target.transport == Udp ==> t == 22)
      && (c.target.transport == Tcp ==> t == 24 && cmd[22] == "-t" && cmd[23] == "t1")
      && (c.target.transport == Tls ==> t == 24 && cmd[22] == "-t" && cmd[23] == "l1")
      && cmd[t] == "-rsa" && cmd[t + 1] == c.target.host + ":" + IntToString(c.target.port)
      && (|AuthFlags(caller)| == 4 <==> HasCredentials(caller))
      && (HasCredentials(caller) ==>
            cmd[t + 2] == "-au" && cmd[t + 3] == caller.username
            && cmd[t + 4] == "-ap" && cmd[t + 5] == caller.password)
      && cmd[|cmd| - 4] == "-message_file" && cmd[|cmd| - 3] == p.messageLog
      && cmd[|cmd| - 2] == "-error_file" && cmd[|cmd| - 1] == p.errorLog
  {
  }

  /** The command as the source builds it, by appending to a list. */
  method BuildCommand(c: VoipTestConfig, p: Paths) returns (cmd: seq<string>)
    requires c.accounts.caller.Some?
    ensures cmd == SippCommand(c, c.accounts.caller.value, p)
  {
    cmd := BaseFlags(c, p);
    if c.target.transport == Tcp {
      cmd := cmd + ["-t"];
      cmd := cmd + ["t1"];
    } else if c.target.transport == Tls {
      cmd := cmd + ["-t"];
      cmd := cmd + ["l1"];
    }
    assert cmd == BaseFlags(c, p) + TransportFlags(c.target.transport);
    cmd := cmd + ["-rsa", c.target.host + ":" + IntToString(c.target.port)];
    var caller := c.accounts.caller.value;
    if caller.username != "" && caller.password != "" {
      cmd := cmd + ["-au", caller.username];
      cmd := cmd + ["-ap", caller.password];
    }
    assert cmd == BaseFlags(c, p) + TransportFlags(c.target.transport) + RemoteFlags(c.target) + AuthFlags(caller);
    cmd := cmd + ["-message_file", p.messageLog];
    cmd := cmd + ["-error_file", p.errorLog];
  }

  // ---------------------------------------------------------------------------
  // The reason ladder and one run
  // ---------------------------------------------------------------------------

  predicate TimeoutMentioned(stderr: string, errorLog: string) {
    MentionsTimeout(stderr) || MentionsTimeout(errorLog)
  }

  /** The reason for a completed run: exit 0 is "success" whatever the trace shows; otherwise
      a timeout mentioned on stderr or in the error log is "timeout"; otherwise a final code of
      400 or more is "SIP error <code>"; otherwise "SIPp exit code <n>". */
  predicate ReasonLadder(reason: string, returnCode: int, stderr: string, errorLog: string, finalCode: Option<int>) {
    if returnCode == 0 then reason == SUCCESS
    else if TimeoutMentioned(stderr, errorLog) then reason == TIMEOUT
    else if finalCode.Some? && finalCode.value >= 400 then reason == "SIP error " + IntToString(finalCode.value)
    else reason == "SIPp exit code " + IntToString(returnCode)
  }

  /** The ladder fixes the reason. */
  lemma ReasonLadderIsFunctional(r1: string, r2: string, returnCode: int, stderr: string, errorLog: string, finalCode: Option<int>)
    requires ReasonLadder(r1, returnCode, stderr, errorLog, finalCode)
    requires ReasonLadder(r2, returnCode, stderr, errorLog, finalCode)
    ensures r1 == r2
  {
  }

  /** The reason as the source computes it: start from "success" and overwrite it. */
  method DetermineReason(returnCode: int, stderr: string, errorLog: string, finalCode: Option<int>) returns (reason: string)
    ensures ReasonLadder(reason, returnCode, stderr, errorLog, finalCode)
  {
    reason := SUCCESS;
    if returnCode != 0 {
      if MentionsTimeout(stderr) || MentionsTimeout(errorLog) {
        reason := TIMEOUT;
      } else if finalCode.Some? && finalCode.value != 0 && finalCode.value >= 400 {
        reason := "SIP error " + IntToString(finalCode.value);
      } else {
        reason := "SIPp exit code " + IntToString(returnCode);
      }
    }
  }

  /** How the subprocess ended: it exited (with its streams and, when SIPp wrote them, the two
      trace files), it overran its time bound, or running it or reading its files raised. */
  datatype ProcessRun =
    | Exited(returnCode: int, stdout: string, stderr: string, messageLog: Option<string>, errorLog: Option<string>)
    | TimedOut
    | Raised(message: string)

  /** What the subprocess is started with. */
  datatype Invocation = Invocation(cmd: seq<string>, cwd: string, timeoutS: int)

  const PROCESS_TIMEOUT_REASON: string := "SIPp process timeout"
  const EXECUTION_ERROR_PREFIX: string := "SIPp execution error: "

  function ErrorResult(reason: string, tempDir: string): SippResult {
    SippResult(None, reason, TempDirOnly(tempDir), -1)
  }

  /** One SIPp run in the directory `tempDir`. The injection file is written first (this fails
      without a caller, or when `writeError` says the write failed); then the scenario template
      must exist; then the command is run with a bound of the setup timeout plus 10 seconds. */
  method RunSipp(
    c: VoipTestConfig, tempDir: string, scenario: string, writeError: Option<string>,
    scenarioExists: bool, process: ProcessRun)
    returns (result: SippResult, invocation: Option<Invocation>)
    ensures c.accounts.caller.None? ==>
      result == ErrorResult(EXECUTION_ERROR_PREFIX + NO_CALLER_PASSWORD, tempDir) && invocation.None?
    ensures c.accounts.caller.Some? && writeError.Some? ==>
      result == ErrorResult(EXECUTION_ERROR_PREFIX + writeError.value, tempDir) && invocation.None?
    ensures c.accounts.caller.Some? && writeError.None? && !scenarioExists ==>
      result == ErrorResult("Scenario file not found: " + scenario, tempDir) && invocation.None?
    ensures c.accounts.caller.Some? && writeError.None? && scenarioExists ==>
      invocation == Some(Invocation(SippCommand(c, c.accounts.caller.value, RunPaths(tempDir, scenario)),
                                    tempDir, c.call.timeoutS + 10))
    ensures invocation.Some? && process.TimedOut? ==> result == ErrorResult(PROCESS_TIMEOUT_REASON, tempDir)
    ensures invocation.Some? && process.Raised? ==>
      result == ErrorResult(EXECUTION_ERROR_PREFIX + process.message, tempDir)
    ensures invocation.Some? && process.Exited? ==>
      && result.finalCode == FinalCode(SipCodes(process.messageLog.GetOr("")))
      && result.exitCode == process.returnCode
      && ReasonLadder(result.reason, process.returnCode, process.stderr, process.errorLog.GetOr(""), result.finalCode)
      && result.logs == Captured(process.stdout, process.stderr, process.messageLog.GetOr(""),
                                 process.errorLog.GetOr(""), tempDir)
    ensures result.finalCode.Some? ==> 200 <= result.finalCode.value <= 999
    ensures result.finalCode.None? && !process.Exited? ==> result.exitCode == -1
  {
    invocation := None;
    var row := Injection(c);
    if row.Failure? {
      result := ErrorResult(EXECUTION_ERROR_PREFIX + row.error, tempDir);
      return;
    }
    if writeError.Some? {
      result := ErrorResult(EXECUTION_ERROR_PREFIX + writeError.value, tempDir);
      return;
    }
    if !scenarioExists {
      result := ErrorResult("Scenario file not found: " + scenario, tempDir);
      return;
    }
    var paths := RunPaths(tempDir, scenario);
    var cmd := BuildCommand(c, paths);
    invocation := Some(Invocation(cmd, tempDir, c.call.timeoutS + 10));
    match process
    case TimedOut =>
      result := ErrorResult(PROCESS_TIMEOUT_REASON, tempDir);
    case Raised(message) =>
      result := ErrorResult(EXECUTION_ERROR_PREFIX + message, tempDir);
    case Exited(returnCode, stdout, stderr, messageFile, errorFile) =>
      var messageLog := messageFile.GetOr("");
      var errorLog := errorFile.GetOr("");
      var finalCode := ExtractFinalSipCode(messageLog);
      var reason := DetermineReason(returnCode, stderr, errorLog, finalCode);
      result := SippResult(finalCode, reason, Captured(stdout, stderr, messageLog, errorLog, tempDir), returnCode);
  }

  /** The reason and the outcome can disagree: SIPp exiting 0 gives the reason "success", yet a
      4xx to 6xx final code in the trace still makes the outcome "failure". */
  lemma CleanExitWithErrorCode(s: SippResult)
    requires ReasonLadder(s.reason, s.exitCode, "", "", s.finalCode)
    requires s.exitCode == 0 && s.finalCode.Some? && 400 <= s.finalCode.value < 700
    ensures s.reason == SUCCESS && DetermineOutcome(s) == FAILURE
  {
    assert Lower(SUCCESS) == SUCCESS;
    assert SUCCESS[0..7] == SUCCESS && SUCCESS[0] != "timeout"[0];
    assert !OccursAt(SUCCESS, "timeout", 0);
  }

  /** A timeout reported by SIPp on a failing exit, or a subprocess that ran out of time,
      both classify as "timeout". */
  lemma TimeoutsClassifyAsTimeout(s: SippResult, stderr: string, errorLog: string)
    requires ReasonLadder(s.reason, s.exitCode, stderr, errorLog, s.finalCode)
    requires s.exitCode != 0 && TimeoutMentioned(stderr, errorLog)
    ensures DetermineOutcome(s) == TIMEOUT
    ensures DetermineOutcome(ErrorResult(PROCESS_TIMEOUT_REASON, s.logs.tempDir)) == TIMEOUT
  {
    assert Lower(TIMEOUT) == TIMEOUT;
    assert OccursAt(Lower(TIMEOUT), "timeout", 0);
    var processReason := Lower(PROCESS_TIMEOUT_REASON);
    assert OccursAt("timeout", "timeout", 0);
    ContainsInContext(processReason[..13], "timeout", [], "timeout");
    assert processReason == processReason[..13] + "timeout" + [];
  }

  // ---------------------------------------------------------------------------
  // One test
  // ---------------------------------------------------------------------------

  /** One test result. `actual` is none for the empty mapping; `durationS` is none when the
      result carries no duration. */
  datatype TestResult = TestResult(
    name: string,
    passed: bool,
    config: VoipTestConfig,
    actual: Option<Actual>,
    durationS: Option<real>,
    error: Option<string>,
    logs: Option<Logs>)

  const SIPP_NOT_FOUND: string := "SIPp not found in PATH. Please install SIPp."
  const EXCEPTION_PREFIX: string := "Exception during test execution: "

  function ActualOf(s: SippResult, elapsed: real): Actual {
    Actual(DetermineOutcome(s), s.finalCode, None, elapsed)
  }

  /** One test. `sippInstalled` is whether `sipp` is on the search path; `run` is what the SIPp
      run produced, or the text of the exception it raised; the two reals are the elapsed
      seconds read when the observation and the result are made. */
  function ExecuteTest(
    c: VoipTestConfig, sippInstalled: bool, run: Result<SippResult, string>,
    elapsedAtActual: real, elapsedAtEnd: real): (r: TestResult)
    ensures r.name == c.name && r.config == c
    ensures !sippInstalled ==>
      && !r.passed && r.durationS == Some(0.0) && r.actual.None? && r.error == Some(SIPP_NOT_FOUND)
    ensures sippInstalled && run.Success? ==>
      && r.actual == Some(ActualOf(run.value, elapsedAtActual))
      && (r.passed <==> CheckExpectations(c.expectation, ActualOf(run.value, elapsedAtActual)))
      && r.logs == Some(run.value.logs)
    ensures sippInstalled && run.Failure? ==>
      !r.passed && r.actual.None? && r.error == Some(EXCEPTION_PREFIX + run.error)
    ensures r.passed ==> sippInstalled && run.Success?
    ensures r.error.Some? <==> !r.passed
  {
    if !sippInstalled then
      TestResult(c.name, false, c, None, Some(0.0), Some(SIPP_NOT_FOUND), None)
    else match run
      case Failure(e) =>
        TestResult(c.name, false, c, None, Some(elapsedAtEnd), Some(EXCEPTION_PREFIX + e), None)
      case Success(s) =>
        var actual := ActualOf(s, elapsedAtActual);
        var passed := CheckExpectations(c.expectation, actual);
        TestResult(c.name, passed, c, Some(actual), Some(elapsedAtEnd),
                   if passed then None else Some(s.reason), Some(s.logs))
  }

  /** Without SIPp the run is never consulted: the result is the same whatever it would be. */
  lemma MissingSippIgnoresRun(c: VoipTestConfig, run1: Result<SippResult, string>, run2: Result<SippResult, string>,
                              t1: real, t2: real, u1: real, u2: real)
    ensures ExecuteTest(c, false, run1, t1, t2) == ExecuteTest(c, false, run2, u1, u2)
  {
  }

  /** With no expected final code, every run that completes passes, whatever the expected
      outcome and whatever was observed (a 486, a timeout, a failing exit). */
  lemma OutcomeAloneNeverFails(c: VoipTestConfig, s: SippResult, t1: real, t2: real)
    requires c.expectation.finalSipCode.None?
    ensures ExecuteTest(c, true, Success(s), t1, t2).passed
  {
  }

  const BUSY_HERE_TRACE: string := "SIP/2.0 486 Busy Here\r\n"

  /** The trace of a server answering 486 Busy Here has the final code 486. */
  lemma BusyHereTraceCode()
    ensures SipCodes(BUSY_HERE_TRACE) == [486]
    ensures FinalCode(SipCodes(BUSY_HERE_TRACE)) == Some(486)
  {
    assert BUSY_HERE_TRACE == SIP_VERSION + " " + "486" + " " + "Busy Here" + "\r\n";
    assert DigitsValue("486") == 486 by {
      assert "486"[..2] == "48" && "48"[..1] == "4";
    }
    StatusLineTrace("486", "Busy Here");
  }

  /** A scenario expecting busy with final code 486, against a run whose final code is the
      one scanned from a trace answering 486 Busy Here (as `RunSipp` reports for a completed
      run), passes and reports code 486. */
  lemma BusyHereScenario(c: VoipTestConfig, s: SippResult, t1: real, t2: real)
    requires c.expectation.outcome == Busy && c.expectation.finalSipCode == Some(486)
    requires s.finalCode == FinalCode(SipCodes(BUSY_HERE_TRACE))
    ensures ExecuteTest(c, true, Success(s), t1, t2).passed
    ensures ExecuteTest(c, true, Success(s), t1, t2).actual.value.sipCode == Some(486)
    ensures ExecuteTest(c, true, Success(s), t1, t2).error.None?
  {
    BusyHereTraceCode();
  }

  /** An expected final code is enforced: a different observed code, or none, fails the test
      and the run's reason becomes the error. */
  lemma WrongCodeFails(c: VoipTestConfig, s: SippResult, t1: real, t2: real)
    requires c.expectation.finalSipCode.Some? && s.finalCode != c.expectation.finalSipCode
    ensures !ExecuteTest(c, true, Success(s), t1, t2).passed
    ensures ExecuteTest(c, true, Success(s), t1, t2).error == Some(s.reason)
  {
  }
}

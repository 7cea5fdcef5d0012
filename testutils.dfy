/**
 * The Python test utilities shared by every test entry point: the seven
 * result codes, the test-failure exception, the code-to-label mapper, the
 * module-level result globals with their two update helpers, and the suite
 * report file, which is modelled as the sequence of its lines.
 */
module TestUtils {
  import opened Wrappers
  import opened Text

  // ---------------------------------------------------------------------------
  // Result codes, least to most severe
  // ---------------------------------------------------------------------------

  const PASS: int := 0
  const WARNING: int := 1
  const NOTICE: int := 2
  const SKIP: int := 3
  const ERROR: int := 4
  const CRITICAL: int := 5
  const FATAL: int := 6

  predicate IsResultCode(code: int) {
    PASS <= code <= FATAL
  }

  const SUITE_REPORT_FILE: string := ".test_suite_report"
  const ACCESS_FAILED_MSG: string :=
    "Failed to access the test suite report file (" + SUITE_REPORT_FILE + ")!"
  const WRITE_FAILED_MSG: string :=
    "Failed to write to the test suite report file (" + SUITE_REPORT_FILE + ")!"

  /**
   * The message of the failure raised for an unknown code. The code is
   * reassigned to ERROR before the message is formatted, so the message names
   * ERROR's number, never the offending code.
   */
  const UNKNOWN_CODE_MSG: string :=
    "Unknown error code (" + IntToString(ERROR) + ") for the testing!"

  // ---------------------------------------------------------------------------
  // TestFailureException
  // ---------------------------------------------------------------------------

  /** The exception carries its code and message unchanged. */
  datatype Failure = TestFailure(errCode: int, errStr: string) {
    /** `str(exc)`: "err_str (err_code)". */
    function Render(): string {
      errStr + " (" + IntToString(errCode) + ")"
    }
  }

  /** The rendering starts with the message and ends with the code in parentheses, which reads back as the code. */
  lemma RenderRoundTrip(f: Failure)
    ensures var r := f.Render();
      && |r| >= |f.errStr| + 3
      && r[..|f.errStr|] == f.errStr
      && r[|f.errStr|..|f.errStr| + 2] == " ("
      && r[|r| - 1] == ')'
      && var code := r[|f.errStr| + 2..|r| - 1];
         |code| > 0 && (code[0] == '-' || IsDigit(code[0]))
         && (forall k :: 0 < k < |code| ==> IsDigit(code[k]))
         && ParseInt(code) == f.errCode
  {
    var r := f.Render();
    var code := IntToString(f.errCode);
    assert r == f.errStr + " (" + code + ")";
    assert r[|f.errStr| + 2..|r| - 1] == code;
    IntToStringRoundTrip(f.errCode);
  }

  // ---------------------------------------------------------------------------
  // Label mapper
  // ---------------------------------------------------------------------------

  /** `test_get_result_str`: the label of a code, or an ERROR failure for any other value. */
  function ResultStr(errCode: int): (r: Result<string, Failure>)
    ensures r.Success? <==> IsResultCode(errCode)
    ensures r.Failure? ==> r.error == TestFailure(ERROR, UNKNOWN_CODE_MSG)
  {
    if errCode == PASS then Success("Pass")
    else if errCode == WARNING then Success("Warning")
    else if errCode == NOTICE then Success("Notice")
    else if errCode == SKIP then Success("Skip")
    else if errCode == ERROR then Success("Error")
    else if errCode == CRITICAL then Success("Critical")
    else if errCode == FATAL then Success("Fatal")
    else Failure(TestFailure(ERROR, UNKNOWN_CODE_MSG))
  }

  /** The inverse of the label mapper, a reference the labels are checked against. */
  function LabelCode(name: string): Option<int> {
    if name == "Pass" then Some(PASS)
    else if name == "Warning" then Some(WARNING)
    else if name == "Notice" then Some(NOTICE)
    else if name == "Skip" then Some(SKIP)
    else if name == "Error" then Some(ERROR)
    else if name == "Critical" then Some(CRITICAL)
    else if name == "Fatal" then Some(FATAL)
    else None
  }

  /** Every code's label maps back to that code, so no two codes share a label. */
  lemma ResultStrRoundTrip(code: int)
    requires IsResultCode(code)
    ensures ResultStr(code).Success?
    ensures LabelCode(ResultStr(code).value) == Some(code)
  {
  }

  // ---------------------------------------------------------------------------
  // Result updates, as functions of the globals they read
  // ---------------------------------------------------------------------------

  /**
   * `test_suite_update_result`: the new suite code. It compares against the
   * CASE code, so it is not a maximum over everything seen.
   */
  function SuiteAfter(suiteCode: int, caseCode: int, errCode: int): int {
    if errCode > caseCode then errCode else suiteCode
  }

  /** `test_case_update_result`: the new case code and message, changed together. */
  function CaseAfter(caseCode: int, caseStr: Option<string>, errCode: int, errStr: string): (int, Option<string>) {
    if errCode > caseCode then (errCode, Some(errStr)) else (caseCode, caseStr)
  }

  /** The case code never goes down, and it changes exactly when the new code is higher. */
  lemma CaseAfterMonotone(caseCode: int, caseStr: Option<string>, errCode: int, errStr: string)
    ensures var (c, s) := CaseAfter(caseCode, caseStr, errCode, errStr);
      && c >= caseCode
      && (c != caseCode <==> errCode > caseCode)
      && (s != caseStr ==> c != caseCode)
  {
  }

  /** A later WARNING replaces an earlier CRITICAL at suite level. */
  lemma SuiteAfterNotMaximum()
    ensures SuiteAfter(CRITICAL, PASS, WARNING) == WARNING
  {
  }

  /** Suite code after a run of cases, each starting from a PASS case code. */
  function SuiteAfterAll(suiteCode: int, codes: seq<int>): int
    decreases |codes|
  {
    if codes == [] then suiteCode else SuiteAfterAll(SuiteAfter(suiteCode, PASS, codes[0]), codes[1..])
  }

  /** Reference definition: the last code above PASS, or the initial code when there is none. */
  function LastFailure(suiteCode: int, codes: seq<int>): int
    decreases |codes|
  {
    if codes == [] then suiteCode
    else if codes[|codes| - 1] > PASS then codes[|codes| - 1]
    else LastFailure(suiteCode, codes[..|codes| - 1])
  }

  lemma {:induction false} SuiteAfterAllSnoc(suiteCode: int, codes: seq<int>, c: int)
    ensures SuiteAfterAll(suiteCode, codes + [c]) == SuiteAfter(SuiteAfterAll(suiteCode, codes), PASS, c)
    decreases |codes|
  {
    if codes != [] {
      assert (codes + [c])[1..] == codes[1..] + [c];
      SuiteAfterAllSnoc(SuiteAfter(suiteCode, PASS, codes[0]), codes[1..], c);
    }
  }

  /** With the case code at PASS, the suite code ends as the most recent failure, not the worst one. */
  lemma {:induction false} SuiteAfterAllIsLastFailure(suiteCode: int, codes: seq<int>)
    ensures SuiteAfterAll(suiteCode, codes) == LastFailure(suiteCode, codes)
    decreases |codes|
  {
    if codes != [] {
      var init, last := codes[..|codes| - 1], codes[|codes| - 1];
      assert codes == init + [last];
      SuiteAfterAllSnoc(suiteCode, init, last);
      SuiteAfterAllIsLastFailure(suiteCode, init);
    }
  }

  // ---------------------------------------------------------------------------
  // Module globals and the report file
  // ---------------------------------------------------------------------------

  /**
   * The module's mutable globals: the suite and case result codes, the case
   * message, and the lines of the suite report file. Whether the shell write
   * behind a report operation succeeds is passed in as `writable`.
   */
  class TestUtils {
    var suiteResultCode: int
    var caseResultCode: int
    var caseResultStr: Option<string>
    var report: seq<string>

    constructor (existing: seq<string>)
      ensures suiteResultCode == PASS && caseResultCode == PASS
      ensures caseResultStr == None && report == existing
    {
      suiteResultCode, caseResultCode := PASS, PASS;
      caseResultStr := None;
      report := existing;
    }

    /** `test_suite_update_result`. */
    method SuiteUpdateResult(errCode: int)
      modifies this`suiteResultCode
      ensures suiteResultCode == SuiteAfter(old(suiteResultCode), caseResultCode, errCode)
      ensures errCode <= caseResultCode ==> suiteResultCode == old(suiteResultCode)
    {
      if errCode > caseResultCode {
        suiteResultCode := errCode;
      }
    }

    /** `test_case_update_result`. */
    method CaseUpdateResult(errCode: int, errStr: string)
      modifies this`caseResultCode, this`caseResultStr
      ensures (caseResultCode, caseResultStr) == CaseAfter(old(caseResultCode), old(caseResultStr), errCode, errStr)
      ensures caseResultCode >= old(caseResultCode)
    {
      if errCode > caseResultCode {
        caseResultCode := errCode;
        caseResultStr := Some(errStr);
      }
    }

    /** `test_check_report_file_access`: recreate the report holding the one given line. */
    method CheckReportFileAccess(fileData: string, writable: bool) returns (res: Outcome<Failure>)
      modifies this`report
      ensures writable ==> res == Pass && report == [fileData]
      ensures !writable ==> res == Fail(TestFailure(ERROR, ACCESS_FAILED_MSG)) && report == old(report)
    {
      if writable {
        report := [fileData];
        res := Pass;
      } else {
        res := Fail(TestFailure(ERROR, ACCESS_FAILED_MSG));
      }
    }

    /** `test_write_report_file`: append one line, leaving the earlier lines as they were. */
    method WriteReportFile(fileData: string, writable: bool) returns (res: Outcome<Failure>)
      modifies this`report
      ensures writable ==> res == Pass && report == old(report) + [fileData]
      ensures !writable ==> res == Fail(TestFailure(ERROR, WRITE_FAILED_MSG)) && report == old(report)
    {
      if writable {
        report := report + [fileData];
        res := Pass;
      } else {
        res := Fail(TestFailure(ERROR, WRITE_FAILED_MSG));
      }
    }
  }
}

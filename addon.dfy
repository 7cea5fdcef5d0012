/**
 * The mode-setting command generator: it reads connector, CRTC and plane
 * ids and the pixel formats out of a saved `modetest` listing, then builds
 * one command line per format for the selected case.
 *
 * The text `grep` prints is passed in as a string. The pipeline's exit
 * status is that of `grep`, which fails exactly when no line matches, so an
 * empty text stands for the `CalledProcessError` that `check_output` raises
 * then. `random.randrange` is
 * passed in as the index of the value it picks; `validate`, which prints the
 * command and sleeps, appends the command to the result.
 */
module Addon {
  import opened Wrappers
  import Text

  const S1: string := "Connectors:"
  const S2: string := "CRTCs:"
  const S3: string := "Planes:"
  const S4: string := "formats:"

  const PLANE_POSITION_MIN: int := 10
  const PLANE_POSITION_MAX: int := 60
  const PLANE_RESOLUTION_MIN: int := 100
  const PLANE_RESOLUTION_MAX: int := 400

  const INDEX_ERROR: string := "IndexError"
  const TYPE_ERROR: string := "TypeError"
  const CALLED_PROCESS_ERROR: string := "CalledProcessError"

  // ---------------------------------------------------------------------------
  // getpara
  // ---------------------------------------------------------------------------

  /** The first token made only of digits, if any. */
  function FirstNumeric(tokens: seq<string>): (r: Option<string>)
    ensures r.Some? ==> Text.IsDigits(r.value) && r.value in tokens
    ensures r.Some? ==> exists i | 0 <= i < |tokens| :: tokens[i] == r.value && forall k :: 0 <= k < i ==> !Text.IsDigits(tokens[k])
    ensures r.None? <==> forall k :: 0 <= k < |tokens| ==> !Text.IsDigits(tokens[k])
  {
    if tokens == [] then None
    else if Text.IsDigits(tokens[0]) then Some(tokens[0])
    else
      var r := FirstNumeric(tokens[1..]);
      if r.Some? then
        var i :| 0 <= i < |tokens[1..]| && tokens[1..][i] == r.value && forall k :: 0 <= k < i ==> !Text.IsDigits(tokens[1..][k]);
        assert tokens[i + 1] == r.value;
        r
      else r
  }

  /** `getpara`: the first numeric whitespace token of the `grep` output, or nothing; no match at all raises. */
  method GetPara(output: string) returns (r: Result<Option<string>, string>)
    ensures r.Failure? <==> output == []
    ensures r.Failure? ==> r.error == CALLED_PROCESS_ERROR
    ensures r.Success? ==> r.value == FirstNumeric(Text.Words(Text.StrSplit, output))
  {
    if output == [] {
      return Failure(CALLED_PROCESS_ERROR);
    }
    var table := Text.Words(Text.StrSplit, output);
    var i := 0;
    while i < |table|
      invariant 0 <= i <= |table|
      invariant FirstNumeric(table[i..]) == FirstNumeric(table)
    {
      if Text.IsDigits(table[i]) {
        return Success(Some(table[i]));
      }
      assert table[i..][1..] == table[i + 1..];
      i := i + 1;
    }
    return Success(None);
  }

  // ---------------------------------------------------------------------------
  // random_number
  // ---------------------------------------------------------------------------

  /** How many values `randrange(minimum, maximum, step)` chooses from. */
  function RandRangeCount(minimum: int, maximum: int, step: int): int
    requires step > 0
  {
    (maximum - minimum + step - 1) / step
  }

  /** The `choice`-th value of `randrange(minimum, maximum, step)`. */
  function RandRange(minimum: int, maximum: int, step: int, choice: int): (r: int)
    requires step > 0 && 0 <= choice < RandRangeCount(minimum, maximum, step)
    ensures minimum <= r < maximum
  {
    RandRangeStep(maximum - minimum, step, choice);
    minimum + choice * step
  }

  /** The `choice`-th multiple of `step` lies below the span `d`. */
  lemma RandRangeStep(d: int, step: int, choice: int)
    requires step > 0 && 0 <= choice < (d + step - 1) / step
    ensures 0 <= choice * step < d
  {
    var q := (d + step - 1) / step;
    assert d + step - 1 == q * step + (d + step - 1) % step;
    MulMono(choice + 1, q, step);
    assert (choice + 1) * step == choice * step + step;
    MulMono(0, choice, step);
  }

  lemma MulMono(a: int, b: int, c: int)
    requires a <= b && c >= 0
    ensures a * c <= b * c
  {
  }

  /** `random_number`: the chosen value as a decimal string. */
  function RandomNumber(minimum: int, maximum: int, step: int, choice: int): string
    requires step > 0 && 0 <= choice < RandRangeCount(minimum, maximum, step)
  {
    Text.IntToString(RandRange(minimum, maximum, step, choice))
  }

  /** Plane positions are 10, 20, 30, 40 and 50: every one of them, and nothing else. */
  lemma PlanePositionChoices(v: int)
    ensures (exists c | 0 <= c < RandRangeCount(PLANE_POSITION_MIN, PLANE_POSITION_MAX, 10) ::
               RandRange(PLANE_POSITION_MIN, PLANE_POSITION_MAX, 10, c) == v)
        <==> v in {10, 20, 30, 40, 50}
  {
    assert RandRangeCount(PLANE_POSITION_MIN, PLANE_POSITION_MAX, 10) == 5;
    forall c | 0 <= c < 5
      ensures RandRange(PLANE_POSITION_MIN, PLANE_POSITION_MAX, 10, c) == 10 + 10 * c
    {
    }
    if v in {10, 20, 30, 40, 50} {
      var c := (v - 10) / 10;
      assert RandRange(PLANE_POSITION_MIN, PLANE_POSITION_MAX, 10, c) == v;
    }
    if exists c | 0 <= c < 5 :: RandRange(PLANE_POSITION_MIN, PLANE_POSITION_MAX, 10, c) == v {
      var c :| 0 <= c < 5 && RandRange(PLANE_POSITION_MIN, PLANE_POSITION_MAX, 10, c) == v;
      assert c == 0 || c == 1 || c == 2 || c == 3 || c == 4;
    }
  }

  /** Plane sizes are 100, 150, ..., 350: every one of them, and nothing else. */
  lemma PlaneSizeChoices(v: int)
    ensures (exists c | 0 <= c < RandRangeCount(PLANE_RESOLUTION_MIN, PLANE_RESOLUTION_MAX, 50) ::
               RandRange(PLANE_RESOLUTION_MIN, PLANE_RESOLUTION_MAX, 50, c) == v)
        <==> v in {100, 150, 200, 250, 300, 350}
  {
    assert RandRangeCount(PLANE_RESOLUTION_MIN, PLANE_RESOLUTION_MAX, 50) == 6;
    forall c | 0 <= c < 6
      ensures RandRange(PLANE_RESOLUTION_MIN, PLANE_RESOLUTION_MAX, 50, c) == 100 + 50 * c
    {
    }
    if v in {100, 150, 200, 250, 300, 350} {
      var c := (v - 100) / 50;
      assert RandRange(PLANE_RESOLUTION_MIN, PLANE_RESOLUTION_MAX, 50, c) == v;
    }
    if exists c | 0 <= c < 6 :: RandRange(PLANE_RESOLUTION_MIN, PLANE_RESOLUTION_MAX, 50, c) == v {
      var c :| 0 <= c < 6 && RandRange(PLANE_RESOLUTION_MIN, PLANE_RESOLUTION_MAX, 50, c) == v;
      assert c == 0 || c == 1 || c == 2 || c == 3 || c == 4 || c == 5;
    }
  }


  /** The four random choices one plane command takes, in the order they are drawn. */
  datatype Placement = Placement(xPos: int, yPos: int, xRes: int, yRes: int)

  predicate ValidPlacement(p: Placement) {
    && 0 <= p.xPos < RandRangeCount(PLANE_POSITION_MIN, PLANE_POSITION_MAX, 10)
    && 0 <= p.yPos < RandRangeCount(PLANE_POSITION_MIN, PLANE_POSITION_MAX, 10)
    && 0 <= p.xRes < RandRangeCount(PLANE_RESOLUTION_MIN, PLANE_RESOLUTION_MAX, 50)
    && 0 <= p.yRes < RandRangeCount(PLANE_RESOLUTION_MIN, PLANE_RESOLUTION_MAX, 50)
  }

  // ---------------------------------------------------------------------------
  // The command strings
  // ---------------------------------------------------------------------------

  /** The mode-setting part every command starts with, for the given binary. */
  function ModeSet(binary: string, conn: string, crtc: string, fmt: string): string {
    binary + " -M NB2 -s " + conn + "@" + crtc + ":640x480@" + fmt
  }

  /** A mode set on `modetest` plus a plane of the drawn size at the drawn position. */
  function PlaneSet(conn: string, crtc: string, fmt: string, plane: string, p: Placement): string
    requires ValidPlacement(p)
  {
    ModeSet("modetest", conn, crtc, fmt) + " -P " + plane + "@" + crtc + ":"
    + RandomNumber(PLANE_RESOLUTION_MIN, PLANE_RESOLUTION_MAX, 50, p.xRes) + "x"
    + RandomNumber(PLANE_RESOLUTION_MIN, PLANE_RESOLUTION_MAX, 50, p.yRes) + "+"
    + RandomNumber(PLANE_POSITION_MIN, PLANE_POSITION_MAX, 10, p.xPos) + "+"
    + RandomNumber(PLANE_POSITION_MIN, PLANE_POSITION_MAX, 10, p.yPos)
  }

  /** The plane table entry cases 2..13 use. */
  function PlaneIndex(testCase: int): int {
    if testCase <= 5 then 0 else if testCase <= 9 then 1 else 2
  }

  /** The command one format produces, case by case as the script spells them out. */
  function CaseCommand(testCase: int, conn: string, crtc: string, fmt: string, planes: seq<string>, p: Placement): string
    requires 1 <= testCase <= 13
    requires testCase >= 2 ==> ValidPlacement(p) && PlaneIndex(testCase) < |planes|
  {
    if testCase == 1 then ModeSet("modetest_mipi", conn, crtc, fmt)
    else if testCase == 2 then PlaneSet(conn, crtc, fmt, planes[0], p)
    else if testCase == 3 then PlaneSet(conn, crtc, fmt, planes[0], p) + " -C"
    else if testCase == 4 then PlaneSet(conn, crtc, fmt, planes[0], p) + " -v"
    else if testCase == 5 then PlaneSet(conn, crtc, fmt, planes[0], p) + " -C " + "-v"
    else if testCase == 6 then PlaneSet(conn, crtc, fmt, planes[1], p)
    else if testCase == 7 then PlaneSet(conn, crtc, fmt, planes[1], p) + " -C"
    else if testCase == 8 then PlaneSet(conn, crtc, fmt, planes[1], p) + " -v"
    else if testCase == 9 then PlaneSet(conn, crtc, fmt, planes[1], p) + " -C " + "-v"
    else if testCase == 10 then PlaneSet(conn, crtc, fmt, planes[2], p)
    else if testCase == 11 then PlaneSet(conn, crtc, fmt, planes[2], p) + " -C"
    else if testCase == 12 then PlaneSet(conn, crtc, fmt, planes[2], p) + " -v"
    else PlaneSet(conn, crtc, fmt, planes[2], p) + " -C " + "-v"
  }

  /** The options each case of a block adds after the plane: none, the cursor, vsync, both. */
  function Suffix(testCase: int): string {
    match (testCase - 2) % 4
    case 0 => ""
    case 1 => " -C"
    case 2 => " -v"
    case _ => " -C -v"
  }

  /**
   * Cases 2-5, 6-9 and 10-13 put the plane from table entries 0, 1 and 2
   * on `modetest`, and within each block add nothing, " -C", " -v" and
   * " -C -v"; case 1 is a bare mode set on `modetest_mipi`.
   */
  lemma CaseCommandBlocks(testCase: int, conn: string, crtc: string, fmt: string, planes: seq<string>, p: Placement)
    requires 1 <= testCase <= 13
    requires testCase >= 2 ==> ValidPlacement(p) && PlaneIndex(testCase) < |planes|
    ensures testCase == 1 ==> CaseCommand(testCase, conn, crtc, fmt, planes, p) == ModeSet("modetest_mipi", conn, crtc, fmt)
    ensures testCase >= 2 ==> PlaneIndex(testCase) == (testCase - 2) / 4
    ensures testCase >= 2 ==>
      (CaseCommand(testCase, conn, crtc, fmt, planes, p) == PlaneSet(conn, crtc, fmt, planes[(testCase - 2) / 4], p) + Suffix(testCase))
  {
    if testCase >= 2 {
      var base := PlaneSet(conn, crtc, fmt, planes[PlaneIndex(testCase)], p);
      assert base + " -C " + "-v" == base + " -C -v";
      assert base + "" == base;
    }
  }

  /** What running one case gives: the commands issued, "Null" for an unknown case, or the exception that stopped it. */
  datatype CaseRun = Issued(cmds: seq<string>) | Null | Raised(error: string)

  /** The whole run of one case over the format list. */
  function CaseSpec(testCase: int, conn: Option<string>, crtc: Option<string>, formats: seq<string>,
                    planes: seq<string>, placements: seq<Placement>): CaseRun
    requires 2 <= testCase <= 13 ==> |placements| >= |formats| && forall k :: 0 <= k < |formats| ==> ValidPlacement(placements[k])
  {
    if !(1 <= testCase <= 13) then Null
    else if formats == [] then Issued([])
    else if conn.None? || crtc.None? then Raised(TYPE_ERROR)
    else if testCase >= 2 && PlaneIndex(testCase) >= |planes| then Raised(INDEX_ERROR)
    else Issued(seq(|formats|, k requires 0 <= k < |formats| =>
      CaseCommand(testCase, conn.value, crtc.value, formats[k], planes, if testCase >= 2 then placements[k] else Placement(0, 0, 0, 0))))
  }

  /** Every known case validates exactly one command per format, in format order; any other number issues none. */
  lemma CaseSpecCount(testCase: int, conn: Option<string>, crtc: Option<string>, formats: seq<string>,
                      planes: seq<string>, placements: seq<Placement>)
    requires 2 <= testCase <= 13 ==> |placements| >= |formats| && forall k :: 0 <= k < |formats| ==> ValidPlacement(placements[k])
    requires conn.Some? && crtc.Some? && (testCase >= 2 ==> PlaneIndex(testCase) < |planes|)
    ensures var run := CaseSpec(testCase, conn, crtc, formats, planes, placements);
      && (1 <= testCase <= 13 <==> run.Issued?)
      && (run.Issued? ==> |run.cmds| == |formats|)
      && (testCase == 1 ==> forall k :: 0 <= k < |formats| ==> run.cmds[k] == ModeSet("modetest_mipi", conn.value, crtc.value, formats[k]))
  {
  }

  /** The module globals `formats` and `plane_table`. */
  class Addon {
    var formats: seq<string>
    var planeTable: seq<string>

    constructor ()
      ensures formats == [] && planeTable == []
    {
      formats := [];
      planeTable := [];
    }

    /**
     * `getformat`: the format list becomes the tokens of the matching line,
     * then loses its first. No match raises before the list is touched;
     * popping from a line without tokens raises and leaves the list empty.
     */
    method GetFormat(output: string) returns (res: Outcome<string>)
      modifies this`formats
      ensures output == [] ==> res == Fail(CALLED_PROCESS_ERROR) && formats == old(formats)
      ensures output != [] ==> (res.Fail? <==> Text.Words(Text.StrSplit, output) == [])
      ensures output != [] && res.Fail? ==> res.error == INDEX_ERROR && formats == []
      ensures res.Pass? ==> [Text.Words(Text.StrSplit, output)[0]] + formats == Text.Words(Text.StrSplit, output)
    {
      if output == [] {
        return Fail(CALLED_PROCESS_ERROR);
      }
      formats := Text.Words(Text.StrSplit, output);
      if formats == [] {
        return Fail(INDEX_ERROR);
      }
      formats := formats[1..];
      return Pass;
    }

    /**
     * `plane()`: the first token of lines 0, 3, 6, ... below the last split
     * part; no match raises before anything is read, and a blank such line
     * raises after the earlier entries were appended.
     */
    method Plane(output: string) returns (res: Outcome<string>)
      modifies this`planeTable
      ensures output == [] ==> res == Fail(CALLED_PROCESS_ERROR) && planeTable == old(planeTable)
      ensures var scan := PlaneScan(FirstTokens(Text.SplitOn(output, '\n')), 0);
        output != [] ==>
          && planeTable == old(planeTable) + scan.0
          && (res.Fail? <==> scan.1) && (res.Fail? ==> res.error == INDEX_ERROR)
    {
      if output == [] {
        return Fail(CALLED_PROCESS_ERROR);
      }
      var table := Text.SplitOn(output, '\n');
      ghost var firsts := FirstTokens(table);
      var i := 0;
      while i < |table| - 1
        invariant 0 <= i
        invariant planeTable + PlaneScan(firsts, i).0 == old(planeTable) + PlaneScan(firsts, 0).0
        invariant PlaneScan(firsts, i).1 == PlaneScan(firsts, 0).1
        decreases |table| - i
      {
        var temp := Text.Words(Text.StrSplit, table[i]);
        if temp == [] {
          return Fail(INDEX_ERROR);
        }
        assert firsts[i] == Some(temp[0]);
        planeTable := planeTable + [temp[0]];
        i := i + 3;
      }
      return Pass;
    }

    /**
     * The script from the top: the connector, CRTC and plane ids from their
     * `grep` outputs, the plane table, the format list, then the selected
     * case. The plane id is read but never used. The first reader whose
     * `grep` matches nothing raises, and nothing after it runs.
     */
    method RunScript(connOutput: string, crtcOutput: string, planeOutput: string, planeListing: string,
                     formatLine: string, testCase: int, placements: seq<Placement>) returns (run: CaseRun)
      requires 2 <= testCase <= 13 ==> |placements| >= |Text.Words(Text.StrSplit, formatLine)| && forall k :: 0 <= k < |placements| ==> ValidPlacement(placements[k])
      modifies this
      ensures var noMatch := connOutput == [] || crtcOutput == [] || planeOutput == [] || planeListing == [];
        var scan := PlaneScan(FirstTokens(Text.SplitOn(planeListing, '\n')), 0);
        var fmt := Text.Words(Text.StrSplit, formatLine);
        run == if noMatch then Raised(CALLED_PROCESS_ERROR)
               else if scan.1 then Raised(INDEX_ERROR)
               else if formatLine == [] then Raised(CALLED_PROCESS_ERROR)
               else if fmt == [] then Raised(INDEX_ERROR)
               else CaseSpec(testCase, FirstNumeric(Text.Words(Text.StrSplit, connOutput)), FirstNumeric(Text.Words(Text.StrSplit, crtcOutput)),
                             fmt[1..], old(planeTable) + scan.0, placements)
      ensures var noMatch := connOutput == [] || crtcOutput == [] || planeOutput == [] || planeListing == [];
        var scan := PlaneScan(FirstTokens(Text.SplitOn(planeListing, '\n')), 0);
        planeTable == if noMatch then old(planeTable) else old(planeTable) + scan.0
      ensures var noMatch := connOutput == [] || crtcOutput == [] || planeOutput == [] || planeListing == [];
        var scan := PlaneScan(FirstTokens(Text.SplitOn(planeListing, '\n')), 0);
        var fmt := Text.Words(Text.StrSplit, formatLine);
        formats == if noMatch || scan.1 || formatLine == [] then old(formats)
                   else if fmt == [] then []
                   else fmt[1..]
    {
      var connId := GetPara(connOutput);
      if connId.Failure? {
        return Raised(connId.error);
      }
      var crtcId := GetPara(crtcOutput);
      if crtcId.Failure? {
        return Raised(crtcId.error);
      }
      var planeId := GetPara(planeOutput);
      if planeId.Failure? {
        return Raised(planeId.error);
      }
      var res := Plane(planeListing);
      if res.Fail? {
        return Raised(res.error);
      }
      res := GetFormat(formatLine);
      if res.Fail? {
        return Raised(res.error);
      }
      assert formats == Text.Words(Text.StrSplit, formatLine)[1..];
      run := RunCase(testCase, connId.value, crtcId.value, placements);
    }

    /** One command per format for the selected case, built in a loop as the script does. */
    method RunCase(testCase: int, conn: Option<string>, crtc: Option<string>, placements: seq<Placement>) returns (run: CaseRun)
      requires 2 <= testCase <= 13 ==> |placements| >= |formats| && forall k :: 0 <= k < |formats| ==> ValidPlacement(placements[k])
      ensures run == CaseSpec(testCase, conn, crtc, formats, planeTable, placements)
    {
      if !(1 <= testCase <= 13) {
        return Null;
      }
      var cmds := [];
      for k := 0 to |formats|
        invariant k > 0 ==> conn.Some? && crtc.Some? && (testCase >= 2 ==> PlaneIndex(testCase) < |planeTable|)
        invariant |cmds| == k
        invariant forall t :: 0 <= t < k ==> cmds[t] == CaseCommand(testCase, conn.value, crtc.value, formats[t], planeTable,
          if testCase >= 2 then placements[t] else Placement(0, 0, 0, 0))
      {
        if conn.None? || crtc.None? {
          return Raised(TYPE_ERROR);
        }
        if testCase >= 2 && PlaneIndex(testCase) >= |planeTable| {
          return Raised(INDEX_ERROR);
        }
        var p := if testCase >= 2 then placements[k] else Placement(0, 0, 0, 0);
        cmds := cmds + [CaseCommand(testCase, conn.value, crtc.value, formats[k], planeTable, p)];
      }
      return Issued(cmds);
    }
  }

  /** The first whitespace token of a line, if it has one. */
  function FirstToken(line: string): Option<string> {
    var ws := Text.Words(Text.StrSplit, line);
    if ws == [] then None else Some(ws[0])
  }

  /** The first token of every line. */
  function FirstTokens(lines: seq<string>): (firsts: seq<Option<string>>)
    ensures |firsts| == |lines| && forall k :: 0 <= k < |lines| ==> firsts[k] == FirstToken(lines[k])
  {
    seq(|lines|, k requires 0 <= k < |lines| => FirstToken(lines[k]))
  }

  /**
   * The plane ids the loop of `plane()` collects from position `i` on, given
   * the first token of every line, and whether it stops on a blank line.
   * Positions step by three and stop before the last line.
   */
  function PlaneScan(firsts: seq<Option<string>>, i: nat): (seq<string>, bool)
    decreases |firsts| - i
  {
    if i >= |firsts| - 1 then ([], false)
    else
      match firsts[i]
      case None => ([], true)
      case Some(t) =>
        var rest := PlaneScan(firsts, i + 3);
        ([t] + rest.0, rest.1)
  }

  /** The `k`-th id collected is the first token of line `i + 3k`, a line before the last. */
  lemma {:induction false} PlaneScanIds(firsts: seq<Option<string>>, i: nat)
    ensures forall k :: 0 <= k < |PlaneScan(firsts, i).0| ==>
      i + 3 * k < |firsts| - 1 && firsts[i + 3 * k] == Some(PlaneScan(firsts, i).0[k])
    decreases |firsts| - i
  {
    if i < |firsts| - 1 && firsts[i].Some? {
      var r := PlaneScan(firsts, i);
      var rest := PlaneScan(firsts, i + 3);
      PlaneScanIds(firsts, i + 3);
      assert r == ([firsts[i].value] + rest.0, rest.1);
      forall k | 0 <= k < |r.0|
        ensures i + 3 * k < |firsts| - 1 && firsts[i + 3 * k] == Some(r.0[k])
      {
        if k > 0 {
          assert r.0[k] == rest.0[k - 1];
          assert i + 3 * k == (i + 3) + 3 * (k - 1);
        }
      }
    }
  }

  /**
   * A scan that does not stop early passes every line before the last; one
   * that stops does so at a line without tokens, right after the ids it
   * collected.
   */
  lemma {:induction false} PlaneScanStop(firsts: seq<Option<string>>, i: nat)
    ensures !PlaneScan(firsts, i).1 ==> i + 3 * |PlaneScan(firsts, i).0| >= |firsts| - 1
    ensures PlaneScan(firsts, i).1 ==>
      i + 3 * |PlaneScan(firsts, i).0| < |firsts| - 1 && firsts[i + 3 * |PlaneScan(firsts, i).0|] == None
    decreases |firsts| - i
  {
    if i < |firsts| - 1 && firsts[i].Some? {
      PlaneScanStop(firsts, i + 3);
      assert |PlaneScan(firsts, i).0| == 1 + |PlaneScan(firsts, i + 3).0|;
      assert PlaneScan(firsts, i).1 == PlaneScan(firsts, i + 3).1;
    }
  }
}

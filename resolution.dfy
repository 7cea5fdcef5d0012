/**
 * The resolution lister: reads the mode lines out of a saved `modetest`
 * listing into parallel lists of resolution names and timing tokens,
 * prints them, removes repeated resolutions and prints them again.
 *
 * The text `grep` prints is passed in as a string. The pipeline's exit
 * status is that of `grep`, which fails exactly when no line matches, so an
 * empty text stands for the `CalledProcessError` that `check_output` raises
 * then. Printed lines are collected into a sequence, one element per
 * `print` call.
 */
module Resolution {
  import opened Wrappers
  import Text

  const INDEX_ERROR: string := "IndexError"
  const CALLED_PROCESS_ERROR: string := "CalledProcessError"
  const SEPARATOR: string := "--------------------"

  /** One parsed mode line: its resolution name and up to nine timing tokens. */
  datatype Mode = Mode(name: string, timing: seq<string>)

  /** `line.split()` followed by `line[1]` and `line[2:11]`; fewer than two tokens raise. */
  function ParseLine(line: string): Option<Mode> {
    var ws := Text.Words(Text.StrSplit, line);
    if |ws| < 2 then None else Some(Mode(ws[1], ws[2..Min(11, |ws|)]))
  }

  function Min(a: int, b: int): int {
    if a < b then a else b
  }

  /** The mode of every line. */
  function ParsedLines(lines: seq<string>): (ms: seq<Option<Mode>>)
    ensures |ms| == |lines| && forall k :: 0 <= k < |lines| ==> ms[k] == ParseLine(lines[k])
  {
    seq(|lines|, k requires 0 <= k < |lines| => ParseLine(lines[k]))
  }

  /** The resolution names of a run of modes. */
  function Names(ms: seq<Mode>): (r: seq<string>)
    ensures |r| == |ms| && forall k :: 0 <= k < |ms| ==> r[k] == ms[k].name
  {
    seq(|ms|, k requires 0 <= k < |ms| => ms[k].name)
  }

  /** The timing lists of a run of modes. */
  function Timings(ms: seq<Mode>): (r: seq<seq<string>>)
    ensures |r| == |ms| && forall k :: 0 <= k < |ms| ==> r[k] == ms[k].timing
  {
    seq(|ms|, k requires 0 <= k < |ms| => ms[k].timing)
  }

  lemma NamesAppend(ms: seq<Mode>, m: Mode)
    ensures Names(ms + [m]) == Names(ms) + [m.name]
    ensures Timings(ms + [m]) == Timings(ms) + [m.timing]
  {
  }

  /** The distinct tokens of the output that start with '#': one per mode. */
  function Tags(output: string): set<string> {
    set t | t in Text.Words(Text.BytesSplit, output) && t[0] == '#'
  }

  /** Line `k` exists and has at least two tokens. */
  predicate Parses(ms: seq<Option<Mode>>, k: nat) {
    k < |ms| && ms[k].Some?
  }

  /**
   * Where the loop of `find_resolution` over lines `i .. count - 1` stops:
   * the first of them that is missing or has fewer than two tokens, or
   * `count` when there is none.
   */
  function StopAt(ms: seq<Option<Mode>>, i: nat, count: nat): nat
    decreases count - i
  {
    if i >= count || !Parses(ms, i) then i else StopAt(ms, i + 1, count)
  }

  /** The loop stops at the first failing line, or after all `count` lines parsed. */
  lemma {:induction false} StopAtProps(ms: seq<Option<Mode>>, i: nat, count: nat)
    requires i <= count
    ensures i <= StopAt(ms, i, count) <= count
    ensures forall k :: i <= k < StopAt(ms, i, count) ==> Parses(ms, k)
    ensures StopAt(ms, i, count) < count ==> !Parses(ms, StopAt(ms, i, count))
    decreases count - i
  {
    if i < count && Parses(ms, i) {
      StopAtProps(ms, i + 1, count);
    }
  }

  /** The modes of the lines before `n`. */
  function Modes(ms: seq<Option<Mode>>, n: nat): (r: seq<Mode>)
    ensures |r| == n
    ensures forall k :: 0 <= k < n && Parses(ms, k) ==> r[k] == ms[k].value
  {
    seq(n, k requires 0 <= k < n => if Parses(ms, k) then ms[k].value else Mode([], []))
  }

  /** The modes `find_resolution` appends for a listing: those of the lines before the one it stops at. */
  function FoundModes(output: string): seq<Mode> {
    var ms := ParsedLines(Text.SplitLines(output));
    Modes(ms, StopAt(ms, 0, |Tags(output)|))
  }

  /**
   * `find_resolution` raises: `grep` matched nothing, or a line among the
   * first (number of tags) is missing or short.
   */
  predicate FindFails(output: string) {
    || output == []
    || StopAt(ParsedLines(Text.SplitLines(output)), 0, |Tags(output)|) < |Tags(output)|
  }

  /** The exception `find_resolution` raises. */
  function FindError(output: string): string {
    if output == [] then CALLED_PROCESS_ERROR else INDEX_ERROR
  }

  // ---------------------------------------------------------------------------
  // sort_resolution
  // ---------------------------------------------------------------------------

  /** The indices below `n` whose value has not appeared earlier: the first occurrences, in order. */
  function Firsts(res: seq<string>, n: nat): (idx: seq<nat>)
    requires n <= |res|
    ensures forall k :: 0 <= k < |idx| ==> idx[k] < n
  {
    if n == 0 then []
    else if res[n - 1] in res[..n - 1] then Firsts(res, n - 1)
    else Firsts(res, n - 1) + [n - 1]
  }

  /** The elements of `s` at the given indices. */
  function Pick<T>(s: seq<T>, idx: seq<nat>): (r: seq<T>)
    requires forall k :: 0 <= k < |idx| ==> idx[k] < |s|
    ensures |r| == |idx| && forall k :: 0 <= k < |idx| ==> r[k] == s[idx[k]]
  {
    seq(|idx|, k requires 0 <= k < |idx| => s[idx[k]])
  }

  predicate NoDuplicates<T(==)>(s: seq<T>) {
    forall p, q :: 0 <= p < q < |s| ==> s[p] != s[q]
  }

  /** The first occurrences come in increasing order. */
  lemma {:induction false} FirstsIncreasing(res: seq<string>, n: nat)
    requires n <= |res|
    ensures forall p, q :: 0 <= p < q < |Firsts(res, n)| ==> Firsts(res, n)[p] < Firsts(res, n)[q]
  {
    if n > 0 {
      FirstsIncreasing(res, n - 1);
      if res[n - 1] !in res[..n - 1] {
        assert Firsts(res, n) == Firsts(res, n - 1) + [n - 1];
      }
    }
  }

  /** Each first occurrence is the first position of its value. */
  lemma {:induction false} FirstsAreFirst(res: seq<string>, n: nat)
    requires n <= |res|
    ensures forall k :: 0 <= k < |Firsts(res, n)| ==> res[Firsts(res, n)[k]] !in res[..Firsts(res, n)[k]]
  {
    if n > 0 {
      FirstsAreFirst(res, n - 1);
      var prev := Firsts(res, n - 1);
      if res[n - 1] !in res[..n - 1] {
        var idx := Firsts(res, n);
        assert idx == prev + [n - 1];
        forall k | 0 <= k < |idx|
          ensures res[idx[k]] !in res[..idx[k]]
        {
          if k < |prev| {
            assert idx[k] == prev[k];
          }
        }
      }
    }
  }

  /** Every value below `n` is kept. */
  lemma {:induction false} FirstsCover(res: seq<string>, n: nat)
    requires n <= |res|
    ensures forall i :: 0 <= i < n ==> res[i] in Pick(res, Firsts(res, n))
  {
    if n > 0 {
      FirstsCover(res, n - 1);
      var prev := Firsts(res, n - 1);
      if res[n - 1] in res[..n - 1] {
        var j :| 0 <= j < n - 1 && res[..n - 1][j] == res[n - 1];
        assert res[j] in Pick(res, prev);
      } else {
        assert Pick(res, Firsts(res, n)) == Pick(res, prev) + [res[n - 1]];
      }
    }
  }

  /** The values at the first occurrences are all different. */
  lemma FirstsDistinct(res: seq<string>, n: nat)
    requires n <= |res|
    ensures NoDuplicates(Pick(res, Firsts(res, n)))
  {
    FirstsIncreasing(res, n);
    FirstsAreFirst(res, n);
    var idx := Firsts(res, n);
    forall p, q | 0 <= p < q < |idx|
      ensures res[idx[p]] != res[idx[q]]
    {
      assert res[..idx[q]][idx[p]] == res[idx[p]];
    }
  }

  /** `sort_resolution` looks at indices 0 .. len - 2 only: a last resolution seen nowhere before is dropped. */
  lemma SortDropsUniqueLast(res: seq<string>)
    requires |res| >= 1 && res[|res| - 1] !in res[..|res| - 1]
    ensures res[|res| - 1] !in Pick(res, Firsts(res, |res| - 1))
  {
    var idx := Firsts(res, |res| - 1);
    forall k | 0 <= k < |idx|
      ensures Pick(res, idx)[k] != res[|res| - 1]
    {
      assert res[..|res| - 1][idx[k]] == res[idx[k]];
    }
  }

  /** How many entries `sort_resolution` examines. */
  function Examined(len: nat): nat {
    if len == 0 then 0 else len - 1
  }

  // ---------------------------------------------------------------------------
  // print_resolution
  // ---------------------------------------------------------------------------

  /** The timing line of one entry; it reads the first nine tokens. */
  function TimingLine(t: seq<string>): string
    requires |t| >= 9
  {
    "refresh (Hz) =" + t[0] + " hdisp=" + t[1] + " hss=" + t[2] + " hse=" + t[3] + " htot=" + t[4]
    + " vdisp=" + t[5] + " vss=" + t[6] + " vse=" + t[7] + " vtot=" + t[8]
  }

  /** The line printed after each resolution name. */
  function TimingTitle(): string {
    "timing_para:"
  }

  /** `print("\n")`: a line holding a single newline. */
  function NewlineLine(): string {
    "\n"
  }

  /** Entry `k` has a timing list with the nine tokens the timing line reads. */
  predicate Printable(tim: seq<seq<string>>, k: nat) {
    k < |tim| && |tim[k]| >= 9
  }

  /** The four lines printed for a complete entry. */
  function Block(name: string, t: seq<string>): (b: seq<string>)
    requires |t| >= 9
    ensures |b| == 4 && b[0] == name && b[1] == TimingTitle() && b[2] == TimingLine(t)
  {
    [name, TimingTitle(), TimingLine(t), NewlineLine()]
  }

  /** What `print_resolution` prints from entry `i` on, and whether it raises on an entry with a short or missing timing list. */
  function PrintScan(res: seq<string>, tim: seq<seq<string>>, i: nat): (seq<string>, bool)
    decreases |res| - i
  {
    if i >= |res| then ([], false)
    else if !Printable(tim, i) then ([res[i], TimingTitle()], true)
    else
      var rest := PrintScan(res, tim, i + 1);
      (Block(res[i], tim[i]) + rest.0, rest.1)
  }

  /** Printing raises exactly when some entry lacks nine timing tokens. */
  lemma {:induction false} PrintScanFails(res: seq<string>, tim: seq<seq<string>>, i: nat)
    requires i <= |res|
    ensures !PrintScan(res, tim, i).1 <==> forall k :: i <= k < |res| ==> Printable(tim, k)
    decreases |res| - i
  {
    if i < |res| {
      if Printable(tim, i) {
        PrintScanFails(res, tim, i + 1);
        assert PrintScan(res, tim, i).1 == PrintScan(res, tim, i + 1).1;
        if PrintScan(res, tim, i).1 {
          var j :| i + 1 <= j < |res| && !Printable(tim, j);
          assert i <= j < |res|;
        }
      } else {
        assert PrintScan(res, tim, i).1;
        assert i <= i < |res| && !Printable(tim, i);
      }
    }
  }

  /** When printing does not raise, entry `k` is printed as the `k - i`-th block of four lines. */
  lemma {:induction false} PrintScanBlocks(res: seq<string>, tim: seq<seq<string>>, i: nat)
    requires i <= |res|
    requires !PrintScan(res, tim, i).1
    ensures |PrintScan(res, tim, i).0| == 4 * (|res| - i)
    ensures forall k :: i <= k < |res| ==>
      Printable(tim, k) && PrintScan(res, tim, i).0[4 * (k - i)..4 * (k - i) + 4] == Block(res[k], tim[k])
    decreases |res| - i
  {
    PrintScanFails(res, tim, i);
    if i < |res| {
      PrintScanBlocks(res, tim, i + 1);
      var rest := PrintScan(res, tim, i + 1).0;
      var all := PrintScan(res, tim, i).0;
      var head := Block(res[i], tim[i]);
      assert all == head + rest;
      forall k | i <= k < |res|
        ensures all[4 * (k - i)..4 * (k - i) + 4] == Block(res[k], tim[k])
      {
        if k == i {
          assert all[0..4] == head;
        } else {
          assert all[4 * (k - i)..4 * (k - i) + 4] == rest[4 * (k - (i + 1))..4 * (k - (i + 1)) + 4];
        }
      }
    }
  }

  /**
   * Keeping only some of the entries keeps printing from raising: the
   * listing after repeats are removed cannot raise once the first did not.
   */
  lemma PickKeepsPrintable(res: seq<string>, tim: seq<seq<string>>, idx: seq<nat>)
    requires |res| == |tim|
    requires forall k :: 0 <= k < |idx| ==> idx[k] < |res|
    requires !PrintScan(res, tim, 0).1
    ensures !PrintScan(Pick(res, idx), Pick(tim, idx), 0).1
  {
    var res', tim' := Pick(res, idx), Pick(tim, idx);
    PrintScanFails(res, tim, 0);
    forall k | 0 <= k < |res'|
      ensures Printable(tim', k)
    {
      assert Printable(tim, idx[k]);
    }
    PrintScanFails(res', tim', 0);
  }

  /** The module globals `resolution` and `timing_parameters`. */
  class Resolutions {
    var resolution: seq<string>
    var timingParameters: seq<seq<string>>

    constructor ()
      ensures resolution == [] && timingParameters == []
    {
      resolution := [];
      timingParameters := [];
    }

    /**
     * `find_resolution`: parse as many lines as there are distinct
     * '#'-tokens, appending each line's resolution and timing tokens; a
     * missing or short line raises, after the earlier lines were appended.
     */
    method FindResolution(output: string) returns (res: Outcome<string>)
      modifies this
      ensures Appended(old(resolution), old(timingParameters), FoundModes(output))
      ensures res.Fail? <==> FindFails(output)
      ensures res.Fail? ==> res.error == FindError(output)
    {
      if output == [] {
        assert Text.Words(Text.BytesSplit, output) == [];
        assert FoundModes(output) == [];
        return Fail(CALLED_PROCESS_ERROR);
      }
      var maxRes := |Tags(output)|;
      var lines := Text.SplitLines(output);
      res := AppendModes(ParsedLines(lines), maxRes);
    }

    /** The lists hold what they held before followed by the names and timings of `done`. */
    ghost predicate Appended(r0: seq<string>, t0: seq<seq<string>>, done: seq<Mode>)
      reads this
    {
      resolution == r0 + Names(done) && timingParameters == t0 + Timings(done)
    }

    /** One iteration's pair of appends. */
    method AppendMode(m: Mode, ghost r0: seq<string>, ghost t0: seq<seq<string>>, ghost done: seq<Mode>)
      requires Appended(r0, t0, done)
      modifies this
      ensures resolution == old(resolution) + [m.name] && timingParameters == old(timingParameters) + [m.timing]
      ensures Appended(r0, t0, done + [m])
    {
      NamesAppend(done, m);
      resolution := resolution + [m.name];
      timingParameters := timingParameters + [m.timing];
    }

    /**
     * The loop of `find_resolution` over the first `count` lines, given each
     * line's parse (`line.split()` and the two indexings, which do not depend
     * on the lists).
     */
    method AppendModes(ms: seq<Option<Mode>>, count: nat) returns (res: Outcome<string>)
      modifies this
      ensures Appended(old(resolution), old(timingParameters), Modes(ms, StopAt(ms, 0, count)))
      ensures res.Fail? <==> StopAt(ms, 0, count) < count
      ensures res.Fail? ==> res.error == INDEX_ERROR
    {
      ghost var stop := StopAt(ms, 0, count);
      StopAtProps(ms, 0, count);
      for i := 0 to count
        invariant i <= stop
        invariant Appended(old(resolution), old(timingParameters), Modes(ms, i))
      {
        if i >= |ms| || ms[i].None? {
          assert !Parses(ms, i);
          return Fail(INDEX_ERROR);
        }
        assert Modes(ms, i + 1) == Modes(ms, i) + [ms[i].value];
        AppendMode(ms[i].value, old(resolution), old(timingParameters), Modes(ms, i));
      }
      return Pass;
    }

    /**
     * `sort_resolution`: the first occurrence of each resolution among all
     * but the last entry, in order, each with its timing entry.
     */
    method SortResolution()
      requires Examined(|resolution|) <= |timingParameters|
      modifies this
      ensures var idx := Firsts(old(resolution), Examined(|old(resolution)|));
        && resolution == Pick(old(resolution), idx)
        && timingParameters == Pick(old(timingParameters), idx)
      ensures NoDuplicates(resolution) && |resolution| == |timingParameters|
      ensures forall k :: 0 <= k < Examined(|old(resolution)|) ==> old(resolution)[k] in resolution
    {
      var tempList: seq<string> := [];
      var tempList2: seq<seq<string>> := [];
      var i := 0;
      while i < |resolution| - 1
        invariant 0 <= i <= Examined(|resolution|)
        invariant tempList == Pick(resolution, Firsts(resolution, i))
        invariant tempList2 == Pick(timingParameters, Firsts(resolution, i))
        invariant forall x :: x in tempList <==> x in resolution[..i]
      {
        assert resolution[..i + 1] == resolution[..i] + [resolution[i]];
        if resolution[i] !in tempList {
          assert Firsts(resolution, i + 1) == Firsts(resolution, i) + [i];
          tempList := tempList + [resolution[i]];
          tempList2 := tempList2 + [timingParameters[i]];
        }
        i := i + 1;
      }
      FirstsCover(resolution, i);
      FirstsDistinct(resolution, i);
      resolution := tempList;
      timingParameters := tempList2;
    }

    /** `print_resolution`: the lines printed, and IndexError on the first entry without nine timing tokens. */
    method PrintResolution() returns (out: seq<string>, res: Outcome<string>)
      ensures var scan := PrintScan(resolution, timingParameters, 0);
        out == scan.0 && (res.Fail? <==> scan.1) && (res.Fail? ==> res.error == INDEX_ERROR)
    {
      out := [];
      for i := 0 to |resolution|
        invariant out + PrintScan(resolution, timingParameters, i).0 == PrintScan(resolution, timingParameters, 0).0
        invariant PrintScan(resolution, timingParameters, i).1 == PrintScan(resolution, timingParameters, 0).1
      {
        out := out + [resolution[i], TimingTitle()];
        if !Printable(timingParameters, i) {
          assert PrintScan(resolution, timingParameters, i) == ([resolution[i], TimingTitle()], true);
          return out, Fail(INDEX_ERROR);
        }
        out := out + [TimingLine(timingParameters[i]), NewlineLine()];
        assert PrintScan(resolution, timingParameters, i).0
            == Block(resolution[i], timingParameters[i]) + PrintScan(resolution, timingParameters, i + 1).0;
      }
      return out, Pass;
    }

    /**
     * The script: find, print, print the separator, remove repeats, print
     * again. No match from `grep` ends it before anything is printed; an
     * IndexError ends it with what was printed so far.
     */
    method RunScript(output: string) returns (out: seq<string>, res: Outcome<string>)
      requires |resolution| == |timingParameters|
      modifies this
      ensures res.Fail? ==> res.error == (if FindFails(output) then FindError(output) else INDEX_ERROR)
      ensures var found := FoundModes(output);
        FindFails(output) ==>
          && res.Fail? && out == []
          && resolution == old(resolution) + Names(found)
          && timingParameters == old(timingParameters) + Timings(found)
      ensures var found := FoundModes(output);
        var r := old(resolution) + Names(found);
        var t := old(timingParameters) + Timings(found);
        var idx := Firsts(r, Examined(|r|));
        res.Pass? ==>
          && resolution == Pick(r, idx) && timingParameters == Pick(t, idx)
          && out == PrintScan(r, t, 0).0 + [SEPARATOR] + PrintScan(resolution, timingParameters, 0).0
      ensures var found := FoundModes(output);
        var r := old(resolution) + Names(found);
        var t := old(timingParameters) + Timings(found);
        && (res.Fail? <==> FindFails(output) || PrintScan(r, t, 0).1)
        && (!FindFails(output) && PrintScan(r, t, 0).1 ==>
              out == PrintScan(r, t, 0).0 && resolution == r && timingParameters == t)
      ensures res.Pass? ==> NoDuplicates(resolution) && |resolution| == |timingParameters|
      ensures res.Pass? ==> (4 * |resolution| + 1 <= |out|
        && out[|out| - 4 * |resolution| - 1] == SEPARATOR
        && out[|out| - 4 * |resolution|..] == PrintScan(resolution, timingParameters, 0).0)
    {
      out, res := FindAndPrint(output);
      if res.Fail? {
        return;
      }
      ghost var r, t := resolution, timingParameters;
      var second;
      second, res := SortAndPrint();
      PickKeepsPrintable(r, t, Firsts(r, Examined(|r|)));
      out := out + [SEPARATOR] + second;
      if res.Pass? {
        assert out[|out| - |second|..] == second;
      }
    }

    /** The first two steps of the script: read the listing, then print what was read. */
    method FindAndPrint(output: string) returns (out: seq<string>, res: Outcome<string>)
      requires |resolution| == |timingParameters|
      modifies this
      ensures Appended(old(resolution), old(timingParameters), FoundModes(output))
      ensures res.Fail? ==> res.error == (if FindFails(output) then FindError(output) else INDEX_ERROR)
      ensures |resolution| == |timingParameters|
      ensures FindFails(output) ==> res.Fail? && out == []
      ensures !FindFails(output) ==> out == PrintScan(resolution, timingParameters, 0).0
      ensures !FindFails(output) ==> (res.Fail? <==> PrintScan(resolution, timingParameters, 0).1)
    {
      out := [];
      res := FindResolution(output);
      if res.Fail? {
        return;
      }
      out, res := PrintResolution();
    }

    /** The last two steps of the script: remove repeats, then print. */
    method SortAndPrint() returns (out: seq<string>, res: Outcome<string>)
      requires |resolution| == |timingParameters|
      modifies this
      ensures var idx := Firsts(old(resolution), Examined(|old(resolution)|));
        && resolution == Pick(old(resolution), idx)
        && timingParameters == Pick(old(timingParameters), idx)
      ensures out == PrintScan(resolution, timingParameters, 0).0
      ensures res.Fail? <==> PrintScan(resolution, timingParameters, 0).1
      ensures res.Fail? ==> res.error == INDEX_ERROR
      ensures res.Pass? ==> NoDuplicates(resolution) && |resolution| == |timingParameters|
      ensures res.Pass? ==> |out| == 4 * |resolution| && out == PrintScan(resolution, timingParameters, 0).0
    {
      SortResolution();
      out, res := PrintResolution();
      if res.Pass? {
        PrintScanBlocks(resolution, timingParameters, 0);
      }
    }
  }
}

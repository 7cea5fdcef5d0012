# modetest: a verified model of the display test harness

The repository is a test harness for the display (DRM/KMS framebuffer)
pipeline of an embedded board. It has five parts, and this project models
each of them:

- **The Display test-suite runner** (`Sources/disp/test_disp.py`). It
  parses `-t` (a case number or a group name) and `-i` (an iteration
  count). It then recreates a CSV report file with a title line and a
  column header. Each selected case runs its hardware probe once per
  iteration and appends one report line. The suite result code becomes
  the exit code.
- **The shared Python test utilities** (`Sources/common/testutils.py`).
  These are the seven result codes (PASS 0 … FATAL 6), the
  `TestFailureException`, the code-to-label mapper, the suite and case
  result globals with their update helpers, and the report-file helpers.
- **The C test helpers** (`Sources/common/test_common.c`). These are the
  rejection-sampling random number generators (int, 64-bit and "huge"), a
  Fisher–Yates array shuffle, an array of unique random numbers, a bubble
  sort, sorting with duplicate removal, a random number avoiding an
  exclusion list, and lower-casing a C string.
- **The C test macros** (`Sources/common/test_common.h`). These are the
  result enumeration, the register bit-field macros, the parity and
  tolerance checks, `ARRAY_SEARCH_ELEMENT` and `SWAP`, and the
  `EXPECT_*`/`ASSERT_*`/`*_TEST` macros that escalate the global
  `test_result`.
- **Two scripts.**
  - `addon.py` builds `modetest` mode-setting commands for thirteen cases
    from `grep` output: connector, CRTC, plane table and pixel formats.
  - `5resoln_without_num_copy.py` lists the display modes in a `modetest`
    listing, removes repeated resolutions and prints them again.

Module by module:

- `Wrappers` (`wrappers.dfy`): `Option`, `Result` and `Outcome`.
- `Text` (`text.dfy`): the Python string built-ins the scripts use. `split()` follows Python's whitespace for `str` and for `bytes`; the others are restricted to ASCII.
- `TestUtils` (`testutils.dfy`): `testutils.py`. Its module globals are the class `TestUtils`, and the report file is the sequence of its lines.
- `Display` (`test_disp.dfy`): `test_disp.py`. It has pure specification functions and lemmas, and the class `Display` holds the option globals.
- `TestMacros` (`test_macros.dfy`): `test_common.h`. The class `TestStatus` holds `test_result` and `test_result_msg`.
- `TestCommon` (`test_common.dfy`): `test_common.c`. Its algorithms work in place on `array`s.
- `Addon` (`addon.dfy`) and `Resolution` (`resolution.dfy`): the two scripts. Each has a class for its module globals.

What the outside world supplies becomes a parameter:

- Subprocess output (`grep`, `modetest`) is passed in as a string. An empty string means `grep` matched nothing, and the reader raises CalledProcessError.
- Each `rand()` draw is an element of a `draws` sequence. Each `randrange` result is a `Placement` or a choice index.
- The outcome of each hardware probe is `probe(case, iteration)`.
- Whether each report-file write succeeds is `writeOk(line)`.

### Where the code and its documentation disagree (the model follows the code)

- **The suite result code is not the most severe code.** `test_suite_update_result` takes any code above the *case* code. The display flow never raises the case code above PASS, so the suite ends with the most recent non-PASS code, not the worst one (`TestUtils.SuiteAfterAllIsLastFailure`, `Display.MainExitIsLastFailure`).
- **The unknown-code message always says "(4)".** `test_get_result_str` reassigns `err_code` to ERROR before it formats the message for an unknown code.
- **Case 2's report line is not a clean CSV row.** Its description contains a comma, so the line has one more field than the header.
- **`-t` accepts more cases than exist.** It accepts numbers 1..50, but only 1..31 are registered. A number in 32..50 fails the description lookup before the `try` in `test_disp_execute_case`. The report then keeps only its title and header, and the suite exits ERROR (`Display.MainUnregisteredCase`).
- **Case 1 in `addon.py` calls a different binary.** Case 1 issues `modetest_mipi` and cases 2..13 issue `modetest`. The plane id the script reads is never used.
- **`sort_resolution` skips the last entry.** It examines only the first `len - 1` entries, so a last resolution that appears nowhere earlier is dropped (`Resolution.SortDropsUniqueLast`).
- **`find_resolution` counts one thing and reads another.** It counts the *distinct* `#` tokens of the output, then reads that many lines.

## Model

| member | source | states |
|---|---|---|
| TestUtils.RenderRoundTrip | Sources/common/testutils.py:21-26 | `str(exc)` is the message followed by the code in parentheses, and the code reads back from it |
| TestUtils.ResultStr | Sources/common/testutils.py:146-169 | a label exists exactly for the seven result codes; any other value raises an ERROR failure |
| TestUtils.ResultStrRoundTrip | Sources/common/testutils.py:146-169 | every code's label maps back to that code, so the labels are pairwise distinct |
| TestUtils.CaseAfterMonotone | Sources/common/testutils.py:137-143 | the case code never decreases and changes exactly when the new code is higher; the message changes only along with the code |
| TestUtils.SuiteAfterNotMaximum | Sources/common/testutils.py:130-134 | a later WARNING replaces an earlier CRITICAL: the suite code is not a maximum |
| TestUtils.SuiteAfterAllSnoc | Sources/common/testutils.py:130-134 | folding one more case code into the suite code is one more update with the case code at PASS |
| TestUtils.SuiteAfterAllIsLastFailure | Sources/common/testutils.py:130-134 | with the case code at PASS, the suite code equals the last non-PASS code, or the initial code when there is none |
| TestUtils.TestUtils.constructor | Sources/common/testutils.py:116-119 | the result globals start at PASS with no case message |
| TestUtils.TestUtils.SuiteUpdateResult | Sources/common/testutils.py:130-134 | the suite code becomes the error code exactly when it exceeds the case code; otherwise nothing changes |
| TestUtils.TestUtils.CaseUpdateResult | Sources/common/testutils.py:137-143 | the case code and message are raised together and never lowered |
| TestUtils.TestUtils.CheckReportFileAccess | Sources/common/testutils.py:172-179 | a writable report is recreated holding just the given line; otherwise it is unchanged and an ERROR failure is raised |
| TestUtils.TestUtils.WriteReportFile | Sources/common/testutils.py:182-189 | a successful write appends exactly one line after the earlier ones; a failed one changes nothing and raises ERROR |
| Text.Words | addon.py:24 | `split()` yields non-empty tokens with no whitespace in them; for a `str`, whitespace is every character `str.isspace()` accepts (U+001C..U+001F and the Unicode spaces among them), for `bytes` the six ASCII whitespace bytes |
| Text.WordsAtSpace | addon.py:24 | a whitespace character splits the text: the tokens of `s1 + c + s2` are those of `s1` followed by those of `s2` |
| Text.WordsOfBlank | addon.py:24 | a text of whitespace only has no tokens |
| Text.WordsOfToken | addon.py:24 | a non-empty run without whitespace is one token, itself; with the two lemmas above this fixes the tokens of every text, for either kind of split |
| Text.SplittersDiffer | 5resoln_without_num_copy.py:14 | U+001C separates two tokens of a `str` but stays inside a `bytes` token |
| Text.SplitOn | addon.py:47 | `split('\n')` yields at least one part, no part contains the separator, and joining the parts with the separator gives the text back |
| Text.SplitOnLastEmpty | addon.py:47 | the last part is empty exactly when the text is empty or ends with the separator |
| Text.SplitLines | 5resoln_without_num_copy.py:23 | no line returned by `splitlines()` contains a line break, and joining the lines with line breaks gives the text back, less one final line break |
| Text.Lower | Sources/disp/test_disp.py:168 | `lower()` keeps the length, turns each of 'A'..'Z' into its lower-case letter, leaves every other character unchanged, and leaves no upper-case letter |
| Text.LowerMatches | Sources/disp/test_disp.py:168-169 | the lower-case form of a text equals a lower-case word exactly when the text spells that word in some mix of cases |
| Text.Capitalize | Sources/disp/test_disp.py:811-813 | `capitalize()` keeps the length |
| Display.GroupsAreRegistered | Sources/disp/test_disp.py:44-82 | every case of the automated, sanity and manual groups is in the registry |
| Display.TestOptionAccepts | Sources/disp/test_disp.py:155-175 | a numeric `-t` argument is accepted exactly when it is in 1..50; any other argument is accepted exactly when its lower-case form names a group |
| Display.GroupArgumentAccepted | Sources/disp/test_disp.py:168-169 | a `-t` argument names a group exactly when it spells "automated", "sanity" or "manual" in any mix of cases |
| Display.IterationOptionAccepts | Sources/disp/test_disp.py:176-192 | `-i` accepts exactly the digit strings, keeps the selection, and stores a count of at least 1, with 0 becoming 1 |
| Display.HelpOptionFails | Sources/disp/test_disp.py:193-199 | `-h` always fails with an ERROR failure and its fixed message, whatever its argument |
| Display.ApplyOptionKeepsValid | Sources/disp/test_disp.py:154-206 | a successful option keeps the selection valid and the iteration count positive |
| Display.ApplyOptionsKeepsValid | Sources/disp/test_disp.py:154-206 | the options, in order, keep the state valid whatever happens, and every failure is an ERROR |
| Display.GetOptionsValid | Sources/disp/test_disp.py:135-225 | after parsing, the count is at least 1; success implies a valid selection, and a missing `-t` or a getopt error is an ERROR failure |
| Display.RaisedAt | Sources/disp/test_disp.py:247-258 | the iteration reported is the first to raise, and every earlier iteration passed |
| Display.CaseOutcomeAllPass | Sources/disp/test_disp.py:681-690 | a case whose iterations all pass ends PASS with the completion message |
| Display.CaseOutcomeFirstRaise | Sources/disp/test_disp.py:681-690 | a case takes the code and message of its first raising iteration; an unclassified exception gives ERROR with the default message |
| Display.ExecuteCaseCompletes | Sources/disp/test_disp.py:691-711 | a case writes its line and lets the suite go on exactly when it is registered, its code is a known non-FATAL code, and the write succeeds |
| Display.FatalCaseWritesThenStops | Sources/disp/test_disp.py:707-711 | a FATAL case still writes its line, then raises FATAL |
| Display.RunCasesReport | Sources/disp/test_disp.py:828-840 | earlier report lines are kept, and the k-th new line is the line of the k-th case; when nothing escapes there is one line per case |
| Display.CaseCodes | Sources/disp/test_disp.py:691-711 | one code per registered case, in order, the code that case's run of iterations ends with |
| Display.RunCasesAllComplete | Sources/disp/test_disp.py:828-840 | when every case completes, nothing escapes and the suite code folds the case codes in order |
| Display.RunCasesStopsAtFatal | Sources/disp/test_disp.py:828-840 | a FATAL case stops the run right after its own line, and the suite code is FATAL |
| Display.RunCasesCodes | Sources/disp/test_disp.py:681-711 | what escapes a case is a FATAL or ERROR failure or another exception; a run that nothing stops keeps the suite code a result code |
| Display.RunSuiteCodes | Sources/disp/test_disp.py:818-840 | what escapes the suite run is ERROR, FATAL or another exception; otherwise the suite code stays a result code |
| Display.MainExitIsResultCode | Sources/disp/test_disp.py:842-864 | the exit code is always one of the seven result codes, so the final label lookup cannot raise |
| Display.MainOptionsFailure | Sources/disp/test_disp.py:786-787 | a rejected command line leaves the report untouched and exits ERROR |
| Display.RunSuiteReport | Sources/disp/test_disp.py:818-840 | report not writable: unchanged. Header write fails: title only. Otherwise: title, header, then the lines of a prefix of the selected cases |
| Display.RunSuiteLines | Sources/disp/test_disp.py:818-840 | with both writes succeeding, the report is the title, the header and one line per case run, in order |
| Display.HeadedReportLines | Sources/disp/test_disp.py:824-840 | under the title and the header, the j-th case line is the line of the j-th selected case |
| Display.RunSuiteRuns | Sources/disp/test_disp.py:818-840 | a valid selection with both writes succeeding runs its cases beneath the title and header |
| Display.MainReportShape | Sources/disp/test_disp.py:770-864 | the report `test_disp_main` leaves after a valid command line, in each of the three write outcomes |
| Display.MainExitIsLastFailure | Sources/disp/test_disp.py:770-864 | if every case completes, the exit code is the most recent non-PASS case code, not the most severe one |
| Display.MainStopsAtFatal | Sources/disp/test_disp.py:770-864 | a FATAL case ends the run after its line, and the suite exits FATAL |
| Display.MainUnregisteredCase | Sources/disp/test_disp.py:228-234 | `-t 32`..`-t 50` is accepted, but the suite then writes only the title and header and exits ERROR |
| Display.Display.constructor | Sources/disp/test_disp.py:39-41 | the options start unset with one iteration |
| Display.Display.GetOptions | Sources/disp/test_disp.py:135-225 | the option globals and the raised failure are those of the option specification |
| Display.Display.ExecuteCase | Sources/disp/test_disp.py:228-711 | the suite code, the appended line and what escapes are those of the single-case specification; a registered case resets the case result |
| Display.Display.RunSelection | Sources/disp/test_disp.py:818-840 | the report, the suite code and the escape are those of the suite specification; the case code and message are left as they were, or reset to PASS with no message |
| Display.Display.ExecuteCases | Sources/disp/test_disp.py:828-840 | the loop over the cases matches the case-by-case specification and stops at the first escape; the case code and message are left as they were, or reset to PASS with no message |
| Display.Display.RunMain | Sources/disp/test_disp.py:770-864 | the report and exit code are those of the main specification; the exit code is the suite code and a result code |
| TestMacros.ResultCodesAgree | Sources/common/test_common.h:75-83 | the C enumeration and the Python result codes agree value for value |
| TestMacros.CheckContinueIsLeastSevere | Sources/common/test_common.h:92 | among the seven codes, exactly PASS, WARNING and NOTICE let a test continue |
| TestMacros.GetRegBitVal | Sources/common/test_common.h:95 | the field read is within its mask |
| TestMacros.GetSetRegBitVal | Sources/common/test_common.h:95-98 | reading back a field that was set gives the masked value, when the shifted value fits in 32 bits |
| TestMacros.SetRegBitValLosesHighBits | Sources/common/test_common.h:98 | bits shifted past bit 31 are lost: setting 0x80000000 at bit 1 reads back 0 |
| TestMacros.CRem | Sources/common/test_common.h:101-102 | C's `%`: the remainder has the dividend's sign and a smaller magnitude than the divisor |
| TestMacros.ParityOfCRemainder | Sources/common/test_common.h:101-102 | evenness is mathematical evenness; oddness holds only for positive odd numbers, so a negative odd number is neither |
| TestMacros.RangeIsAllowableIsDistance | Sources/common/test_common.h:105 | the tolerance check is a distance bound, and so is symmetric in its two parameters |
| TestMacros.ArraySearchElement | Sources/common/test_common.h:423-435 | the index of the first occurrence among the first `size` elements, or -1 exactly when there is none |
| TestMacros.Swap | Sources/common/test_common.h:390-396 | the two elements are exchanged and nothing else changes |
| TestMacros.Truncate | Sources/common/test_common.h:48 | the message keeps at most 511 characters and is a prefix of the formatted text |
| TestMacros.Escalate | Sources/common/test_common.h:293-323 | a soft failure raises the result to its level when below it, and otherwise keeps it |
| TestMacros.EscalateMonotone | Sources/common/test_common.h:293-377 | soft failures never lower the result, repeating one is idempotent, and a later WARNING keeps an earlier NOTICE |
| TestMacros.TestStatus.constructor | Sources/common/test_common.h:75-83 | the result starts at PASS with an empty message |
| TestMacros.TestStatus.ExpectFailed | Sources/common/test_common.h:293-307 | NOTICE and the message are stored only when the result is below NOTICE, and the caller returns the result |
| TestMacros.TestStatus.SetResult | Sources/common/test_common.h:216-228 | the code and message are stored whatever the result was, and the code is returned |
| TestMacros.TestStatus.ExpectTrue | Sources/common/test_common.h:293-307 | a false condition escalates the result to NOTICE and makes the caller return it; a true one changes nothing and lets the caller go on |
| TestMacros.TestStatus.ExpectFalse | Sources/common/test_common.h:309-323 | a true condition escalates the result to NOTICE and makes the caller return it; a false one changes nothing |
| TestMacros.TestStatus.ExpectEqual | Sources/common/test_common.h:325-339 | unequal values escalate the result to NOTICE and make the caller return it; equal ones change nothing |
| TestMacros.TestStatus.ExpectNotEqual | Sources/common/test_common.h:341-355 | equal values escalate the result to NOTICE and make the caller return it; unequal ones change nothing |
| TestMacros.TestStatus.WarnTest | Sources/common/test_common.h:367-377 | escalates to WARNING (keeping a more severe result and its message) and always makes the caller return the result |
| TestMacros.TestStatus.AssertTrue | Sources/common/test_common.h:216-228 | a false condition stores CRITICAL over any result and returns it; a true one changes nothing |
| TestMacros.TestStatus.AssertFalse | Sources/common/test_common.h:230-242 | a true condition stores and returns CRITICAL |
| TestMacros.TestStatus.AssertEqual | Sources/common/test_common.h:244-256 | unequal values store and return CRITICAL |
| TestMacros.TestStatus.AssertNotEqual | Sources/common/test_common.h:258-270 | equal values store and return CRITICAL |
| TestMacros.TestStatus.FlunkTest | Sources/common/test_common.h:283-291 | stores and returns FATAL unconditionally |
| TestMacros.TestStatus.SkipTest | Sources/common/test_common.h:357-365 | stores and returns SKIP, even over a more severe result |
| TestMacros.TestStatus.ErrorTest | Sources/common/test_common.h:379-387 | stores and returns ERROR, even over a more severe result |
| TestMacros.AssertSuccess | Sources/common/test_common.h:272-281 | the caller returns the code exactly when it does not let the test continue |
| TestCommon.Accepted | Sources/common/test_common.c:144-156 | every draw the rejection loop accepts is below the limit |
| TestCommon.BucketInRange | Sources/common/test_common.c:144-156 | an accepted draw maps into `[min, max]` |
| TestCommon.RandomNumber | Sources/common/test_common.c:144-156 | draws at or above the limit are skipped; the first accepted draw gives the result, which lies in `[min, max]` |
| TestCommon.Limit16Values | Sources/common/test_common.c:159-169 | the rejection bound and bucket width of a 16-bit draw |
| TestCommon.Pack16RoundTrip | Sources/common/test_common.c:159-169 | four 16-bit parts pack into a value below 2^64 from which each part reads back |
| TestCommon.Random16 | Sources/common/test_common.c:163 | one 16-bit draw lies in `[0, 0xFFFF]` and consumes exactly one accepted draw |
| TestCommon.Random64 | Sources/common/test_common.c:159-169 | the result packs the next four accepted 16-bit draws, most significant first, and is below 2^64 |
| TestCommon.HugeBucketInRange | Sources/common/test_common.c:172-184 | for an ordered range, an accepted 64-bit value maps into `[min, max]` without wrapping |
| TestCommon.HugeRandomNumber | Sources/common/test_common.c:172-184 | the result comes from the first accepted value in unsigned 64-bit arithmetic, and lies in `[min, max]` when the range is ordered |
| TestCommon.ShuffleIndexInRange | Sources/common/test_common.c:115-134 | the swap partner of position `i` lies in `[i, n)` |
| TestCommon.Shuffled | Sources/common/test_common.c:115-134 | the shuffle keeps the length |
| TestCommon.ShuffledIsPermutation | Sources/common/test_common.c:115-134 | the shuffle is a permutation and leaves positions outside `[i, n)` in place |
| TestCommon.ShuffledKeepsDistinct | Sources/common/test_common.c:115-134 | shuffling distinct values in a range gives distinct values in that range |
| TestCommon.ArrayShuffle | Sources/common/test_common.c:115-134 | the array becomes the specified shuffle of its old contents (unchanged when `n <= 1`), a permutation |
| TestCommon.ShuffledRange | Sources/common/test_common.c:205-216 | the freshly allocated array is the shuffle of `min..min+range-1`, so its values are distinct and in range |
| TestCommon.UniqueRandomNumArray | Sources/common/test_common.c:187-221 | ERROR exactly for an inverted range, a bad size or a failed allocation, leaving the array unchanged; the status message is the one for the first failing check; otherwise PASS with `size` distinct values from `[min, max]`, the first `size` of the specified shuffle |
| TestCommon.BubbleStepKeepsInvariant | Sources/common/test_common.c:231-236 | one compare-and-swap keeps the inner-loop invariant |
| TestCommon.BubblePass | Sources/common/test_common.c:231-236 | one pass moves the largest of `a[0..m]` to position `m`, keeps the sorted tail and permutes the array |
| TestCommon.SortArray | Sources/common/test_common.c:224-241 | the first `size` elements end sorted, the array is a permutation of its old contents, the rest is unchanged, and 0 is returned |
| TestCommon.SkipRunAsWritten | Sources/common/test_common.c:256 | the run loop as written lowers the size by one for every step `j` takes |
| TestCommon.DedupeAsWritten | Sources/common/test_common.c:244-264 | the duplicate removal as written keeps the length and never grows the size |
| TestCommon.DedupeAsWrittenKeepsDuplicate | Sources/common/test_common.c:256-259 | on `[1, 1, 1, 1]` the code as written stops at size 2 and leaves `[1, 1]` |
| TestCommon.StrictlyIncreasingCard | Sources/common/test_common.c:244-264 | a strictly increasing sequence has as many distinct values as elements |
| TestCommon.DropRun | Sources/common/test_common.c:256-259 | dropping a run of copies of the previous element keeps the order and the set of values |
| TestCommon.PrefixElems | Sources/common/test_common.c:251 | sorting a prefix in place keeps its set of values |
| TestCommon.CloseRun | Sources/common/test_common.c:256-259 | removing one run of duplicates keeps the prefix sorted and its set of values, extends the strictly increasing part, and shrinks the size |
| TestCommon.SortArrayUnique | Sources/common/test_common.c:244-264 | the first `newSize` elements strictly increase and hold exactly the values of the first `size`; 0 is returned |
| TestCommon.RandomNumberExcluded | Sources/common/test_common.c:267-286 | the result lies in `[min, max]`, is none of the excluded values, and lies between the accepted draw and that draw plus the number of distinct excluded values; the excluded list is left strictly increasing with the same values |
| TestCommon.ToLowerByte | Sources/common/test_common.c:102-112 | only 'A'..'Z' change, each to its lower-case letter, and no upper-case letter remains |
| TestCommon.CStrLen | Sources/common/test_common.c:102-112 | the index of the first NUL byte |
| TestCommon.StrToLower | Sources/common/test_common.c:102-112 | every byte before the terminator is lower-cased in place, the rest is unchanged, and the same pointer is returned |
| Addon.FirstNumeric | addon.py:25-30 | the first all-digit token if there is one; `None` exactly when no token is all digits |
| Addon.GetPara | addon.py:21-30 | `getpara` raises CalledProcessError exactly when `grep` matches nothing; otherwise it returns the first numeric whitespace token of the output, or nothing |
| Addon.RandRange | addon.py:55-56 | every value `randrange(minimum, maximum, step)` can give lies in `[minimum, maximum)` |
| Addon.RandRangeStep | addon.py:55-56 | each chosen multiple of the step lies below the span |
| Addon.PlanePositionChoices | addon.py:91-92 | the plane positions are exactly 10, 20, 30, 40 and 50 |
| Addon.PlaneSizeChoices | addon.py:93-94 | the plane sizes are exactly 100, 150, …, 350 |
| Addon.CaseCommandBlocks | addon.py:82-221 | case 1 sets a mode on `modetest_mipi`; cases 2..13 use plane table entry `(case - 2) / 4` with the suffix for their position in the block |
| Addon.CaseSpecCount | addon.py:82-223 | a known case issues one command per format, in format order; any other number gives "Null" |
| Addon.Addon.constructor | addon.py:13-14 | the format list and the plane table start empty |
| Addon.Addon.GetFormat | addon.py:33-40 | no match raises CalledProcessError and keeps the list; otherwise the format list becomes the tokens after the first, and a line without tokens raises IndexError and leaves the list empty |
| Addon.Addon.Plane | addon.py:43-52 | no match raises CalledProcessError and keeps the table; otherwise the plane table gains the first token of lines 0, 3, 6, … before the last part, and a blank such line raises IndexError |
| Addon.Addon.RunScript | addon.py:64-223 | the first `grep` that matches nothing raises CalledProcessError, then a blank plane line or a format line without tokens raises IndexError; otherwise the run is that of the selected case over the parsed ids, formats and plane table. The final plane table and format list are stated for every path |
| Addon.Addon.RunCase | addon.py:82-223 | the loop issues the commands of the case specification |
| Addon.FirstTokens | addon.py:51-52 | one entry per line, holding that line's first token |
| Addon.PlaneScanIds | addon.py:50-52 | the k-th plane id is the first token of line `3k`, a line before the last |
| Addon.PlaneScanStop | addon.py:50-52 | the scan ends after the last line it should read, or raises at a blank line among them |
| Resolution.StopAtProps | 5resoln_without_num_copy.py:25-29 | the loop stops at the first missing or short line, or after all the counted lines parsed |
| Resolution.Modes | 5resoln_without_num_copy.py:25-29 | one mode per line read, being that line's parse |
| Resolution.Firsts | 5resoln_without_num_copy.py:46-49 | the kept indices are all below the examined bound |
| Resolution.FirstsIncreasing | 5resoln_without_num_copy.py:46-49 | the kept entries stay in their original order |
| Resolution.FirstsAreFirst | 5resoln_without_num_copy.py:46-49 | each kept entry is the first occurrence of its resolution |
| Resolution.FirstsCover | 5resoln_without_num_copy.py:46-49 | every examined resolution is kept |
| Resolution.FirstsDistinct | 5resoln_without_num_copy.py:46-49 | the kept resolutions are pairwise distinct |
| Resolution.SortDropsUniqueLast | 5resoln_without_num_copy.py:46 | a last resolution that appears nowhere earlier is dropped |
| Resolution.Block | 5resoln_without_num_copy.py:33-38 | an entry prints as four lines: name, title, timing line, newline |
| Resolution.PrintScanFails | 5resoln_without_num_copy.py:33-38 | printing raises exactly when some entry lacks nine timing tokens |
| Resolution.PrintScanBlocks | 5resoln_without_num_copy.py:33-38 | when printing does not raise, entry `k` is printed as the k-th block of four lines |
| Resolution.Resolutions.constructor | 5resoln_without_num_copy.py:4-5 | both lists start empty |
| Resolution.Resolutions.FindResolution | 5resoln_without_num_copy.py:8-29 | the lists gain the names and timings of the lines read; CalledProcessError exactly when `grep` matches nothing, otherwise IndexError exactly when a counted line is missing or short |
| Resolution.Resolutions.AppendMode | 5resoln_without_num_copy.py:28-29 | one name and its timing are appended, keeping the two lists paired |
| Resolution.Resolutions.AppendModes | 5resoln_without_num_copy.py:25-29 | the lists gain the modes before the stopping line; IndexError exactly when it stops early |
| Resolution.Resolutions.SortResolution | 5resoln_without_num_copy.py:41-51 | the lists become the first occurrences among the examined entries, in order: no duplicates, still paired, every examined resolution kept |
| Resolution.Resolutions.PrintResolution | 5resoln_without_num_copy.py:32-38 | the printed lines and the IndexError are those of the printing specification |
| Resolution.PickKeepsPrintable | 5resoln_without_num_copy.py:33-49 | keeping only some entries cannot make printing raise, so the listing after removing repeats prints whenever the first did |
| Resolution.Resolutions.RunScript | 5resoln_without_num_copy.py:54-58 | the script raises exactly when reading fails (no `grep` match, with CalledProcessError, or a missing or short line) or the first listing raises; when reading fails the lists hold what was read and nothing is printed; when the first listing raises, the output is that partial listing and the lists are as read; on success the lists become the first occurrences among the examined entries of everything read, with no duplicates and still paired, and the output is the listing as read, the separator, and the listing of the final lists |
| Resolution.Resolutions.FindAndPrint | 5resoln_without_num_copy.py:54-55 | the lists gain the modes read; a failed read prints nothing and raises its own exception, otherwise the output and IndexError are those of printing them |
| Resolution.Resolutions.SortAndPrint | 5resoln_without_num_copy.py:57-58 | the lists become the first occurrences among the examined entries, and the output and IndexError are those of printing them, four lines per remaining entry |

## Left out

- Subprocess calls, `time.sleep`, printing, logging and its terminal colours are not modelled. The text a command prints is a parameter. An empty text stands for `grep` matching nothing, where `check_output` raises CalledProcessError; a `grep` that fails with status 2 is not modelled. The printed lines are returned as a sequence where the output is the point (`5resoln_without_num_copy.py`).
- The hardware probes of `test_disp.py` are not modelled as commands: `fb0_enabled`, `get_display_info`, `fbtest`, the modeset and DRM helpers, `test_disp_setup`, `test_disp_teardown` and `test_disp_print_usage`. The suite sees each one only through `probe(case, iteration)`. Teardown swallows its own exceptions, so it cannot change the outcome.
- Seeding `random` in `test_disp_main` and `rand()` in C are not modelled. Every draw is a parameter.
- `test_get_sys_inet_addr`, `test_get_sys_name` and `test_get_formatted_time` in `test_common.c` are not modelled. They read the network configuration and the clock.
- The `PRINT_*` and `TEST_GET_*_STR` macros and `ARRAY_TO_PRINT_BUFF` are not modelled. They only format log output.
- TestCommon.Random64: the four 16-bit parts are combined with addition, not bitwise OR. The two agree because the shifted parts have no bits in common.
- TestCommon.HugeRandomNumber: requires that the range is not the full 64-bit range. For the full range the C code divides by zero.
- TestCommon.RandomNumber: requires `min <= max` and a range that fits `RAND_MAX`. It also requires that the draws contain an accepted one, because a draw sequence that never yields one would loop forever.
- TestCommon.ArrayShuffle: models the generic byte-wise swap of `element_size` bytes as a swap of whole elements.
- TestCommon.ToLowerByte: only the C locale is modelled.
- C `int` overflow is not modelled: integers are unbounded except where a contract names a width (`bv32`, the 64-bit `U64`).
- TestMacros.RangeIsAllowableIsDistance: `param1 - range` and `param1 + range` (Sources/common/test_common.h:105) are taken without 32-bit overflow, so the distance bound is stated for unbounded integers.
- TestCommon.UniqueRandomNumArray: `max - min + 1` (Sources/common/test_common.c:199) and `range * sizeof(array[0])` (Sources/common/test_common.c:205) are taken without `int` overflow or truncation; the allocation size only appears in the failure message.
- TestMacros: macro arguments are substituted unparenthesised, and the model treats every argument as one value. A C argument that is an expression with a lower-precedence operator regroups, so the model does not capture the following:
  - `pos`, `mask`, `x`, `param1`, `param2` and `range` in the bit, parity and range macros (Sources/common/test_common.h:95-105).
  - `if (!val)` in `ASSERT_TRUE` (Sources/common/test_common.h:218) and `EXPECT_TRUE` (Sources/common/test_common.h:295), which TestMacros.TestStatus.AssertTrue and TestMacros.TestStatus.ExpectTrue model. `ASSERT_TRUE(x == 5, …)` tests `(!x) == 5`, which is never true, so that check never fires.
  - `exp != act` and `exp == act` in `ASSERT_EQUAL`, `ASSERT_NOT_EQUAL`, `EXPECT_EQUAL` and `EXPECT_NOT_EQUAL` (Sources/common/test_common.h:246, 260, 327, 343), which TestMacros.TestStatus.AssertEqual, AssertNotEqual, ExpectEqual and ExpectNotEqual model. An argument such as `a & b` or `c ? d : e` regroups with the comparison.
  - `_index < size` and `arr[_index] == element` in `ARRAY_SEARCH_ELEMENT` (Sources/common/test_common.h:423-435), which TestMacros.ArraySearchElement models.
- TestCommon.RandomNumberExcluded: removes duplicates with the corrected TestCommon.SortArrayUnique. With the code as written (Sources/common/test_common.c:256), the list `[3, 3, 3, 3]` is left as `[3, 3]` of size 2 rather than `[3]` of size 1, so with `min` 1 and `max` 5 the draw comes from `[1, 3]`, a 3 is stepped twice to 5, and 4 is never returned.
- `isnumeric`, `isdigit`, `lower` and `capitalize` are modelled on ASCII only. `splitlines` splits on `'\n'` only, and the `bytes` output of `check_output` is treated as text.
- Text.Capitalize: its contract states only the length. Its position-by-position form is its definition.
- Addon.Addon.RunScript: the case number arrives as an integer. Reading `sys.argv[1]` and converting it with `int` (addon.py:77-78) is not modelled. On a missing argument that raises IndexError, and on a non-numeric one ValueError, after the ids, the plane table and the format list were read.
- Resolution.Resolutions.AppendModes: takes the parse of every line as computed up front, rather than splitting each line inside the loop.
- Resolution: `find_resolution`'s set of `#` tokens is a `set`. Its order never matters, because only its size is used.
- Display.Display.GetOptions: the argument list reaches the model already split by getopt, as a list of (option, argument) pairs or the option it rejected.

## Findings

| source | as written | input that shows it | evidently intended | confidence | as-written member | corrected member |
|---|---|---|---|---|---|---|
| Sources/common/test_common.c:256-259 | the run-skipping loop decrements `*size` each time `j` advances, and the loop condition compares `j` with the shrinking size | a sorted array `[1, 1, 1, 1]` of size 4 ends with size 2 holding `[1, 1]` | the first `newSize` elements strictly increase and hold every value of the input exactly once | not executed | TestCommon.DedupeAsWrittenKeepsDuplicate | TestCommon.SortArrayUnique |

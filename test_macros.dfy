/**
 * The C test header: the result enumeration, the continue predicate, the
 * register-bit, parity and tolerance helpers, the first-index search and
 * the SWAP macro, and the severity macros together with the two globals
 * they assign, the result code and the result message.
 *
 * A macro that executes `return` in its caller is a method returning
 * `Some(code)`; `None` means the caller goes on with its next statement.
 * The message the macro formats from its arguments is passed in already
 * formatted.
 */
module TestMacros {
  import opened Wrappers
  import TestUtils

  // ---------------------------------------------------------------------------
  // test_result_t
  // ---------------------------------------------------------------------------

  const TEST_RESULT_PASS: int := 0
  const TEST_RESULT_WARNING: int := 1
  const TEST_RESULT_NOTICE: int := 2
  const TEST_RESULT_SKIP: int := 3
  const TEST_RESULT_ERROR: int := 4
  const TEST_RESULT_CRITICAL: int := 5
  const TEST_RESULT_FATAL: int := 6

  /** The C enumeration and the Python result codes agree value for value. */
  lemma ResultCodesAgree()
    ensures TEST_RESULT_PASS == TestUtils.PASS && TEST_RESULT_WARNING == TestUtils.WARNING
    ensures TEST_RESULT_NOTICE == TestUtils.NOTICE && TEST_RESULT_SKIP == TestUtils.SKIP
    ensures TEST_RESULT_ERROR == TestUtils.ERROR && TEST_RESULT_CRITICAL == TestUtils.CRITICAL
    ensures TEST_RESULT_FATAL == TestUtils.FATAL
  {
  }

  /** `TEST_CHECK_CONTINUE`: a test goes on after PASS, WARNING or NOTICE. */
  predicate CheckContinue(res: int) {
    res == TEST_RESULT_PASS || res == TEST_RESULT_WARNING || res == TEST_RESULT_NOTICE
  }

  /** Among the seven codes, exactly the three least severe let a test continue. */
  lemma CheckContinueIsLeastSevere(res: int)
    requires TEST_RESULT_PASS <= res <= TEST_RESULT_FATAL
    ensures CheckContinue(res) <==> res < TEST_RESULT_SKIP
  {
  }

  // ---------------------------------------------------------------------------
  // Pure helpers
  // ---------------------------------------------------------------------------

  /** `TEST_GET_REG_BIT_VAL` on a 32-bit unsigned value; C leaves a shift by 32 or more undefined. */
  function GetRegBitVal(val: bv32, pos: bv32, mask: bv32): (r: bv32)
    requires pos < 32
    ensures r & mask == r
  {
    (val >> pos) & mask
  }

  /** `TEST_SET_REG_BIT_VAL` on a 32-bit unsigned value: bits shifted past bit 31 are lost. */
  function SetRegBitVal(val: bv32, pos: bv32, mask: bv32): bv32
    requires pos < 32
  {
    (val & mask) << pos
  }

  /** Reading back a field that was set returns the masked value, when the shifted value fits in 32 bits. */
  lemma GetSetRegBitVal(val: bv32, pos: bv32, mask: bv32)
    requires pos < 32
    requires val & mask <= 0xFFFF_FFFF >> pos
    ensures GetRegBitVal(SetRegBitVal(val, pos, mask), pos, mask) == val & mask
  {
  }

  /** When the field does not fit its top bits are lost: setting 0x80000000 at bit 1 reads back 0. */
  lemma SetRegBitValLosesHighBits()
    ensures GetRegBitVal(SetRegBitVal(0x8000_0000, 1, 0xFFFF_FFFF), 1, 0xFFFF_FFFF) == 0
  {
  }
  /** C's `%` on `int`: the remainder takes the sign of the dividend. */
  function CRem(a: int, b: int): (r: int)
    requires b > 0
    ensures -b < r < b
    ensures a >= 0 ==> r == a % b
    ensures a < 0 ==> r <= 0
  {
    if a >= 0 then a % b else -((-a) % b)
  }

  /** `TEST_NUM_IS_EVEN`. */
  predicate IsEven(x: int) {
    CRem(x, 2) == 0
  }

  /** `TEST_NUM_IS_ODD`: compares the C remainder with 1. */
  predicate IsOdd(x: int) {
    CRem(x, 2) == 1
  }

  /** Evenness agrees with the mathematical one; oddness only holds for positive odd numbers, so a negative odd number is neither. */
  lemma ParityOfCRemainder(x: int)
    ensures IsEven(x) <==> x % 2 == 0
    ensures IsOdd(x) <==> x > 0 && x % 2 == 1
    ensures x < 0 && x % 2 == 1 ==> !IsEven(x) && !IsOdd(x)
  {
    if x < 0 {
      assert (-x) % 2 == 0 <==> x % 2 == 0;
    }
  }

  /** `TEST_PARAM_RANGE_IS_ALLOWABLE`: `param2` lies within `range` of `param1`. */
  predicate RangeIsAllowable(param1: int, param2: int, range: int) {
    param1 - range <= param2 && param1 + range >= param2
  }

  function Abs(x: int): nat {
    if x < 0 then -x else x
  }

  /** The tolerance check is a distance bound, and so it is symmetric in its two parameters. */
  lemma RangeIsAllowableIsDistance(param1: int, param2: int, range: int)
    ensures RangeIsAllowable(param1, param2, range) <==> Abs(param1 - param2) <= range
    ensures RangeIsAllowable(param1, param2, range) <==> RangeIsAllowable(param2, param1, range)
  {
  }

  // ---------------------------------------------------------------------------
  // Array macros
  // ---------------------------------------------------------------------------

  /** `ARRAY_SEARCH_ELEMENT`: the index of the first element equal to `element` among the first `size`, or -1. */
  method ArraySearchElement<T(==)>(element: T, arr: array<T>, size: int) returns (pos: int)
    requires size <= arr.Length
    ensures pos == -1 || 0 <= pos < size
    ensures pos == -1 <==> forall i :: 0 <= i < size ==> arr[i] != element
    ensures pos >= 0 ==> arr[pos] == element && forall i :: 0 <= i < pos ==> arr[i] != element
  {
    var found := false;
    pos := -1;
    var index := 0;
    while index < size
      invariant 0 <= index <= if size < 0 then 0 else size
      invariant forall i :: 0 <= i < index ==> arr[i] != element
    {
      if arr[index] == element {
        found := true;
        break;
      }
      index := index + 1;
    }
    if found {
      pos := index;
    }
  }

  /** `SWAP` of two elements of an array, through a temporary copy. */
  method Swap<T>(a: array<T>, i: int, j: int)
    requires 0 <= i < a.Length && 0 <= j < a.Length
    modifies a
    ensures a[..] == old(a[..])[i := old(a[j])][j := old(a[i])]
    ensures multiset(a[..]) == multiset(old(a[..]))
  {
    var tmp := a[j];
    a[j] := a[i];
    a[i] := tmp;
  }

  // ---------------------------------------------------------------------------
  // Severity macros and the result globals
  // ---------------------------------------------------------------------------

  const TEST_RESULT_MSG_LEN: nat := 512

  /** `snprintf` into the message buffer keeps at most 511 characters and the terminator. */
  function Truncate(formatted: string): (m: string)
    ensures |m| < TEST_RESULT_MSG_LEN && |m| <= |formatted|
    ensures m == formatted[..|m|]
    ensures |formatted| < TEST_RESULT_MSG_LEN ==> m == formatted
  {
    if |formatted| < TEST_RESULT_MSG_LEN then formatted else formatted[..TEST_RESULT_MSG_LEN - 1]
  }

  /** The result after a soft failure of the given level: raised to it when below it, otherwise kept. */
  function Escalate(result: int, level: int): (r: int)
    ensures r >= result && r >= level
    ensures r == result || r == level
  {
    if result < level then level else result
  }

  /** Soft failures never lower the result, repeating one changes nothing, and a later WARNING leaves an earlier NOTICE in place. */
  lemma EscalateMonotone(result: int, level: int)
    ensures Escalate(Escalate(result, level), level) == Escalate(result, level)
    ensures result >= level ==> Escalate(result, level) == result
    ensures Escalate(Escalate(result, TEST_RESULT_NOTICE), TEST_RESULT_WARNING) == Escalate(result, TEST_RESULT_NOTICE)
  {
  }

  /** The globals `test_result` and `test_result_msg`, both zero at program start. */
  class TestStatus {
    var result: int
    var msg: string

    constructor ()
      ensures result == TEST_RESULT_PASS && msg == ""
    {
      result := TEST_RESULT_PASS;
      msg := "";
    }

    /** The common part of every EXPECT_* failure: NOTICE and the message only when the result is below NOTICE. */
    method ExpectFailed(formatted: string) returns (ret: Option<int>)
      modifies this
      ensures result == Escalate(old(result), TEST_RESULT_NOTICE)
      ensures msg == if old(result) < TEST_RESULT_NOTICE then Truncate(formatted) else old(msg)
      ensures ret == Some(result)
    {
      if result < TEST_RESULT_NOTICE {
        msg := Truncate(formatted);
        result := TEST_RESULT_NOTICE;
      }
      return Some(result);
    }

    /** The common part of the macros that assign a code whatever the result was, and return it. */
    method SetResult(code: int, formatted: string) returns (ret: Option<int>)
      modifies this
      ensures result == code && msg == Truncate(formatted) && ret == Some(code)
    {
      msg := Truncate(formatted);
      result := code;
      return Some(result);
    }

    /** `EXPECT_TRUE`. */
    method ExpectTrue(val: bool, formatted: string) returns (ret: Option<int>)
      modifies this
      ensures val ==> ret == None && result == old(result) && msg == old(msg)
      ensures !val ==> ret == Some(result) && result == Escalate(old(result), TEST_RESULT_NOTICE)
      ensures !val ==> msg == if old(result) < TEST_RESULT_NOTICE then Truncate(formatted) else old(msg)
    {
      ret := None;
      if !val {
        ret := ExpectFailed(formatted);
      }
    }

    /** `EXPECT_FALSE`. */
    method ExpectFalse(val: bool, formatted: string) returns (ret: Option<int>)
      modifies this
      ensures !val ==> ret == None && result == old(result) && msg == old(msg)
      ensures val ==> ret == Some(result) && result == Escalate(old(result), TEST_RESULT_NOTICE)
      ensures val ==> msg == if old(result) < TEST_RESULT_NOTICE then Truncate(formatted) else old(msg)
    {
      ret := None;
      if val {
        ret := ExpectFailed(formatted);
      }
    }

    /** `EXPECT_EQUAL`. */
    method ExpectEqual(exp: int, act: int, formatted: string) returns (ret: Option<int>)
      modifies this
      ensures exp == act ==> ret == None && result == old(result) && msg == old(msg)
      ensures exp != act ==> ret == Some(result) && result == Escalate(old(result), TEST_RESULT_NOTICE)
      ensures exp != act ==> msg == if old(result) < TEST_RESULT_NOTICE then Truncate(formatted) else old(msg)
    {
      ret := None;
      if exp != act {
        ret := ExpectFailed(formatted);
      }
    }

    /** `EXPECT_NOT_EQUAL`. */
    method ExpectNotEqual(exp: int, act: int, formatted: string) returns (ret: Option<int>)
      modifies this
      ensures exp != act ==> ret == None && result == old(result) && msg == old(msg)
      ensures exp == act ==> ret == Some(result) && result == Escalate(old(result), TEST_RESULT_NOTICE)
      ensures exp == act ==> msg == if old(result) < TEST_RESULT_NOTICE then Truncate(formatted) else old(msg)
    {
      ret := None;
      if exp == act {
        ret := ExpectFailed(formatted);
      }
    }

    /** `WARN_TEST`: always returns; WARNING and the message only when the result is below WARNING. */
    method WarnTest(formatted: string) returns (ret: Option<int>)
      modifies this
      ensures result == Escalate(old(result), TEST_RESULT_WARNING)
      ensures msg == if old(result) < TEST_RESULT_WARNING then Truncate(formatted) else old(msg)
      ensures ret == Some(result)
    {
      if result < TEST_RESULT_WARNING {
        msg := Truncate(formatted);
        result := TEST_RESULT_WARNING;
      }
      return Some(result);
    }

    /** `ASSERT_TRUE`: CRITICAL over any previous result. */
    method AssertTrue(val: bool, formatted: string) returns (ret: Option<int>)
      modifies this
      ensures val ==> ret == None && result == old(result) && msg == old(msg)
      ensures !val ==> ret == Some(TEST_RESULT_CRITICAL) && result == TEST_RESULT_CRITICAL && msg == Truncate(formatted)
    {
      ret := None;
      if !val {
        ret := SetResult(TEST_RESULT_CRITICAL, formatted);
      }
    }

    /** `ASSERT_FALSE`. */
    method AssertFalse(val: bool, formatted: string) returns (ret: Option<int>)
      modifies this
      ensures !val ==> ret == None && result == old(result) && msg == old(msg)
      ensures val ==> ret == Some(TEST_RESULT_CRITICAL) && result == TEST_RESULT_CRITICAL && msg == Truncate(formatted)
    {
      ret := None;
      if val {
        ret := SetResult(TEST_RESULT_CRITICAL, formatted);
      }
    }

    /** `ASSERT_EQUAL`. */
    method AssertEqual(exp: int, act: int, formatted: string) returns (ret: Option<int>)
      modifies this
      ensures exp == act ==> ret == None && result == old(result) && msg == old(msg)
      ensures exp != act ==> ret == Some(TEST_RESULT_CRITICAL) && result == TEST_RESULT_CRITICAL && msg == Truncate(formatted)
    {
      ret := None;
      if exp != act {
        ret := SetResult(TEST_RESULT_CRITICAL, formatted);
      }
    }

    /** `ASSERT_NOT_EQUAL`. */
    method AssertNotEqual(exp: int, act: int, formatted: string) returns (ret: Option<int>)
      modifies this
      ensures exp != act ==> ret == None && result == old(result) && msg == old(msg)
      ensures exp == act ==> ret == Some(TEST_RESULT_CRITICAL) && result == TEST_RESULT_CRITICAL && msg == Truncate(formatted)
    {
      ret := None;
      if exp == act {
        ret := SetResult(TEST_RESULT_CRITICAL, formatted);
      }
    }

    /** `FLUNK_TEST`: FATAL, unconditionally. */
    method FlunkTest(formatted: string) returns (ret: Option<int>)
      modifies this
      ensures ret == Some(TEST_RESULT_FATAL) && result == TEST_RESULT_FATAL && msg == Truncate(formatted)
    {
      ret := SetResult(TEST_RESULT_FATAL, formatted);
    }

    /** `SKIP_TEST`: SKIP, even over a more severe result. */
    method SkipTest(formatted: string) returns (ret: Option<int>)
      modifies this
      ensures ret == Some(TEST_RESULT_SKIP) && result == TEST_RESULT_SKIP && msg == Truncate(formatted)
    {
      ret := SetResult(TEST_RESULT_SKIP, formatted);
    }

    /** `ERROR_TEST`: ERROR, even over a more severe result. */
    method ErrorTest(formatted: string) returns (ret: Option<int>)
      modifies this
      ensures ret == Some(TEST_RESULT_ERROR) && result == TEST_RESULT_ERROR && msg == Truncate(formatted)
    {
      ret := SetResult(TEST_RESULT_ERROR, formatted);
    }
  }

  /** `ASSERT_SUCCESS`: the caller returns the code exactly when the code does not let it continue; nothing is assigned. */
  function AssertSuccess(rc: int): (ret: Option<int>)
    ensures ret.Some? <==> !(TEST_RESULT_PASS <= rc <= TEST_RESULT_NOTICE)
    ensures ret.Some? ==> ret.value == rc
  {
    if !CheckContinue(rc) then Some(rc) else None
  }
}

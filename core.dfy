/** Types both runners share: the status enum and the test record declared
    in tinytest.h and lib/tinytest.h (the two declare them identically), the
    four counters a suite frame and the process keep, and the assertion rule
    `expr ^ failAsPassFlag` both files apply. */
module TestCore {

  datatype Option<T> = None | Some(value: T)

  /** ttest_TEST_STATUS. `Idle` is ttest_NONE: no test is running in the
      frame. `Skip` is declared but never stored by either runner. */
  datatype Status = Idle | Pass | Fail | Skip

  /** An opaque label standing for a cleanup function pointer. */
  type Hook = int

  /** ttest_Test. The C `int failAsPassFlag` is kept as its 32-bit pattern,
      and the `clock()` reading at the start of the test as an int. */
  datatype Test = Test(status: Status, desc: string, failAsPassFlag: bv32, startClock: int)

  /** The test record of a zero-filled (calloc'ed) frame. */
  const ZeroTest := Test(Idle, "", 0, 0)

  /** The four counters of a frame or of the process:
      totalPass, totalFail, totalSkip and totalDuration. */
  datatype Tally = Tally(pass: int, fail: int, skip: int, duration: int)
  {
    function Plus(other: Tally): Tally
    {
      Tally(pass + other.pass, fail + other.fail, skip + other.skip, duration + other.duration)
    }
  }

  /** What one finished test adds to its frame: exactly one of pass and fail
      (pass exactly when its status was Pass) and its duration. */
  function Finished(status: Status, duration: int): (t: Tally)
    ensures 0 <= t.pass <= 1 && t.pass + t.fail == 1 && t.skip == 0 && t.duration == duration
    ensures t.pass == 1 <==> status == Pass
  {
    if status == Pass then Tally(1, 0, 0, duration) else Tally(0, 1, 0, duration)
  }

  /** The C truth value of `expr ^ failAsPassFlag`: the bitwise exclusive
      or of the two ints is non-zero. */
  predicate AssertionPasses(expr: bv32, flag: bv32)
  {
    expr ^ flag != 0
  }

  /** The bitwise rule passes exactly when the argument and the flag differ
      as ints. */
  lemma AssertionPassesIffDiffer(expr: bv32, flag: bv32)
    ensures AssertionPasses(expr, flag) <==> expr != flag
  {
    if expr == flag {
      assert expr ^ flag == 0;
    } else {
      assert (expr ^ flag) ^ flag == expr;
    }
  }

  /** On the truth values 0 and 1 the rule is the logical exclusive or:
      with flag 0 a true assertion passes, with flag 1 a false one does. */
  lemma AssertionPassesOnTruthValues(expr: bv32, flag: bv32)
    requires expr <= 1 && flag <= 1
    ensures AssertionPasses(expr, flag) <==> ((expr != 0) != (flag != 0))
  {
  }

  /** Outside 0 and 1 the rule is not the logical exclusive or: a truthy
      argument other than 1 passes an expected-failure test (flag 1), and a
      truthy flag other than 1 makes the true assertion 1 pass as well. */
  lemma TruthyAssertionCanPassExpectedFailure()
    ensures exists expr: bv32 :: expr != 0 && AssertionPasses(expr, 1)
    ensures exists flag: bv32 :: flag != 0 && AssertionPasses(1, flag)
  {
    assert AssertionPasses(2, 1);
    assert AssertionPasses(1, 2);
  }
}

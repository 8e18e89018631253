/** The two assertion rules side by side: tinytest.c keeps a failed test
    failed, lib/tinytest.c lets the last assertion decide. */
module Variants {
  import opened TestCore
  import TinyTest
  import TinyTestLib

  /** Whatever passes under the sticky rule passes under the last-wins rule. */
  lemma StickyPassImpliesLastWinsPass(prior: Status, exprs: seq<bv32>, flag: bv32)
    requires TinyTest.AssertRun(prior, exprs, flag) == Pass
    ensures TinyTestLib.AssertRun(prior, exprs, flag) == Pass
  {
    TinyTest.AssertRunPassIff(prior, exprs, flag);
    if exprs != [] {
      TinyTestLib.LastAssertionDecides(prior, exprs, flag);
    }
  }

  /** For a freshly begun test the two rules agree exactly when there are no
      assertions, or the last one fails, or every one passes; they differ
      exactly when an earlier assertion failed and the last one passed. */
  lemma RulesAgreeIff(exprs: seq<bv32>, flag: bv32)
    ensures TinyTest.AssertRun(Pass, exprs, flag) == TinyTestLib.AssertRun(Pass, exprs, flag) <==>
            exprs == [] || !AssertionPasses(exprs[|exprs| - 1], flag) ||
            forall i :: 0 <= i < |exprs| ==> AssertionPasses(exprs[i], flag)
  {
    TinyTest.AssertRunPassIff(Pass, exprs, flag);
    if exprs != [] {
      TinyTestLib.LastAssertionDecides(Pass, exprs, flag);
      TinyTest.AssertRunDecided(Pass, exprs, flag);
    }
  }

  /** Failure is monotonic in tinytest.c and not in lib/tinytest.c: a false
      assertion followed by a true one fails the one and passes the other. */
  lemma FailureMonotonicOnlyWhenSticky()
    ensures TinyTest.AssertRun(Pass, [0, 1], 0) == Fail
    ensures TinyTestLib.AssertRun(Pass, [0, 1], 0) == Pass
  {
    var xs: seq<bv32> := [0, 1];
    TinyTest.AssertRunPassIff(Pass, xs, 0);
    assert !AssertionPasses(xs[0], 0);
    TinyTest.AssertRunDecided(Pass, xs, 0);
    TinyTestLib.LastAssertionDecides(Pass, xs, 0);
  }
}

/** Short runs of the two runners, driving them the way the DESCRIBE / IT /
    ASSERT / CONCLUDE macros of the headers do, with made-up clock readings
    and hook labels, and the cleanup chain of tinytest.c on concrete stacks. */
module Scenarios {
  import opened TestCore
  import TinyTest
  import TinyTestLib

  /** Suite A holding suite B holding one test that passes after 7 clock
      ticks: once B is closed, A holds exactly that test's counters. */
  lemma NestedSuites()
    ensures var b := TinyTest.EndedIn(TinyTest.StartedIn(TinyTest.Opened(TinyTest.ZeroSuite, "B"), "t", 0, 0), 7);
            TinyTest.Counts(TinyTest.FoldedInto(TinyTest.Opened(TinyTest.ZeroSuite, "A"), b)) == Tally(1, 0, 0, 7)
  {
  }

  /** ttest_beginTestSuite does not clear a frame's cleanup slot: the next
      suite opened at the depth of a closed one inherits its hook. */
  method StaleHook() returns (reopened: TinyTest.Outcome, depth: int, desc: string, cleanup: TinyTest.Cleanup)
    ensures reopened == TinyTest.Ok && depth == 1 && desc == "A2"
    ensures cleanup == TinyTest.Cleanup(Some(2), 0)
  {
    var r := new TinyTest.Runner();
    var o := r.Init();
    assert o == TinyTest.Ok && r.len == 0;
    o := r.BeginTestSuite("A", false);
    assert o == TinyTest.Ok && r.len == 1;
    o := r.CleanUp(Some(2), 0);
    assert o == TinyTest.Ok && r.frames[0].cleanup == TinyTest.Cleanup(Some(2), 0);
    o := r.EndTestSuite();
    assert o == TinyTest.Ok && r.len == 0 && r.frames[0].cleanup == TinyTest.Cleanup(Some(2), 0);
    reopened := r.BeginTestSuite("A2", false);
    depth := r.len;
    desc := r.frames[0].desc;
    cleanup := r.frames[0].cleanup;
  }

  /** A frame whose cleanup slot is `cleanup`, otherwise as ttest_init
      leaves it. */
  function WithHook(cleanup: TinyTest.Cleanup): TinyTest.Suite
  {
    TinyTest.ZeroSuite.(cleanup := cleanup)
  }

  /** A root hook, a hook on the outer suite not restricted to it, and an
      inner suite without a hook: the outer suite's hook runs first, then
      the root hook. */
  lemma CleanupOrder(t: Test)
    ensures TinyTest.CleanupChain([WithHook(TinyTest.Cleanup(Some(2), 0)), WithHook(TinyTest.Cleanup(None, 0))],
                                  Some(1), t)
            == [TinyTest.HookCall(2, TinyTest.Frame(2), t), TinyTest.HookCall(1, TinyTest.Root, t)]
  {
    var stack := [WithHook(TinyTest.Cleanup(Some(2), 0)), WithHook(TinyTest.Cleanup(None, 0))];
    assert TinyTest.FrameHooks(stack, 1, t) == [];
    assert TinyTest.FrameHooks(stack, 2, t) == [TinyTest.HookCall(2, TinyTest.Frame(2), t)];
  }

  /** A hook registered as only for the outer suite does not run for a test
      of the inner suite, but does for a test of the outer suite itself. */
  lemma OnlyForThisHook(t: Test)
    ensures TinyTest.CleanupChain([WithHook(TinyTest.Cleanup(Some(2), 1)), WithHook(TinyTest.Cleanup(None, 0))],
                                  None, t) == []
    ensures TinyTest.CleanupChain([WithHook(TinyTest.Cleanup(Some(2), 1))], None, t)
            == [TinyTest.HookCall(2, TinyTest.Frame(1), t)]
  {
    var stack := [WithHook(TinyTest.Cleanup(Some(2), 1)), WithHook(TinyTest.Cleanup(None, 0))];
    assert TinyTest.FrameHooks(stack, 1, t) == [];
    assert TinyTest.FrameHooks(stack, 2, t) == [];
    var single := [WithHook(TinyTest.Cleanup(Some(2), 1))];
    assert TinyTest.FrameHooks(single, 1, t) == [TinyTest.HookCall(2, TinyTest.Frame(1), t)];
  }

  /** A fifth nested suite is a fatal usage error, even a skipped one, and
      leaves the open suites as they were. */
  method DepthLimit() returns (outcome: TinyTest.Outcome, skipped: TinyTest.Outcome, depth: int)
    ensures outcome == TinyTest.Fatal(TinyTest.DepthExceeded)
    ensures skipped == TinyTest.Fatal(TinyTest.DepthExceeded)
    ensures depth == 4
  {
    var r := new TinyTest.Runner();
    var o := r.Init();
    assert o == TinyTest.Ok && r.len == 0;
    o := r.BeginTestSuite("1", false);
    assert o == TinyTest.Ok && r.len == 1;
    o := r.BeginTestSuite("2", false);
    assert o == TinyTest.Ok && r.len == 2;
    o := r.BeginTestSuite("3", false);
    assert o == TinyTest.Ok && r.len == 3;
    o := r.BeginTestSuite("4", false);
    assert o == TinyTest.Ok && r.len == 4;
    outcome := r.BeginTestSuite("5", false);
    skipped := r.BeginTestSuite("5", true);
    depth := r.len;
  }

  /** Concluding with a suite open is a fatal usage error and leaves the
      runner not concluded. */
  method ConcludeTooEarly() returns (outcome: TinyTest.Outcome, concluded: bool)
    ensures outcome == TinyTest.Fatal(TinyTest.SuitesStillOpen)
    ensures !concluded
  {
    var r := new TinyTest.Runner();
    var o := r.Init();
    assert o == TinyTest.Ok && r.len == 0;
    o := r.BeginTestSuite("A", false);
    assert o == TinyTest.Ok && r.len == 1;
    var code;
    outcome, code := r.Conclude();
    concluded := r.concluded;
  }

  /** A false assertion followed by a true one fails the test in
      tinytest.c. */
  method StickyAssertionOrder() returns (status: Status)
    ensures status == Fail
  {
    var r := new TinyTest.Runner();
    var o := r.Init();
    assert o == TinyTest.Ok && r.len == 0;
    o := r.BeginTestSuite("A", false);
    assert o == TinyTest.Ok && r.len == 1;
    o := r.BeginTest("t", 0, false, 0);
    assert o == TinyTest.Ok && r.frames[0].test.status == Pass && r.frames[0].test.failAsPassFlag == 0;
    var x;
    o, x := r.Assert(0);
    assert o == TinyTest.Ok && r.frames[0].test.status == Fail;
    o, x := r.Assert(1);
    status := r.frames[0].test.status;
  }

  /** The same assertions pass the test in lib/tinytest.c. */
  method LastWinsAssertionOrder() returns (status: Status)
    ensures status == Pass
  {
    var r := new TinyTestLib.Runner();
    var o := r.Init();
    assert o == TinyTestLib.Ok && r.len == 0;
    o := r.BeginTestSuite("A", false);
    assert o == TinyTestLib.Ok && r.len == 1;
    o := r.BeginTest("t", 0, false, 0);
    assert o == TinyTestLib.Ok && r.frames[0].test.status == Pass && r.frames[0].test.failAsPassFlag == 0;
    var x;
    o, x := r.Assert(0);
    assert o == TinyTestLib.Ok && r.frames[0].test.status == Fail;
    o, x := r.Assert(1);
    status := r.frames[0].test.status;
  }

  /** lib/tinytest.c accepts a single clean function: a second registration
      is a fatal usage error and keeps the first. */
  method SingleCleanFunction() returns (second: TinyTestLib.Outcome, kept: Option<Hook>)
    ensures second == TinyTestLib.Fatal(TinyTestLib.CleanTwice)
    ensures kept == Some(1)
  {
    var l := new TinyTestLib.Runner();
    var p := l.Clean(Some(1));
    assert p == TinyTestLib.Ok && l.cleanFunc == Some(1);
    p := l.Init();
    assert p == TinyTestLib.Ok && l.cleanFunc == Some(1);
    second := l.Clean(Some(2));
    kept := l.cleanFunc;
  }
}

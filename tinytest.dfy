/** The runner of tinytest.c (version 2): a process-wide context holding a
    stack of at most four suite frames, at most one running test (in the
    top frame), per-frame cleanup hooks that fire from the innermost frame
    outward followed by a root hook, and the sticky assertion rule. */
module TinyTest {
  import opened TestCore

  /** TEST_SUITE_MAX_DEPTH, the capacity of the suite stack. */
  const MaxDepth := 4

  /** The cleanup slot of a frame: the hook (NULL is None) and the
      onlyForThis flag as the 0 or 1 ttest_cleanUp stores. */
  datatype Cleanup = Cleanup(func: Option<Hook>, onlyForThis: int)

  /** ttest_TestSuite. */
  datatype Suite = Suite(desc: string, test: Test, totalPass: int, totalFail: int,
                         totalSkip: int, totalDuration: int, cleanup: Cleanup)

  /** A frame of the zero-filled buffer ttest_init allocates. */
  const ZeroSuite := Suite("", ZeroTest, 0, 0, 0, 0, Cleanup(None, 0))

  function Counts(s: Suite): Tally
  {
    Tally(s.totalPass, s.totalFail, s.totalSkip, s.totalDuration)
  }

  /** The counters of the n bottom frames of the buffer added up, bottom
      frame first. */
  function StackSum(frames: seq<Suite>, n: nat): Tally
    requires n <= |frames|
  {
    if n == 0 then Tally(0, 0, 0, 0)
    else StackSum(frames, n - 1).Plus(Counts(frames[n - 1]))
  }

  /** Only the top frame of the n bottom frames may have a running test,
      and no frame stores Skip. */
  predicate Settled(frames: seq<Suite>, n: nat)
    requires n <= |frames|
  {
    && (forall k :: 0 <= k < n - 1 ==> frames[k].test.status == Idle)
    && (forall k :: 0 <= k < n ==> frames[k].test.status != Skip)
  }

  /** Rewriting the top frame with a status other than Skip keeps the stack
      settled. */
  lemma SettledTop(frames: seq<Suite>, n: nat, s: Suite)
    requires 0 < n <= |frames| && Settled(frames, n) && s.test.status != Skip
    ensures Settled(frames[n - 1 := s], n)
  {
  }

  /** Pushing an idle frame onto a stack whose top is idle keeps it settled. */
  lemma SettledPush(frames: seq<Suite>, n: nat, s: Suite)
    requires n < |frames| && Settled(frames, n) && s.test.status == Idle
    requires n > 0 ==> frames[n - 1].test.status == Idle
    ensures Settled(frames[n := s], n + 1)
  {
  }

  /** Folding the top frame into an idle parent and popping it keeps the
      stack settled. */
  lemma SettledFold(frames: seq<Suite>, n: nat, s: Suite)
    requires 2 <= n <= |frames| && Settled(frames, n) && s.test.status == Idle
    ensures Settled(frames[n - 2 := s], n - 1)
  {
  }

  /** Writing a buffer slot at or above the n bottom frames leaves their sum
      alone. */
  lemma {:induction false} StackSumUpdate(frames: seq<Suite>, n: nat, j: nat, s: Suite)
    requires n <= j < |frames|
    ensures StackSum(frames[j := s], n) == StackSum(frames, n)
  {
    if n > 0 {
      StackSumUpdate(frames, n - 1, j, s);
    }
  }

  /** Rewriting the top frame without touching its counters leaves the sum
      alone. */
  lemma StackSumSame(frames: seq<Suite>, n: nat, s: Suite)
    requires 0 < n <= |frames| && Counts(s) == Counts(frames[n - 1])
    ensures StackSum(frames[n - 1 := s], n) == StackSum(frames, n)
  {
    StackSumUpdate(frames, n - 1, n - 1, s);
  }

  /** Rewriting the top frame changes the sum by what the top frame gained. */
  lemma StackSumTop(frames: seq<Suite>, n: nat, s: Suite, gain: Tally)
    requires 0 < n <= |frames| && Counts(s) == Counts(frames[n - 1]).Plus(gain)
    ensures StackSum(frames[n - 1 := s], n) == StackSum(frames, n).Plus(gain)
  {
    StackSumUpdate(frames, n - 1, n - 1, s);
  }

  /** Folding the top frame into the one below it and popping it leaves the
      sum alone: nothing is counted twice and nothing is lost. */
  lemma StackSumFold(frames: seq<Suite>, n: nat, merged: Suite)
    requires 2 <= n <= |frames|
    requires Counts(merged) == Counts(frames[n - 2]).Plus(Counts(frames[n - 1]))
    ensures StackSum(frames[n - 2 := merged], n - 1) == StackSum(frames, n)
  {
    StackSumUpdate(frames, n - 2, n - 2, merged);
    assert StackSum(frames, n) == StackSum(frames, n - 2).Plus(Counts(frames[n - 2])).Plus(Counts(frames[n - 1]));
  }

  /** The frame ttest_beginTestSuite writes over the buffer slot `prev`:
      counters zero and no running test; the cleanup slot and the test
      record's other fields are left as they were. */
  function Opened(prev: Suite, desc: string): (s: Suite)
    ensures Counts(s) == Tally(0, 0, 0, 0) && s.test.status == Idle && s.desc == desc
    ensures s.cleanup == prev.cleanup
    ensures s.test.(status := prev.test.status) == prev.test
  {
    prev.(desc := desc, test := prev.test.(status := Idle),
          totalPass := 0, totalFail := 0, totalSkip := 0, totalDuration := 0)
  }

  /** The top frame after a skipped ttest_beginTest. */
  function SkippedIn(s: Suite): (r: Suite)
    ensures Counts(r) == Counts(s).Plus(Tally(0, 0, 1, 0))
    ensures r.test == s.test && r.desc == s.desc && r.cleanup == s.cleanup
  {
    s.(totalSkip := s.totalSkip + 1)
  }

  /** The top frame after a non-skipped ttest_beginTest at clock `now`. */
  function StartedIn(s: Suite, desc: string, flag: bv32, now: int): (r: Suite)
    ensures r.test.status == Pass
    ensures r.test == Test(Pass, desc, flag, now)
    ensures Counts(r) == Counts(s) && r.desc == s.desc && r.cleanup == s.cleanup
  {
    s.(test := Test(Pass, desc, flag, now))
  }

  /** The top frame after ttest_endTest at clock `now`: the test's status is
      reset and its outcome and duration are counted. */
  function EndedIn(s: Suite, now: int): (r: Suite)
    ensures Counts(r) == Counts(s).Plus(Finished(s.test.status, now - s.test.startClock))
    ensures r.test == s.test.(status := Idle) && r.desc == s.desc && r.cleanup == s.cleanup
  {
    var duration := now - s.test.startClock;
    if s.test.status == Pass then
      s.(test := s.test.(status := Idle), totalDuration := s.totalDuration + duration,
         totalPass := s.totalPass + 1)
    else
      s.(test := s.test.(status := Idle), totalDuration := s.totalDuration + duration,
         totalFail := s.totalFail + 1)
  }

  /** The parent frame after ttest_endTestSuite folds `child` into it. */
  function FoldedInto(parent: Suite, child: Suite): (r: Suite)
    ensures Counts(r) == Counts(parent).Plus(Counts(child))
    ensures r.test == parent.test && r.desc == parent.desc && r.cleanup == parent.cleanup
  {
    parent.(totalPass := parent.totalPass + child.totalPass,
            totalFail := parent.totalFail + child.totalFail,
            totalSkip := parent.totalSkip + child.totalSkip,
            totalDuration := parent.totalDuration + child.totalDuration)
  }

  // ---------------------------------------------------------------------
  // The assertion rule

  /** The status after one ttest_assert: Pass only while every assertion
      so far has passed. */
  function AssertStep(prior: Status, expr: bv32, flag: bv32): Status
  {
    if AssertionPasses(expr, flag) && prior == Pass then Pass else Fail
  }

  /** The status after a test's assertions `exprs`, in call order. */
  function AssertRun(prior: Status, exprs: seq<bv32>, flag: bv32): Status
  {
    if exprs == [] then prior
    else AssertStep(AssertRun(prior, exprs[..|exprs| - 1], flag), exprs[|exprs| - 1], flag)
  }

  /** A test ends its assertions in Pass exactly when it started in Pass and
      every single assertion passed. */
  lemma {:induction false} AssertRunPassIff(prior: Status, exprs: seq<bv32>, flag: bv32)
    ensures AssertRun(prior, exprs, flag) == Pass <==>
            prior == Pass && forall i :: 0 <= i < |exprs| ==> AssertionPasses(exprs[i], flag)
  {
    if exprs != [] {
      var n := |exprs| - 1;
      AssertRunPassIff(prior, exprs[..n], flag);
      assert forall i :: 0 <= i < n ==> exprs[..n][i] == exprs[i];
    }
  }

  /** After at least one assertion the status is Pass or Fail. */
  lemma AssertRunDecided(prior: Status, exprs: seq<bv32>, flag: bv32)
    requires exprs != []
    ensures AssertRun(prior, exprs, flag) in {Pass, Fail}
  {
  }

  /** Fail is sticky: once failed, no later assertion brings a test back. */
  lemma {:induction false} FailIsSticky(prior: Status, exprs: seq<bv32>, later: seq<bv32>, flag: bv32)
    requires AssertRun(prior, exprs, flag) == Fail
    ensures AssertRun(prior, exprs + later, flag) == Fail
  {
    AssertRunPassIff(prior, exprs, flag);
    AssertRunPassIff(prior, exprs + later, flag);
    if prior == Pass {
      var i :| 0 <= i < |exprs| && !AssertionPasses(exprs[i], flag);
      assert (exprs + later)[i] == exprs[i];
    }
    if exprs + later != [] {
      AssertRunDecided(prior, exprs + later, flag);
    }
  }

  /** The outcome does not depend on the order of the assertions. */
  lemma AssertRunOrderIrrelevant(prior: Status, xs: seq<bv32>, ys: seq<bv32>, flag: bv32)
    requires multiset(xs) == multiset(ys)
    ensures AssertRun(prior, xs, flag) == AssertRun(prior, ys, flag)
  {
    AssertRunPassIff(prior, xs, flag);
    AssertRunPassIff(prior, ys, flag);
    if xs == [] || ys == [] {
      assert |xs| == |multiset(xs)| == |multiset(ys)| == |ys|;
    } else {
      forall i | 0 <= i < |xs| ensures xs[i] in ys {
        assert xs[i] in multiset(xs);
      }
      forall i | 0 <= i < |ys| ensures ys[i] in xs {
        assert ys[i] in multiset(ys);
      }
      AssertRunDecided(prior, xs, flag);
      AssertRunDecided(prior, ys, flag);
    }
  }

  // ---------------------------------------------------------------------
  // The cleanup chain

  /** Where a hook was invoked from: Frame(i) is the frame i places from the
      top of the stack (Frame(1) is the innermost), Root the root hook. */
  datatype Level = Frame(i: nat) | Root

  /** One invocation of a cleanup hook with the finished test's record. */
  datatype HookCall = HookCall(hook: Hook, level: Level, test: Test)

  /** Invocations never go back outward-to-inward, and the root hook is last. */
  predicate Before(a: Level, b: Level)
  {
    a.Frame? && (b.Root? || a.i < b.i)
  }

  /** The hook of the frame at distance k from the top fires for a test of
      the top frame: it is registered, and it is either the innermost frame's
      or it was not registered as only for its own frame. */
  predicate Fires(stack: seq<Suite>, k: nat)
  {
    1 <= k <= |stack| && stack[|stack| - k].cleanup.func.Some? &&
    (k == 1 || stack[|stack| - k].cleanup.onlyForThis == 0)
  }

  /** The frame hooks the loop of ttest_endTest invokes for i = 1 .. k. */
  function FrameHooks(stack: seq<Suite>, k: nat, test: Test): seq<HookCall>
    requires k <= |stack|
  {
    if k == 0 then []
    else
      var c := stack[|stack| - k].cleanup;
      FrameHooks(stack, k - 1, test) +
      (if c.func.Some? && !(k != 1 && c.onlyForThis != 0) then [HookCall(c.func.value, Frame(k), test)] else [])
  }

  /** Every hook invocation ttest_endTest makes for `test`: the frame hooks
      innermost first, then the root hook if it is set. */
  function CleanupChain(stack: seq<Suite>, root: Option<Hook>, test: Test): seq<HookCall>
  {
    FrameHooks(stack, |stack|, test) + (if root.Some? then [HookCall(root.value, Root, test)] else [])
  }

  /** Every frame hook invoked for i = 1 .. k carries the finished test's
      record and is the registered hook of a frame at distance at most k
      whose hook fires. */
  lemma {:induction false} FrameHooksSound(stack: seq<Suite>, k: nat, test: Test)
    requires k <= |stack|
    ensures forall c :: c in FrameHooks(stack, k, test) ==>
              c.test == test && c.level.Frame? && c.level.i <= k && Fires(stack, c.level.i) &&
              stack[|stack| - c.level.i].cleanup.func == Some(c.hook)
  {
    if k > 0 {
      FrameHooksSound(stack, k - 1, test);
    }
  }

  /** Every frame at distance at most k whose hook fires has it invoked. */
  lemma {:induction false} FrameHooksComplete(stack: seq<Suite>, k: nat, test: Test)
    requires k <= |stack|
    ensures forall i :: 1 <= i <= k && Fires(stack, i) ==>
              HookCall(stack[|stack| - i].cleanup.func.value, Frame(i), test) in FrameHooks(stack, k, test)
  {
    if k > 0 {
      FrameHooksComplete(stack, k - 1, test);
    }
  }

  /** The frame hooks are invoked strictly from the innermost frame outward. */
  lemma {:induction false} FrameHooksOrdered(stack: seq<Suite>, k: nat, test: Test)
    requires k <= |stack|
    ensures forall a, b :: 0 <= a < b < |FrameHooks(stack, k, test)| ==>
              Before(FrameHooks(stack, k, test)[a].level, FrameHooks(stack, k, test)[b].level)
  {
    if k > 0 {
      var prev := FrameHooks(stack, k - 1, test);
      FrameHooksOrdered(stack, k - 1, test);
      FrameHooksSound(stack, k - 1, test);
      var h := FrameHooks(stack, k, test);
      assert forall a :: 0 <= a < |prev| ==> h[a] == prev[a] && h[a] in prev;
    }
  }

  /** A hook invocation is in the chain exactly when it is the root hook
      and the root hook is set, or it is the hook of a frame whose hook fires;
      it always carries the finished test's record. */
  lemma CleanupChainMembers(stack: seq<Suite>, root: Option<Hook>, test: Test, call: HookCall)
    ensures call in CleanupChain(stack, root, test) <==>
            call.test == test &&
            match call.level
            case Root => root == Some(call.hook)
            case Frame(i) => Fires(stack, i) && stack[|stack| - i].cleanup.func == Some(call.hook)
  {
    FrameHooksSound(stack, |stack|, test);
    FrameHooksComplete(stack, |stack|, test);
  }

  /** The chain runs strictly from the innermost frame outward, each level
      at most once, with the root hook last. */
  lemma CleanupChainOrdered(stack: seq<Suite>, root: Option<Hook>, test: Test)
    ensures forall a, b :: 0 <= a < b < |CleanupChain(stack, root, test)| ==>
              Before(CleanupChain(stack, root, test)[a].level, CleanupChain(stack, root, test)[b].level)
  {
    var hooks := FrameHooks(stack, |stack|, test);
    FrameHooksOrdered(stack, |stack|, test);
    FrameHooksSound(stack, |stack|, test);
    var chain := CleanupChain(stack, root, test);
    assert forall a :: 0 <= a < |hooks| ==> chain[a] == hooks[a] && chain[a] in hooks;
  }

  // ---------------------------------------------------------------------
  // The process state

  /** The fatal usage errors, one per ERROR call of tinytest.c. */
  datatype UsageError =
    | InitTwice            // "Don't call the ttest_init / INIT twice"
    | NotInitialized       // "Run the ttest_init/INIT function first"
    | CleanUpDuringTest    // "Don't call ttest_cleanUp / CLEANUP when test is running"
    | DepthExceeded        // "... the maximum depth is 4"
    | SuiteDuringTest      // "... unable to create a new test suite"
    | NoSuiteRunning       // "No test suite running"
    | EndSuiteDuringTest   // "... unable to cease current test suite"
    | TestAlreadyRunning   // "... can only run 1 test at a time"
    | NoTestRunning        // "No test is running, ..."
    | ConcludeTwice        // "Don't call the ttest_conclude / CONCLUDE twice"
    | SuitesStillOpen      // "There is still a test suite running, ..."

  /** What an operation did: return normally, or stop the process with a
      fatal usage error. */
  datatype Outcome = Ok | Fatal(error: UsageError)

  class Runner {
    var initialized: bool
    var concluded: bool
    var totalPass: int
    var totalFail: int
    var totalSkip: int
    var totalDuration: int
    var rootCleanup: Option<Hook>
    /** The frame buffer (empty until ttest_init) and the stack length. */
    var frames: array<Suite>
    var len: int
    /** Every cleanup-hook invocation so far, in order. */
    var calls: seq<HookCall>
    /** The counters of every test that has been skipped or has ended. */
    ghost var recorded: Tally

    function Totals(): Tally
      reads this
    {
      Tally(totalPass, totalFail, totalSkip, totalDuration)
    }

    ghost function Stack(): seq<Suite>
      reads this, frames
      requires 0 <= len <= frames.Length
    {
      frames[..len]
    }

    ghost predicate Valid()
      reads this, frames
    {
      && 0 <= len <= frames.Length
      && (initialized ==> frames.Length == MaxDepth)
      && (!initialized ==> len == 0)
      && (concluded ==> initialized && len == 0)
      // only the top frame may have a running test, and Skip is never stored
      && Settled(frames[..], len)
      // every counted test is counted once: in the process totals or in an open frame
      && recorded.pass >= 0 && recorded.fail >= 0 && recorded.skip >= 0
      && Totals().Plus(StackSum(frames[..], len)) == recorded
    }

    /** The initial values of the static variables. */
    constructor ()
      ensures Valid()
      ensures !initialized && !concluded && len == 0 && frames.Length == 0
      ensures Totals() == Tally(0, 0, 0, 0) && rootCleanup == None && calls == []
    {
      initialized, concluded := false, false;
      totalPass, totalFail, totalSkip, totalDuration := 0, 0, 0, 0;
      rootCleanup := None;
      frames := new Suite[0];
      len := 0;
      calls := [];
      recorded := Tally(0, 0, 0, 0);
    }

    /** ttest_init. */
    method Init() returns (outcome: Outcome)
      requires Valid()
      modifies this`initialized, this`len, this`frames
      ensures Valid()
      ensures old(initialized) ==> outcome == Fatal(InitTwice) && unchanged(this)
      ensures !old(initialized) ==>
                outcome == Ok && initialized && len == 0 &&
                fresh(frames) && frames[..] == seq(MaxDepth, _ => ZeroSuite)
    {
      if initialized {
        return Fatal(InitTwice);
      }
      initialized := true;
      len := 0;
      frames := new Suite[MaxDepth](_ => ZeroSuite);
      outcome := Ok;
    }

    /** ttest_cleanUp: with no suite open it sets the root hook, otherwise the
        top frame's cleanup slot. */
    method CleanUp(cleanFunc: Option<Hook>, onlyForThis: int) returns (outcome: Outcome)
      requires Valid()
      modifies this`rootCleanup, frames
      ensures Valid()
      ensures old(len) == 0 ==>
                outcome == Ok && rootCleanup == cleanFunc && frames[..] == old(frames[..])
      ensures old(len) > 0 && old(frames[len - 1].test.status) != Idle ==>
                outcome == Fatal(CleanUpDuringTest)
      ensures outcome.Fatal? ==> unchanged(this) && unchanged(frames)
      ensures old(len) > 0 && old(frames[len - 1].test.status) == Idle ==>
                outcome == Ok && rootCleanup == old(rootCleanup) &&
                frames[..] == old(frames[..])[old(len) - 1 :=
                  old(frames[len - 1]).(cleanup := Cleanup(cleanFunc, if onlyForThis != 0 then 1 else 0))]
    {
      if len == 0 {
        rootCleanup := cleanFunc;
        return Ok;
      }
      var top := frames[len - 1];
      if top.test.status != Idle {
        return Fatal(CleanUpDuringTest);
      }
      ghost var before := frames[..];
      frames[len - 1] := top.(cleanup := Cleanup(cleanFunc, if onlyForThis != 0 then 1 else 0));
      assert frames[..] == before[len - 1 := frames[len - 1]];
      StackSumSame(before, len, frames[len - 1]);
      SettledTop(before, len, frames[len - 1]);
      outcome := Ok;
    }

    /** ttest_beginTestSuite. The depth check comes before the skip check,
        so even a skipped suite cannot be opened at depth MaxDepth. After
        ttest_conclude the buffer is freed, so only a skipped suite may be
        opened then. */
    method BeginTestSuite(desc: string, skip: bool) returns (outcome: Outcome)
      requires Valid()
      requires concluded ==> skip
      modifies this`len, frames
      ensures Valid()
      ensures !old(initialized) ==> outcome == Fatal(NotInitialized)
      ensures old(initialized) && old(len) >= MaxDepth ==> outcome == Fatal(DepthExceeded)
      ensures old(initialized) && 0 < old(len) < MaxDepth && old(frames[len - 1].test.status) != Idle ==>
                outcome == Fatal(SuiteDuringTest)
      ensures outcome == Ok <==>
                old(initialized) && old(len) < MaxDepth &&
                (old(len) == 0 || old(frames[len - 1].test.status) == Idle)
      ensures outcome.Fatal? || skip ==> unchanged(this) && unchanged(frames)
      ensures outcome == Ok && !skip ==>
                len == old(len) + 1 &&
                frames[..] == old(frames[..])[old(len) := Opened(old(frames[len]), desc)]
    {
      if !initialized {
        return Fatal(NotInitialized);
      }
      if len >= MaxDepth {
        return Fatal(DepthExceeded);
      }
      if len != 0 && frames[len - 1].test.status != Idle {
        return Fatal(SuiteDuringTest);
      }
      if skip {
        return Ok;
      }
      ghost var before := frames[..];
      frames[len] := Opened(frames[len], desc);
      StackSumUpdate(before, len, len, frames[len]);
      SettledPush(before, len, frames[len]);
      len := len + 1;
      outcome := Ok;
    }

    /** ttest_endTestSuite: the top frame's counters go to the process totals
        when it is the last frame and to its parent frame otherwise, and the
        frame is popped. */
    method EndTestSuite() returns (outcome: Outcome)
      requires Valid()
      modifies this`totalPass, this`totalFail, this`totalSkip, this`totalDuration, this`len, frames
      ensures Valid()
      ensures !old(initialized) ==> outcome == Fatal(NotInitialized)
      ensures old(initialized) && old(len) == 0 ==> outcome == Fatal(NoSuiteRunning)
      ensures old(initialized) && old(len) > 0 && old(frames[len - 1].test.status) != Idle ==>
                outcome == Fatal(EndSuiteDuringTest)
      ensures outcome == Ok <==> old(initialized) && old(len) > 0 && old(frames[len - 1].test.status) == Idle
      ensures outcome.Fatal? ==> unchanged(this) && unchanged(frames)
      ensures outcome == Ok ==> len == old(len) - 1
      ensures outcome == Ok && old(len) == 1 ==>
                Totals() == old(Totals()).Plus(Counts(old(frames[0]))) && frames[..] == old(frames[..])
      ensures outcome == Ok && old(len) > 1 ==>
                Totals() == old(Totals()) &&
                frames[..] == old(frames[..])[old(len) - 2 := FoldedInto(old(frames[len - 2]), old(frames[len - 1]))]
    {
      if !initialized {
        return Fatal(NotInitialized);
      }
      if len == 0 {
        return Fatal(NoSuiteRunning);
      }
      var curr := frames[len - 1];
      if curr.test.status != Idle {
        return Fatal(EndSuiteDuringTest);
      }
      if len == 1 {
        totalPass := totalPass + curr.totalPass;
        totalFail := totalFail + curr.totalFail;
        totalSkip := totalSkip + curr.totalSkip;
        totalDuration := totalDuration + curr.totalDuration;
      } else {
        ghost var before := frames[..];
        frames[len - 2] := FoldedInto(frames[len - 2], curr);
        assert frames[..] == before[len - 2 := frames[len - 2]];
        StackSumFold(before, len, frames[len - 2]);
        SettledFold(before, len, frames[len - 2]);
      }
      len := len - 1;
      outcome := Ok;
    }

    /** ttest_beginTest at clock `now`. A skipped test only counts a skip. */
    method BeginTest(desc: string, failAsPassFlag: bv32, skip: bool, now: int) returns (outcome: Outcome)
      requires Valid()
      modifies this`recorded, frames
      ensures Valid()
      ensures !old(initialized) ==> outcome == Fatal(NotInitialized)
      ensures old(initialized) && old(len) == 0 ==> outcome == Fatal(NoSuiteRunning)
      ensures old(initialized) && old(len) > 0 && old(frames[len - 1].test.status) != Idle ==>
                outcome == Fatal(TestAlreadyRunning)
      ensures outcome == Ok <==> old(initialized) && old(len) > 0 && old(frames[len - 1].test.status) == Idle
      ensures outcome.Fatal? ==> unchanged(this) && unchanged(frames)
      ensures outcome == Ok && skip ==>
                frames[..] == old(frames[..])[len - 1 := SkippedIn(old(frames[len - 1]))] &&
                recorded == old(recorded).Plus(Tally(0, 0, 1, 0))
      ensures outcome == Ok && !skip ==>
                frames[..] == old(frames[..])[len - 1 := StartedIn(old(frames[len - 1]), desc, failAsPassFlag, now)] &&
                recorded == old(recorded)
    {
      if !initialized {
        return Fatal(NotInitialized);
      }
      if len == 0 {
        return Fatal(NoSuiteRunning);
      }
      var curr := frames[len - 1];
      if curr.test.status != Idle {
        return Fatal(TestAlreadyRunning);
      }
      ghost var before := frames[..];
      if skip {
        frames[len - 1] := SkippedIn(curr);
        recorded := recorded.Plus(Tally(0, 0, 1, 0));
        assert frames[..] == before[len - 1 := frames[len - 1]];
        StackSumTop(before, len, frames[len - 1], Tally(0, 0, 1, 0));
        SettledTop(before, len, frames[len - 1]);
        return Ok;
      }
      frames[len - 1] := StartedIn(curr, desc, failAsPassFlag, now);
      assert frames[..] == before[len - 1 := frames[len - 1]];
      StackSumSame(before, len, frames[len - 1]);
      SettledTop(before, len, frames[len - 1]);
      outcome := Ok;
    }

    /** The hook calls of ttest_endTest for the finished test `test`: the
        frame hooks from the innermost frame outward, then the root hook. */
    method InvokeCleanups(test: Test)
      requires 0 <= len <= frames.Length
      modifies this`calls
      ensures calls == old(calls) + CleanupChain(Stack(), rootCleanup, test)
    {
      var i := 1;
      while i <= len
        invariant 1 <= i <= len + 1
        invariant calls == old(calls) + FrameHooks(Stack(), i - 1, test)
      {
        var t := frames[len - i];
        if t.cleanup.func.Some? && !(i != 1 && t.cleanup.onlyForThis != 0) {
          calls := calls + [HookCall(t.cleanup.func.value, Frame(i), test)];
        }
        i := i + 1;
      }
      if rootCleanup.Some? {
        calls := calls + [HookCall(rootCleanup.value, Root, test)];
      }
    }

    /** ttest_endTest, with `now` the clock reading taken after the hooks ran:
        the cleanup chain is invoked with the finished test's record, then
        the test's outcome and duration are counted on the top frame. */
    method EndTest(now: int) returns (outcome: Outcome)
      requires Valid()
      modifies this`calls, this`recorded, frames
      ensures Valid()
      ensures !old(initialized) ==> outcome == Fatal(NotInitialized)
      ensures old(initialized) && old(len) == 0 ==> outcome == Fatal(NoSuiteRunning)
      ensures old(initialized) && old(len) > 0 && old(frames[len - 1].test.status) == Idle ==>
                outcome == Fatal(NoTestRunning)
      ensures outcome == Ok <==> old(initialized) && old(len) > 0 && old(frames[len - 1].test.status) != Idle
      ensures outcome.Fatal? ==> unchanged(this) && unchanged(frames)
      ensures outcome == Ok ==>
                calls == old(calls) + CleanupChain(old(Stack()), rootCleanup, old(frames[len - 1].test)) &&
                frames[..] == old(frames[..])[len - 1 := EndedIn(old(frames[len - 1]), now)] &&
                recorded == old(recorded).Plus(Finished(old(frames[len - 1].test.status),
                                                        now - old(frames[len - 1].test.startClock)))
    {
      if !initialized {
        return Fatal(NotInitialized);
      }
      if len == 0 {
        return Fatal(NoSuiteRunning);
      }
      var curr := frames[len - 1];
      if curr.test.status == Idle {
        return Fatal(NoTestRunning);
      }
      InvokeCleanups(curr.test);
      var gain := Finished(curr.test.status, now - curr.test.startClock);
      ghost var before := frames[..];
      frames[len - 1] := EndedIn(curr, now);
      assert frames[..] == before[len - 1 := frames[len - 1]];
      StackSumTop(before, len, frames[len - 1], gain);
      SettledTop(before, len, frames[len - 1]);
      recorded := recorded.Plus(gain);
      outcome := Ok;
    }

    /** ttest_conclude: returns 1 when some test failed and 0 otherwise. By
        then every counted test has been folded into the process totals. */
    method Conclude() returns (outcome: Outcome, code: int)
      requires Valid()
      modifies this`concluded
      ensures Valid()
      ensures !old(initialized) ==> outcome == Fatal(NotInitialized)
      ensures old(initialized) && old(concluded) ==> outcome == Fatal(ConcludeTwice)
      ensures old(initialized) && !old(concluded) && old(len) != 0 ==> outcome == Fatal(SuitesStillOpen)
      ensures outcome == Ok <==> old(initialized) && !old(concluded) && old(len) == 0
      ensures outcome.Fatal? ==> unchanged(this)
      ensures outcome == Ok ==>
                concluded && Totals() == recorded && (code == 1 <==> totalFail > 0) && (code == 0 <==> totalFail == 0)
    {
      code := 0;
      if !initialized {
        return Fatal(NotInitialized), code;
      }
      if concluded {
        return Fatal(ConcludeTwice), code;
      }
      if len != 0 {
        return Fatal(SuitesStillOpen), code;
      }
      concluded := true;
      code := if totalFail != 0 then 1 else 0;
      outcome := Ok;
    }

    /** ttest_assert: folds the assertion into the running test's status and
        hands the argument back unchanged. */
    method Assert(expr: bv32) returns (outcome: Outcome, r: bv32)
      requires Valid()
      modifies frames
      ensures Valid()
      ensures r == expr
      ensures !old(initialized) ==> outcome == Fatal(NotInitialized)
      ensures old(initialized) && old(len) == 0 ==> outcome == Fatal(NoSuiteRunning)
      ensures old(initialized) && old(len) > 0 && old(frames[len - 1].test.status) == Idle ==>
                outcome == Fatal(NoTestRunning)
      ensures outcome == Ok <==> old(initialized) && old(len) > 0 && old(frames[len - 1].test.status) != Idle
      ensures outcome.Fatal? ==> unchanged(frames)
      ensures outcome == Ok ==>
                frames[..] == old(frames[..])[len - 1 := old(frames[len - 1]).(test := old(frames[len - 1].test).(
                  status := AssertStep(old(frames[len - 1].test.status), expr, old(frames[len - 1].test.failAsPassFlag))))]
    {
      r := expr;
      if !initialized {
        return Fatal(NotInitialized), r;
      }
      if len == 0 {
        return Fatal(NoSuiteRunning), r;
      }
      var curr := frames[len - 1];
      if curr.test.status == Idle {
        return Fatal(NoTestRunning), r;
      }
      var isPass := AssertionPasses(expr, curr.test.failAsPassFlag);
      ghost var before := frames[..];
      frames[len - 1] := curr.(test := curr.test.(status := if isPass && curr.test.status == Pass then Pass else Fail));
      assert frames[..] == before[len - 1 := frames[len - 1]];
      StackSumSame(before, len, frames[len - 1]);
      SettledTop(before, len, frames[len - 1]);
      outcome := Ok;
    }
  }
}

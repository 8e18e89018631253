/** The runner of lib/tinytest.c, the older variant: the same process-wide
    context and stack of at most four suite frames as tinytest.c, but with a
    single clean function for the whole process that may be registered only
    once, no per-frame cleanup, an assertion rule under which the last
    assertion of a test decides its status, and a conclude without a result. */
module TinyTestLib {
  import opened TestCore

  /** TEST_SUITE_MAX_DEPTH, the capacity of the suite stack. */
  const MaxDepth := 4

  /** ttest_TestSuite of lib/tinytest.h: no cleanup slot. */
  datatype Suite = Suite(desc: string, test: Test, totalPass: int, totalFail: int,
                         totalSkip: int, totalDuration: int)

  /** A frame of the zero-filled buffer ttest_init allocates. */
  const ZeroSuite := Suite("", ZeroTest, 0, 0, 0, 0)

  function Counts(s: Suite): Tally
  {
    Tally(s.totalPass, s.totalFail, s.totalSkip, s.totalDuration)
  }

  /** The counters of the n bottom frames of the buffer added up, bottom
      frame first. */
  function StackSum(frames: seq<Suite>, n: nat): Tally
    requires n <= |frames|
  {
    if n == 0 then Tally(0, 0, 0, 0)
    else StackSum(frames, n - 1).Plus(Counts(frames[n - 1]))
  }

  /** Only the top frame of the n bottom frames may have a running test,
      and no frame stores Skip. */
  predicate Settled(frames: seq<Suite>, n: nat)
    requires n <= |frames|
  {
    && (forall k :: 0 <= k < n - 1 ==> frames[k].test.status == Idle)
    && (forall k :: 0 <= k < n ==> frames[k].test.status != Skip)
  }

  /** Rewriting the top frame with a status other than Skip keeps the stack
      settled. */
  lemma SettledTop(frames: seq<Suite>, n: nat, s: Suite)
    requires 0 < n <= |frames| && Settled(frames, n) && s.test.status != Skip
    ensures Settled(frames[n - 1 := s], n)
  {
  }

  /** Pushing an idle frame onto a stack whose top is idle keeps it settled. */
  lemma SettledPush(frames: seq<Suite>, n: nat, s: Suite)
    requires n < |frames| && Settled(frames, n) && s.test.status == Idle
    requires n > 0 ==> frames[n - 1].test.status == Idle
    ensures Settled(frames[n := s], n + 1)
  {
  }

  /** Folding the top frame into an idle parent and popping it keeps the
      stack settled. */
  lemma SettledFold(frames: seq<Suite>, n: nat, s: Suite)
    requires 2 <= n <= |frames| && Settled(frames, n) && s.test.status == Idle
    ensures Settled(frames[n - 2 := s], n - 1)
  {
  }

  /** Writing a buffer slot at or above the n bottom frames leaves their sum
      alone. */
  lemma {:induction false} StackSumUpdate(frames: seq<Suite>, n: nat, j: nat, s: Suite)
    requires n <= j < |frames|
    ensures StackSum(frames[j := s], n) == StackSum(frames, n)
  {
    if n > 0 {
      StackSumUpdate(frames, n - 1, j, s);
    }
  }

  /** Rewriting the top frame without touching its counters leaves the sum
      alone. */
  lemma StackSumSame(frames: seq<Suite>, n: nat, s: Suite)
    requires 0 < n <= |frames| && Counts(s) == Counts(frames[n - 1])
    ensures StackSum(frames[n - 1 := s], n) == StackSum(frames, n)
  {
    StackSumUpdate(frames, n - 1, n - 1, s);
  }

  /** Rewriting the top frame changes the sum by what the top frame gained. */
  lemma StackSumTop(frames: seq<Suite>, n: nat, s: Suite, gain: Tally)
    requires 0 < n <= |frames| && Counts(s) == Counts(frames[n - 1]).Plus(gain)
    ensures StackSum(frames[n - 1 := s], n) == StackSum(frames, n).Plus(gain)
  {
    StackSumUpdate(frames, n - 1, n - 1, s);
  }

  /** Folding the top frame into the one below it and popping it leaves the
      sum alone: nothing is counted twice and nothing is lost. */
  lemma StackSumFold(frames: seq<Suite>, n: nat, merged: Suite)
    requires 2 <= n <= |frames|
    requires Counts(merged) == Counts(frames[n - 2]).Plus(Counts(frames[n - 1]))
    ensures StackSum(frames[n - 2 := merged], n - 1) == StackSum(frames, n)
  {
    StackSumUpdate(frames, n - 2, n - 2, merged);
    assert StackSum(frames, n) == StackSum(frames, n - 2).Plus(Counts(frames[n - 2])).Plus(Counts(frames[n - 1]));
  }

  /** The slot `ptr` points at after a non-skipped ttest_beginTestSuite:
      counters zero and no running test; the test record's other fields are
      left as they were. */
  function Opened(prev: Suite, desc: string): (s: Suite)
    ensures Counts(s) == Tally(0, 0, 0, 0) && s.test.status == Idle && s.desc == desc
    ensures s.test.(status := prev.test.status) == prev.test
  {
    prev.(desc := desc, test := prev.test.(status := Idle),
          totalPass := 0, totalFail := 0, totalSkip := 0, totalDuration := 0)
  }

  /** The top frame after a skipped ttest_beginTest. */
  function SkippedIn(s: Suite): (r: Suite)
    ensures Counts(r) == Counts(s).Plus(Tally(0, 0, 1, 0))
    ensures r.test == s.test && r.desc == s.desc
  {
    s.(totalSkip := s.totalSkip + 1)
  }

  /** The top frame after a non-skipped ttest_beginTest at clock `now`. */
  function StartedIn(s: Suite, desc: string, flag: bv32, now: int): (r: Suite)
    ensures r.test.status == Pass
    ensures r.test == Test(Pass, desc, flag, now)
    ensures Counts(r) == Counts(s) && r.desc == s.desc
  {
    s.(test := Test(Pass, desc, flag, now))
  }

  /** The top frame after ttest_endTest at clock `now`: the duration is
      added, the status reset, and the saved status counted. */
  function EndedIn(s: Suite, now: int): (r: Suite)
    ensures Counts(r) == Counts(s).Plus(Finished(s.test.status, now - s.test.startClock))
    ensures r.test == s.test.(status := Idle) && r.desc == s.desc
  {
    var duration := now - s.test.startClock;
    var r := s.(totalDuration := s.totalDuration + duration, test := s.test.(status := Idle));
    if s.test.status == Pass then r.(totalPass := r.totalPass + 1)
    else r.(totalFail := r.totalFail + 1)
  }

  /** The parent frame after ttest_endTestSuite folds `child` into it. */
  function FoldedInto(parent: Suite, child: Suite): (r: Suite)
    ensures Counts(r) == Counts(parent).Plus(Counts(child))
    ensures r.test == parent.test && r.desc == parent.desc
  {
    parent.(totalPass := parent.totalPass + child.totalPass,
            totalFail := parent.totalFail + child.totalFail,
            totalSkip := parent.totalSkip + child.totalSkip,
            totalDuration := parent.totalDuration + child.totalDuration)
  }

  // ---------------------------------------------------------------------
  // The assertion rule

  /** The status after one ttest_assert: the prior status plays no part. */
  function AssertStep(prior: Status, expr: bv32, flag: bv32): Status
  {
    if AssertionPasses(expr, flag) then Pass else Fail
  }

  /** The status after a test's assertions `exprs`, in call order. */
  function AssertRun(prior: Status, exprs: seq<bv32>, flag: bv32): Status
  {
    if exprs == [] then prior
    else AssertStep(AssertRun(prior, exprs[..|exprs| - 1], flag), exprs[|exprs| - 1], flag)
  }

  /** After at least one assertion the last one alone decides the status. */
  lemma LastAssertionDecides(prior: Status, exprs: seq<bv32>, flag: bv32)
    requires exprs != []
    ensures AssertRun(prior, exprs, flag) == Pass <==> AssertionPasses(exprs[|exprs| - 1], flag)
    ensures AssertRun(prior, exprs, flag) in {Pass, Fail}
  {
  }

  /** Running two batches of assertions one after the other is running them
      together. */
  lemma {:induction false} AssertRunAppend(prior: Status, exprs: seq<bv32>, later: seq<bv32>, flag: bv32)
    ensures AssertRun(prior, exprs + later, flag) == AssertRun(AssertRun(prior, exprs, flag), later, flag)
  {
    if later == [] {
      assert exprs + later == exprs;
    } else {
      var n := |later| - 1;
      AssertRunAppend(prior, exprs, later[..n], flag);
      assert (exprs + later)[..|exprs + later| - 1] == exprs + later[..n];
    }
  }

  /** Fail is not sticky: a failed assertion followed by a passing one leaves
      the test passing. */
  lemma FailIsNotSticky()
    ensures AssertRun(Pass, [0], 0) == Fail
    ensures AssertRun(Pass, [0] + [1], 0) == Pass
  {
    assert [0] + [1] == [0 as bv32, 1];
    assert [0 as bv32, 1][..1] == [0];
  }

  // ---------------------------------------------------------------------
  // The process state

  /** One invocation of the clean function with the finished test's record. */
  datatype CleanCall = CleanCall(hook: Hook, test: Test)

  /** The fatal usage errors, one per ERROR call of lib/tinytest.c. */
  datatype UsageError =
    | InitTwice            // "Don't call the ttest_init / INIT twice"
    | CleanTwice           // "Don't call the ttest_clean / CLEAN twice"
    | NotInitialized       // "Run the ttest_init/INIT function first"
    | DepthExceeded        // "... the maximum depth is 4"
    | SuiteDuringTest      // "... unable to create a new test suite"
    | NoSuiteRunning       // "No test suite running"
    | EndSuiteDuringTest   // "... unable to cease current test suite"
    | TestAlreadyRunning   // "... can only run 1 test at a time"
    | NoTestRunning        // "No test is running, ..."
    | ConcludeTwice        // "Don't call the ttest_conclude / CONCLUDE twice"
    | SuitesStillOpen      // "There is still a test suite running, ..."

  /** What an operation did: return normally, or stop the process with a
      fatal usage error. */
  datatype Outcome = Ok | Fatal(error: UsageError)

  class Runner {
    var initialized: bool
    var concluded: bool
    var totalPass: int
    var totalFail: int
    var totalSkip: int
    var totalDuration: int
    /** currCleanFunc; NULL is None. */
    var cleanFunc: Option<Hook>
    /** The frame buffer (empty until ttest_init) and the stack length; the
        source's moving `ptr` is the slot frames[len]. */
    var frames: array<Suite>
    var len: int
    /** Every clean-function invocation so far, in order. */
    var calls: seq<CleanCall>
    /** The counters of every test that has been skipped or has ended. */
    ghost var recorded: Tally

    function Totals(): Tally
      reads this
    {
      Tally(totalPass, totalFail, totalSkip, totalDuration)
    }

    ghost predicate Valid()
      reads this, frames
    {
      && 0 <= len <= frames.Length
      && (initialized ==> frames.Length == MaxDepth)
      && (!initialized ==> len == 0)
      && (concluded ==> initialized && len == 0)
      // only the top frame may have a running test, and Skip is never stored
      && Settled(frames[..], len)
      // every counted test is counted once: in the process totals or in an open frame
      && recorded.pass >= 0 && recorded.fail >= 0 && recorded.skip >= 0
      && Totals().Plus(StackSum(frames[..], len)) == recorded
    }

    /** The initial values of the static variables. */
    constructor ()
      ensures Valid()
      ensures !initialized && !concluded && len == 0 && frames.Length == 0
      ensures Totals() == Tally(0, 0, 0, 0) && cleanFunc == None && calls == []
    {
      initialized, concluded := false, false;
      totalPass, totalFail, totalSkip, totalDuration := 0, 0, 0, 0;
      cleanFunc := None;
      frames := new Suite[0];
      len := 0;
      calls := [];
      recorded := Tally(0, 0, 0, 0);
    }

    /** ttest_init. */
    method Init() returns (outcome: Outcome)
      requires Valid()
      modifies this`initialized, this`len, this`frames
      ensures Valid()
      ensures old(initialized) ==> outcome == Fatal(InitTwice) && unchanged(this)
      ensures !old(initialized) ==>
                outcome == Ok && initialized && len == 0 &&
                fresh(frames) && frames[..] == seq(MaxDepth, _ => ZeroSuite)
    {
      if initialized {
        return Fatal(InitTwice);
      }
      initialized := true;
      len := 0;
      frames := new Suite[MaxDepth](_ => ZeroSuite);
      outcome := Ok;
    }

    /** ttest_clean: registers the clean function unless one is registered
        already. It does not require ttest_init. */
    method Clean(f: Option<Hook>) returns (outcome: Outcome)
      requires Valid()
      modifies this`cleanFunc
      ensures Valid()
      ensures old(cleanFunc).Some? ==> outcome == Fatal(CleanTwice) && unchanged(this)
      ensures old(cleanFunc).None? ==> outcome == Ok && cleanFunc == f
    {
      if cleanFunc.Some? {
        return Fatal(CleanTwice);
      }
      cleanFunc := f;
      outcome := Ok;
    }

    /** ttest_beginTestSuite. The depth check comes before the skip check,
        so even a skipped suite cannot be opened at depth MaxDepth. After
        ttest_conclude the buffer is freed, so only a skipped suite may be
        opened then. */
    method BeginTestSuite(desc: string, skip: bool) returns (outcome: Outcome)
      requires Valid()
      requires concluded ==> skip
      modifies this`len, frames
      ensures Valid()
      ensures !old(initialized) ==> outcome == Fatal(NotInitialized)
      ensures old(initialized) && old(len) >= MaxDepth ==> outcome == Fatal(DepthExceeded)
      ensures old(initialized) && 0 < old(len) < MaxDepth && old(frames[len - 1].test.status) != Idle ==>
                outcome == Fatal(SuiteDuringTest)
      ensures outcome == Ok <==>
                old(initialized) && old(len) < MaxDepth &&
                (old(len) == 0 || old(frames[len - 1].test.status) == Idle)
      ensures outcome.Fatal? || skip ==> unchanged(this) && unchanged(frames)
      ensures outcome == Ok && !skip ==>
                len == old(len) + 1 &&
                frames[..] == old(frames[..])[old(len) := Opened(old(frames[len]), desc)]
    {
      if !initialized {
        return Fatal(NotInitialized);
      }
      if len >= MaxDepth {
        return Fatal(DepthExceeded);
      }
      if len != 0 && frames[len - 1].test.status != Idle {
        return Fatal(SuiteDuringTest);
      }
      if skip {
        return Ok;
      }
      ghost var before := frames[..];
      frames[len] := Opened(frames[len], desc);
      StackSumUpdate(before, len, len, frames[len]);
      SettledPush(before, len, frames[len]);
      len := len + 1;
      outcome := Ok;
    }

    /** ttest_endTestSuite: the top frame's counters go to the process totals
        when it is the last frame and to its parent frame otherwise, and the
        frame is popped. */
    method EndTestSuite() returns (outcome: Outcome)
      requires Valid()
      modifies this`totalPass, this`totalFail, this`totalSkip, this`totalDuration, this`len, frames
      ensures Valid()
      ensures !old(initialized) ==> outcome == Fatal(NotInitialized)
      ensures old(initialized) && old(len) == 0 ==> outcome == Fatal(NoSuiteRunning)
      ensures old(initialized) && old(len) > 0 && old(frames[len - 1].test.status) != Idle ==>
                outcome == Fatal(EndSuiteDuringTest)
      ensures outcome == Ok <==> old(initialized) && old(len) > 0 && old(frames[len - 1].test.status) == Idle
      ensures outcome.Fatal? ==> unchanged(this) && unchanged(frames)
      ensures outcome == Ok ==> len == old(len) - 1
      ensures outcome == Ok && old(len) == 1 ==>
                Totals() == old(Totals()).Plus(Counts(old(frames[0]))) && frames[..] == old(frames[..])
      ensures outcome == Ok && old(len) > 1 ==>
                Totals() == old(Totals()) &&
                frames[..] == old(frames[..])[old(len) - 2 := FoldedInto(old(frames[len - 2]), old(frames[len - 1]))]
    {
      if !initialized {
        return Fatal(NotInitialized);
      }
      if len == 0 {
        return Fatal(NoSuiteRunning);
      }
      var curr := frames[len - 1];
      if curr.test.status != Idle {
        return Fatal(EndSuiteDuringTest);
      }
      if len == 1 {
        totalPass := totalPass + curr.totalPass;
        totalFail := totalFail + curr.totalFail;
        totalSkip := totalSkip + curr.totalSkip;
        totalDuration := totalDuration + curr.totalDuration;
      } else {
        ghost var before := frames[..];
        frames[len - 2] := FoldedInto(frames[len - 2], curr);
        assert frames[..] == before[len - 2 := frames[len - 2]];
        StackSumFold(before, len, frames[len - 2]);
        SettledFold(before, len, frames[len - 2]);
      }
      len := len - 1;
      outcome := Ok;
    }

    /** ttest_beginTest at clock `now`. A skipped test only counts a skip. */
    method BeginTest(desc: string, failAsPassFlag: bv32, skip: bool, now: int) returns (outcome: Outcome)
      requires Valid()
      modifies this`recorded, frames
      ensures Valid()
      ensures !old(initialized) ==> outcome == Fatal(NotInitialized)
      ensures old(initialized) && old(len) == 0 ==> outcome == Fatal(NoSuiteRunning)
      ensures old(initialized) && old(len) > 0 && old(frames[len - 1].test.status) != Idle ==>
                outcome == Fatal(TestAlreadyRunning)
      ensures outcome == Ok <==> old(initialized) && old(len) > 0 && old(frames[len - 1].test.status) == Idle
      ensures outcome.Fatal? ==> unchanged(this) && unchanged(frames)
      ensures outcome == Ok && skip ==>
                frames[..] == old(frames[..])[len - 1 := SkippedIn(old(frames[len - 1]))] &&
                recorded == old(recorded).Plus(Tally(0, 0, 1, 0))
      ensures outcome == Ok && !skip ==>
                frames[..] == old(frames[..])[len - 1 := StartedIn(old(frames[len - 1]), desc, failAsPassFlag, now)] &&
                recorded == old(recorded)
    {
      if !initialized {
        return Fatal(NotInitialized);
      }
      if len == 0 {
        return Fatal(NoSuiteRunning);
      }
      var curr := frames[len - 1];
      if curr.test.status != Idle {
        return Fatal(TestAlreadyRunning);
      }
      ghost var before := frames[..];
      if skip {
        frames[len - 1] := SkippedIn(curr);
        recorded := recorded.Plus(Tally(0, 0, 1, 0));
        assert frames[..] == before[len - 1 := frames[len - 1]];
        StackSumTop(before, len, frames[len - 1], Tally(0, 0, 1, 0));
        SettledTop(before, len, frames[len - 1]);
        return Ok;
      }
      frames[len - 1] := StartedIn(curr, desc, failAsPassFlag, now);
      assert frames[..] == before[len - 1 := frames[len - 1]];
      StackSumSame(before, len, frames[len - 1]);
      SettledTop(before, len, frames[len - 1]);
      outcome := Ok;
    }

    /** The call of ttest_endTest to the clean function, if one is set, with
        the finished test's record. */
    method InvokeClean(test: Test)
      modifies this`calls
      ensures calls == old(calls) + (if cleanFunc.Some? then [CleanCall(cleanFunc.value, test)] else [])
    {
      if cleanFunc.Some? {
        calls := calls + [CleanCall(cleanFunc.value, test)];
      }
    }

    /** ttest_endTest, with `now` the clock reading taken after the clean
        function ran: the clean function, if registered, is invoked with the
        finished test's record, then the test's outcome and duration are
        counted on the top frame. */
    method EndTest(now: int) returns (outcome: Outcome)
      requires Valid()
      modifies this`calls, this`recorded, frames
      ensures Valid()
      ensures !old(initialized) ==> outcome == Fatal(NotInitialized)
      ensures old(initialized) && old(len) == 0 ==> outcome == Fatal(NoSuiteRunning)
      ensures old(initialized) && old(len) > 0 && old(frames[len - 1].test.status) == Idle ==>
                outcome == Fatal(NoTestRunning)
      ensures outcome == Ok <==> old(initialized) && old(len) > 0 && old(frames[len - 1].test.status) != Idle
      ensures outcome.Fatal? ==> unchanged(this) && unchanged(frames)
      ensures outcome == Ok ==>
                calls == old(calls) + (if cleanFunc.Some? then [CleanCall(cleanFunc.value, old(frames[len - 1].test))] else []) &&
                frames[..] == old(frames[..])[len - 1 := EndedIn(old(frames[len - 1]), now)] &&
                recorded == old(recorded).Plus(Finished(old(frames[len - 1].test.status),
                                                        now - old(frames[len - 1].test.startClock)))
    {
      if !initialized {
        return Fatal(NotInitialized);
      }
      if len == 0 {
        return Fatal(NoSuiteRunning);
      }
      var curr := frames[len - 1];
      if curr.test.status == Idle {
        return Fatal(NoTestRunning);
      }
      InvokeClean(curr.test);
      var gain := Finished(curr.test.status, now - curr.test.startClock);
      ghost var before := frames[..];
      frames[len - 1] := EndedIn(curr, now);
      assert frames[..] == before[len - 1 := frames[len - 1]];
      StackSumTop(before, len, frames[len - 1], gain);
      SettledTop(before, len, frames[len - 1]);
      recorded := recorded.Plus(gain);
      outcome := Ok;
    }

    /** ttest_conclude. By then every counted test has been folded into the
        process totals. */
    method Conclude() returns (outcome: Outcome)
      requires Valid()
      modifies this`concluded
      ensures Valid()
      ensures !old(initialized) ==> outcome == Fatal(NotInitialized)
      ensures old(initialized) && old(concluded) ==> outcome == Fatal(ConcludeTwice)
      ensures old(initialized) && !old(concluded) && old(len) != 0 ==> outcome == Fatal(SuitesStillOpen)
      ensures outcome == Ok <==> old(initialized) && !old(concluded) && old(len) == 0
      ensures outcome.Fatal? ==> unchanged(this)
      ensures outcome == Ok ==> concluded && Totals() == recorded
    {
      if !initialized {
        return Fatal(NotInitialized);
      }
      if concluded {
        return Fatal(ConcludeTwice);
      }
      if len != 0 {
        return Fatal(SuitesStillOpen);
      }
      concluded := true;
      outcome := Ok;
    }

    /** ttest_assert: the running test's status becomes the verdict of this
        assertion alone, and the argument is handed back unchanged. */
    method Assert(expr: bv32) returns (outcome: Outcome, r: bv32)
      requires Valid()
      modifies frames
      ensures Valid()
      ensures r == expr
      ensures !old(initialized) ==> outcome == Fatal(NotInitialized)
      ensures old(initialized) && old(len) == 0 ==> outcome == Fatal(NoSuiteRunning)
      ensures old(initialized) && old(len) > 0 && old(frames[len - 1].test.status) == Idle ==>
                outcome == Fatal(NoTestRunning)
      ensures outcome == Ok <==> old(initialized) && old(len) > 0 && old(frames[len - 1].test.status) != Idle
      ensures outcome.Fatal? ==> unchanged(frames)
      ensures outcome == Ok ==>
                frames[..] == old(frames[..])[len - 1 := old(frames[len - 1]).(test := old(frames[len - 1].test).(
                  status := AssertStep(old(frames[len - 1].test.status), expr, old(frames[len - 1].test.failAsPassFlag))))]
    {
      r := expr;
      if !initialized {
        return Fatal(NotInitialized), r;
      }
      if len == 0 {
        return Fatal(NoSuiteRunning), r;
      }
      var curr := frames[len - 1];
      if curr.test.status == Idle {
        return Fatal(NoTestRunning), r;
      }
      ghost var before := frames[..];
      frames[len - 1] := curr.(test := curr.test.(status := if AssertionPasses(expr, curr.test.failAsPassFlag) then Pass else Fail));
      assert frames[..] == before[len - 1 := frames[len - 1]];
      StackSumSame(before, len, frames[len - 1]);
      SettledTop(before, len, frames[len - 1]);
      outcome := Ok;
    }
  }
}

# tinytest-c runner, modelled in Dafny

tinytest-c is a small C unit-testing framework. Its core is one process-wide
state machine. That state consists of:

- the `initialized` and `concluded` flags;
- the process totals: pass, fail, skip and duration;
- a fixed buffer of four test-suite frames with a stack length `len`. A frame
  holds a description, the record of the test running in it, its own four
  counters and, in `tinytest.c`, a cleanup slot;
- one root cleanup hook (`tinytest.c`) or one clean function
  (`lib/tinytest.c`).

Each public operation is modelled as a method of a `Runner` class over that
state. Every usage error that would print a message and `exit(1)` instead
returns `Fatal(e)` and leaves the state untouched. The source performs every
check before its first write.

The project is laid out as follows:

- `core.dfy` (module `TestCore`): the status enum and the test record, the
  four-counter `Tally`, what one finished test adds, and the assertion rule
  `expr ^ failAsPassFlag` on 32-bit ints. Both files share these.
- `tinytest.dfy` (module `TinyTest`): the version-2 runner of `tinytest.c`.
  It covers:
  - per-frame cleanup hooks and the root hook;
  - the loop of `ttest_endTest`, which invokes hooks from the innermost
    frame outward;
  - the sticky assertion rule.
- `lib_tinytest.dfy` (module `TinyTestLib`): the older runner of
  `lib/tinytest.c`. It has a single clean function that may be registered
  once, and an assertion rule under which the last assertion decides.
- `variants.dfy` (module `Variants`): lemmas contrasting the two assertion
  rules.
- `scenarios.dfy` (module `Scenarios`): short concrete runs of both runners,
  the cleanup chain on concrete stacks, and one nested-suite example built
  from the frame functions `Opened`, `StartedIn`, `EndedIn` and `FoldedInto`.

Both runner classes keep the same invariant `Valid()`:

- The stack length stays within the buffer, and the buffer has four slots
  once the runner is initialized.
- Only the top frame may have a running test.
- No frame ever stores `Skip`.
- Conservation: the process totals plus the counters of the open frames
  equal `recorded`. `recorded` is a ghost tally of every test that has been
  skipped or has ended.

Every method keeps `Valid()` and states its whole new state. Three places
rely on conservation:

- `EndTestSuite` folds a frame into its parent or into the totals, and loses
  or duplicates nothing (`StackSumFold`).
- `EndTest` and skipped `BeginTest` add exactly one test's tally
  (`StackSumTop`).
- A successful `Conclude` finds every recorded test in the process totals.

Where the code and a reading of its intent differ, the model follows the code:

- The assertion rule is the C bitwise `expr ^ failAsPassFlag` on `int`, not a
  logical exclusive or of booleans. The test passes exactly when the two ints
  differ (`TestCore.AssertionPassesIffDiffer`). With `IT_FAIL` (flag 1), an
  assertion of 2 therefore passes (`TestCore.TruthyAssertionCanPassExpectedFailure`).
- `ttest_beginTestSuite` does not reset the frame's cleanup slot, nor the
  test record's description, flag and start clock (tinytest.c:86-91). A hook
  registered in a closed suite is therefore inherited by the next suite
  opened at the same depth (`Scenarios.StaleHook`).
- In `ttest_endTest`, the clock is read after the hooks have run
  (tinytest.c:203-204). The `now` parameter of `EndTest` is that reading.
- `lib/tinytest.h` declares `void ttest_assert`, but `lib/tinytest.c`
  defines it as returning the argument. The model returns it.

## Model

| member | source | states |
|---|---|---|
| TestCore.AssertionPasses | tinytest.c:272 | definition: one assertion passes when the C truth value of the bitwise `expr ^ failAsPassFlag` is true, i.e. the 32-bit result is non-zero |
| TestCore.Finished | tinytest.c:203-216 | one finished test adds exactly one of pass and fail (pass exactly when its status was PASS, fail for any other status), no skip, and its duration |
| TestCore.AssertionPassesIffDiffer | tinytest.c:272 | `expr ^ failAsPassFlag` is non-zero exactly when the argument and the flag differ as 32-bit ints |
| TestCore.AssertionPassesOnTruthValues | tinytest.h:67-73 | for the flags 0 (IT) and 1 (IT_FAIL) and truth values 0/1, the rule is the logical exclusive or |
| TestCore.TruthyAssertionCanPassExpectedFailure | tinytest.c:272 | outside 0/1 the rule is not the logical exclusive or: a truthy argument can pass an expected-failure test |
| TinyTest.SettledTop | tinytest.c:153-156 | rewriting the top frame with a status other than Skip keeps "only the top frame runs a test, none stores Skip" |
| TinyTest.SettledPush | tinytest.c:74-76 | opening a frame with no running test on a stack whose top is idle keeps it settled |
| TinyTest.SettledFold | tinytest.c:108-111 | folding an idle top frame into its parent and popping keeps the stack settled |
| TinyTest.StackSumUpdate | tinytest.c:86-93 | writing the slot above the open frames leaves the sum of their counters unchanged |
| TinyTest.StackSumSame | tinytest.c:167-170 | rewriting the top frame without touching its counters leaves the sum unchanged |
| TinyTest.StackSumTop | tinytest.c:203-216 | rewriting the top frame changes the sum by exactly what the frame gained |
| TinyTest.StackSumFold | tinytest.c:126-131 | folding the top frame into its parent and popping it leaves the sum of the open frames unchanged |
| TinyTest.Opened | tinytest.c:86-91 | the pushed frame has zero counters, no running test and the new description; its cleanup slot and the other test fields are as the slot held them |
| TinyTest.SkippedIn | tinytest.c:158-165 | a skipped test adds one skip and nothing else to the top frame |
| TinyTest.StartedIn | tinytest.c:167-170 | a started test is PASS with the given description, flag and clock, and the counters are unchanged |
| TinyTest.EndedIn | tinytest.c:203-216 | ending a test resets its status and adds exactly `Finished(status, now - startClock)` to the top frame |
| TinyTest.FoldedInto | tinytest.c:127-131 | the parent's counters grow by exactly the child's, and nothing else of the parent changes |
| TinyTest.AssertStep | tinytest.c:272-275 | definition: after one `ttest_assert` the status is PASS only when this assertion passes and the prior status was PASS, FAIL otherwise |
| TinyTest.AssertRun | tinytest.c:256-277 | definition: the status after successive `ttest_assert` calls of one test, in call order, each applying `AssertStep` |
| TinyTest.AssertRunPassIff | tinytest.c:272-275 | after a run of assertions the test is PASS exactly when it started PASS and every assertion passed |
| TinyTest.AssertRunDecided | tinytest.c:273-275 | after at least one assertion the status is PASS or FAIL |
| TinyTest.FailIsSticky | tinytest.c:273-275 | once FAIL, no later assertions bring a test back to PASS |
| TinyTest.AssertRunOrderIrrelevant | tinytest.c:272-275 | the outcome depends only on the multiset of assertions, not their order |
| TinyTest.FrameHooks | tinytest.c:191-197 | definition: for i = 1 .. k, the hook of the frame i places from the top, when it is set and either i is 1 or it is not only-for-this, invoked with the finished test's record |
| TinyTest.CleanupChain | tinytest.c:191-201 | definition: the frame hooks for every open frame, innermost first, followed by the root hook when it is set |
| TinyTest.FrameHooksSound | tinytest.c:191-197 | every frame hook the loop invokes carries the finished test and is the registered hook of a frame whose hook fires (innermost, or not only-for-this) |
| TinyTest.FrameHooksComplete | tinytest.c:191-197 | every frame whose hook fires has it invoked |
| TinyTest.FrameHooksOrdered | tinytest.c:191-197 | frame hooks are invoked strictly from the innermost frame outward |
| TinyTest.CleanupChainMembers | tinytest.c:191-201 | a call is in the chain exactly when it is the set root hook, or the hook of a frame whose hook fires, with the finished test's record |
| TinyTest.CleanupChainOrdered | tinytest.c:191-201 | the chain runs from the innermost frame outward, each level at most once, with the root hook last |
| TinyTest.Runner.constructor | tinytest.c:21-32 | the static initial state: not initialized, not concluded, empty stack, no root hook, zero totals |
| TinyTest.Runner.Init | tinytest.c:34-42 | a second call is fatal; otherwise initialized, `len` is 0 and the buffer is four zero-filled frames |
| TinyTest.Runner.CleanUp | tinytest.c:44-55 | with no suite open it sets the root hook; otherwise it is fatal while a test runs, else the top frame's slot gets the hook and `onlyForThis` normalised to 0/1 |
| TinyTest.Runner.BeginTestSuite | tinytest.c:57-94 | errors in source order (not initialized, depth 4 reached even when skipping, parent test running); a skip changes nothing; otherwise exactly one `Opened` frame is pushed |
| TinyTest.Runner.EndTestSuite | tinytest.c:98-142 | errors (not initialized, no suite, test running); at depth 1 the totals grow by the frame's counters, deeper the parent absorbs them; exactly one frame is popped |
| TinyTest.Runner.BeginTest | tinytest.c:144-175 | errors (not initialized, no suite, test running); a skip adds one skip to the top frame; otherwise the top frame's test starts as PASS |
| TinyTest.Runner.InvokeCleanups | tinytest.c:191-201 | the loop and the root call append exactly `CleanupChain` of the open stack |
| TinyTest.Runner.EndTest | tinytest.c:177-217 | errors (not initialized, no suite, no test running); the cleanup chain is invoked with the finished test, then the top frame becomes `EndedIn(frame, now)` |
| TinyTest.Runner.Conclude | tinytest.c:229-254 | errors (not initialized, concluded twice, suites open); otherwise concluded, every recorded test is in the totals, and the result is 1 exactly when some test failed, else 0 |
| TinyTest.Runner.Assert | tinytest.c:256-277 | errors (not initialized, no suite, no test running); the top test's status becomes `AssertStep` of the sticky rule, and the argument is returned |
| TinyTestLib.SettledTop | lib/tinytest.c:156-159 | as in tinytest.c: rewriting the top frame with a status other than Skip keeps the stack settled |
| TinyTestLib.SettledPush | lib/tinytest.c:80-82 | opening an idle frame on an idle top keeps the stack settled |
| TinyTestLib.SettledFold | lib/tinytest.c:112-115 | folding an idle top frame into its parent keeps the stack settled |
| TinyTestLib.StackSumUpdate | lib/tinytest.c:92-99 | writing the slot `ptr` points at leaves the sum of the open frames unchanged |
| TinyTestLib.StackSumSame | lib/tinytest.c:170-173 | rewriting the top frame without touching its counters leaves the sum unchanged |
| TinyTestLib.StackSumTop | lib/tinytest.c:198-211 | rewriting the top frame changes the sum by exactly what it gained |
| TinyTestLib.StackSumFold | lib/tinytest.c:131-135 | folding into the parent and popping leaves the sum unchanged |
| TinyTestLib.Opened | lib/tinytest.c:92-97 | the frame at `ptr` gets zero counters, no running test and the new description; the other test fields are kept |
| TinyTestLib.SkippedIn | lib/tinytest.c:161-168 | a skipped test adds one skip and nothing else |
| TinyTestLib.StartedIn | lib/tinytest.c:170-173 | a started test is PASS with the given description, flag and clock; the counters are unchanged |
| TinyTestLib.EndedIn | lib/tinytest.c:198-211 | ending resets the status and adds exactly `Finished(status, now - startClock)` |
| TinyTestLib.FoldedInto | lib/tinytest.c:131-135 | the parent's counters grow by exactly the child's |
| TinyTestLib.AssertStep | lib/tinytest.c:254 | definition: after one `ttest_assert` the status is PASS when this assertion passes and FAIL otherwise, whatever the prior status |
| TinyTestLib.AssertRun | lib/tinytest.c:240-256 | definition: the status after successive `ttest_assert` calls of one test, in call order, each applying `AssertStep` |
| TinyTestLib.LastAssertionDecides | lib/tinytest.c:254 | after at least one assertion, the test is PASS exactly when the last assertion passed |
| TinyTestLib.AssertRunAppend | lib/tinytest.c:254 | running two batches of assertions in turn is running them together |
| TinyTestLib.FailIsNotSticky | lib/tinytest.c:254 | a failed assertion followed by a passing one leaves the test PASS |
| TinyTestLib.Runner.constructor | lib/tinytest.c:20-31 | the static initial state, with no clean function |
| TinyTestLib.Runner.Init | lib/tinytest.c:45-53 | a second call is fatal; otherwise initialized, `len` is 0 and four zero-filled frames |
| TinyTestLib.Runner.Clean | lib/tinytest.c:55-61 | fatal when a clean function is already registered, otherwise it stores the argument; it does not need `ttest_init` |
| TinyTestLib.Runner.BeginTestSuite | lib/tinytest.c:63-100 | errors in source order, depth 4 fatal even when skipping; a skip changes nothing; otherwise one `Opened` frame is pushed |
| TinyTestLib.Runner.EndTestSuite | lib/tinytest.c:102-145 | errors; at depth 1 the totals absorb the frame's counters, deeper the parent does; exactly one frame is popped |
| TinyTestLib.Runner.BeginTest | lib/tinytest.c:147-178 | errors; a skip adds one skip; otherwise the test starts as PASS |
| TinyTestLib.Runner.InvokeClean | lib/tinytest.c:194-196 | the clean function is invoked once with the finished test if it is registered, and not otherwise |
| TinyTestLib.Runner.EndTest | lib/tinytest.c:180-212 | errors; the clean function runs first, then the top frame becomes `EndedIn(frame, now)` |
| TinyTestLib.Runner.Conclude | lib/tinytest.c:214-238 | errors (not initialized, concluded twice, suites open); otherwise concluded, with every recorded test in the totals |
| TinyTestLib.Runner.Assert | lib/tinytest.c:240-256 | errors; the status becomes the verdict of this assertion alone, and the argument is returned |
| Variants.StickyPassImpliesLastWinsPass | tinytest.c:272-275 | a test that passes under the sticky rule passes under the last-wins rule of lib/tinytest.c:254 |
| Variants.RulesAgreeIff | tinytest.c:272-275 | from a fresh test, the two rules agree exactly when there are no assertions, the last one fails, or all pass |
| Variants.FailureMonotonicOnlyWhenSticky | tinytest.c:273-275 | the assertions 0 then 1 with flag 0 give FAIL in tinytest.c and PASS in lib/tinytest.c |
| Scenarios.NestedSuites | tinytest.c:126-131 | a test passing after 7 ticks in a nested suite leaves the outer suite with exactly (1, 0, 0, 7) |
| Scenarios.StaleHook | tinytest.c:86-93 | after a suite that registered a hook is closed, the next suite opened at the same depth opens successfully, with its own description, and holds that hook |
| Scenarios.CleanupOrder | tinytest.c:191-201 | outer hook (not only-for-this) and root hook set, inner suite without hook: the outer hook runs, then the root hook |
| Scenarios.OnlyForThisHook | tinytest.c:194 | an only-for-this hook on the outer suite is skipped for a test of the inner suite and runs for its own test |
| Scenarios.DepthLimit | tinytest.c:62-64 | a fifth suite is fatal even when skipped, and the depth stays 4 |
| Scenarios.ConcludeTooEarly | tinytest.c:238-240 | concluding with a suite open is fatal and leaves the runner unconcluded |
| Scenarios.StickyAssertionOrder | tinytest.c:272-275 | the assertions 0 then 1 leave the running test FAIL |
| Scenarios.LastWinsAssertionOrder | lib/tinytest.c:254 | the assertions 0 then 1 leave the running test PASS |
| Scenarios.SingleCleanFunction | lib/tinytest.c:55-61 | a second clean registration, even after `ttest_init`, is fatal and keeps the first |

## Left out

- Output: every `printf` and its formatting. The model records no event log apart from the hook calls.
- Time: `clock()` is the `now` parameter of `BeginTest` and `EndTest`.
- Memory: `calloc` becomes a fresh four-slot array in `Init`. `free` in `ttest_conclude` is not modelled.
- TinyTest.Runner.BeginTestSuite: it requires `concluded ==> skip`, because after `ttest_conclude` a non-skipped open writes to the freed buffer (tinytest.c:251).
- TinyTestLib.Runner.BeginTestSuite: it requires `concluded ==> skip`, because after `ttest_conclude` a non-skipped open writes to the freed buffer (lib/tinytest.c:237).
- Process exit: `exit(1)` becomes a `Fatal` outcome with the state unchanged. The model lets a caller carry on after it, which the real process cannot.
- Hook and clean-function bodies: they receive a `const` test pointer and are recorded as calls carrying a label and the test record; the hook calls of `tinytest.c` also carry their frame level (or root), while the clean-function calls of `lib/tinytest.c` carry none. A hook that calls back into the runner is not modelled.
- Function pointers are integer labels, and NULL is `None`.
- Description strings are Dafny strings: pointer identity and lifetime are not modelled.
- `ttest_test` (tinytest.c:219-227) is not modelled: it relies on `ASSERT_N`, which no header shown defines.
- `updateStat` (lib/tinytest.c:33-43) is not modelled: it is dead code and is never called.
- `example.c` and the header macros `INIT`, `DESCRIBE` and `IT` are not modelled: they are call sites only.
- Integer widths: the counters (`int`) and durations (`long`) are unbounded integers. Overflow is not modelled. The assertion argument and flag are exact 32-bit patterns.

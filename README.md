# Grid game engine and flaky devices, modelled in Dafny

This project models the two small state machines of a Java teaching repository.

**The grid game engine** (`a01a/sol2/LogicImpl`). The engine is fixed to a board `size`. It keeps an
ordered list of marks (grid cells) and a one-way `moving` flag.
- A click (`hit`) does nothing once the game is over.
- Otherwise, if the engine is already moving, or the click is within Chebyshev distance 1 of some
  mark (the mark's own cell included), it latches `moving`. It then shifts every mark one column
  right and one row up, (x+1, y−1), and answers nothing. Rows are counted from the top, as the front end lays out `Position(column, row)`.
- Otherwise it appends the click and answers the new number of marks.
- `getMark` answers the 1-based position of the first mark on a cell.
- `isOver` holds when some mark is on column `size` (past the right edge) or row −1 (past the top edge).

The model has three layers:
- module `Marks` holds the pure queries over values;
- module `Engine` holds the click as a transition function `Hit` on a `Game` value, with lemmas
  over single clicks and over sequences of clicks (`Run`);
- module `Logic` holds the class `LogicImpl`, whose `Hit` updates its fields in place and is
  proved to follow `Engine.Hit`.

**The flaky devices** (packages `revisedDevices` and `GPTtests`).
- A device switches on only if its failure policy's `attemptOn` agrees. Otherwise it throws
  `IllegalStateException`.
- `AfterTwoFailing` answers `interactions < 2`. It never advances `interactions`, so from a fresh or
  reset state it always agrees. The model keeps this as written.
- `RandomFailing` is a sticky latch set by a coin flip. The coin is a parameter here.
- `BrokenDevice` consults its policy but never turns on.
- `StandardDeviceGPT` is a variant whose `reset` calls `attemptOn` and whose constructor rejects null.
- Exceptions are `Outcome`/`Result` values.
- Each policy keeps a ghost log of the state-changing calls made on it. This lets the contracts say
  that a device consults its policy exactly once per call.

Files: `wrappers.dfy` (Option, Outcome, Result), `marks.dfy`, `engine.dfy`, `logic.dfy`,
`policies.dfy`, `devices.dfy`, `devices_gpt.dfy`.

## Model

| member | source | states |
|---|---|---|
| `Marks.Neighbours` | src/main/java/a01a/sol2/LogicImpl.java:37-40 | two cells are neighbours iff their Chebyshev distance is at most 1, so a cell is its own neighbour |
| `Marks.NeighboursSymmetric` | src/main/java/a01a/sol2/LogicImpl.java:39 | adjacency does not depend on the order of its arguments |
| `Marks.StartMoving` | src/main/java/a01a/sol2/LogicImpl.java:42-44 | true iff some mark is a neighbour of the clicked cell |
| `Marks.ShiftInjective` | src/main/java/a01a/sol2/LogicImpl.java:50 | the (+1, −1) step maps distinct cells to distinct cells |
| `Marks.Moved` | src/main/java/a01a/sol2/LogicImpl.java:46-52 | the moved marks keep their count and order, and each one is the old mark shifted by (+1, −1) |
| `Marks.IndexOf` | src/main/java/a01a/sol2/LogicImpl.java:59 | `indexOf` gives −1 iff the cell holds no mark; otherwise it gives an index holding the cell with no earlier index holding it |
| `Marks.GetMark` | src/main/java/a01a/sol2/LogicImpl.java:54-60 | empty iff no mark is on the cell; otherwise n in 1..count, where mark n−1 is on the cell and no earlier mark is |
| `Marks.IsOver` | src/main/java/a01a/sol2/LogicImpl.java:62-66 | true iff some mark has x == size or y == −1 |
| `Marks.ApartIsDistinct` | src/main/java/a01a/sol2/LogicImpl.java:39 | marks that are pairwise non-adjacent are pairwise distinct |
| `Marks.MovedDistinct` | src/main/java/a01a/sol2/LogicImpl.java:48-51 | moving keeps marks on distinct cells |
| `Marks.MovedKeepsNumbers` | src/main/java/a01a/sol2/LogicImpl.java:46-59 | after a move, looking up Shift(q) gives what looking up q gave before: numbers are positions and follow the marks |
| `Marks.MovedKeepsIndex` | src/main/java/a01a/sol2/LogicImpl.java:46-59 | after a move, `indexOf` of Shift(q) in the moved marks equals `indexOf` of q in the old marks |
| `Marks.IsOverAppend` | src/main/java/a01a/sol2/LogicImpl.java:63-66 | appending a cell ends the game iff the game was already over or the cell is on an edge |
| `Engine.Hit` | src/main/java/a01a/sol2/LogicImpl.java:22-35 | the size never changes and a set latch stays set; a click that answers n appended the cell and n is the new count; a click that answers nothing left the marks alone or moved them all |
| `Engine.HitWhenOver` | src/main/java/a01a/sol2/LogicImpl.java:24-26 | once the game is over, a click answers nothing and changes nothing |
| `Engine.HitFarPlaces` | src/main/java/a01a/sol2/LogicImpl.java:32-34 | while placing, a click at distance ≥ 2 from every mark is appended and answered with the new count |
| `Engine.HitNearMoves` | src/main/java/a01a/sol2/LogicImpl.java:27-31 | a click within distance 1 of some mark (its own cell included) latches moving, moves every mark and answers nothing |
| `Engine.MovingIgnoresClick` | src/main/java/a01a/sol2/LogicImpl.java:27-30 | once moving, the result of a click does not depend on the clicked cell |
| `Engine.PlacedMarkIsFound` | src/main/java/a01a/sol2/LogicImpl.java:33-59 | after a placement answering n, `getMark` of the clicked cell answers n |
| `Engine.MoveKeepsNumbers` | src/main/java/a01a/sol2/LogicImpl.java:27-59 | a movement click keeps every mark's number: the mark that was on q is found on Shift(q) |
| `Engine.HitPreservesValid` | src/main/java/a01a/sol2/LogicImpl.java:27-51 | every click keeps the marks on distinct cells, and pairwise non-adjacent while placing |
| `Engine.RunPreservesValid` | src/main/java/a01a/sol2/LogicImpl.java:22-35 | the invariant above holds after any sequence of clicks |
| `Engine.SequentialNumbering` | src/main/java/a01a/sol2/LogicImpl.java:32-34 | while placing, clicks that are pairwise apart and apart from the marks, none but the last on an edge, are answered with consecutive numbers and appended in order |
| `Engine.LatchIsSticky` | src/main/java/a01a/sol2/LogicImpl.java:14-30 | once moving, the engine stays moving through any sequence of clicks, and every click answers nothing |
| `Engine.OverIsFinal` | src/main/java/a01a/sol2/LogicImpl.java:24-26 | once over, any sequence of clicks changes nothing and every click answers nothing |
| `Engine.ApplicationEnds` | src/test/java/a01a/sol2/LogicTest.java:31-40 | board 10: (9,9) is mark 1 and the game goes on; (9,8) moves it to (10,8), which ends the game; (0,0) then answers nothing |
| `Engine.PlacementAndRetrieval` | src/test/java/a01a/sol2/LogicTest.java:20-28 | board 10: no mark on (4,4) at first; after clicking it, `getMark` answers the same as the click |
| `Engine.CoveragePlacements` | src/test/java/a01a/sol2/LogicTest.java:44-51 | board 10: (7,7), (5,7), (7,9), (4,4) are numbered 1 to 4 |
| `Engine.CoverageFirstMove` | src/test/java/a01a/sol2/LogicTest.java:52-53 | then (3,5) moves all four marks, and mark 4 is on (5,3) |
| `Engine.CoverageSecondMove` | src/test/java/a01a/sol2/LogicTest.java:55-56 | then (4,4) moves them again, and mark 4 is on (6,2) |
| `Logic.LogicImpl.constructor` | src/main/java/a01a/sol2/LogicImpl.java:12-20 | a new engine has the given size, no marks and the latch clear |
| `Logic.LogicImpl.Hit` | src/main/java/a01a/sol2/LogicImpl.java:22-35 | the in-place click follows `Engine.Hit`: nothing when over; a move and latch when moving or adjacent; otherwise an append answered with the new count; the latch never clears and the invariant is kept |
| `Logic.LogicImpl.MoveMarks` | src/main/java/a01a/sol2/LogicImpl.java:46-52 | the marks are replaced by their shifted copies |
| `Logic.LogicImpl.GetMark` | src/main/java/a01a/sol2/LogicImpl.java:54-60 | read from the current marks: empty iff no mark is on the cell; otherwise the 1-based number of the first mark on it |
| `Logic.LogicImpl.IsOver` | src/main/java/a01a/sol2/LogicImpl.java:62-66 | read from the current marks: true iff some mark has x == size or y == −1; a function, so it changes no state |
| `Logic.ApplicationEnds` | src/test/java/a01a/sol2/LogicTest.java:31-40 | the same test driven through the object: answers 1, nothing, nothing, and the game ends |
| `Policies.AfterTwoFailing.constructor` | src/main/java/revisedDevices/AfterTwoFailing.java:3-4 | a new policy has `failed` false and `interactions` 0 |
| `Policies.AfterTwoFailing.AttemptOn` | src/main/java/revisedDevices/AfterTwoFailing.java:6-10 | the answer is `interactions < 2`; `failed` becomes the answer; `interactions` does not change; one call is logged |
| `Policies.AfterTwoFailing.Reset` | src/main/java/revisedDevices/AfterTwoFailing.java:12-16 | `failed` becomes false and `interactions` becomes 0 |
| `Policies.AfterTwoFailing.PolicyName` | src/main/java/revisedDevices/AfterTwoFailing.java:18-21 | the name is `After Two` |
| `Policies.RandomFailing.constructor` | src/main/java/revisedDevices/FailingPolicy.java:7 | a new policy has its latch clear |
| `Policies.RandomFailing.AttemptOn` | src/main/java/revisedDevices/RandomFailing.java:6-10 | the latch becomes `failed \|\| coin` and the answer is the latch's negation |
| `Policies.RandomFailing.Reset` | src/main/java/revisedDevices/RandomFailing.java:12-15 | the latch is cleared |
| `Policies.RandomFailing.PolicyName` | src/main/java/revisedDevices/RandomFailing.java:17-20 | the name is `random` |
| `Policies.ThreeRandomAttempts` | src/main/java/revisedDevices/RandomFailing.java:7-10 | one policy object driven through three coins answers exactly what `RandomAnswers` gives from a clear latch, tying the latch lemmas to the class |
| `Policies.RandomAnswers` | src/main/java/revisedDevices/RandomFailing.java:7-10 | successive attempts give one answer per coin |
| `Policies.RandomAnswersExactly` | src/main/java/revisedDevices/RandomFailing.java:8-9 | attempt i succeeds iff the latch started clear and none of coins 0..i failed |
| `Policies.StickyLatch` | src/main/java/revisedDevices/RandomFailing.java:8-9 | once the latch is set, every later attempt fails whatever the coins |
| `Policies.FailingPolicy.AttemptOn` | src/main/java/revisedDevices/FailingPolicy.java:9 | dispatches to the concrete policy: its answer, its new `failed` flag, an unchanged counter, one logged call |
| `Policies.FailingPolicy.PolicyName` | src/main/java/revisedDevices/FailingPolicy.java:11 | dispatches to the concrete policy: `After Two` exactly for an AfterTwoFailing, `random` exactly for a RandomFailing |
| `Policies.FailingPolicy.Reset` | src/main/java/revisedDevices/FailingPolicy.java:10 | dispatches to the concrete policy: latch cleared, counter zero, one logged call |
| `Devices.Describe` | src/main/java/revisedDevices/StandardDevice.java:33-38 | the text is the class name and `{policy=`, then the policy name at a fixed offset, then `, on=`, `true` or `false`, and `}` |
| `Devices.DescribeInjective` | src/main/java/revisedDevices/StandardDevice.java:33-38 | the `toString` text determines the policy name and the on/off state |
| `Devices.StandardDevice.constructor` | src/main/java/revisedDevices/Device.java:6-11 | a new device holds the given policy and is off |
| `Devices.StandardDevice.On` | src/main/java/revisedDevices/StandardDevice.java:8-14 | succeeds iff the policy agrees, and then the device is on; otherwise it throws IllegalStateException and keeps its state; exactly one `attemptOn` |
| `Devices.StandardDevice.Off` | src/main/java/revisedDevices/StandardDevice.java:16-19 | the device is off whatever its state |
| `Devices.StandardDevice.IsOn` | src/main/java/revisedDevices/StandardDevice.java:21-24 | the `on` flag; a function reading only the device, so the policy is not consulted |
| `Devices.StandardDevice.ToString` | src/main/java/revisedDevices/StandardDevice.java:32-38 | `Describe("StandardDevice", policy name, on)`, whose layout `Describe` gives and which `DescribeInjective` shows determines the name and the flag |
| `Devices.StandardDevice.Reset` | src/main/java/revisedDevices/StandardDevice.java:26-30 | the device is off and the policy has had exactly one reset |
| `Devices.BrokenDevice.constructor` | src/main/java/revisedDevices/BrokenDevice.java:4-6 | a new device holds the given policy and is off |
| `Devices.BrokenDevice.On` | src/main/java/revisedDevices/BrokenDevice.java:8-14 | succeeds iff the policy agrees, and still leaves the device off; otherwise it throws and keeps its state; exactly one `attemptOn` |
| `Devices.BrokenDevice.Off` | src/main/java/revisedDevices/BrokenDevice.java:16-19 | the device is off |
| `Devices.BrokenDevice.IsOn` | src/main/java/revisedDevices/BrokenDevice.java:21-24 | the `on` flag, read without consulting the policy |
| `Devices.BrokenDevice.ToString` | src/main/java/revisedDevices/BrokenDevice.java:32-38 | `Describe("BrokenDevice", policy name, on)`, laid out as `Describe` states and determining name and flag by `DescribeInjective` |
| `Devices.BrokenDevice.Reset` | src/main/java/revisedDevices/BrokenDevice.java:26-30 | the device is off and the policy has had exactly one reset |
| `Devices.AfterTwoSwitchesOnThrice` | src/test/java/revisedDevices/RevisedAfterTwoFailingTest.java:36-54 | with a fresh AfterTwoFailing, three `on` calls all succeed, and the policy logs three attempts |
| `Devices.AttemptThenReset` | src/test/java/revisedDevices/RevisedAfterTwoFailingTest.java:19-34 | `isOn` does not touch the policy; `on` then `reset` log exactly an attempt and a reset; the device prints `StandardDevice{policy=After Two, on=false}` |
| `Devices.StandardDeviceOnOrThrows` | src/test/java/revisedDevices/RevisedStandardDeviceTest.java:18-34 | when the policy agrees the device is on; when it refuses, `on` throws and the device prints `on=false` |
| `Devices.BrokenDeviceNeverOn` | src/main/java/revisedDevices/BrokenDevice.java:8-30 | whatever the policy answers, a BrokenDevice is off at creation and after each of `on`, `off`, `on`, `reset` |
| `Devices.BrokenDeviceStaysOff` | src/test/java/revisedDevices/RevisedBrokenDeviceTest.java:18-36 | when the policy agrees the broken device is still off; when it refuses, `on` throws and the device prints `on=false` |
| `DevicesGPT.FailingPolicyGPT.constructor` | src/main/java/GPTtests/StandardDeviceGPT.java:5 | a policy has a fixed name and no attempts yet |
| `DevicesGPT.FailingPolicyGPT.AttemptOn` | src/main/java/GPTtests/StandardDeviceGPT.java:19 | the policy answers the supplied verdict and counts one attempt |
| `DevicesGPT.FailingPolicyGPT.PolicyName` | src/main/java/GPTtests/StandardDeviceGPT.java:46 | the policy's fixed name |
| `DevicesGPT.StandardDeviceGPT.constructor` | src/main/java/GPTtests/StandardDeviceGPT.java:12-13 | a device built from a policy holds it and is off |
| `DevicesGPT.StandardDeviceGPT.Create` | src/main/java/GPTtests/StandardDeviceGPT.java:8-14 | a null policy fails with NullPointerException; otherwise the result is a new device that is off |
| `DevicesGPT.StandardDeviceGPT.On` | src/main/java/GPTtests/StandardDeviceGPT.java:16-24 | succeeds iff the policy agrees, and then the device is on; otherwise it throws IllegalStateException and keeps its state; exactly one attempt |
| `DevicesGPT.StandardDeviceGPT.Off` | src/main/java/GPTtests/StandardDeviceGPT.java:26-29 | the device is off |
| `DevicesGPT.StandardDeviceGPT.Reset` | src/main/java/GPTtests/StandardDeviceGPT.java:31-37 | exactly one attempt, whatever it answers, and then the device is off |
| `DevicesGPT.StandardDeviceGPT.IsOn` | src/main/java/GPTtests/StandardDeviceGPT.java:39-42 | the `on` flag, read without consulting the policy |
| `DevicesGPT.StandardDeviceGPT.ToString` | src/main/java/GPTtests/StandardDeviceGPT.java:44-47 | `Describe("StandardDevice", policy name, on)`, laid out as `Describe` states and determining name and flag by `DescribeInjective` |
| `DevicesGPT.CreateScenario` | src/main/java/GPTtests/StandardDeviceGPT.java:8-47 | a null policy is rejected; a device built on a policy starts off and prints `StandardDevice{policy=<name>, on=false}` |
| `DevicesGPT.OnThenReset` | src/main/java/GPTtests/StandardDeviceGPT.java:16-41 | after `on` the device is on iff the policy agreed; after `reset` it is off; the policy saw exactly two attempts |

## Left out

- Logging: the `Log.getLOGGER().log(...)` calls in `LogicImpl` only write to the log and change no state.
- The Swing front end (`GUI.java`) and its test: they only call `hit`, `getMark` and `isOver`.
- Marks.Shift: does not model Java's 32-bit wrap-around of `x + 1` and `y - 1` at the extremes of `int`, because the engine works on unbounded integers. The wrap of the subtractions `p1.x()-p2.x()` and `p1.y()-p2.y()` in `neighbours` is not modelled either: for x = `Integer.MAX_VALUE` and x = `Integer.MIN_VALUE` the wrapped difference is −1, so Java calls such cells neighbours while `Marks.Neighbours` does not. `Math.abs` overflow at `Integer.MIN_VALUE` is likewise not modelled.
- Board size: it is not validated, as in the source. Any integer is accepted.
- `Position` is not part of this model as a file. Its behaviour is taken from its uses: an immutable (x, y) pair compared by value.
- Randomness: `RandomFailing`'s `random.nextBoolean()` is the `coin` parameter of `attemptOn`. A device's `On(coin)` passes it through; an AfterTwoFailing policy ignores it.
- `RandomFailingGPT.java` is only a coin flip and a name. `FailingPolicyGPT` is not part of this model. Any implementation of it is represented by a policy whose answer is the caller-supplied verdict.
- Null checks: `Device`'s `Objects.requireNonNull` is covered by Dafny's non-null references, so a revised device cannot be built without a policy. The thrown `NullPointerException` is modelled only for `StandardDeviceGPT`.
- Mockito: spies, mocks and `verify`/`times` are not modelled. The ghost call logs record `attemptOn` and `reset`, but not `policyName`, which is a pure read here. Tests stubbing a mock's answer or name are covered by a RandomFailing policy with a chosen coin, and so print the name `random`.
- The tests under `GPTtests/written` and `GPTtests/improveComplete` exercise a `devices` package that is not part of this model.

# 2-bit branch predictor, modelled in Dafny

This project models the branch-prediction core of the `branchpredictor_2b` Pin tool.
The tool keeps, for each branch address (PC), a 2-bit saturating counter in `BPState`
and the last target seen in `TargetTable`. For every executed branch, `ProcessBranch`:

1. counts the branch;
2. asks `GetPrediction` for a predicted direction and target;
3. counts a direction miss and a target miss where the prediction disagrees with the outcome;
4. lets the predictor learn the outcome through `Update`.

Counter values 0 and 1 predict taken; 2 and 3 predict not taken. A taken branch moves
the counter towards 0, a not-taken branch towards 3, with clamping. A PC never seen
before is predicted taken with the target `(ADDRINT)-1`.

Two modules, one per component of the source file:

- `TwoBitPredictor` (`two_bit_predictor.dfy`) is the predictor store. `ADDRINT` is
  `Addr`, an integer in [0, 2^64). The unknown target is `-1 % 2^64`, i.e. `2^64 - 1`.
  The pure rules are functions: `StepCounter` (clamped step), `StateDirection` (the
  `GetState` cascade), `Predict` and `Learn`. They act on `Tables`, the contents of the
  two maps. The class `BranchPredictor` holds the two maps as `map` fields, and its
  methods mirror the C++ member functions. Each method is proved against those
  functions. `std::map::operator[]` supplies and inserts a 0 for a missing key, and the
  model keeps that: `UpdateState` and `GetState` read 0 for an absent PC, and
  `GetState` inserts it. `GetPrediction` is proved to change nothing whenever the two
  key sets agree, which every reachable state satisfies.
- `BranchProfiler` (`branch_profiler.dfy`) is the per-event driver. The class
  `Profiler` gathers the globals `myBPU`, `DirectionMissCount`, `TargetMissCount` and
  `BranchCount`. It also keeps a ghost `trace` of the events processed so far. Its
  invariant says that the whole state equals `Run(trace)`, the pure replay of the
  trace from start-up. Lemmas about `Run` give the properties over whole runs:
  - the counts;
  - the key sets and the table size;
  - last target wins;
  - per-PC counter history and saturation;
  - the first event at a PC.

The sentinel stands for "no target known", but `(ADDRINT)-1` is also a valid
address, so a real target can equal it. The model keeps this literal reading: a
first-seen branch whose target is `2^64 - 1` records no target miss
(`FirstEventMisses`). The branch events `(PC, targetPC, BrTaken)` are inputs; how the
instrumentation finds them is outside the model.

## Model

| member | source | states |
|---|---|---|
| `TwoBitPredictor.StepCounter` | branch_predictor/branchpredictor_2b.cpp:24-34 | the result is always in [0, 3]; for a counter in range a taken branch gives max(c-1, 0) and a not-taken one min(c+1, 3); the counter stays put exactly when pushed against its rail |
| `TwoBitPredictor.StateDirection` | branch_predictor/branchpredictor_2b.cpp:36-46 | for a counter in [0, 3] the direction is taken iff the counter is 0 or 1, and not taken iff it is 2 or 3; an out-of-range value falls through to taken |
| `TwoBitPredictor.Predict` | branch_predictor/branchpredictor_2b.cpp:50-64 | a PC missing from the target table is predicted taken with target 2^64-1; a known PC gets its stored target, and in a well-formed state the direction is taken iff its counter is at most 1 |
| `TwoBitPredictor.Learn` | branch_predictor/branchpredictor_2b.cpp:66-78 | the tables after `Update`: the PC's counter (0 if new) is stepped and its target overwritten; it has no contract of its own, and its facts are `LearnEntries`, `LearnGrowth`, `LearnWellFormed` and `LearnKeepsOtherPredictions` |
| `TwoBitPredictor.LearnEntries` | branch_predictor/branchpredictor_2b.cpp:66-78 | after an update the PC holds the new target and the clamped step of its old counter (0 if new); all other entries of both maps are unchanged; the next prediction for the PC names the new target |
| `TwoBitPredictor.LearnGrowth` | branch_predictor/branchpredictor_2b.cpp:71-77 | an update adds the PC to both key sets, so the target table grows by exactly 1 for a new PC and by 0 otherwise |
| `TwoBitPredictor.LearnWellFormed` | branch_predictor/branchpredictor_2b.cpp:66-78 | an update keeps the two key sets equal and every counter in [0, 3] |
| `TwoBitPredictor.LearnKeepsOtherPredictions` | branch_predictor/branchpredictor_2b.cpp:66-78 | updating one PC leaves the prediction for every other PC unchanged |
| `TwoBitPredictor.CInt` | branch_predictor/branchpredictor_2b.cpp:80-82 | converting a size to a 32-bit `int` keeps it modulo 2^32 in [-2^31, 2^31), and leaves any size below 2^31 unchanged |
| `TwoBitPredictor.BranchPredictor.constructor` | branch_predictor/branchpredictor_2b.cpp:21-22 | both maps start empty, and the empty state is well formed |
| `TwoBitPredictor.BranchPredictor.UpdateState` | branch_predictor/branchpredictor_2b.cpp:24-34 | only the PC's counter changes, and it becomes the clamped step of its old value (0 if absent); the target table is untouched |
| `TwoBitPredictor.BranchPredictor.GetState` | branch_predictor/branchpredictor_2b.cpp:36-46 | returns the direction of the PC's counter, reading 0 for an absent PC and inserting that 0; nothing else changes |
| `TwoBitPredictor.BranchPredictor.GetPrediction` | branch_predictor/branchpredictor_2b.cpp:50-64 | returns `Predict` of the state before the call; the target table never changes, and when the key sets agree the counter map does not change either |
| `TwoBitPredictor.BranchPredictor.Update` | branch_predictor/branchpredictor_2b.cpp:66-78 | the new maps are `Learn` of the old ones: a new PC's counter starts at 0 and is stepped, then the target is overwritten; well-formedness is preserved |
| `TwoBitPredictor.BranchPredictor.GetSizeOfBP` | branch_predictor/branchpredictor_2b.cpp:80-82 | returns the number of target-table entries converted to `int`, which is the exact count below 2^31 |
| `BranchProfiler.Tally` | branch_predictor/branchpredictor_2b.cpp:94-101 | one call adds exactly 1 to the branch count and 0 or 1 to each miss count; the direction (target) miss count goes up iff the predicted direction (target) differs from the actual one |
| `BranchProfiler.Process` | branch_predictor/branchpredictor_2b.cpp:91-103 | one `ProcessBranch` call on a snapshot: the prediction comes from the tables before the update, `Tally` counts against it, and `Learn` gives the new tables; it has no contract of its own, and what it keeps is stated by `Tally`, `StepKeepsCounts` and `Profiler.ProcessBranch` |
| `BranchProfiler.Run` | branch_predictor/branchpredictor_2b.cpp:85-103 | the start-up state (empty predictor, zero counters) followed by one `ProcessBranch` per event in order; it has no contract of its own, and its properties are `RunCounts`, `RunTables`, `LastTargetWins` and `CounterIsPerPcReplay` |
| `BranchProfiler.StepKeepsCounts` | branch_predictor/branchpredictor_2b.cpp:91-103 | one more event is one more `Process` step; after it the branch count is the number of events, neither miss count exceeds it, and the tables stay well formed |
| `BranchProfiler.RunCounts` | branch_predictor/branchpredictor_2b.cpp:87-103 | after any sequence of events `BranchCount` equals the number of events, and `DirectionMissCount` and `TargetMissCount` are both at most `BranchCount` |
| `BranchProfiler.RunTables` | branch_predictor/branchpredictor_2b.cpp:71-82 | after any sequence of events both maps have as keys exactly the PCs seen, every counter is in [0, 3], and the table size is the number of distinct PCs seen |
| `BranchProfiler.LastTargetWins` | branch_predictor/branchpredictor_2b.cpp:60-77 | the predicted target of a PC is the target of the last event at that PC |
| `BranchProfiler.CounterIsPerPcReplay` | branch_predictor/branchpredictor_2b.cpp:71-76 | a PC's counter is the clamped replay, from 0, of that PC's own outcomes in order; other PCs' events never affect it |
| `BranchProfiler.PredictedDirection` | branch_predictor/branchpredictor_2b.cpp:36-61 | for a PC already seen, the predicted direction is taken iff its replayed counter is 0 or 1 |
| `BranchProfiler.ReplayUniform` | branch_predictor/branchpredictor_2b.cpp:24-34 | n equal outcomes move a counter in range n steps towards 0 (taken) or 3 (not taken), stopping at the rail |
| `BranchProfiler.Saturation` | branch_predictor/branchpredictor_2b.cpp:24-34 | three or more taken outcomes drive a counter to 0, and three or more not-taken ones drive it to 3; more of the same keep it there |
| `BranchProfiler.FirstEventMisses` | branch_predictor/branchpredictor_2b.cpp:91-103 | on the first event at a PC, a direction miss is counted iff the branch is not taken, and a target miss iff its target is not 2^64-1 |
| `BranchProfiler.ScenarioFirstBranch` | branch_predictor/branchpredictor_2b.cpp:91-103 | a fresh predictor predicts (taken, 2^64-1) for a taken branch 0x100 -> 0x200, which leaves counts (0 direction, 1 target, 1 branch) |
| `BranchProfiler.ScenarioRepeatedBranch` | branch_predictor/branchpredictor_2b.cpp:91-103 | the second identical taken branch is predicted (taken, 0x200) and adds no miss |
| `BranchProfiler.ScenarioHysteresis` | branch_predictor/branchpredictor_2b.cpp:24-46 | four taken outcomes leave the counter at 0; one not-taken outcome lifts it to 1, which still predicts taken; two more reach 3, which predicts not taken |
| `BranchProfiler.ScenarioHysteresisPredictions` | branch_predictor/branchpredictor_2b.cpp:50-103 | for one branch 0x100 -> 0x200, the predictor predicts taken after four taken executions and after one more not-taken one, and not taken after two further not-taken ones |
| `BranchProfiler.Profiler.constructor` | branch_predictor/branchpredictor_2b.cpp:85-89 | the predictor starts empty, all three counters start at 0, and the state is the replay of the empty trace |
| `BranchProfiler.Profiler.ProcessBranch` | branch_predictor/branchpredictor_2b.cpp:91-103 | the new state is `Process` of the old one; the event is appended to the trace; `BranchCount` grows by exactly 1 and equals the number of events; each miss count grows by 0 or 1 and stays at most `BranchCount`; the predictor stays well formed |

## Left out

- Pin instrumentation glue (`Instruction`, `INS_InsertCall`, `main`, `PIN_Init`, `PIN_StartProgram`, `KnobOutputFile`): these are calls into the instrumentation framework. The model takes the `(PC, targetPC, BrTaken)` events as given inputs, so it does not model which instructions count as branches or that `targetPC` is the static direct target.
- `Fini`: it writes the report to a file and computes the miss rates with `float` division, which has no defined value when `BranchCount` is 0. The counts it would report are the `Profiler` fields.
- The commented-out "Target Changed" check and the commented-out trace output: neither is compiled.
- `BranchProfiler.Profiler.ProcessBranch`: the three counters are unbounded `nat`s. The `long long` overflow after 2^63 - 1 events is undefined behaviour in C++, and it is not modelled.
- `TwoBitPredictor.BranchPredictor.GetPrediction`: the `TargetTable[PC]` read in its known-PC branch is modelled as a plain lookup. The key is present there, so `operator[]` inserts nothing.
- Memory exhaustion in the maps: `std::map` insertion failing is not modelled.

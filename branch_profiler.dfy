/**
  The per-event driver of the branch predictor: for each executed branch it takes the
  prediction, counts the direction and target misses against the actual outcome and
  then lets the predictor learn. The global counters and the predictor are gathered in
  one `Profiler` object; the branch events arrive as a sequence supplied from outside.
 */
module BranchProfiler {
  import opened TwoBitPredictor

  /** One dynamic branch execution: its address, its target and whether it was taken. */
  datatype Event = Event(pc: Addr, targetPC: Addr, brTaken: bool)

  /** The global counters `DirectionMissCount`, `TargetMissCount` and `BranchCount`. */
  datatype Stats = Stats(directionMissCount: nat, targetMissCount: nat, branchCount: nat)

  /** Everything the driver keeps: the predictor's tables and the counters. */
  datatype Snapshot = Snapshot(tables: Tables, stats: Stats)

  /** The state at start-up: empty tables, zero counters. */
  const INITIAL: Snapshot := Snapshot(EMPTY, Stats(0, 0, 0))

  /**
    The counter updates of one `ProcessBranch` call for prediction `pred` and event `e`:
    one more branch, and one more direction (target) miss exactly when the predicted
    direction (target) disagrees with the actual one.
   */
  function Tally(st: Stats, pred: BPInfo, e: Event): (st': Stats)
    ensures st'.branchCount == st.branchCount + 1
    ensures st'.directionMissCount in {st.directionMissCount, st.directionMissCount + 1}
    ensures st'.directionMissCount == st.directionMissCount + 1 <==> pred.taken != e.brTaken
    ensures st'.targetMissCount in {st.targetMissCount, st.targetMissCount + 1}
    ensures st'.targetMissCount == st.targetMissCount + 1 <==> pred.predTarget != e.targetPC
  {
    Stats(
      st.directionMissCount + (if pred.taken != e.brTaken then 1 else 0),
      st.targetMissCount + (if pred.predTarget != e.targetPC then 1 else 0),
      st.branchCount + 1)
  }

  /**
    One `ProcessBranch` call: the prediction is taken from the tables before they
    learn the outcome.
   */
  function Process(s: Snapshot, e: Event): Snapshot
  {
    Snapshot(Learn(s.tables, e.pc, e.brTaken, e.targetPC), Tally(s.stats, Predict(s.tables, e.pc), e))
  }

  /** The state after processing `es` in order from start-up. */
  function Run(es: seq<Event>): Snapshot
  {
    if es == [] then INITIAL else Process(Run(es[..|es| - 1]), es[|es| - 1])
  }

  /**
    One more event: the state reached is one `Process` step further, the branch count
    is the number of events, neither miss count can pass it, and the tables stay well
    formed.
   */
  lemma StepKeepsCounts(es: seq<Event>, e: Event)
    ensures Run(es + [e]) == Process(Run(es), e)
    ensures Run(es + [e]).stats.branchCount == |es| + 1
    ensures Run(es + [e]).stats.directionMissCount <= |es| + 1
    ensures Run(es + [e]).stats.targetMissCount <= |es| + 1
    ensures WellFormed(Run(es + [e]).tables)
  {
    RunCounts(es + [e]);
    RunTables(es + [e]);
  }

  /** The set of branch addresses occurring in `es`. */
  function Pcs(es: seq<Event>): set<Addr>
  {
    if es == [] then {} else Pcs(es[..|es| - 1]) + {es[|es| - 1].pc}
  }

  /** The outcomes of the events of `es` at address `pc`, in order. */
  function Directions(es: seq<Event>, pc: Addr): seq<bool>
  {
    if es == [] then []
    else Directions(es[..|es| - 1], pc) + (if es[|es| - 1].pc == pc then [es[|es| - 1].brTaken] else [])
  }

  /** A counter started at `c` and stepped by each outcome of `dirs` in turn. */
  function Replay(c: int, dirs: seq<bool>): int
  {
    if dirs == [] then c else StepCounter(Replay(c, dirs[..|dirs| - 1]), dirs[|dirs| - 1])
  }

  /** The branch counter counts the events, and neither miss counter can pass it. */
  lemma {:induction false} RunCounts(es: seq<Event>)
    ensures Run(es).stats.branchCount == |es|
    ensures Run(es).stats.directionMissCount <= Run(es).stats.branchCount
    ensures Run(es).stats.targetMissCount <= Run(es).stats.branchCount
  {
    if es != [] {
      RunCounts(es[..|es| - 1]);
    }
  }

  /**
    The tables stay well formed (equal key sets, counters in [0, 3]); their keys are
    exactly the addresses seen, so the table size is the number of distinct PCs.
   */
  lemma {:induction false} RunTables(es: seq<Event>)
    ensures WellFormed(Run(es).tables)
    ensures Run(es).tables.targetTable.Keys == Pcs(es)
    ensures |Run(es).tables.targetTable| == |Pcs(es)|
  {
    if es != [] {
      var prefix, e := es[..|es| - 1], es[|es| - 1];
      RunTables(prefix);
      LearnGrowth(Run(prefix).tables, e.pc, e.brTaken, e.targetPC);
      LearnWellFormed(Run(prefix).tables, e.pc, e.brTaken, e.targetPC);
    }
  }

  /** The predicted target of a PC is the target of the last event at that PC. */
  lemma {:induction false} LastTargetWins(es: seq<Event>, i: nat)
    requires i < |es|
    requires forall j :: i < j < |es| ==> es[j].pc != es[i].pc
    ensures Predict(Run(es).tables, es[i].pc).predTarget == es[i].targetPC
  {
    if i < |es| - 1 {
      var prefix := es[..|es| - 1];
      assert prefix[i] == es[i];
      forall j | i < j < |prefix|
        ensures prefix[j].pc != prefix[i].pc
      {
        assert prefix[j] == es[j];
      }
      LastTargetWins(prefix, i);
    }
  }

  /** A PC's counter depends only on that PC's own outcomes, replayed from 0. */
  lemma {:induction false} CounterIsPerPcReplay(es: seq<Event>, pc: Addr)
    ensures CounterOr0(Run(es).tables.bpState, pc) == Replay(0, Directions(es, pc))
  {
    if es != [] {
      var prefix, e := es[..|es| - 1], es[|es| - 1];
      CounterIsPerPcReplay(prefix, pc);
      var dirs := Directions(prefix, pc);
      if e.pc == pc {
        assert (dirs + [e.brTaken])[..|dirs|] == dirs;
      } else {
        assert Directions(es, pc) == dirs;
      }
    }
  }

  /** The direction predicted for a seen PC follows its replayed counter: taken iff 0 or 1. */
  lemma PredictedDirection(es: seq<Event>, pc: Addr)
    requires pc in Pcs(es)
    ensures Predict(Run(es).tables, pc).taken <==> Replay(0, Directions(es, pc)) <= 1
  {
    RunTables(es);
    CounterIsPerPcReplay(es, pc);
  }

  /** Repeating one outcome moves an in-range counter that many steps, up to the rail. */
  lemma {:induction false} ReplayUniform(c: int, dirs: seq<bool>, brTaken: bool)
    requires 0 <= c <= COUNTER_MAX
    requires forall i :: 0 <= i < |dirs| ==> dirs[i] == brTaken
    ensures brTaken ==> Replay(c, dirs) == (if c - |dirs| < 0 then 0 else c - |dirs|)
    ensures !brTaken ==> Replay(c, dirs) == (if c + |dirs| > COUNTER_MAX then COUNTER_MAX else c + |dirs|)
  {
    if dirs != [] {
      var prefix := dirs[..|dirs| - 1];
      forall i | 0 <= i < |prefix|
        ensures prefix[i] == brTaken
      {
        assert prefix[i] == dirs[i];
      }
      ReplayUniform(c, prefix, brTaken);
    }
  }

  /**
    Saturation: three or more equal outcomes drive an in-range counter to 0 (taken) or
    3 (not taken), and further equal outcomes keep it there.
   */
  lemma Saturation(c: int, dirs: seq<bool>, brTaken: bool)
    requires 0 <= c <= COUNTER_MAX
    requires |dirs| >= COUNTER_MAX
    requires forall i :: 0 <= i < |dirs| ==> dirs[i] == brTaken
    ensures Replay(c, dirs) == (if brTaken then 0 else COUNTER_MAX)
  {
    ReplayUniform(c, dirs, brTaken);
  }

  /**
    The first event at a PC is predicted taken with the unknown target: it is a
    direction miss iff not taken, and a target miss iff its target is not 2^64 - 1.
   */
  lemma FirstEventMisses(es: seq<Event>, e: Event)
    requires e.pc !in Pcs(es)
    ensures var before, after := Run(es).stats, Run(es + [e]).stats;
      && (after.directionMissCount == before.directionMissCount + 1 <==> !e.brTaken)
      && (after.targetMissCount == before.targetMissCount + 1 <==> e.targetPC != UNKNOWN_TARGET)
  {
  }

  /** A fresh predictor, one taken branch 0x100 -> 0x200: one target miss, no direction miss. */
  lemma ScenarioFirstBranch()
    ensures var e := Event(0x100, 0x200, true);
      && Predict(Run([]).tables, e.pc) == BPInfo(true, UNKNOWN_TARGET)
      && Run([e]).stats == Stats(0, 1, 1)
  {
  }

  /** The same taken branch twice: the second is predicted (taken, 0x200) and misses nothing. */
  lemma ScenarioRepeatedBranch()
    ensures var e := Event(0x100, 0x200, true);
      && Predict(Run([e]).tables, e.pc) == BPInfo(true, 0x200)
      && Run([e, e]).stats == Stats(0, 1, 2)
  {
  }

  /**
    Four taken outcomes leave the counter at 0; one not-taken outcome lifts it to 1,
    still predicting taken; two more reach 3 and the prediction flips to not taken.
   */
  lemma ScenarioHysteresis()
    ensures Replay(0, [true, true, true, true]) == 0
    ensures Replay(0, [true, true, true, true, false]) == 1
    ensures StateDirection(Replay(0, [true, true, true, true, false]))
    ensures Replay(0, [true, true, true, true, false, false, false]) == COUNTER_MAX
    ensures !StateDirection(Replay(0, [true, true, true, true, false, false, false]))
  {
    var taken4 := [true, true, true, true];
    ReplayUniform(0, taken4, true);
    assert (taken4 + [false])[..4] == taken4;
    assert [true, true, true, true, false] == taken4 + [false];
    var s6 := [true, true, true, true, false, false];
    assert s6[..5] == taken4 + [false];
    var s7 := [true, true, true, true, false, false, false];
    assert s7[..6] == s6;
  }

  /**
    The same hysteresis seen through the predictor: for one branch 0x100 -> 0x200, four
    taken executions and then one not-taken still predict taken; two more not-taken
    executions flip the prediction to not taken.
   */
  lemma ScenarioHysteresisPredictions()
    ensures var t, f := Event(0x100, 0x200, true), Event(0x100, 0x200, false);
      && Predict(Run([t, t, t, t]).tables, 0x100).taken
      && Predict(Run([t, t, t, t, f]).tables, 0x100).taken
      && !Predict(Run([t, t, t, t, f, f, f]).tables, 0x100).taken
  {
    var t, f := Event(0x100, 0x200, true), Event(0x100, 0x200, false);
    var es4 := [t, t, t, t];
    var es5 := es4 + [f];
    var es6 := es5 + [f];
    var es7 := es6 + [f];
    assert [t, t, t, t, f] == es5;
    assert [t, t, t, t, f, f, f] == es7;
    assert es4[..3] == [t, t, t];
    assert [t, t, t][..2] == [t, t];
    assert [t, t][..1] == [t];
    assert [t][..0] == [];
    assert es5[..4] == es4;
    assert es6[..5] == es5;
    assert es7[..6] == es6;
    assert Directions([t], 0x100) == [true];
    assert Directions([t, t], 0x100) == [true, true];
    assert Directions([t, t, t], 0x100) == [true, true, true];
    assert Directions(es4, 0x100) == [true, true, true, true];
    assert Directions(es5, 0x100) == [true, true, true, true, false];
    assert Directions(es7, 0x100) == [true, true, true, true, false, false, false];
    assert 0x100 in Pcs(es4) && 0x100 in Pcs(es5) && 0x100 in Pcs(es7);
    ScenarioHysteresis();
    PredictedDirection(es4, 0x100);
    PredictedDirection(es5, 0x100);
    PredictedDirection(es7, 0x100);
  }

  /** The pintool's global state: the predictor `myBPU` and the three counters. */
  class Profiler {
    const bpu: BranchPredictor
    var directionMissCount: nat
    var targetMissCount: nat
    var branchCount: nat
    /** The events processed so far. */
    ghost var trace: seq<Event>

    ghost function Current(): Snapshot
      reads this, bpu
    {
      Snapshot(bpu.State(), Stats(directionMissCount, targetMissCount, branchCount))
    }

    /** The state is exactly that of replaying the trace from start-up. */
    ghost predicate Valid()
      reads this, bpu
    {
      Current() == Run(trace)
    }

    constructor ()
      ensures Valid() && trace == [] && fresh(bpu)
    {
      bpu := new BranchPredictor();
      directionMissCount, targetMissCount, branchCount := 0, 0, 0;
      trace := [];
    }

    /** Handles one executed branch. */
    method ProcessBranch(pc: Addr, targetPC: Addr, brTaken: bool)
      requires Valid()
      modifies this, bpu
      ensures Valid()
      ensures trace == old(trace) + [Event(pc, targetPC, brTaken)]
      ensures Current() == Process(old(Current()), Event(pc, targetPC, brTaken))
      ensures branchCount == old(branchCount) + 1 == |trace|
      ensures old(directionMissCount) <= directionMissCount <= old(directionMissCount) + 1
      ensures old(targetMissCount) <= targetMissCount <= old(targetMissCount) + 1
      ensures directionMissCount <= branchCount && targetMissCount <= branchCount
      ensures bpu.Valid()
    {
      ghost var e := Event(pc, targetPC, brTaken);
      ghost var past := trace;
      ghost var before := Current();
      ghost var after := Process(before, e);
      trace := past + [e];
      assert WellFormed(before.tables) by {
        RunTables(past);
      }
      branchCount := branchCount + 1;
      var pred := bpu.GetPrediction(pc);
      assert pred == Predict(before.tables, pc);
      if pred.taken != brTaken {
        directionMissCount := directionMissCount + 1;
      }
      if pred.predTarget != targetPC {
        targetMissCount := targetMissCount + 1;
      }
      assert directionMissCount == after.stats.directionMissCount;
      assert targetMissCount == after.stats.targetMissCount;
      bpu.Update(pc, brTaken, targetPC);
      assert bpu.State() == after.tables;
      assert branchCount == after.stats.branchCount;
      assert Current() == after;
      StepKeepsCounts(past, e);
    }
  }
}

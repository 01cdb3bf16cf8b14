/**
  The predictor state store of the 2-bit branch predictor: per branch address (PC) a
  saturating direction counter in [0, 3] and the last target seen, plus the
  prediction and update rules over them.
 */
module TwoBitPredictor {

  /** `ADDRINT`, the instrumentation framework's unsigned 64-bit address type. */
  const ADDR_MODULUS: int := 0x1_0000_0000_0000_0000
  type Addr = x: int | 0 <= x < ADDR_MODULUS

  /** The "no target known" prediction: `-1` converted to `ADDRINT`, i.e. 2^64 - 1. */
  const UNKNOWN_TARGET: Addr := -1 % ADDR_MODULUS

  /** Largest value of a 2-bit counter. */
  const COUNTER_MAX: int := 3

  /** `BP_Info`: a predicted direction and a predicted target. */
  datatype BPInfo = BPInfo(taken: bool, predTarget: Addr)

  /** The counter value `BPState[PC]` reads: the stored one, or the 0 that `operator[]` supplies. */
  function CounterOr0(bpState: map<Addr, int>, pc: Addr): int
  {
    if pc in bpState then bpState[pc] else 0
  }

  /**
    The counter update of `UpdateState`: a taken branch moves the counter one step
    towards 0, a not-taken branch one step towards 3, and the result is clamped.
   */
  function StepCounter(c: int, brTaken: bool): (r: int)
    ensures 0 <= r <= COUNTER_MAX
    ensures 0 <= c <= COUNTER_MAX && brTaken ==> r == (if c == 0 then 0 else c - 1)
    ensures 0 <= c <= COUNTER_MAX && !brTaken ==> r == (if c == COUNTER_MAX then COUNTER_MAX else c + 1)
    // a counter in range stays put exactly at the rail it is pushed against
    ensures 0 <= c <= COUNTER_MAX ==> (r == c <==> (brTaken && c == 0) || (!brTaken && c == COUNTER_MAX))
  {
    var moved := if brTaken then c - 1 else c + 1;
    if moved > COUNTER_MAX then COUNTER_MAX else if moved < 0 then 0 else moved
  }

  /**
    The direction `GetState` derives from a counter value: states 0 and 1 predict
    taken, 2 and 3 predict not taken, and any other value falls through to taken.
   */
  function StateDirection(c: int): (taken: bool)
    ensures 0 <= c <= COUNTER_MAX ==> (taken <==> c <= 1)
    ensures 0 <= c <= COUNTER_MAX ==> (!taken <==> 2 <= c)
    ensures !(0 <= c <= COUNTER_MAX) ==> taken
  {
    if c == 0 then true
    else if c == 1 then true
    else if c == 2 then false
    else if c == 3 then false
    else true
  }

  /** The contents of the two address-keyed maps `TargetTable` and `BPState`. */
  datatype Tables = Tables(targetTable: map<Addr, Addr>, bpState: map<Addr, int>)

  /** The empty predictor. */
  const EMPTY: Tables := Tables(map[], map[])

  /** Both maps have the same keys and every counter is a 2-bit value. */
  predicate WellFormed(t: Tables)
  {
    && t.targetTable.Keys == t.bpState.Keys
    && forall pc :: pc in t.bpState ==> 0 <= t.bpState[pc] <= COUNTER_MAX
  }

  /** What `GetPrediction(PC)` returns for the tables `t`. */
  function Predict(t: Tables, pc: Addr): (p: BPInfo)
    ensures pc !in t.targetTable ==> p.taken && p.predTarget == UNKNOWN_TARGET
    ensures pc in t.targetTable ==> p.predTarget == t.targetTable[pc]
    ensures WellFormed(t) && pc in t.targetTable ==> (p.taken <==> t.bpState[pc] <= 1)
  {
    if pc !in t.targetTable then BPInfo(true, UNKNOWN_TARGET)
    else BPInfo(StateDirection(CounterOr0(t.bpState, pc)), t.targetTable[pc])
  }

  /** The tables after `Update(PC, BrTaken, targetPC)`. */
  function Learn(t: Tables, pc: Addr, brTaken: bool, targetPC: Addr): Tables
  {
    Tables(t.targetTable[pc := targetPC], t.bpState[pc := StepCounter(CounterOr0(t.bpState, pc), brTaken)])
  }

  /**
    `Update` gives the PC the stepped counter and the new target, so the next
    prediction for it names that target, and leaves every other entry as it was.
   */
  lemma LearnEntries(t: Tables, pc: Addr, brTaken: bool, targetPC: Addr)
    ensures Learn(t, pc, brTaken, targetPC).targetTable[pc] == targetPC
    ensures Learn(t, pc, brTaken, targetPC).bpState[pc] == StepCounter(CounterOr0(t.bpState, pc), brTaken)
    ensures Learn(t, pc, brTaken, targetPC).targetTable - {pc} == t.targetTable - {pc}
    ensures Learn(t, pc, brTaken, targetPC).bpState - {pc} == t.bpState - {pc}
    ensures Predict(Learn(t, pc, brTaken, targetPC), pc).predTarget == targetPC
  {
  }

  /** `Update` adds the PC to both key sets, so the table grows by one exactly on a new PC. */
  lemma LearnGrowth(t: Tables, pc: Addr, brTaken: bool, targetPC: Addr)
    ensures Learn(t, pc, brTaken, targetPC).targetTable.Keys == t.targetTable.Keys + {pc}
    ensures Learn(t, pc, brTaken, targetPC).bpState.Keys == t.bpState.Keys + {pc}
    ensures |Learn(t, pc, brTaken, targetPC).targetTable| == |t.targetTable| + (if pc in t.targetTable then 0 else 1)
  {
  }

  /** `Update` keeps the key sets equal and every counter a 2-bit value. */
  lemma LearnWellFormed(t: Tables, pc: Addr, brTaken: bool, targetPC: Addr)
    requires WellFormed(t)
    ensures WellFormed(Learn(t, pc, brTaken, targetPC))
  {
  }

  /** Learning an outcome for one PC leaves every other PC's prediction as it was. */
  lemma LearnKeepsOtherPredictions(t: Tables, pc: Addr, brTaken: bool, targetPC: Addr, q: Addr)
    requires q != pc
    ensures Predict(Learn(t, pc, brTaken, targetPC), q) == Predict(t, q)
  {
  }

  /**
    The value of converting a table size to a 32-bit `int`, as `GetSizeOfBP`'s return
    does: the size modulo 2^32, read as two's complement.
   */
  function CInt(n: nat): (r: int)
    ensures -0x8000_0000 <= r < 0x8000_0000
    ensures (n - r) % 0x1_0000_0000 == 0
    ensures n < 0x8000_0000 ==> r == n
  {
    var low := n % 0x1_0000_0000;
    if low < 0x8000_0000 then low else low - 0x1_0000_0000
  }

  /** The predictor object `myBPU`, whose two maps its methods update in place. */
  class BranchPredictor {
    var targetTable: map<Addr, Addr>
    var bpState: map<Addr, int>

    function State(): Tables
      reads this
    {
      Tables(targetTable, bpState)
    }

    ghost predicate Valid()
      reads this
    {
      WellFormed(State())
    }

    constructor ()
      ensures State() == EMPTY && Valid()
    {
      targetTable := map[];
      bpState := map[];
    }

    /** Steps the counter of `pc`; an absent counter is read as 0 and so gets created. */
    method UpdateState(brTaken: bool, pc: Addr)
      modifies this
      ensures targetTable == old(targetTable)
      ensures bpState == old(bpState)[pc := StepCounter(CounterOr0(old(bpState), pc), brTaken)]
    {
      var c := CounterOr0(bpState, pc);
      if brTaken {
        c := c - 1;
      }
      if !brTaken {
        c := c + 1;
      }
      if c > COUNTER_MAX {
        c := COUNTER_MAX;
      }
      if c < 0 {
        c := 0;
      }
      bpState := bpState[pc := c];
    }

    /** The direction for `pc`'s counter; reading an absent counter inserts a 0 for it. */
    method GetState(pc: Addr) returns (taken: bool)
      modifies this
      ensures taken == StateDirection(CounterOr0(old(bpState), pc))
      ensures targetTable == old(targetTable)
      ensures bpState == old(bpState)[pc := CounterOr0(old(bpState), pc)]
    {
      if pc !in bpState {
        bpState := bpState[pc := 0];
      }
      var c := bpState[pc];
      if c == 0 {
        return true;
      }
      if c == 1 {
        return true;
      }
      if c == 2 {
        return false;
      }
      if c == 3 {
        return false;
      }
      return true;
    }

    /**
      The prediction for `pc`. Its map reads touch only keys already present when the two
      key sets agree, so then nothing changes.
     */
    method GetPrediction(pc: Addr) returns (info: BPInfo)
      modifies this
      ensures info == Predict(old(State()), pc)
      ensures targetTable == old(targetTable)
      ensures bpState == if pc in old(targetTable) then old(bpState)[pc := CounterOr0(old(bpState), pc)] else old(bpState)
      ensures old(targetTable.Keys == bpState.Keys) ==> bpState == old(bpState)
    {
      if pc !in targetTable {
        info := BPInfo(true, UNKNOWN_TARGET);
      } else {
        var taken := GetState(pc);
        info := BPInfo(taken, targetTable[pc]);
      }
    }

    /** Learns one outcome: create a 0 counter for a new PC, step it, overwrite the target. */
    method Update(pc: Addr, brTaken: bool, targetPC: Addr)
      modifies this
      ensures State() == Learn(old(State()), pc, brTaken, targetPC)
      ensures old(Valid()) ==> Valid()
    {
      if pc !in bpState {
        bpState := bpState[pc := 0];
      }
      UpdateState(brTaken, pc);
      targetTable := targetTable[pc := targetPC];
      if old(Valid()) {
        LearnWellFormed(old(State()), pc, brTaken, targetPC);
      }
    }

    /** The number of PCs in the target table, as a 32-bit `int`. */
    method GetSizeOfBP() returns (size: int)
      ensures size == CInt(|targetTable|)
      ensures |targetTable| < 0x8000_0000 ==> size == |targetTable|
    {
      size := CInt(|targetTable|);
    }
  }
}

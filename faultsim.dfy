/**
 * `FaultSimulator` of the int-keyed back end: single stuck-at fault injection and
 * serial fault simulation over a list of test vectors.
 *
 * The fault-free run is `simulate` of the generic `Simulation` at `int` ids, with
 * the int-keyed `Gate.evaluate`; the faulty run copies the vector, pins the fault
 * node to its stuck-at value unless the node is a primary input, and evaluates along
 * a level order only the gates whose output has no value yet.
 */
module FaultSim {

  import opened Wrappers
  import opened Bits
  import opened Simulation
  import opened SimulationOrder
  import opened IntGate
  import opened IntCircuit

  /** A single stuck-at fault: the node and the value it is stuck at. */
  datatype Fault<Id> = Fault(node: Id, stuckAtValue: Word)

  /** The faulty evaluation loop: a driven node is evaluated only when it has no value yet. */
  function PropagateUnset<Id(==)>(eval: Evaluator<Id>, table: Table<Id>, order: seq<Id>, values: map<Id, Word>)
    : Result<map<Id, Word>, Exception<Id>>
  {
    if order == [] then Ok(values)
    else
      var node := order[|order| - 1];
      match PropagateUnset(eval, table, order[..|order| - 1], values)
      case Err(e) => Err(e)
      case Ok(vs) =>
        if node in table && node !in vs then
          match eval(table[node], vs)
          case Err(e) => Err(e)
          case Ok(v) => Ok(vs[table[node].output := v])
        else Ok(vs)
  }

  /** A value present at the start, the injected stuck-at value among them, is never overwritten. */
  lemma {:induction false} PropagateUnsetKeeps<Id>(eval: Evaluator<Id>, table: Table<Id>, order: seq<Id>, values: map<Id, Word>)
    requires Keyed(table) && PropagateUnset(eval, table, order, values).Ok?
    ensures var final := PropagateUnset(eval, table, order, values).value;
            forall x :: x in values ==> x in final && final[x] == values[x]
  {
    if order != [] {
      PropagateUnsetKeeps(eval, table, order[..|order| - 1], values);
    }
  }

  lemma {:induction false} PropagateUnsetPrefix<Id>(eval: Evaluator<Id>, table: Table<Id>, order: seq<Id>, values: map<Id, Word>, i: nat)
    requires i <= |order| && PropagateUnset(eval, table, order[..i], values).Err?
    ensures PropagateUnset(eval, table, order, values) == PropagateUnset(eval, table, order[..i], values)
    decreases |order| - i
  {
    if i < |order| {
      assert order[..i + 1][..i] == order[..i];
      PropagateUnsetPrefix(eval, table, order, values, i + 1);
    } else {
      assert order[..i] == order;
    }
  }

  /** The gates whose output has no value at the start: the only ones the faulty loop can evaluate. */
  function Unset<Id(!new)>(table: Table<Id>, values: map<Id, Word>): (r: Table<Id>)
    ensures forall n :: n in r <==> n in table && n !in values
    ensures forall n :: n in r ==> r[n] == table[n]
  {
    map n | n in table.Keys && n !in values.Keys :: table[n]
  }

  /**
   * Along an order that places each node once, the faulty loop is plain evaluation
   * of the gates whose output had no value at the start.
   */
  lemma {:induction false} PropagateUnsetIsPropagate<Id(!new)>(eval: Evaluator<Id>, table: Table<Id>, order: seq<Id>, values: map<Id, Word>)
    requires Keyed(table) && Distinct(order)
    ensures PropagateUnset(eval, table, order, values) == Propagate(eval, Unset(table, values), order, values)
  {
    if order != [] {
      var n := |order| - 1;
      var init := order[..n];
      var node := order[n];
      assert Distinct(init);
      PropagateUnsetIsPropagate(eval, table, init, values);
      var u := Unset(table, values);
      if Propagate(eval, u, init, values).Ok? {
        assert init[..n] == init && init[0..n] == init;
        PropagateFrame(eval, u, init, values, 0, n);
        assert init[..0] == [];
        assert node !in init by {
          forall k | 0 <= k < n
            ensures init[k] != node
          {
            assert order[k] != order[n];
          }
        }
      }
    }
  }

  /** The vector with the fault injected: unchanged when the fault node is a primary input. */
  function Injected(c: Netlist, inputValues: map<int, Word>, fault: Fault<int>): map<int, Word> {
    if fault.node in c.inputs then inputValues else inputValues[fault.node := fault.stuckAtValue]
  }

  /** `values.get(output)` for every primary output, `null` (here `None`) where there is no value. */
  function Observed(outputs: seq<int>, values: map<int, Word>): map<int, Option<Word>> {
    map o | o in outputs :: if o in values then Some(values[o]) else None
  }

  /** `simulateWithFault` after levelization has produced `order`. */
  function FaultyRun(c: Netlist, order: seq<int>, inputValues: map<int, Word>, fault: Fault<int>)
    : Result<map<int, Option<Word>>, Error>
  {
    match PropagateUnset(Eval(), c.gates, order, Injected(c, inputValues, fault))
    case Err(e) => Err(e)
    case Ok(values) => Ok(Observed(c.outputs, values))
  }

  /**
   * What a faulty run returns: a map whose keys are exactly the primary outputs;
   * unless the fault node is a primary input, the fault node holds the stuck-at
   * value; every other value of the vector is kept.
   */
  lemma FaultyRunOutputs(c: Netlist, order: seq<int>, inputValues: map<int, Word>, fault: Fault<int>)
    requires WellFormed(c) && FaultyRun(c, order, inputValues, fault).Ok?
    ensures var r := FaultyRun(c, order, inputValues, fault).value;
      r.Keys == Elems(c.outputs) &&
      (fault.node !in c.inputs && fault.node in c.outputs ==> r[fault.node] == Some(fault.stuckAtValue)) &&
      (forall o :: o in c.outputs && o in inputValues && o != fault.node ==> r[o] == Some(inputValues[o]))
  {
    PropagateUnsetKeeps(Eval(), c.gates, order, Injected(c, inputValues, fault));
  }

  /** A fault on a primary input is never injected, whatever value it is stuck at. */
  lemma InputFaultIsIgnored(c: Netlist, order: seq<int>, inputValues: map<int, Word>, fault: Fault<int>, w: Word)
    requires fault.node in c.inputs
    ensures FaultyRun(c, order, inputValues, fault) == FaultyRun(c, order, inputValues, Fault(fault.node, w))
    ensures Injected(c, inputValues, fault) == inputValues
  {
  }

  /** The faulty run gives alike results along any two level orders. */
  lemma FaultyRunIsOrderIndependent(c: Netlist, o1: seq<int>, o2: seq<int>, inputValues: map<int, Word>, fault: Fault<int>)
    requires WellFormed(c) && IsLevelOrder(o1, c.inputs, Shapes(c)) && IsLevelOrder(o2, c.inputs, Shapes(c))
    ensures Like(FaultyRun(c, o1, inputValues, fault), FaultyRun(c, o2, inputValues, fault))
  {
    ShapesIndexBack(c);
    LevelOrderFitsTable(c.inputs, Shapes(c), o1);
    LevelOrderFitsTable(c.inputs, Shapes(c), o2);
    var start := Injected(c, inputValues, fault);
    PropagateUnsetIsPropagate(Eval(), c.gates, o1, start);
    PropagateUnsetIsPropagate(Eval(), c.gates, o2, start);
    EvalIsLocal();
    PropagateIsOrderIndependent(Eval(), Unset(c.gates, start), o1, o2, start);
  }

  // ---------------------------------------------------------------------------
  // Runs along the level order levelization picks
  // ---------------------------------------------------------------------------

  /** One level order of the circuit; by the order-independence lemmas, which one does not matter. */
  ghost function LevelOrderOf(c: Netlist): (o: seq<int>)
    requires WellFormed(c) && Levelizable(c.inputs, Shapes(c))
    ensures IsLevelOrder(o, c.inputs, Shapes(c))
  {
    var o :| IsLevelOrder(o, c.inputs, Shapes(c)); o
  }

  /** `simulation.simulate(vector)`. */
  ghost function FaultFree(c: Netlist, vector: map<int, Word>): Result<map<int, Word>, Error>
    requires WellFormed(c)
  {
    if !Levelizable(c.inputs, Shapes(c)) then Err(CyclicCircuit)
    else Run(Eval(), c.inputs, c.outputs, Shapes(c), LevelOrderOf(c), vector)
  }

  /** `simulateWithFault(vector, fault)`. */
  ghost function Faulty(c: Netlist, vector: map<int, Word>, fault: Fault<int>): Result<map<int, Option<Word>>, Error>
    requires WellFormed(c)
  {
    if !Levelizable(c.inputs, Shapes(c)) then Err(CyclicCircuit)
    else FaultyRun(c, LevelOrderOf(c), vector, fault)
  }

  /** `faultFreeOutput.equals(faultyOutput)`: the same outputs, each with the same (non-null) value. */
  predicate Same(faultFree: map<int, Word>, faulty: map<int, Option<Word>>) {
    faultFree.Keys == faulty.Keys && forall o :: o in faultFree ==> faulty[o] == Some(faultFree[o])
  }

  /** Both runs of a vector succeed and their outputs differ. */
  ghost predicate Differs(c: Netlist, fault: Fault<int>, vector: map<int, Word>)
    requires WellFormed(c)
  {
    FaultFree(c, vector).Ok? && Faulty(c, vector, fault).Ok? && !Same(FaultFree(c, vector).value, Faulty(c, vector, fault).value)
  }

  /** Both runs of a vector succeed and their outputs are the same. */
  ghost predicate Matches(c: Netlist, fault: Fault<int>, vector: map<int, Word>)
    requires WellFormed(c)
  {
    FaultFree(c, vector).Ok? && Faulty(c, vector, fault).Ok? && Same(FaultFree(c, vector).value, Faulty(c, vector, fault).value)
  }

  /** The vector loop of `serialFaultSimulation` for one fault: it stops at the first vector that tells the runs apart. */
  ghost function Detects(c: Netlist, fault: Fault<int>, vectors: seq<map<int, Word>>): Result<bool, Error>
    requires WellFormed(c)
    decreases |vectors|
  {
    if vectors == [] then Ok(false)
    else
      match FaultFree(c, vectors[0])
      case Err(e) => Err(e)
      case Ok(ff) =>
        match Faulty(c, vectors[0], fault)
        case Err(e) => Err(e)
        case Ok(fy) => if !Same(ff, fy) then Ok(true) else Detects(c, fault, vectors[1..])
  }

  /** The fault loop: how many faults some vector detects. */
  ghost function DetectedCount(c: Netlist, faults: seq<Fault<int>>, vectors: seq<map<int, Word>>): Result<nat, Error>
    requires WellFormed(c)
  {
    if faults == [] then Ok(0)
    else
      match DetectedCount(c, faults[..|faults| - 1], vectors)
      case Err(e) => Err(e)
      case Ok(n) =>
        match Detects(c, faults[|faults| - 1], vectors)
        case Err(e) => Err(e)
        case Ok(d) => Ok(if d then n + 1 else n)
  }

  /**
   * A fault is detected exactly when some vector tells the runs apart after every
   * earlier vector ran cleanly to the same outputs, and undetected exactly when every
   * vector runs cleanly to the same outputs; otherwise a run raised.
   */
  lemma {:induction false} DetectsMeaning(c: Netlist, fault: Fault<int>, vectors: seq<map<int, Word>>)
    requires WellFormed(c)
    ensures Detects(c, fault, vectors) == Ok(true) <==>
      exists j :: 0 <= j < |vectors| && Differs(c, fault, vectors[j]) && forall k :: 0 <= k < j ==> Matches(c, fault, vectors[k])
    ensures Detects(c, fault, vectors) == Ok(false) <==> forall k :: 0 <= k < |vectors| ==> Matches(c, fault, vectors[k])
  {
    DetectedMeaning(c, fault, vectors);
    UndetectedMeaning(c, fault, vectors);
    if Detects(c, fault, vectors) == Ok(true) {
      var j :| 0 <= j < |vectors| && DetectedAt(c, fault, vectors, j);
      assert Differs(c, fault, vectors[j]) && forall k :: 0 <= k < j ==> Matches(c, fault, vectors[k]);
    }
    if exists j :: 0 <= j < |vectors| && Differs(c, fault, vectors[j]) && forall k :: 0 <= k < j ==> Matches(c, fault, vectors[k]) {
      var j :| 0 <= j < |vectors| && Differs(c, fault, vectors[j]) && forall k :: 0 <= k < j ==> Matches(c, fault, vectors[k]);
      assert DetectedAt(c, fault, vectors, j);
    }
  }

  /** One vector of the loop: it detects the fault, passes it on to the rest, or a run raises. */
  lemma DetectsStep(c: Netlist, fault: Fault<int>, vectors: seq<map<int, Word>>)
    requires WellFormed(c) && vectors != []
    ensures Detects(c, fault, vectors) == Ok(true) <==>
      Differs(c, fault, vectors[0]) || (Matches(c, fault, vectors[0]) && Detects(c, fault, vectors[1..]) == Ok(true))
    ensures Detects(c, fault, vectors) == Ok(false) <==>
      Matches(c, fault, vectors[0]) && Detects(c, fault, vectors[1..]) == Ok(false)
  {
  }

  /** Vector `j` tells the runs apart, and every earlier vector ran cleanly to the same outputs. */
  ghost predicate DetectedAt(c: Netlist, fault: Fault<int>, vectors: seq<map<int, Word>>, j: nat)
    requires WellFormed(c) && j < |vectors|
  {
    Differs(c, fault, vectors[j]) && forall k :: 0 <= k < j ==> Matches(c, fault, vectors[k])
  }

  lemma DetectedMeaning(c: Netlist, fault: Fault<int>, vectors: seq<map<int, Word>>)
    requires WellFormed(c)
    ensures Detects(c, fault, vectors) == Ok(true) <==> exists j :: 0 <= j < |vectors| && DetectedAt(c, fault, vectors, j)
  {
    if Detects(c, fault, vectors) == Ok(true) {
      DetectedSomewhere(c, fault, vectors);
    }
    if exists j :: 0 <= j < |vectors| && DetectedAt(c, fault, vectors, j) {
      var j :| 0 <= j < |vectors| && DetectedAt(c, fault, vectors, j);
      DetectedAtDetects(c, fault, vectors, j);
    }
  }

  lemma {:induction false} DetectedSomewhere(c: Netlist, fault: Fault<int>, vectors: seq<map<int, Word>>)
    requires WellFormed(c) && Detects(c, fault, vectors) == Ok(true)
    ensures exists j :: 0 <= j < |vectors| && DetectedAt(c, fault, vectors, j)
    decreases |vectors|
  {
    var rest := vectors[1..];
    DetectsStep(c, fault, vectors);
    if Differs(c, fault, vectors[0]) {
      assert DetectedAt(c, fault, vectors, 0);
    } else {
      DetectedSomewhere(c, fault, rest);
      var j :| 0 <= j < |rest| && DetectedAt(c, fault, rest, j);
      DetectedAtShift(c, fault, vectors, j);
    }
  }

  /** A vector that matches, in front of a list detected at `j`, gives a list detected at `j + 1`. */
  lemma DetectedAtShift(c: Netlist, fault: Fault<int>, vectors: seq<map<int, Word>>, j: nat)
    requires WellFormed(c) && j + 1 < |vectors|
    requires Matches(c, fault, vectors[0]) && DetectedAt(c, fault, vectors[1..], j)
    ensures DetectedAt(c, fault, vectors, j + 1)
  {
    var rest := vectors[1..];
    assert vectors[j + 1] == rest[j];
    forall k | 0 <= k < j + 1
      ensures Matches(c, fault, vectors[k])
    {
      if k > 0 {
        assert vectors[k] == rest[k - 1];
      }
    }
  }

  lemma {:induction false} DetectedAtDetects(c: Netlist, fault: Fault<int>, vectors: seq<map<int, Word>>, j: nat)
    requires WellFormed(c) && j < |vectors| && DetectedAt(c, fault, vectors, j)
    ensures Detects(c, fault, vectors) == Ok(true)
    decreases j
  {
    DetectsStep(c, fault, vectors);
    if j > 0 {
      var rest := vectors[1..];
      assert Matches(c, fault, vectors[0]);
      assert rest[j - 1] == vectors[j];
      forall k | 0 <= k < j - 1
        ensures Matches(c, fault, rest[k])
      {
        assert rest[k] == vectors[k + 1];
      }
      DetectedAtDetects(c, fault, rest, j - 1);
    }
  }

  lemma {:induction false} UndetectedMeaning(c: Netlist, fault: Fault<int>, vectors: seq<map<int, Word>>)
    requires WellFormed(c)
    ensures Detects(c, fault, vectors) == Ok(false) <==> forall k :: 0 <= k < |vectors| ==> Matches(c, fault, vectors[k])
    decreases |vectors|
  {
    if vectors != [] {
      var rest := vectors[1..];
      DetectsStep(c, fault, vectors);
      UndetectedMeaning(c, fault, rest);
      if forall k :: 0 <= k < |vectors| ==> Matches(c, fault, vectors[k]) {
        assert Matches(c, fault, vectors[0]);
        forall k | 0 <= k < |rest|
          ensures Matches(c, fault, rest[k])
        {
          assert rest[k] == vectors[k + 1];
        }
      }
      if Detects(c, fault, vectors) == Ok(false) {
        forall k | 0 <= k < |vectors|
          ensures Matches(c, fault, vectors[k])
        {
          if k > 0 {
            assert vectors[k] == rest[k - 1];
          }
        }
      }
    }
  }

  /** The faults some vector detects, by position in the fault list. */
  ghost function DetectedSet(c: Netlist, faults: seq<Fault<int>>, vectors: seq<map<int, Word>>, n: nat): set<nat>
    requires WellFormed(c) && n <= |faults|
  {
    set i: nat | i < n && Detects(c, faults[i], vectors) == Ok(true)
  }

  /** The positions among the first `n` that are detected, against the same positions of a longer list. */
  lemma DetectedSetPrefix(c: Netlist, faults: seq<Fault<int>>, vectors: seq<map<int, Word>>, n: nat)
    requires WellFormed(c) && n < |faults|
    ensures DetectedSet(c, faults[..n], vectors, n) == DetectedSet(c, faults, vectors, n)
  {
    forall i: nat | i < n
      ensures i in DetectedSet(c, faults[..n], vectors, n) <==> i in DetectedSet(c, faults, vectors, n)
    {
      assert faults[..n][i] == faults[i];
    }
  }

  /** One more position adds itself to the detected set exactly when its fault is detected. */
  lemma DetectedSetStep(c: Netlist, faults: seq<Fault<int>>, vectors: seq<map<int, Word>>, n: nat)
    requires WellFormed(c) && n < |faults|
    ensures |DetectedSet(c, faults, vectors, n + 1)| ==
      |DetectedSet(c, faults, vectors, n)| + if Detects(c, faults[n], vectors) == Ok(true) then 1 else 0
  {
    var before := DetectedSet(c, faults, vectors, n);
    var after := DetectedSet(c, faults, vectors, n + 1);
    assert n !in before;
    if Detects(c, faults[n], vectors) == Ok(true) {
      assert after == before + {n};
    } else {
      assert after == before;
    }
  }

  /**
   * A successful count is the number of positions of the fault list whose fault some
   * vector detects: each fault is counted at most once, so the count never exceeds
   * the length of the list.
   */
  lemma {:induction false} DetectedCountMeaning(c: Netlist, faults: seq<Fault<int>>, vectors: seq<map<int, Word>>)
    requires WellFormed(c) && DetectedCount(c, faults, vectors).Ok?
    ensures DetectedCount(c, faults, vectors).value == |DetectedSet(c, faults, vectors, |faults|)|
    ensures DetectedCount(c, faults, vectors).value <= |faults|
    ensures forall i :: 0 <= i < |faults| ==> Detects(c, faults[i], vectors).Ok?
  {
    if faults != [] {
      var n := |faults| - 1;
      DetectedCountMeaning(c, faults[..n], vectors);
      DetectedSetPrefix(c, faults, vectors, n);
      DetectedSetStep(c, faults, vectors, n);
      assert forall i :: 0 <= i < n ==> faults[..n][i] == faults[i];
    }
  }

  lemma {:induction false} DetectedCountPrefix(c: Netlist, faults: seq<Fault<int>>, vectors: seq<map<int, Word>>, i: nat)
    requires WellFormed(c) && i <= |faults| && DetectedCount(c, faults[..i], vectors).Err?
    ensures DetectedCount(c, faults, vectors).Err?
    decreases |faults| - i
  {
    if i < |faults| {
      assert faults[..i + 1][..i] == faults[..i];
      DetectedCountPrefix(c, faults, vectors, i + 1);
    } else {
      assert faults[..i] == faults;
    }
  }

  // ---------------------------------------------------------------------------
  // What fault simulation can tell
  // ---------------------------------------------------------------------------

  /**
   * A fault on a primary input is never detected by a vector that gives values to
   * undriven lines only: the faulty run is then the fault-free one.
   */
  lemma InputFaultIsUndetected(c: Netlist, order: seq<int>, vector: map<int, Word>, fault: Fault<int>)
    requires WellFormed(c) && IsLevelOrder(order, c.inputs, Shapes(c))
    requires fault.node in c.inputs && forall x :: x in vector ==> x !in c.gates
    requires Run(Eval(), c.inputs, c.outputs, Shapes(c), order, vector).Ok?
    ensures FaultyRun(c, order, vector, fault).Ok?
    ensures Same(Run(Eval(), c.inputs, c.outputs, Shapes(c), order, vector).value, FaultyRun(c, order, vector, fault).value)
  {
    RunOnGates(c, order, vector);
    PropagateUnsetIsPropagate(Eval(), c.gates, order, vector);
    forall n | n in c.gates
      ensures n in Unset(c.gates, vector)
    {
      assert n !in vector;
    }
    assert Unset(c.gates, vector) == c.gates;
    assert Injected(c, vector, fault) == vector;
    CollectIsObserved(c.outputs, Propagate(Eval(), c.gates, order, vector).value);
  }

  /** `simulate` of a circuit evaluates along its gate map. */
  lemma RunOnGates(c: Netlist, order: seq<int>, vector: map<int, Word>)
    requires WellFormed(c) && Run(Eval(), c.inputs, c.outputs, Shapes(c), order, vector).Ok?
    ensures Propagate(Eval(), c.gates, order, vector).Ok?
    ensures Run(Eval(), c.inputs, c.outputs, Shapes(c), order, vector) == Collect(c.outputs, Propagate(Eval(), c.gates, order, vector).value)
  {
    ShapesIndexBack(c);
  }

  /** Where every primary output has a value, `simulate`'s result and the faulty run's read-out are the same. */
  lemma CollectIsObserved(outputs: seq<int>, values: map<int, Word>)
    requires Collect(outputs, values).Ok?
    ensures Same(Collect(outputs, values).value, Observed(outputs, values))
  {
    CollectMeaning(outputs, values);
  }

  /**
   * A stuck-at fault whose value is the one the fault-free run gives the node is
   * never detected: pinning a node to its own value changes nothing downstream.
   */
  lemma UnexcitedFaultIsUndetected(c: Netlist, order: seq<int>, vector: map<int, Word>, fault: Fault<int>)
    requires WellFormed(c) && IsLevelOrder(order, c.inputs, Shapes(c))
    requires forall x :: x in vector ==> x !in c.gates
    requires Run(Eval(), c.inputs, c.outputs, Shapes(c), order, vector).Ok?
    requires var final := Propagate(Eval(), c.gates, order, vector);
      final.Ok? && fault.node in final.value && final.value[fault.node] == fault.stuckAtValue
    ensures FaultyRun(c, order, vector, fault).Ok?
    ensures Same(Run(Eval(), c.inputs, c.outputs, Shapes(c), order, vector).value, FaultyRun(c, order, vector, fault).value)
  {
    ShapesIndexBack(c);
    LevelOrderFitsTable(c.inputs, Shapes(c), order);
    EvalIsLocal();
    DriverTableIsKeyed(Shapes(c));
    var f := Propagate(Eval(), c.gates, order, vector).value;
    PropagateSettles(Eval(), c.gates, order, vector);
    var start := Injected(c, vector, fault);
    var u := Unset(c.gates, start);
    assert forall x :: x in start ==> x in f && f[x] == start[x] by {
      forall x | x in start
        ensures x in f && f[x] == start[x]
      {
        if x != fault.node {
          assert x in vector && x !in c.gates;
        }
      }
    }
    assert Consistent(Eval(), u, start, f) by {
      forall n | n in u
        ensures n in f && Eval()(u[n], f) == Ok(f[n])
      {
        assert u[n] == c.gates[n];
      }
    }
    PropagateUnsetIsPropagate(Eval(), c.gates, order, start);
    PropagateReaches(Eval(), u, order, start, f);
    CollectIsObserved(c.outputs, f);
  }

  // ---------------------------------------------------------------------------
  // The simulator
  // ---------------------------------------------------------------------------

  /** The collecting loop of `simulateWithFault`. */
  method ObserveOutputs(outputs: seq<int>, values: map<int, Word>) returns (outputValues: map<int, Option<Word>>)
    ensures outputValues.Keys == Elems(outputs)
    ensures forall o :: o in outputValues ==> outputValues[o] == (if o in values then Some(values[o]) else None)
    ensures outputValues == Observed(outputs, values)
  {
    outputValues := map[];
    for i := 0 to |outputs|
      invariant outputValues == Observed(outputs[..i], values)
    {
      assert forall o :: o in outputs[..i + 1] <==> o in outputs[..i] || o == outputs[i];
      outputValues := outputValues[outputs[i] := if outputs[i] in values then Some(values[outputs[i]]) else None];
    }
    assert outputs[..|outputs|] == outputs;
  }

  /**
   * `simulateWithFault`: inject the fault into a copy of the vector unless the node
   * is a primary input, levelize, evaluate along the order the gates whose output
   * has no value yet, and read every primary output. The caller's vector is a value
   * and is left as it was.
   */
  method SimulateWithFault(circuit: Circuit, inputValues: map<int, Word>, fault: Fault<int>)
    returns (r: Result<map<int, Option<Word>>, Error>, ghost order: seq<int>)
    requires circuit.Valid()
    ensures var c := circuit.State();
      !Levelizable(c.inputs, Shapes(c)) ==> r == Err(CyclicCircuit)
    ensures var c := circuit.State();
      Levelizable(c.inputs, Shapes(c)) ==> IsLevelOrder(order, c.inputs, Shapes(c)) && r == FaultyRun(c, order, inputValues, fault)
  {
    ghost var c := circuit.State();
    var values := inputValues;
    if fault.node !in circuit.inputs {
      values := values[fault.node := fault.stuckAtValue];
    }
    ghost var start := values;
    order := [];
    var levels := Levelize(circuit.inputs, Shapes(circuit.State()));
    if levels.Err? {
      return Err(levels.error), order;
    }
    var topologicalOrder := levels.value;
    order := topologicalOrder;
    for i := 0 to |topologicalOrder|
      invariant PropagateUnset(Eval(), circuit.gates, topologicalOrder[..i], start) == Ok(values)
    {
      var node := topologicalOrder[i];
      assert topologicalOrder[..i + 1][..i] == topologicalOrder[..i];
      if node in circuit.gates {
        var gate := circuit.gates[node];
        if node !in values {
          var v := Evaluate(gate, values);
          if v.Err? {
            PropagateUnsetPrefix(Eval(), circuit.gates, topologicalOrder, start, i + 1);
            return Err(v.error), order;
          }
          values := values[gate.output := v.value];
        }
      }
    }
    assert topologicalOrder[..|topologicalOrder|] == topologicalOrder;
    var outputValues := ObserveOutputs(circuit.outputs, values);
    r := Ok(outputValues);
  }

  /** `simulate` is alike along every level order, so it is alike to the run along the chosen one. */
  lemma FaultFreeIsCanonical(c: Netlist, order: seq<int>, vector: map<int, Word>)
    requires WellFormed(c) && IsLevelOrder(order, c.inputs, Shapes(c))
    ensures Like(Run(Eval(), c.inputs, c.outputs, Shapes(c), order, vector), FaultFree(c, vector))
  {
    EvalIsLocal();
    RunIsOrderIndependent(Eval(), c.inputs, c.outputs, Shapes(c), order, LevelOrderOf(c), vector);
  }

  lemma FaultyIsCanonical(c: Netlist, order: seq<int>, vector: map<int, Word>, fault: Fault<int>)
    requires WellFormed(c) && IsLevelOrder(order, c.inputs, Shapes(c))
    ensures Like(FaultyRun(c, order, vector, fault), Faulty(c, vector, fault))
  {
    FaultyRunIsOrderIndependent(c, order, LevelOrderOf(c), vector, fault);
  }

  /** The vector loop of `serialFaultSimulation` for one fault. */
  method DetectFault(circuit: Circuit, fault: Fault<int>, testVectors: seq<map<int, Word>>) returns (r: Result<bool, Error>)
    requires circuit.Valid()
    ensures Like(r, Detects(circuit.State(), fault, testVectors))
  {
    ghost var c := circuit.State();
    var j := 0;
    while j < |testVectors|
      invariant 0 <= j <= |testVectors|
      invariant Detects(c, fault, testVectors) == Detects(c, fault, testVectors[j..])
    {
      var testVector := testVectors[j];
      assert testVectors[j..][1..] == testVectors[j + 1..];
      var faultFreeOutput, o1 := Simulation.Simulate(Eval(), circuit.inputs, circuit.outputs, Shapes(circuit.State()), testVector);
      if Levelizable(c.inputs, Shapes(c)) {
        FaultFreeIsCanonical(c, o1, testVector);
      }
      if faultFreeOutput.Err? {
        return Err(faultFreeOutput.error);
      }
      var faultyOutput, o2 := SimulateWithFault(circuit, testVector, fault);
      if Levelizable(c.inputs, Shapes(c)) {
        FaultyIsCanonical(c, o2, testVector, fault);
      }
      if faultyOutput.Err? {
        return Err(faultyOutput.error);
      }
      if !Same(faultFreeOutput.value, faultyOutput.value) {
        return Ok(true);
      }
      j := j + 1;
    }
    return Ok(false);
  }

  /**
   * `serialFaultSimulation`, returning the number of detected faults rather than
   * their ratio to the list's length: for each fault, the vectors are tried in
   * order until one tells the runs apart.
   */
  method SerialFaultSimulation(circuit: Circuit, faults: seq<Fault<int>>, testVectors: seq<map<int, Word>>) returns (r: Result<nat, Error>)
    requires circuit.Valid()
    ensures Like(r, DetectedCount(circuit.State(), faults, testVectors))
  {
    ghost var c := circuit.State();
    var detectedFaults := 0;
    for i := 0 to |faults|
      invariant DetectedCount(c, faults[..i], testVectors) == Ok(detectedFaults)
    {
      assert faults[..i + 1][..i] == faults[..i];
      var detected := DetectFault(circuit, faults[i], testVectors);
      if detected.Err? {
        DetectedCountPrefix(c, faults, testVectors, i + 1);
        return Err(detected.error);
      }
      if detected.value {
        detectedFaults := detectedFaults + 1;
      }
    }
    assert faults[..|faults|] == faults;
    return Ok(detectedFaults);
  }
}

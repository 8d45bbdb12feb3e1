/**
 * The fault-simulation driver `BenchmarkFaultSimulation`: the list of stuck-at
 * faults of a parsed circuit, exhaustive test vectors over its primary inputs
 * (capped at 2^10), and the check that every vector gives every input a value.
 */
module BenchFaultSim {

  import opened Wrappers
  import opened Bits
  import opened Simulation
  import opened FaultSim
  import BenchCircuit

  // ---------------------------------------------------------------------------
  // The fault list
  // ---------------------------------------------------------------------------

  /** Stuck-at-0 then stuck-at-1 for each gate output in gate order, then for each primary output. */
  ghost predicate IsFaultList(n: BenchCircuit.Netlist, faults: seq<Fault<string>>) {
    |faults| == 2 * (|n.gates| + |n.outputs|) &&
    (forall k :: 0 <= k < |n.gates| ==>
      faults[2 * k] == Fault(n.gates[k].output, 0) && faults[2 * k + 1] == Fault(n.gates[k].output, 1)) &&
    (forall k :: 0 <= k < |n.outputs| ==>
      faults[2 * |n.gates| + 2 * k] == Fault(n.outputs[k], 0) && faults[2 * |n.gates| + 2 * k + 1] == Fault(n.outputs[k], 1))
  }

  /** The fault-list loops of `main`. */
  method FaultList(n: BenchCircuit.Netlist) returns (faults: seq<Fault<string>>)
    ensures IsFaultList(n, faults)
  {
    faults := [];
    for k := 0 to |n.gates|
      invariant |faults| == 2 * k
      invariant forall t :: 0 <= t < k ==>
        faults[2 * t] == Fault(n.gates[t].output, 0) && faults[2 * t + 1] == Fault(n.gates[t].output, 1)
    {
      var node := n.gates[k].output;
      faults := faults + [Fault(node, 0)];
      faults := faults + [Fault(node, 1)];
    }
    for k := 0 to |n.outputs|
      invariant |faults| == 2 * |n.gates| + 2 * k
      invariant forall t :: 0 <= t < |n.gates| ==>
        faults[2 * t] == Fault(n.gates[t].output, 0) && faults[2 * t + 1] == Fault(n.gates[t].output, 1)
      invariant forall t :: 0 <= t < k ==>
        faults[2 * |n.gates| + 2 * t] == Fault(n.outputs[t], 0) && faults[2 * |n.gates| + 2 * t + 1] == Fault(n.outputs[t], 1)
    {
      var output := n.outputs[k];
      faults := faults + [Fault(output, 0)];
      faults := faults + [Fault(output, 1)];
    }
  }

  /**
   * The list holds exactly the faults that stick a gate output or a primary output
   * at 0 or at 1: both values for every such node, and nothing else.
   */
  lemma FaultListMembers(n: BenchCircuit.Netlist, faults: seq<Fault<string>>, f: Fault<string>)
    requires IsFaultList(n, faults)
    ensures f in faults <==>
      (f.stuckAtValue == 0 || f.stuckAtValue == 1) && (f.node in Outputs(n.gates) || f.node in n.outputs)
  {
    var g := |n.gates|;
    if f in faults {
      var i :| 0 <= i < |faults| && faults[i] == f;
      if i < 2 * g {
        var k := i / 2;
        assert i == 2 * k || i == 2 * k + 1;
        assert n.gates[k] in n.gates;
        assert f == Fault(n.gates[k].output, 0) || f == Fault(n.gates[k].output, 1);
      } else {
        var k := (i - 2 * g) / 2;
        assert i == 2 * g + 2 * k || i == 2 * g + 2 * k + 1;
        assert f == Fault(n.outputs[k], 0) || f == Fault(n.outputs[k], 1);
      }
    }
    if (f.stuckAtValue == 0 || f.stuckAtValue == 1) && f.node in Outputs(n.gates) {
      var k :| 0 <= k < g && n.gates[k].output == f.node;
      assert f == faults[2 * k] || f == faults[2 * k + 1];
    }
    if (f.stuckAtValue == 0 || f.stuckAtValue == 1) && f.node in n.outputs {
      var k :| 0 <= k < |n.outputs| && n.outputs[k] == f.node;
      assert f == Fault(n.outputs[k], 0) || f == Fault(n.outputs[k], 1);
      assert f == faults[2 * g + 2 * k] || f == faults[2 * g + 2 * k + 1];
    }
  }

  // ---------------------------------------------------------------------------
  // Exhaustive test vectors
  // ---------------------------------------------------------------------------

  function Pow2(k: nat): (r: nat)
    ensures r >= 1
  {
    if k == 0 then 1 else 2 * Pow2(k - 1)
  }

  function Min(a: nat, b: nat): nat {
    if a < b then a else b
  }

  /** `(i >> j) & 1` for a non-negative `i`: the last bit after halving `i` `j` times. */
  function BitOf(i: nat, j: nat): (r: Word)
    ensures r == 0 || r == 1
  {
    if j == 0 then (i % 2) as Word else BitOf(i / 2, j - 1)
  }

  /** The value vector `i` gives the input at position `j`: bit `j` of `i` for the first ten inputs, 0 beyond. */
  function Stimulus(i: nat, j: nat): Word {
    if j < 10 then BitOf(i, j) else 0
  }

  /**
   * What `generateAllTestVectors` returns for the inputs in `inputs`' order:
   * 2^min(n, 10) vectors, vector `i` mapping exactly the inputs, the one at position
   * `j` to `Stimulus(i, j)`.
   */
  ghost predicate IsGenerated<Id>(inputs: seq<Id>, vectors: seq<map<Id, Word>>) {
    |vectors| == Pow2(Min(|inputs|, 10)) &&
    forall i :: 0 <= i < |vectors| ==>
      vectors[i].Keys == Elems(inputs) && forall j :: 0 <= j < |inputs| ==> vectors[i][inputs[j]] == Stimulus(i, j)
  }

  /**
   * `generateAllTestVectors`. The input set is given as a sequence without repeats
   * in the set's iteration order, which is the order `new ArrayList<>(inputs)` copies.
   */
  method GenerateAllTestVectors<Id>(inputs: seq<Id>) returns (testVectors: seq<map<Id, Word>>)
    requires Distinct(inputs)
    ensures IsGenerated(inputs, testVectors)
  {
    testVectors := [];
    var inputList := inputs;
    var numInputs := |inputList|;
    var maxVectors := Pow2(Min(numInputs, 10));
    for i := 0 to maxVectors
      invariant |testVectors| == i
      invariant forall t :: 0 <= t < i ==>
        testVectors[t].Keys == Elems(inputs) && forall j :: 0 <= j < |inputs| ==> testVectors[t][inputs[j]] == Stimulus(t, j)
    {
      var vector := BuildVector(inputList, i);
      testVectors := testVectors + [vector];
    }
  }

  /** The inner loop of `generateAllTestVectors`: vector number `i`. */
  method BuildVector<Id>(inputList: seq<Id>, i: nat) returns (vector: map<Id, Word>)
    requires Distinct(inputList)
    ensures vector.Keys == Elems(inputList)
    ensures forall j :: 0 <= j < |inputList| ==> vector[inputList[j]] == Stimulus(i, j)
  {
    vector := map[];
    for j := 0 to |inputList|
      invariant vector.Keys == Elems(inputList[..j])
      invariant forall k :: 0 <= k < j ==> vector[inputList[k]] == Stimulus(i, k)
    {
      assert forall x :: x in inputList[..j + 1] <==> x in inputList[..j] || x == inputList[j];
      if j < 10 {
        vector := vector[inputList[j] := BitOf(i, j)];
      } else {
        vector := vector[inputList[j] := 0];
      }
    }
    assert inputList[..|inputList|] == inputList;
  }

  /** Every generated vector gives every input the value 0 or 1. */
  lemma GeneratedAreBits<Id>(inputs: seq<Id>, vectors: seq<map<Id, Word>>)
    requires IsGenerated(inputs, vectors)
    ensures forall i, x :: 0 <= i < |vectors| && x in inputs ==> x in vectors[i] && IsBit(vectors[i][x])
  {
    forall i, x | 0 <= i < |vectors| && x in inputs
      ensures x in vectors[i] && IsBit(vectors[i][x])
    {
      var j :| 0 <= j < |inputs| && inputs[j] == x;
      assert vectors[i][inputs[j]] == Stimulus(i, j);
    }
  }

  /** Two different numbers below 2^m differ in one of their m lowest bits. */
  lemma {:induction false} BitsTellApart(i1: nat, i2: nat, m: nat)
    requires i1 < Pow2(m) && i2 < Pow2(m) && i1 != i2
    ensures exists j :: 0 <= j < m && BitOf(i1, j) != BitOf(i2, j)
  {
    if i1 % 2 != i2 % 2 {
      assert BitOf(i1, 0) != BitOf(i2, 0);
    } else {
      assert m > 0;
      BitsTellApart(i1 / 2, i2 / 2, m - 1);
      var j :| 0 <= j < m - 1 && BitOf(i1 / 2, j) != BitOf(i2 / 2, j);
      assert BitOf(i1, j + 1) != BitOf(i2, j + 1);
    }
  }

  /** Distinct indices give distinct vectors, so the vectors are all 2^min(n, 10) assignments of the first ten inputs. */
  lemma GeneratedAreDistinct<Id>(inputs: seq<Id>, vectors: seq<map<Id, Word>>, i1: nat, i2: nat)
    requires IsGenerated(inputs, vectors)
    requires i1 < |vectors| && i2 < |vectors| && i1 != i2
    ensures vectors[i1] != vectors[i2]
  {
    BitsTellApart(i1, i2, Min(|inputs|, 10));
    var j :| 0 <= j < Min(|inputs|, 10) && BitOf(i1, j) != BitOf(i2, j);
    assert vectors[i1][inputs[j]] != vectors[i2][inputs[j]];
  }

  // ---------------------------------------------------------------------------
  // Validation
  // ---------------------------------------------------------------------------

  /** The first input, scanning the vectors in order and the inputs in order within each, that a vector lacks. */
  function Lacking<Id>(vectors: seq<map<Id, Word>>, inputs: seq<Id>): (r: Option<Id>)
    ensures r.None? <==> forall i, x :: 0 <= i < |vectors| && x in inputs ==> x in vectors[i]
    ensures r.Some? ==> r.value in inputs && exists i :: 0 <= i < |vectors| && r.value !in vectors[i]
    decreases |vectors|
  {
    if vectors == [] then None
    else
      match FirstMissing(inputs, vectors[0])
      case Some(x) => Some(x)
      case None =>
        var rest := Lacking(vectors[1..], inputs);
        assert forall i :: 0 < i < |vectors| ==> vectors[i] == vectors[1..][i - 1];
        rest
  }

  /** `validateInputs`: raises, naming the input, at the first vector that lacks one. */
  method ValidateInputs<Id>(testVectors: seq<map<Id, Word>>, inputs: seq<Id>) returns (r: Option<Exception<Id>>)
    ensures r.None? <==> Lacking(testVectors, inputs).None?
    ensures r.Some? ==> r.value == MissingInput(Lacking(testVectors, inputs).value) && r.value.IsIllegalState()
  {
    for i := 0 to |testVectors|
      invariant Lacking(testVectors, inputs) == Lacking(testVectors[i..], inputs)
    {
      assert testVectors[i..][1..] == testVectors[i + 1..];
      var vector := testVectors[i];
      for j := 0 to |inputs|
        invariant forall k :: 0 <= k < j ==> inputs[k] in vector
      {
        if inputs[j] !in vector {
          FirstMissingIs(inputs, vector, j);
          return Some(MissingInput(inputs[j]));
        }
      }
      assert FirstMissing(inputs, vector).None?;
    }
    return None;
  }

  lemma {:induction false} FirstMissingIs<Id>(ids: seq<Id>, values: map<Id, Word>, j: nat)
    requires j < |ids| && ids[j] !in values && forall k :: 0 <= k < j ==> ids[k] in values
    ensures FirstMissing(ids, values) == Some(ids[j])
  {
    if j < |ids| - 1 {
      FirstMissingIs(ids[..|ids| - 1], values, j);
    } else {
      assert FirstMissing(ids[..|ids| - 1], values).None?;
    }
  }

  /** `validateInputs` never raises on the generator's own output. */
  lemma GeneratedPassValidation<Id>(inputs: seq<Id>, vectors: seq<map<Id, Word>>)
    requires IsGenerated(inputs, vectors)
    ensures Lacking(vectors, inputs) == None
  {
  }
}

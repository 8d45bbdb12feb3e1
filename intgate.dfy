/**
 * `Gate.evaluate` of the int-keyed revision of the back end (the gate class that
 * `BenchmarkParser` and `FaultSimulator` use): lines are Java `int` ids, a gate
 * that lacks an input value raises naming its type, and only AND, OR, NAND, NOR,
 * XOR and NOT are accepted.
 */
module IntGate {

  import opened Wrappers
  import opened Text
  import opened Bits
  import Simulation

  type Error = Exception<int>

  /** A gate of this revision: type, output id and input ids, none of which changes after construction. */
  type Shape = Simulation.GateShape<int>

  /** The values of the input lines in input order; a missing one raises, naming the gate's type. */
  function Gather(gateType: string, ins: seq<int>, values: map<int, Word>): (r: Result<seq<Word>, Error>)
    ensures r.Ok? <==> forall x :: x in ins ==> x in values
    ensures r.Ok? ==> |r.value| == |ins| && forall k :: 0 <= k < |ins| ==> ins[k] in values && r.value[k] == values[ins[k]]
    ensures r.Err? ==> r == Err(UninitializedInputs(gateType))
  {
    if ins == [] then Ok([])
    else
      var init := ins[..|ins| - 1];
      var x := ins[|ins| - 1];
      assert forall y :: y in init ==> y in ins;
      match Gather(gateType, init, values)
      case Err(e) => Err(e)
      case Ok(vs) => if x in values then Ok(vs + [values[x]]) else Err(UninitializedInputs(gateType))
  }

  /** The `switch` on the upper-cased type, given the input values. */
  function Apply(gateType: string, vs: seq<Word>): Result<Word, Error> {
    var t := ToUpper(gateType);
    if t == "AND" then Ok(AndAll(vs))
    else if t == "OR" then Ok(OrAll(vs))
    else if t == "NAND" then Ok(Complement(AndAll(vs)))
    else if t == "NOR" then Ok(Complement(OrAll(vs)))
    else if t == "XOR" then Ok(XorAll(vs))
    else if t == "NOT" then (if |vs| != 1 then Err(WrongArity("NOT")) else Ok(Complement(vs[0])))
    else Err(UnknownGateType(gateType))
  }

  /** `evaluate` of a gate against a value map. */
  function GateValue(g: Shape, values: map<int, Word>): Result<Word, Error> {
    match Gather(g.gateType, g.inputs, values)
    case Err(e) => Err(e)
    case Ok(vs) => Apply(g.gateType, vs)
  }

  /** The types this revision accepts, after upper-casing. */
  predicate KnownType(gateType: string) {
    ToUpper(gateType) in {"AND", "OR", "NAND", "NOR", "XOR", "NOT"}
  }

  /**
   * What `evaluate` raises: IllegalStateException naming the type when an input has
   * no value (whatever the type); otherwise IllegalArgumentException for a NOT
   * without exactly one input or for any type outside the six, XNOR and BUFF
   * among them; and nothing else.
   */
  lemma GateValueErrors(g: Shape, values: map<int, Word>)
    ensures (exists x :: x in g.inputs && x !in values) ==> GateValue(g, values) == Err(UninitializedInputs(g.gateType))
    ensures (forall x :: x in g.inputs ==> x in values) ==>
      (GateValue(g, values).Err? <==> !KnownType(g.gateType) || (ToUpper(g.gateType) == "NOT" && |g.inputs| != 1))
    ensures (forall x :: x in g.inputs ==> x in values) && !KnownType(g.gateType) ==>
      GateValue(g, values) == Err(UnknownGateType(g.gateType))
    ensures GateValue(g, values).Err? ==> (GateValue(g, values).error.IsIllegalState() <==> exists x :: x in g.inputs && x !in values)
  {
  }

  /** XNOR and BUFF, which the string-keyed revision's netlists use, are unknown to this one. */
  lemma XnorAndBuffAreUnknown(ins: seq<int>, output: int, values: map<int, Word>)
    requires forall x :: x in ins ==> x in values
    ensures GateValue(Simulation.GateShape("XNOR", output, ins), values) == Err(UnknownGateType("XNOR"))
    ensures GateValue(Simulation.GateShape("BUFF", output, ins), values) == Err(UnknownGateType("BUFF"))
  {
    assert ToUpper("XNOR") == "XNOR";
    assert ToUpper("BUFF") == "BUFF";
  }

  /**
   * On 0/1 inputs every accepted gate yields 0 or 1: AND is 1 iff all inputs are 1,
   * OR iff some input is, NAND and NOR are their complements, and NOT flips its
   * input. XOR's parity is `XorOfBits`.
   */
  lemma GateValueOfBits(g: Shape, values: map<int, Word>)
    requires forall x :: x in g.inputs ==> x in values && IsBit(values[x])
    requires GateValue(g, values).Ok?
    ensures IsBit(GateValue(g, values).value)
    ensures var t := ToUpper(g.gateType); var v := GateValue(g, values).value;
      (t == "AND" ==> (v == 1 <==> forall x :: x in g.inputs ==> values[x] == 1)) &&
      (t == "OR" ==> (v == 1 <==> exists x :: x in g.inputs && values[x] == 1)) &&
      (t == "NAND" ==> (v == 0 <==> forall x :: x in g.inputs ==> values[x] == 1)) &&
      (t == "NOR" ==> (v == 0 <==> exists x :: x in g.inputs && values[x] == 1)) &&
      (t == "NOT" ==> v == 1 - values[g.inputs[0]])
  {
    assert Gather(g.gateType, g.inputs, values).Ok?;
    var vs := Gather(g.gateType, g.inputs, values).value;
    forall i | 0 <= i < |vs|
      ensures IsBit(vs[i])
    {
      var x := g.inputs[i];
      assert x in g.inputs;
      assert IsBit(values[x]);
      assert vs[i] == values[x];
    }
    AndAllOfBits(vs);
    OrAllOfBits(vs);
    XorAllIsParity(vs);
    assert (forall x :: x in g.inputs ==> values[x] == 1) <==> (forall i :: 0 <= i < |vs| ==> vs[i] == 1) by {
      if forall i :: 0 <= i < |vs| ==> vs[i] == 1 {
        forall x | x in g.inputs
          ensures values[x] == 1
        {
          var i :| 0 <= i < |g.inputs| && g.inputs[i] == x;
        }
      }
      if forall x :: x in g.inputs ==> values[x] == 1 {
        forall i | 0 <= i < |vs|
          ensures vs[i] == 1
        {
          assert g.inputs[i] in g.inputs;
        }
      }
    }
    assert (exists x :: x in g.inputs && values[x] == 1) <==> (exists i :: 0 <= i < |vs| && vs[i] == 1) by {
      if exists i :: 0 <= i < |vs| && vs[i] == 1 {
        var i :| 0 <= i < |vs| && vs[i] == 1;
        assert g.inputs[i] in g.inputs;
      }
      if exists x :: x in g.inputs && values[x] == 1 {
        var x :| x in g.inputs && values[x] == 1;
        var i :| 0 <= i < |g.inputs| && g.inputs[i] == x;
        assert vs[i] == 1;
      }
    }
  }

  /**
   * On 0/1 inputs XOR (`reduce(0, (a, b) -> a ^ b)`) is the parity of the inputs at 1,
   * counted over the input values in input order.
   */
  lemma XorOfBits(g: Shape, values: map<int, Word>)
    requires forall x :: x in g.inputs ==> x in values && IsBit(values[x])
    requires ToUpper(g.gateType) == "XOR"
    ensures Gather(g.gateType, g.inputs, values).Ok?
    ensures GateValue(g, values) == Ok(if Ones(Gather(g.gateType, g.inputs, values).value) % 2 == 1 then 1 else 0)
  {
    assert Gather(g.gateType, g.inputs, values).Ok?;
    var vs := Gather(g.gateType, g.inputs, values).value;
    forall i | 0 <= i < |vs|
      ensures IsBit(vs[i])
    {
      var x := g.inputs[i];
      assert x in g.inputs;
      assert vs[i] == values[x];
    }
    XorAllIsParity(vs);
  }

  /** A gate reads nothing but the values of its own inputs. */
  lemma {:induction false} GatherIsLocal(gateType: string, ins: seq<int>, m1: map<int, Word>, m2: map<int, Word>)
    requires Simulation.Agree(m1, m2, ins)
    ensures Gather(gateType, ins, m1) == Gather(gateType, ins, m2)
  {
    if ins != [] {
      assert Simulation.Agree(m1, m2, ins[..|ins| - 1]) by {
        assert forall y :: y in ins[..|ins| - 1] ==> y in ins;
      }
      GatherIsLocal(gateType, ins[..|ins| - 1], m1, m2);
    }
  }

  /** `evaluate` as the simulator calls it. */
  function Eval(): Simulation.Evaluator<int> {
    (g: Shape, values: map<int, Word>) => GateValue(g, values)
  }

  lemma EvalIsLocal()
    ensures Simulation.IsLocal(Eval())
  {
    forall g: Shape, m1: map<int, Word>, m2: map<int, Word> | Simulation.Agree(m1, m2, g.inputs)
      ensures Eval()(g, m1) == Eval()(g, m2)
    {
      GatherIsLocal(g.gateType, g.inputs, m1, m2);
    }
  }

  lemma {:induction false} GatherStep(gateType: string, ins: seq<int>, values: map<int, Word>, i: nat)
    requires i < |ins|
    ensures Gather(gateType, ins[..i + 1], values) ==
      match Gather(gateType, ins[..i], values)
      case Err(e) => Err(e)
      case Ok(vs) => if ins[i] in values then Ok(vs + [values[ins[i]]]) else Err(UninitializedInputs(gateType))
  {
    assert ins[..i + 1][..i] == ins[..i];
  }

  /**
   * `evaluate`: the gathering loop, which raises at the first input without a
   * value, then the type's reduction.
   */
  method Evaluate(g: Shape, values: map<int, Word>) returns (r: Result<Word, Error>)
    ensures r == GateValue(g, values)
  {
    var inputValues: seq<Word> := [];
    var i := 0;
    while i < |g.inputs|
      invariant 0 <= i <= |g.inputs|
      invariant Gather(g.gateType, g.inputs[..i], values) == Ok(inputValues)
    {
      GatherStep(g.gateType, g.inputs, values, i);
      var input := g.inputs[i];
      if input !in values {
        assert g.inputs[i] in g.inputs;
        return Err(UninitializedInputs(g.gateType));
      }
      inputValues := inputValues + [values[input]];
      i := i + 1;
    }
    assert g.inputs[..i] == g.inputs;
    r := Apply(g.gateType, inputValues);
  }
}

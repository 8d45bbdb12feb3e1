/**
 * The string-keyed netlist objects of the Java back end: a `Line` carries a value
 * and lists of the gates it feeds and the lines wired to it; a `Gate` has a type,
 * an output line and an ordered list of input lines, and evaluates itself against
 * a map from line id to value.
 */
module Signals {

  import opened Wrappers
  import opened Text
  import opened Bits
  import Simulation
  import SimulationOrder

  type Error = Exception<string>

  /**
   * The values of the input lines, in input order (the gathering loop of
   * `Gate.evaluate`); the first input without a value raises.
   */
  function Gather(ins: seq<string>, values: map<string, Word>): (r: Result<seq<Word>, Error>)
    ensures r.Ok? <==> forall x :: x in ins ==> x in values
    ensures r.Ok? ==> |r.value| == |ins| && forall k :: 0 <= k < |ins| ==> r.value[k] == values[ins[k]]
    ensures r.Err? ==> r.error.MissingValue? && r.error.line in ins && r.error.line !in values
  {
    if ins == [] then Ok([])
    else
      var init := ins[..|ins| - 1];
      var x := ins[|ins| - 1];
      assert forall y :: y in init ==> y in ins;
      match Gather(init, values)
      case Err(e) => Err(e)
      case Ok(vs) => if x in values then Ok(vs + [values[x]]) else Err(MissingValue(x))
  }

  /** One more input on top of a gathered prefix. */
  lemma GatherStep(ins: seq<string>, values: map<string, Word>, i: nat)
    requires i < |ins|
    ensures Gather(ins[..i + 1], values) ==
      match Gather(ins[..i], values)
      case Err(e) => Err(e)
      case Ok(vs) => if ins[i] in values then Ok(vs + [values[ins[i]]]) else Err(MissingValue(ins[i]))
  {
    assert ins[..i + 1][..i] == ins[..i];
  }

  /** The input reported missing is the first one without a value. */
  lemma {:induction false} GatherReportsFirstMissing(ins: seq<string>, values: map<string, Word>, k: nat)
    requires k < |ins| && ins[k] !in values && forall j :: 0 <= j < k ==> ins[j] in values
    ensures Gather(ins, values) == Err(MissingValue(ins[k]))
  {
    var init := ins[..|ins| - 1];
    if k < |ins| - 1 {
      GatherReportsFirstMissing(init, values, k);
    } else {
      assert forall y :: y in init ==> y in values;
    }
  }

  /** The `switch` of `Gate.evaluate` on the upper-cased type, given the input values. */
  function Apply(gateType: string, vs: seq<Word>): Result<Word, Error> {
    var t := ToUpper(gateType);
    if t == "AND" then Ok(AndAll(vs))
    else if t == "OR" then Ok(OrAll(vs))
    else if t == "NAND" then Ok(Complement(AndAll(vs)))
    else if t == "NOR" then Ok(Complement(OrAll(vs)))
    else if t == "XOR" then Ok(XorAll(vs))
    else if t == "XNOR" then Ok(Complement(XorAll(vs)))
    else if t == "NOT" then (if |vs| != 1 then Err(WrongArity("NOT")) else Ok(Complement(vs[0])))
    else if t == "BUF" then (if |vs| != 1 then Err(WrongArity("BUFF")) else Ok(vs[0]))
    else Err(UnknownGateType(gateType))
  }

  /** `Gate.evaluate` of a gate with that type and those input line ids. */
  function GateValue(gateType: string, ins: seq<string>, values: map<string, Word>): Result<Word, Error> {
    match Gather(ins, values)
    case Err(e) => Err(e)
    case Ok(vs) => Apply(gateType, vs)
  }

  /** The types `Gate.evaluate` accepts, after upper-casing. */
  predicate KnownType(gateType: string) {
    ToUpper(gateType) in {"AND", "OR", "NAND", "NOR", "XOR", "XNOR", "NOT", "BUF"}
  }

  /** A missing input raises IllegalStateException naming the first input without a value, whatever the type. */
  lemma MissingInputRaises(gateType: string, ins: seq<string>, values: map<string, Word>, k: nat)
    requires k < |ins| && ins[k] !in values && forall j :: 0 <= j < k ==> ins[j] in values
    ensures GateValue(gateType, ins, values) == Err(MissingValue(ins[k]))
    ensures GateValue(gateType, ins, values).error.IsIllegalState()
  {
    GatherReportsFirstMissing(ins, values, k);
  }

  /** With every input present, an unknown type raises IllegalArgumentException; "BUFF", the parser's spelling, is one. */
  lemma UnknownTypeRaises(gateType: string, ins: seq<string>, values: map<string, Word>)
    requires forall x :: x in ins ==> x in values
    ensures !KnownType(gateType) ==> GateValue(gateType, ins, values) == Err(UnknownGateType(gateType))
    ensures GateValue("BUFF", ins, values) == Err(UnknownGateType("BUFF"))
  {
    assert ToUpper("BUFF") == "BUFF";
  }

  /** NOT and BUF insist on exactly one input; BUF passes it through. */
  lemma SingleInputGates(gateType: string, ins: seq<string>, values: map<string, Word>)
    requires forall x :: x in ins ==> x in values
    requires ToUpper(gateType) == "NOT" || ToUpper(gateType) == "BUF"
    ensures |ins| != 1 ==> GateValue(gateType, ins, values).Err? && GateValue(gateType, ins, values).error.IsIllegalArgument()
    ensures |ins| == 1 && ToUpper(gateType) == "BUF" ==> GateValue(gateType, ins, values) == Ok(values[ins[0]])
  {
  }

  /** The type is matched case-insensitively: two spellings of a known type evaluate alike. */
  lemma TypeIgnoresCase(t1: string, t2: string, ins: seq<string>, values: map<string, Word>)
    requires EqualsIgnoreCase(t1, t2) && KnownType(t1)
    ensures GateValue(t1, ins, values) == GateValue(t2, ins, values)
  {
  }

  /** A gate reads nothing but the values of its own inputs. */
  lemma {:induction false} GatherIsLocal(ins: seq<string>, m1: map<string, Word>, m2: map<string, Word>)
    requires forall x :: x in ins ==> (x in m1 <==> x in m2) && (x in m1 ==> m1[x] == m2[x])
    ensures Gather(ins, m1) == Gather(ins, m2)
  {
    if ins != [] {
      GatherIsLocal(ins[..|ins| - 1], m1, m2);
    }
  }

  lemma GateValueIsLocal(gateType: string, ins: seq<string>, m1: map<string, Word>, m2: map<string, Word>)
    requires forall x :: x in ins ==> (x in m1 <==> x in m2) && (x in m1 ==> m1[x] == m2[x])
    ensures GateValue(gateType, ins, m1) == GateValue(gateType, ins, m2)
  {
    GatherIsLocal(ins, m1, m2);
  }

  /** `gate.evaluate(values)` as `simulate` calls it, on the gate's type and input ids. */
  function Eval(): Simulation.Evaluator<string> {
    (g: Simulation.GateShape<string>, values: map<string, Word>) => GateValue(g.gateType, g.inputs, values)
  }

  /** This revision's `evaluate` reads only the gate's own inputs, as the simulation lemmas require. */
  lemma EvalIsLocal()
    ensures Simulation.IsLocal(Eval())
  {
    forall g: Simulation.GateShape<string>, m1: map<string, Word>, m2: map<string, Word> | Simulation.Agree(m1, m2, g.inputs)
      ensures Eval()(g, m1) == Eval()(g, m2)
    {
      GateValueIsLocal(g.gateType, g.inputs, m1, m2);
    }
  }

  /** `simulate` with this revision's gates gives the same outputs, or both raise, along any two level orders. */
  lemma SimulateIsOrderIndependent(primaryInputs: seq<string>, primaryOutputs: seq<string>,
                                   gates: seq<Simulation.GateShape<string>>, o1: seq<string>, o2: seq<string>,
                                   inputValues: map<string, Word>)
    requires Simulation.IsLevelOrder(o1, primaryInputs, gates) && Simulation.IsLevelOrder(o2, primaryInputs, gates)
    ensures SimulationOrder.Like(Simulation.Run(Eval(), primaryInputs, primaryOutputs, gates, o1, inputValues),
                                 Simulation.Run(Eval(), primaryInputs, primaryOutputs, gates, o2, inputValues))
  {
    EvalIsLocal();
    SimulationOrder.RunIsOrderIndependent(Eval(), primaryInputs, primaryOutputs, gates, o1, o2, inputValues);
  }

  /** The Boolean function each accepted type denotes, on truth values; None where the arity is wrong. */
  function BooleanGate(t: string, bs: seq<bool>): Option<bool>
    requires t in {"AND", "OR", "NAND", "NOR", "XOR", "XNOR", "NOT", "BUF"}
  {
    var all := forall i :: 0 <= i < |bs| ==> bs[i];
    var any := exists i :: 0 <= i < |bs| && bs[i];
    var odd := TrueCount(bs) % 2 == 1;
    match t
    case "AND" => Some(all)
    case "OR" => Some(any)
    case "NAND" => Some(!all)
    case "NOR" => Some(!any)
    case "XOR" => Some(odd)
    case "XNOR" => Some(!odd)
    case "NOT" => if |bs| == 1 then Some(!bs[0]) else None
    case "BUF" => if |bs| == 1 then Some(bs[0]) else None
  }

  function TrueCount(bs: seq<bool>): nat {
    if bs == [] then 0 else TrueCount(bs[..|bs| - 1]) + (if bs[|bs| - 1] then 1 else 0)
  }

  function Truth(w: Word): bool {
    w == 1
  }

  function AsWord(b: bool): Word {
    if b then 1 else 0
  }

  lemma {:induction false} OnesIsTrueCount(vs: seq<Word>, bs: seq<bool>)
    requires |vs| == |bs| && forall k :: 0 <= k < |vs| ==> bs[k] == Truth(vs[k])
    ensures Ones(vs) == TrueCount(bs)
  {
    if vs != [] {
      OnesIsTrueCount(vs[..|vs| - 1], bs[..|bs| - 1]);
    }
  }

  /** The reductions of `Apply` on 0/1 values, read as truth values. */
  lemma ApplyIsBoolean(t: string, vs: seq<Word>, bs: seq<bool>)
    requires t in {"AND", "OR", "NAND", "NOR", "XOR", "XNOR", "NOT", "BUF"} && ToUpper(t) == t
    requires AllBits(vs) && |vs| == |bs| && forall k :: 0 <= k < |vs| ==> bs[k] == Truth(vs[k])
    ensures match BooleanGate(t, bs)
            case Some(b) => Apply(t, vs) == Ok(AsWord(b))
            case None => Apply(t, vs).Err? && Apply(t, vs).error.WrongArity?
  {
    AndAllOfBits(vs);
    OrAllOfBits(vs);
    XorAllIsParity(vs);
    OnesIsTrueCount(vs, bs);
    if exists i :: 0 <= i < |bs| && bs[i] {
      var i :| 0 <= i < |bs| && bs[i];
      assert vs[i] == 1;
    }
    if exists i :: 0 <= i < |vs| && vs[i] == 1 {
      var i :| 0 <= i < |vs| && vs[i] == 1;
      assert bs[i];
    }
  }

  /**
   * On 0/1 input values, `Gate.evaluate` of an accepted type computes that type's
   * Boolean function, and any other outcome is the arity exception of NOT/BUF.
   */
  lemma GateValueIsBoolean(gateType: string, ins: seq<string>, values: map<string, Word>)
    requires forall x :: x in ins ==> x in values && IsBit(values[x])
    requires KnownType(gateType)
    ensures var bs := seq(|ins|, k requires 0 <= k < |ins| => Truth(values[ins[k]]));
            var r := GateValue(gateType, ins, values);
            match BooleanGate(ToUpper(gateType), bs)
            case Some(b) => r == Ok(AsWord(b))
            case None => r.Err? && r.error.WrongArity?
  {
    var vs := Gather(ins, values).value;
    var bs := seq(|ins|, k requires 0 <= k < |ins| => Truth(values[ins[k]]));
    var t := ToUpper(gateType);
    assert ToUpper(t) == t;
    assert Apply(gateType, vs) == Apply(t, vs);
    ApplyIsBoolean(t, vs, bs);
  }

  /** The ids of a list of lines, in order. */
  function Ids(ls: seq<Line>): (r: seq<string>)
    ensures |r| == |ls| && forall k :: 0 <= k < |ls| ==> r[k] == ls[k].id
  {
    seq(|ls|, k requires 0 <= k < |ls| => ls[k].id)
  }

  /** `inputs.removeIf(l -> l.getId().equals(lineId))`: the lines with another id, in their order. */
  function WithoutId(ls: seq<Line>, lineId: string): (r: seq<Line>)
    ensures |r| <= |ls|
  {
    if ls == [] then []
    else
      var l := ls[|ls| - 1];
      WithoutId(ls[..|ls| - 1], lineId) + (if l.id == lineId then [] else [l])
  }

  /** Exactly the lines with another id remain. */
  lemma {:induction false} WithoutIdMembers(ls: seq<Line>, lineId: string)
    ensures forall l :: l in WithoutId(ls, lineId) ==> l in ls && l.id != lineId
    ensures forall l :: l in ls && l.id != lineId ==> l in WithoutId(ls, lineId)
  {
    if ls != [] {
      var init := ls[..|ls| - 1];
      WithoutIdMembers(init, lineId);
      assert forall x :: x in ls ==> x in init || x == ls[|ls| - 1];
    }
  }

  /** Removal works piecewise, so the kept lines stay in their order. */
  lemma {:induction false} WithoutIdDistributes(xs: seq<Line>, ys: seq<Line>, lineId: string)
    ensures WithoutId(xs + ys, lineId) == WithoutId(xs, lineId) + WithoutId(ys, lineId)
  {
    if ys == [] {
      assert xs + ys == xs;
    } else {
      var init := ys[..|ys| - 1];
      var l := ys[|ys| - 1];
      var tail := if l.id == lineId then [] else [l];
      WithoutIdDistributes(xs, init, lineId);
      assert WithoutId(xs + ys, lineId) == WithoutId(xs + init, lineId) + tail by {
        assert (xs + ys)[..|xs + ys| - 1] == xs + init;
        assert (xs + ys)[|xs + ys| - 1] == l;
      }
      assert WithoutId(ys, lineId) == WithoutId(init, lineId) + tail;
    }
  }

  /** Removing an id no line carries changes nothing. */
  lemma {:induction false} WithoutAbsentId(ls: seq<Line>, lineId: string)
    requires forall l :: l in ls ==> l.id != lineId
    ensures WithoutId(ls, lineId) == ls
  {
    if ls != [] {
      WithoutAbsentId(ls[..|ls| - 1], lineId);
    }
  }

  /** `removeInput` undoes an `addInput` of a line whose id no other input carries. */
  lemma RemoveUndoesAdd(ls: seq<Line>, l: Line)
    requires forall x :: x in ls ==> x.id != l.id
    ensures WithoutId(ls + [l], l.id) == ls
  {
    WithoutAbsentId(ls, l.id);
  }

  /** Removing twice removes as much as once. */
  lemma RemoveIsIdempotent(ls: seq<Line>, lineId: string)
    ensures WithoutId(WithoutId(ls, lineId), lineId) == WithoutId(ls, lineId)
  {
    WithoutIdMembers(ls, lineId);
    WithoutAbsentId(WithoutId(ls, lineId), lineId);
  }

  /**
   * A ranking of lines under which every line wired to a ranked line is ranked lower:
   * the lines reachable through `connectedLines` form no cycle, which is what the
   * recursion of `setLineValue` needs to end.
   */
  ghost predicate Ranked(ranks: map<Line, nat>)
    reads ranks.Keys`connectedLines
  {
    forall l, k :: l in ranks && 0 <= k < |l.connectedLines| ==>
      l.connectedLines[k] in ranks && ranks[l.connectedLines[k]] < ranks[l]
  }

  /** The line and every line reachable from it through `connectedLines`. */
  ghost function Downstream(l: Line, ranks: map<Line, nat>): set<Line>
    requires Ranked(ranks) && l in ranks
    reads ranks.Keys`connectedLines
    decreases ranks[l], 1, 0
  {
    {l} + DownstreamAll(l.connectedLines, ranks, ranks[l])
  }

  ghost function DownstreamAll(ls: seq<Line>, ranks: map<Line, nat>, bound: nat): set<Line>
    requires Ranked(ranks) && forall l :: l in ls ==> l in ranks && ranks[l] < bound
    reads ranks.Keys`connectedLines
    decreases bound, 0, |ls|
  {
    if ls == [] then {}
    else DownstreamAll(ls[..|ls| - 1], ranks, bound) + Downstream(ls[|ls| - 1], ranks)
  }

  class Line {
    var value: Word
    const id: string
    /** "input", "output" or "". */
    const lineType: string
    var connectedGates: seq<Gate>
    var connectedLines: seq<Line>

    constructor(value: Word, lineType: string, id: string)
      ensures this.value == value && this.lineType == lineType && this.id == id
      ensures connectedGates == [] && connectedLines == []
    {
      this.value := value;
      this.lineType := lineType;
      this.id := id;
      connectedGates := [];
      connectedLines := [];
    }

    method AddConnectedGate(g: Gate)
      modifies this`connectedGates
      ensures connectedGates == old(connectedGates) + [g]
    {
      connectedGates := connectedGates + [g];
    }

    method AddConnectedLine(l: Line)
      modifies this`connectedLines
      ensures connectedLines == old(connectedLines) + [l]
    {
      connectedLines := connectedLines + [l];
    }

    /**
     * `setLineValue`: the line and, recursively, every line wired to it take the value;
     * no other line, and nothing but values, changes.
     */
    method SetLineValue(v: Word, ghost ranks: map<Line, nat>)
      requires Ranked(ranks) && this in ranks
      modifies ranks.Keys`value
      ensures forall l :: l in ranks ==> l.value == if l in Downstream(this, ranks) then v else old(l.value)
      decreases ranks[this]
    {
      value := v;
      var i := 0;
      while i < |connectedLines|
        invariant 0 <= i <= |connectedLines|
        invariant forall l :: l in ranks ==>
          l.value == if l == this || l in DownstreamAll(connectedLines[..i], ranks, ranks[this]) then v else old(l.value)
      {
        assert connectedLines[..i + 1][..i] == connectedLines[..i];
        connectedLines[i].SetLineValue(v, ranks);
        i := i + 1;
      }
      assert connectedLines[..i] == connectedLines;
    }
  }

  class Gate {
    const gateType: string
    var output: Line?
    var inputs: seq<Line>

    constructor(gateType: string)
      ensures this.gateType == gateType && output == null && inputs == []
    {
      this.gateType := gateType;
      output := null;
      inputs := [];
    }

    method AddInput(l: Line)
      modifies this`inputs
      ensures inputs == old(inputs) + [l]
    {
      inputs := inputs + [l];
    }

    method RemoveInput(lineId: string)
      modifies this`inputs
      ensures inputs == WithoutId(old(inputs), lineId)
    {
      inputs := WithoutId(inputs, lineId);
    }

    method SetOutput(l: Line)
      modifies this`output
      ensures output == l
    {
      output := l;
    }

    function InputIds(): seq<string>
      reads this`inputs
    {
      Ids(inputs)
    }

    /** `evaluate`: gather the input values in order, then apply the type's reduction. */
    method Evaluate(values: map<string, Word>) returns (r: Result<Word, Error>)
      ensures r == GateValue(gateType, InputIds(), values)
    {
      var ins := InputIds();
      var inputValues: seq<Word> := [];
      var i := 0;
      while i < |inputs|
        invariant 0 <= i <= |inputs|
        invariant Gather(ins[..i], values) == Ok(inputValues)
      {
        GatherStep(ins, values, i);
        var id := inputs[i].id;
        if id !in values {
          GatherPrefixFails(ins, values, i + 1);
          return Err(MissingValue(id));
        }
        inputValues := inputValues + [values[id]];
        i := i + 1;
      }
      assert ins[..i] == ins;
      r := Apply(gateType, inputValues);
    }
  }

  /** Once a prefix of the inputs fails to gather, the whole list fails the same way. */
  lemma {:induction false} GatherPrefixFails(ins: seq<string>, values: map<string, Word>, n: nat)
    requires n <= |ins| && Gather(ins[..n], values).Err?
    ensures Gather(ins, values) == Gather(ins[..n], values)
    decreases |ins| - n
  {
    if n < |ins| {
      assert ins[..n + 1][..n] == ins[..n];
      GatherPrefixFails(ins, values, n + 1);
    } else {
      assert ins[..n] == ins;
    }
  }
}

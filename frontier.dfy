/**
 * The pure parts of the search: the D-frontier, conflict detection, the success
 * test, the assignment of a value to the unknown inputs of a gate, and the value
 * updates of one fault-cone step and of the clean-up phase.
 */
module Frontier {

  import opened DCalculus
  import opened Netlist
  import opened Reach
  import opened Implication

  /** A node holding D or D' with at least one fan-out still at X. */
  predicate OnFrontier(c: Circuit, values: Values, id: string) {
    id in values && IsFaultEffect(values[id]) &&
    exists o :: o in GateOutputs(c, id) && o in values && values[o] == X
  }

  /** The ids of `nodes` (in their order) that are on the frontier. */
  function FrontierOf(c: Circuit, nodes: seq<Node>, values: Values): (r: seq<string>)
    ensures forall x :: x in r <==> exists n :: n in nodes && n.id == x && OnFrontier(c, values, x)
  {
    if nodes == [] then []
    else
      var prev := FrontierOf(c, nodes[..|nodes| - 1], values);
      var n := nodes[|nodes| - 1];
      assert forall m :: m in nodes <==> m in nodes[..|nodes| - 1] || m == n;
      if OnFrontier(c, values, n.id) then prev + [n.id] else prev
  }

  /** `updateDFrontier`: the D-frontier, in node-list order. */
  function DFrontier(c: Circuit, values: Values): seq<string> {
    FrontierOf(c, c.nodes, values)
  }

  /** `detectConflict`: some node holds CONFLICT. */
  predicate HasConflict(values: Values) {
    Conflict in values.Values
  }

  lemma HasConflictIff(values: Values)
    ensures HasConflict(values) <==> exists id :: id in values && values[id] == Conflict
  {
    if HasConflict(values) {
      var id :| id in values && values[id] == Conflict;
    }
  }

  /** `checkForTest`: the node named "Output1" holds D or D'. */
  predicate CheckForTest(values: Values) {
    "Output1" in values && IsFaultEffect(values["Output1"])
  }

  /**
   * `ids.forEach(id => { if (!skip.includes(id) && values[id] === "X") values[id] = v })`:
   * every id of `ids` outside `skip` that holds X gets `v`.
   */
  function AssignUnknown(values: Values, ids: seq<string>, skip: seq<string>, v: Value): (r: Values)
    ensures r.Keys == values.Keys
    ensures forall x :: x in values ==>
              r[x] == if x in ids && x !in skip && values[x] == X then v else values[x]
  {
    if ids == [] then values
    else
      var prev := AssignUnknown(values, ids[..|ids| - 1], skip, v);
      var id := ids[|ids| - 1];
      assert forall x :: x in ids <==> x in ids[..|ids| - 1] || x == id;
      if id !in skip && id in prev && prev[id] == X then prev[id := v] else prev
  }

  /** The assignment loop, proved to compute `AssignUnknown`. */
  method AssignWhereUnknown(values: Values, ids: seq<string>, skip: seq<string>, v: Value) returns (r: Values)
    ensures r == AssignUnknown(values, ids, skip, v)
  {
    r := values;
    var i := 0;
    while i < |ids|
      invariant 0 <= i <= |ids|
      invariant r == AssignUnknown(values, ids[..i], skip, v)
    {
      assert ids[..i + 1][..i] == ids[..i];
      var id := ids[i];
      if id !in skip && id in r && r[id] == X {
        r := r[id := v];
      }
      assert r == AssignUnknown(values, ids[..i + 1], skip, v);
      i := i + 1;
    }
    assert ids[..i] == ids;
  }

  /** Sensitization: the fault site becomes D, then its X inputs get its gate's controlling value. */
  function SensitizedValues(c: Circuit, faultSite: string, values: Values): Values
    requires faultSite in NodeIds(c)
  {
    AssignUnknown(values[faultSite := D], GateInputs(c, faultSite), [], ControllingValue(LabelOf(c, faultSite)))
  }

  /**
   * After sensitization the fault site holds D, its inputs that held X hold the
   * controlling value, and every other node keeps its value.
   */
  lemma SensitizationEffect(c: Circuit, faultSite: string, values: Values)
    requires faultSite in NodeIds(c) && faultSite in values
    ensures var r := SensitizedValues(c, faultSite, values);
      var ins := GateInputs(c, faultSite);
      r.Keys == values.Keys && r[faultSite] == D &&
      (forall x :: x in values && x != faultSite && x in ins && values[x] == X ==>
         r[x] == ControllingValue(LabelOf(c, faultSite))) &&
      (forall x :: x in values && x != faultSite && !(x in ins && values[x] == X) ==> r[x] == values[x])
  {
  }

  /** A fault-cone step at the fault site: its X inputs get the controlling value; nothing is evaluated. */
  function FaultSiteStep(c: Circuit, faultSite: string, values: Values): Values
    requires faultSite in NodeIds(c)
  {
    AssignUnknown(values, GateInputs(c, faultSite), [], ControllingValue(LabelOf(c, faultSite)))
  }

  /**
   * A fault-cone step at another gate: its X inputs that do not feed the fault site
   * get its non-controlling value, then the gate is evaluated on its inputs.
   */
  function GateStep(c: Circuit, faultSite: string, cur: string, values: Values): Values
    requires cur in NodeIds(c)
  {
    var gateType := LabelOf(c, cur);
    var ins := GateInputs(c, cur);
    var filled := AssignUnknown(values, ins, GateInputs(c, faultSite), NonControllingValue(gateType));
    filled[cur := EvalGate(gateType, InputValues(filled, ins))]
  }

  /** The fault site's own value survives a fault-site step unless it was X (and it feeds itself). */
  lemma FaultSiteStepKeepsFaultSite(c: Circuit, faultSite: string, values: Values)
    requires faultSite in NodeIds(c) && faultSite in values && values[faultSite] != X
    ensures FaultSiteStep(c, faultSite, values)[faultSite] == values[faultSite]
  {
  }

  /**
   * A step at a gate other than the fault site never alters an input of the fault
   * site (unless that input is the gate itself), and alters nothing outside the
   * gate and its own inputs.
   */
  lemma GateStepFrame(c: Circuit, faultSite: string, cur: string, values: Values, x: string)
    requires cur in NodeIds(c) && x in values && x != cur
    ensures var r := GateStep(c, faultSite, cur, values);
      (x in GateInputs(c, faultSite) ==> r[x] == values[x]) &&
      (x !in GateInputs(c, cur) ==> r[x] == values[x]) &&
      (x in GateInputs(c, cur) && x !in GateInputs(c, faultSite) && values[x] == X ==>
         r[x] == NonControllingValue(LabelOf(c, cur)))
  {
  }

  /** After a step at a gate that does not feed itself, the gate's value is its table value on its inputs. */
  lemma GateStepIsConsistent(c: Circuit, faultSite: string, cur: string, values: Values)
    requires cur in NodeIds(c) && cur !in GateInputs(c, cur)
    ensures var r := GateStep(c, faultSite, cur, values);
      r[cur] == EvalGate(LabelOf(c, cur), InputValues(r, GateInputs(c, cur)))
  {
    var gateType := LabelOf(c, cur);
    var ins := GateInputs(c, cur);
    var filled := AssignUnknown(values, ins, GateInputs(c, faultSite), NonControllingValue(gateType));
    var r := filled[cur := EvalGate(gateType, InputValues(filled, ins))];
    assert InputValues(r, ins) == InputValues(filled, ins);
  }

  /** `isGate` in the fault-site step: some node with that id is not labelled "Input". */
  predicate IsGateNode(c: Circuit, id: string) {
    exists n :: n in c.nodes && n.id == id && n.gateType != "Input"
  }

  /** The fault site's inputs that the fault-site step enqueues: gates not already in the queue. */
  function GateInputsToEnqueue(c: Circuit, ins: seq<string>, queue: seq<string>): (r: seq<string>)
    ensures forall x :: x in r <==> x in ins && IsGateNode(c, x) && x !in queue
  {
    if ins == [] then []
    else
      var prev := GateInputsToEnqueue(c, ins[..|ins| - 1], queue);
      var id := ins[|ins| - 1];
      assert forall x :: x in ins <==> x in ins[..|ins| - 1] || x == id;
      if IsGateNode(c, id) && id !in queue then prev + [id] else prev
  }

  /** `xs.filter(x => !queue.includes(x))`. */
  function NotQueued(xs: seq<string>, queue: seq<string>): (r: seq<string>)
    ensures forall x :: x in r <==> x in xs && x !in queue
  {
    if xs == [] then []
    else (if xs[0] in queue then [] else [xs[0]]) + NotQueued(xs[1..], queue)
  }

  // ---------------------------------------------------------------------------
  // Clean-up of the basis nodes
  // ---------------------------------------------------------------------------

  /** The non-controlling values of `gates`, in order. */
  function NonControllingValues(c: Circuit, gates: seq<string>): (r: seq<Value>)
    requires forall g :: g in gates ==> g in NodeIds(c)
    ensures |r| == |gates| && forall k :: 0 <= k < |gates| ==> r[k] == NonControllingValue(LabelOf(c, gates[k]))
  {
    if gates == [] then []
    else NonControllingValues(c, gates[..|gates| - 1]) + [NonControllingValue(LabelOf(c, gates[|gates| - 1]))]
  }

  /** The distinct non-controlling values of a longer prefix of `gates`. */
  lemma RequiredValuesStep(c: Circuit, gates: seq<string>, i: nat)
    requires forall g :: g in gates ==> g in NodeIds(c)
    requires i < |gates|
    ensures var prev := Dedup(NonControllingValues(c, gates[..i]));
      var v := NonControllingValue(LabelOf(c, gates[i]));
      Dedup(NonControllingValues(c, gates[..i + 1])) == if v in prev then prev else prev + [v]
  {
    assert gates[..i + 1][..i] == gates[..i];
    var vs := NonControllingValues(c, gates[..i + 1]);
    assert vs[..|vs| - 1] == NonControllingValues(c, gates[..i]);
  }

  /**
   * `determineFinalValue`: the non-controlling value all fan-out gates of the node
   * agree on; when they disagree, the first one if some fan-out gate lies on a path
   * from the fault site, and X otherwise.
   */
  ghost function FinalValue(c: Circuit, faultSite: string, nodeId: string): Value
    requires WellFormed(c)
  {
    var gates := GateOutputs(c, nodeId);
    var required := Dedup(NonControllingValues(c, gates));
    if |required| == 1 then required[0]
    else if |required| > 0 && exists g :: g in gates && Reaches(c, [], faultSite, g) then required[0]
    else X
  }

  /** Clean-up writes 0, 1 or X, never a fault effect or CONFLICT. */
  lemma FinalValueIsBinaryOrUnknown(c: Circuit, faultSite: string, nodeId: string)
    requires WellFormed(c)
    ensures FinalValue(c, faultSite, nodeId) in {Zero, One, X}
  {
    var gates := GateOutputs(c, nodeId);
    var required := Dedup(NonControllingValues(c, gates));
    if |required| > 0 {
      assert required[0] in NonControllingValues(c, gates);
    }
  }

  /** When every fan-out gate asks for the same non-controlling value `v`, the node gets `v`. */
  lemma FinalValueWhenFanOutAgrees(c: Circuit, faultSite: string, nodeId: string, v: Value)
    requires WellFormed(c) && |GateOutputs(c, nodeId)| > 0
    requires forall g :: g in GateOutputs(c, nodeId) ==> NonControllingValue(LabelOf(c, g)) == v
    ensures FinalValue(c, faultSite, nodeId) == v
  {
    var gates := GateOutputs(c, nodeId);
    var values := NonControllingValues(c, gates);
    var required := Dedup(values);
    forall k | 0 <= k < |values|
      ensures values[k] == v
    {
      assert gates[k] in gates;
    }
    DedupOfConstant(values, v);
  }

  /**
   * A node whose value is decided is given the non-controlling value of its FIRST
   * fan-out gate, even when that gate is not on a path from the fault site.
   */
  lemma FinalValueIsFirstFanOutsChoice(c: Circuit, faultSite: string, nodeId: string)
    requires WellFormed(c) && FinalValue(c, faultSite, nodeId) != X
    ensures |GateOutputs(c, nodeId)| > 0
    ensures FinalValue(c, faultSite, nodeId) == NonControllingValue(LabelOf(c, GateOutputs(c, nodeId)[0]))
  {
    var gates := GateOutputs(c, nodeId);
    var values := NonControllingValues(c, gates);
    DedupKeepsFirst(values);
  }

  lemma {:induction false} DedupOfConstant<T(!new)>(xs: seq<T>, v: T)
    requires |xs| > 0 && forall k :: 0 <= k < |xs| ==> xs[k] == v
    ensures Dedup(xs) == [v]
  {
    if |xs| > 1 {
      DedupOfConstant(xs[..|xs| - 1], v);
    }
  }

  lemma DedupKeepsFirst<T(!new)>(xs: seq<T>)
    requires |xs| > 0
    ensures |Dedup(xs)| > 0 && Dedup(xs)[0] == xs[0]
  {
    if |xs| > 1 {
      DedupKeepsFirst(xs[..|xs| - 1]);
    }
  }

  /**
   * The assignments of the clean-up phase: each basis node still at X gets its final
   * value; the nodes whose final value is not X are listed, in basis order.
   */
  ghost function AssignBasis(c: Circuit, faultSite: string, values: Values, basis: seq<string>): (r: (Values, seq<string>))
    requires WellFormed(c)
    ensures r.0.Keys == values.Keys
    ensures forall u :: u in r.1 ==> u in values
  {
    if basis == [] then (values, [])
    else
      var prev := AssignBasis(c, faultSite, values, basis[..|basis| - 1]);
      var b := basis[|basis| - 1];
      if b in prev.0 && prev.0[b] == X then
        var v := FinalValue(c, faultSite, b);
        (prev.0[b := v], if v != X then prev.1 + [b] else prev.1)
      else prev
  }

  /**
   * Only basis nodes that held X change, each to its final value; the listed nodes
   * are exactly the changed ones.
   */
  lemma {:induction false} AssignBasisEffect(c: Circuit, faultSite: string, values: Values, basis: seq<string>)
    requires WellFormed(c)
    ensures var r := AssignBasis(c, faultSite, values, basis);
      (forall x :: x in values ==>
         r.0[x] == if x in basis && values[x] == X then FinalValue(c, faultSite, x) else values[x]) &&
      (forall x :: x in r.1 <==> x in values && x in basis && values[x] == X && FinalValue(c, faultSite, x) != X)
  {
    if basis != [] {
      var prefix := basis[..|basis| - 1];
      AssignBasisEffect(c, faultSite, values, prefix);
      assert forall x :: x in basis <==> x in prefix || x == basis[|basis| - 1];
    }
  }

  /** The implication passes of the clean-up phase, one from each updated basis node, in order. */
  function ImplyFrom(c: Circuit, faultSite: string, values: Values, updated: seq<string>): (r: Values)
    requires WellFormed(c) && Covers(c, values) && forall u :: u in updated ==> u in NodeIds(c)
    ensures r.Keys == values.Keys
  {
    if updated == [] then values
    else
      var prev := ImplyFrom(c, faultSite, values, updated[..|updated| - 1]);
      Implications(c, faultSite, updated[|updated| - 1], prev).values
  }

  /** One more pass on top of the passes from a prefix of the updated nodes. */
  lemma ImplyFromStep(c: Circuit, faultSite: string, values: Values, updated: seq<string>, j: nat)
    requires WellFormed(c) && Covers(c, values) && forall u :: u in updated ==> u in NodeIds(c)
    requires j < |updated|
    ensures Covers(c, ImplyFrom(c, faultSite, values, updated[..j]))
    ensures ImplyFrom(c, faultSite, values, updated[..j + 1]) ==
            Implications(c, faultSite, updated[j], ImplyFrom(c, faultSite, values, updated[..j])).values
  {
    assert updated[..j + 1][..j] == updated[..j];
  }

  /** The second loop of `cleanupBasisNodes`: one implication pass per updated node, each on the result of the last. */
  method ImplyAll(c: Circuit, faultSite: string, values: Values, updated: seq<string>) returns (r: Values)
    requires WellFormed(c) && Covers(c, values) && forall u :: u in updated ==> u in NodeIds(c)
    ensures r == ImplyFrom(c, faultSite, values, updated)
  {
    r := values;
    var j := 0;
    assert updated[..0] == [];
    while j < |updated|
      invariant 0 <= j <= |updated|
      invariant Covers(c, r) && r == ImplyFrom(c, faultSite, values, updated[..j])
    {
      ImplyFromStep(c, faultSite, values, updated, j);
      r := CalculateImplications(c, faultSite, updated[j], r);
      j := j + 1;
    }
    assert updated[..j] == updated;
  }

  /** When the updated basis nodes are all Input nodes, the implication passes change nothing. */
  lemma {:induction false} ImplyFromInputNodesChangesNothing(c: Circuit, faultSite: string, values: Values,
                                                            updated: seq<string>)
    requires WellFormed(c) && Covers(c, values)
    requires forall u :: u in updated ==> u in NodeIds(c) && IsInputLabel(LabelOf(c, u))
    ensures ImplyFrom(c, faultSite, values, updated) == values
  {
    if updated != [] {
      ImplyFromInputNodesChangesNothing(c, faultSite, values, updated[..|updated| - 1]);
      ImplicationsFromInputNodeChangeNothing(c, faultSite, updated[|updated| - 1], values);
    }
  }
}

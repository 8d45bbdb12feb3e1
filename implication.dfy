/**
 * Forward implication (`calculateImplications`): a FIFO pass from one seed node
 * that re-evaluates each reached gate at most once, enqueues a gate's fan-out
 * when the gate's value changes, activates the fault site (its X inputs get the
 * controlling value, its other non-controlling inputs become CONFLICT) instead
 * of evaluating it, skips Input nodes, and stops at a node that evaluates to
 * CONFLICT.
 *
 * `Drain` is the pass as a recursive function over (queue, visited, values);
 * the method `CalculateImplications` is the loop, proved to compute it.
 */
module Implication {

  import opened Wrappers
  import opened DCalculus
  import opened Netlist

  /** What one fault-site input ends up holding after activation with controlling value `ctrl`. */
  function Activated(v: Value, ctrl: Value): Value {
    if v == X then ctrl else if v != ctrl then Conflict else v
  }

  /**
   * Activation of the fault site's inputs, one input after the other: an X input
   * receives `ctrl` and is enqueued, an input holding anything else but `ctrl`
   * becomes CONFLICT. Returns the new values and the enqueued inputs.
   */
  function Activate(values: Values, ins: seq<string>, ctrl: Value): (r: (Values, seq<string>))
    requires forall x :: x in ins ==> x in values
    ensures r.0.Keys == values.Keys
  {
    if ins == [] then (values, [])
    else ActivateOne(Activate(values, ins[..|ins| - 1], ctrl), ins[|ins| - 1], ctrl)
  }

  /**
   * What activation does: each listed input ends as `Activated` of its old value,
   * every other node keeps its value, and exactly the inputs that were X are enqueued.
   */
  lemma {:induction false} ActivateMeaning(values: Values, ins: seq<string>, ctrl: Value)
    requires forall x :: x in ins ==> x in values
    ensures var r := Activate(values, ins, ctrl);
      (forall x :: x in values ==> r.0[x] == if x in ins then Activated(values[x], ctrl) else values[x]) &&
      (forall x :: x in r.1 <==> x in ins && values[x] == X)
  {
    if ins != [] {
      var init := ins[..|ins| - 1];
      assert forall x :: x in ins <==> x in init || x == ins[|ins| - 1];
      ActivateMeaning(values, init, ctrl);
    }
  }

  /** Activation of the input `id` on top of `prev`. */
  function ActivateOne(prev: (Values, seq<string>), id: string, ctrl: Value): (Values, seq<string>)
    requires id in prev.0
  {
    if prev.0[id] == X then (prev.0[id := ctrl], prev.1 + [id])
    else if prev.0[id] != ctrl then (prev.0[id := Conflict], prev.1)
    else prev
  }

  /** Activating twice is activating once. */
  lemma ActivatedIsIdempotent(v: Value, ctrl: Value)
    ensures Activated(Activated(v, ctrl), ctrl) == Activated(v, ctrl)
  {
  }

  /** What processing one dequeued node does: new values, nodes to enqueue, whether the pass stops. */
  datatype Outcome = Outcome(values: Values, pushed: seq<string>, halt: bool)

  /** A node invariant of the pass: the circuit is well formed, every node has a value, the queue holds nodes. */
  predicate Ready(c: Circuit, queue: seq<string>, values: Values) {
    WellFormed(c) && Covers(c, values) && forall x :: x in queue ==> x in NodeIds(c)
  }

  /** Processing of the node `cur` the first time it is dequeued. */
  function ProcessNode(c: Circuit, faultSite: string, cur: string, values: Values): (r: Outcome)
    requires WellFormed(c) && Covers(c, values) && cur in NodeIds(c)
    ensures r.values.Keys == values.Keys
    ensures forall x :: x in r.pushed ==> x in NodeIds(c)
    // only the node itself (when it is evaluated) or, at the fault site, its fan-in can change
    ensures forall x :: x in values && r.values[x] != values[x] ==>
              (x == cur && !IsInputLabel(LabelOf(c, cur))) ||
              (cur == faultSite && IsFaultEffect(values[cur]) && x in GateInputs(c, cur) &&
               r.values[x] == Activated(values[x], ControllingValue(LabelOf(c, cur))))
  {
    var gateType := LabelOf(c, cur);
    if IsInputLabel(gateType) then Outcome(values, [], false)
    else if cur == faultSite && IsFaultEffect(values[cur]) then
      var a := Activate(values, GateInputs(c, cur), ControllingValue(gateType));
      ActivateMeaning(values, GateInputs(c, cur), ControllingValue(gateType));
      Outcome(a.0, a.1, false)
    else
      var out := EvalGate(gateType, InputValues(values, GateInputs(c, cur)));
      if values[cur] != out then Outcome(values[cur := out], GateOutputs(c, cur), out == Conflict)
      else Outcome(values, [], out == Conflict)
  }

  /** Only a node labelled "Output" passing CONFLICT through from its first input stops the pass. */
  lemma ProcessNodeHalts(c: Circuit, faultSite: string, cur: string, values: Values)
    requires WellFormed(c) && Covers(c, values) && cur in NodeIds(c)
    ensures var o := ProcessNode(c, faultSite, cur, values);
      o.halt ==> GateKindOf(LabelOf(c, cur)) == Some(Output) && o.values[cur] == Conflict
  {
    var gateType := LabelOf(c, cur);
    if !IsInputLabel(gateType) && !(cur == faultSite && IsFaultEffect(values[cur])) {
      TablesNeverProduceConflict(gateType, InputValues(values, GateInputs(c, cur)));
    }
  }

  /** The result of a pass: final values, the nodes dequeued for the first time (in order), whether it stopped early. */
  datatype Pass = Pass(values: Values, processed: seq<string>, halted: bool)

  /** The pass from the state (queue, visited, values) to its end. */
  function Drain(c: Circuit, faultSite: string, queue: seq<string>, visited: set<string>, values: Values): (r: Pass)
    requires Ready(c, queue, values)
    ensures r.values.Keys == values.Keys
    // each node is processed at most once, and never one visited before
    ensures forall i, j :: 0 <= i < j < |r.processed| ==> r.processed[i] != r.processed[j]
    ensures forall x :: x in r.processed ==> x in NodeIds(c) && x !in visited
    decreases NodeIds(c) - visited, |queue|
  {
    if queue == [] then Pass(values, [], false)
    else if queue[0] in visited then Drain(c, faultSite, queue[1..], visited, values)
    else
      var o := ProcessNode(c, faultSite, queue[0], values);
      if o.halt then Pass(o.values, [queue[0]], true)
      else
        var rest := Drain(c, faultSite, queue[1..] + o.pushed, visited + {queue[0]}, o.values);
        Pass(rest.values, [queue[0]] + rest.processed, rest.halted)
  }

  /** `calculateImplications(nodeId, values)` as a function. */
  function Implications(c: Circuit, faultSite: string, nodeId: string, values: Values): Pass
    requires WellFormed(c) && Covers(c, values) && nodeId in NodeIds(c)
  {
    Drain(c, faultSite, [nodeId], {}, values)
  }

  /** `r` and `pushed` are the activation of the first `i` inputs. */
  predicate ActivatedPrefix(values: Values, ins: seq<string>, ctrl: Value, i: nat, r: Values, pushed: seq<string>)
    requires forall x :: x in ins ==> x in values
  {
    i <= |ins| && (r, pushed) == Activate(values, ins[..i], ctrl)
  }

  /** Activation of one more input on top of a prefix. */
  lemma ActivateStep(values: Values, ins: seq<string>, ctrl: Value, i: nat, r: Values, pushed: seq<string>)
    requires forall x :: x in ins ==> x in values
    requires i < |ins| && ActivatedPrefix(values, ins, ctrl, i, r, pushed)
    ensures ins[i] in r
    ensures var next := ActivateOne((r, pushed), ins[i], ctrl);
      ActivatedPrefix(values, ins, ctrl, i + 1, next.0, next.1)
  {
    assert ins[..i + 1][..i] == ins[..i];
  }

  /** The activation loop of the fault site (`inputs.forEach`), proved to compute `Activate`. */
  method ActivateInputs(values: Values, ins: seq<string>, ctrl: Value) returns (r: Values, pushed: seq<string>)
    requires forall x :: x in ins ==> x in values
    ensures (r, pushed) == Activate(values, ins, ctrl)
  {
    r, pushed := values, [];
    var i := 0;
    while i < |ins|
      invariant ActivatedPrefix(values, ins, ctrl, i, r, pushed)
    {
      ActivateStep(values, ins, ctrl, i, r, pushed);
      var id := ins[i];
      if r[id] == X {
        r := r[id := ctrl];
        pushed := pushed + [id];
      } else if r[id] != ctrl {
        r := r[id := Conflict];
      }
      i := i + 1;
    }
    assert ins[..i] == ins;
  }

  /** One step of the pass on a node not visited yet. */
  lemma DrainUnfold(c: Circuit, faultSite: string, queue: seq<string>, visited: set<string>, values: Values)
    requires Ready(c, queue, values) && queue != [] && queue[0] !in visited
    ensures var o := ProcessNode(c, faultSite, queue[0], values);
      Drain(c, faultSite, queue, visited, values) ==
        if o.halt then Pass(o.values, [queue[0]], true)
        else
          var rest := Drain(c, faultSite, queue[1..] + o.pushed, visited + {queue[0]}, o.values);
          Pass(rest.values, [queue[0]] + rest.processed, rest.halted)
  {
  }

  /** The body of the implication loop for a node dequeued for the first time. */
  method ProcessDequeued(c: Circuit, faultSite: string, cur: string, values: Values)
    returns (r: Values, pushed: seq<string>, halt: bool)
    requires WellFormed(c) && Covers(c, values) && cur in NodeIds(c)
    ensures Outcome(r, pushed, halt) == ProcessNode(c, faultSite, cur, values)
  {
    r, pushed, halt := values, [], false;
    var gateType := LabelOf(c, cur);
    if IsInputLabel(gateType) {
      return;
    }
    var ins := GateInputs(c, cur);
    if cur == faultSite && (r[cur] == D || r[cur] == DBar) {
      r, pushed := ActivateInputs(r, ins, ControllingValue(gateType));
      return;
    }
    var out := EvalGate(gateType, InputValues(r, ins));
    if r[cur] != out {
      r := r[cur := out];
      pushed := GateOutputs(c, cur);
    }
    if r[cur] == Conflict {
      halt := true;
    }
  }

  /** The implication loop; the value map it returns is the one the pass computes. */
  method CalculateImplications(c: Circuit, faultSite: string, nodeId: string, values: Values) returns (r: Values)
    requires WellFormed(c) && Covers(c, values) && nodeId in NodeIds(c)
    ensures r == Implications(c, faultSite, nodeId, values).values
  {
    var queue := [nodeId];
    var visited: set<string> := {};
    r := values;
    while queue != []
      invariant Ready(c, queue, r)
      invariant Drain(c, faultSite, queue, visited, r).values == Implications(c, faultSite, nodeId, values).values
      decreases NodeIds(c) - visited, |queue|
    {
      var cur := queue[0];
      if cur in visited {
        queue := queue[1..];
        continue;
      }
      DrainUnfold(c, faultSite, queue, visited, r);
      var pushed, halt;
      r, pushed, halt := ProcessDequeued(c, faultSite, cur, r);
      queue := queue[1..] + pushed;
      visited := visited + {cur};
      if halt {
        break;
      }
    }
  }

  /**
   * A node changes only if the pass processed it and it is not an Input node, or
   * it feeds the fault site and the pass processed the fault site.
   */
  lemma {:induction false} DrainChangesOnlyProcessedNodes(c: Circuit, faultSite: string, queue: seq<string>,
                                                          visited: set<string>, values: Values, x: string)
    requires Ready(c, queue, values) && x in values
    ensures var r := Drain(c, faultSite, queue, visited, values);
      r.values[x] != values[x] ==>
        (x in r.processed && !IsInputLabel(LabelOf(c, x))) ||
        (faultSite in r.processed && x in GateInputs(c, faultSite))
    decreases NodeIds(c) - visited, |queue|
  {
    if queue == [] {
    } else if queue[0] in visited {
      DrainChangesOnlyProcessedNodes(c, faultSite, queue[1..], visited, values, x);
    } else {
      var o := ProcessNode(c, faultSite, queue[0], values);
      if !o.halt {
        DrainChangesOnlyProcessedNodes(c, faultSite, queue[1..] + o.pushed, visited + {queue[0]}, o.values, x);
      }
    }
  }

  lemma DistinctLabelsDistinctNodes(c: Circuit, x: string, y: string)
    requires x in NodeIds(c) && y in NodeIds(c)
    requires IsInputLabel(LabelOf(c, x)) && !IsInputLabel(LabelOf(c, y))
    ensures x != y
  {
  }

  /** One step keeps an Input node's value, except that activating the fault site may activate it. */
  lemma ProcessNodeInputNodes(c: Circuit, faultSite: string, cur: string, values: Values, x: string)
    requires WellFormed(c) && Covers(c, values) && cur in NodeIds(c)
    requires x in NodeIds(c) && IsInputLabel(LabelOf(c, x))
    ensures var o := ProcessNode(c, faultSite, cur, values);
      o.values[x] == values[x] ||
      (cur == faultSite && x in GateInputs(c, faultSite) &&
       o.values[x] == Activated(values[x], ControllingValue(LabelOf(c, faultSite))))
  {
    var gateType := LabelOf(c, cur);
    if !IsInputLabel(gateType) {
      DistinctLabelsDistinctNodes(c, x, cur);
    }
  }

  /**
   * An Input node keeps its value, except a fan-in of the fault site, which may
   * take its activated value (the controlling value of the fault site's gate, or
   * CONFLICT).
   */
  lemma {:induction false} DrainInputNodes(c: Circuit, faultSite: string, queue: seq<string>,
                                           visited: set<string>, values: Values, x: string)
    requires Ready(c, queue, values) && x in NodeIds(c) && IsInputLabel(LabelOf(c, x))
    ensures var r := Drain(c, faultSite, queue, visited, values);
      r.values[x] == values[x] ||
      (faultSite in NodeIds(c) && x in GateInputs(c, faultSite) &&
       r.values[x] == Activated(values[x], ControllingValue(LabelOf(c, faultSite))))
    decreases NodeIds(c) - visited, |queue|
  {
    if queue == [] {
    } else if queue[0] in visited {
      DrainInputNodes(c, faultSite, queue[1..], visited, values, x);
    } else {
      var o := ProcessNode(c, faultSite, queue[0], values);
      ProcessNodeInputNodes(c, faultSite, queue[0], values, x);
      DrainUnfold(c, faultSite, queue, visited, values);
      if !o.halt {
        DrainInputNodes(c, faultSite, queue[1..] + o.pushed, visited + {queue[0]}, o.values, x);
        if o.values[x] != values[x] {
          ActivatedIsIdempotent(values[x], ControllingValue(LabelOf(c, faultSite)));
        }
      }
    }
  }

  /**
   * A fault site holding D or D' keeps it through the pass, unless it feeds itself
   * (then activation turns it into CONFLICT).
   */
  lemma {:induction false} DrainKeepsFaultEffect(c: Circuit, faultSite: string, queue: seq<string>,
                                                 visited: set<string>, values: Values)
    requires Ready(c, queue, values) && faultSite in NodeIds(c)
    requires IsFaultEffect(values[faultSite]) && faultSite !in GateInputs(c, faultSite)
    ensures Drain(c, faultSite, queue, visited, values).values[faultSite] == values[faultSite]
    decreases NodeIds(c) - visited, |queue|
  {
    if queue == [] {
    } else if queue[0] in visited {
      DrainKeepsFaultEffect(c, faultSite, queue[1..], visited, values);
    } else {
      var o := ProcessNode(c, faultSite, queue[0], values);
      if queue[0] == faultSite {
        ActivateMeaning(values, GateInputs(c, faultSite), ControllingValue(LabelOf(c, faultSite)));
      }
      if !o.halt {
        DrainKeepsFaultEffect(c, faultSite, queue[1..] + o.pushed, visited + {queue[0]}, o.values);
      }
    }
  }

  /** The last node the pass processed is labelled "Output" and holds CONFLICT. */
  predicate StoppedAtConflictingOutput(c: Circuit, r: Pass)
    requires forall x :: x in r.processed ==> x in NodeIds(c) && x in r.values
  {
    |r.processed| > 0 &&
    GateKindOf(LabelOf(c, r.processed[|r.processed| - 1])) == Some(Output) &&
    r.values[r.processed[|r.processed| - 1]] == Conflict
  }

  /**
   * The pass stops early only right after a node labelled "Output" took CONFLICT
   * (passed through from its first input): no gate table produces CONFLICT.
   */
  lemma {:induction false} DrainHaltsOnlyAtConflictingOutput(c: Circuit, faultSite: string, queue: seq<string>,
                                                             visited: set<string>, values: Values)
    requires Ready(c, queue, values)
    ensures var r := Drain(c, faultSite, queue, visited, values);
      r.halted ==> StoppedAtConflictingOutput(c, r)
    decreases NodeIds(c) - visited, |queue|
  {
    if queue == [] {
    } else if queue[0] in visited {
      DrainHaltsOnlyAtConflictingOutput(c, faultSite, queue[1..], visited, values);
    } else {
      var o := ProcessNode(c, faultSite, queue[0], values);
      DrainUnfold(c, faultSite, queue, visited, values);
      if o.halt {
        ProcessNodeHalts(c, faultSite, queue[0], values);
      } else {
        var rest := Drain(c, faultSite, queue[1..] + o.pushed, visited + {queue[0]}, o.values);
        DrainHaltsOnlyAtConflictingOutput(c, faultSite, queue[1..] + o.pushed, visited + {queue[0]}, o.values);
        StoppedAfterOneMore(c, queue[0], rest);
      }
    }
  }

  /** Putting a node in front of a pass that stopped at a conflicting output keeps the stop point. */
  lemma StoppedAfterOneMore(c: Circuit, first: string, rest: Pass)
    requires first in NodeIds(c) && first in rest.values
    requires forall x :: x in rest.processed ==> x in NodeIds(c) && x in rest.values
    requires rest.halted ==> StoppedAtConflictingOutput(c, rest)
    ensures var r := Pass(rest.values, [first] + rest.processed, rest.halted);
      r.halted ==> StoppedAtConflictingOutput(c, r)
  {
  }

  /** A gate's fan-out is enqueued only when its value changed; the fault site enqueues only its X inputs. */
  lemma PushOnlyOnChange(c: Circuit, faultSite: string, cur: string, values: Values)
    requires WellFormed(c) && Covers(c, values) && cur in NodeIds(c)
    ensures var o := ProcessNode(c, faultSite, cur, values);
      o.pushed != [] ==>
        (o.values[cur] != values[cur] && o.pushed == GateOutputs(c, cur)) ||
        (cur == faultSite && IsFaultEffect(values[cur]) &&
         forall x :: x in o.pushed ==> x in GateInputs(c, cur) && values[x] == X)
  {
    if cur == faultSite {
      ActivateMeaning(values, GateInputs(c, cur), ControllingValue(LabelOf(c, cur)));
    }
  }

  /** Implication seeded at an Input node changes nothing (clean-up seeds it at basis nodes, which are inputs). */
  lemma ImplicationsFromInputNodeChangeNothing(c: Circuit, faultSite: string, nodeId: string, values: Values)
    requires WellFormed(c) && Covers(c, values) && nodeId in NodeIds(c) && IsInputLabel(LabelOf(c, nodeId))
    ensures Implications(c, faultSite, nodeId, values) == Pass(values, [nodeId], false)
  {
    assert ProcessNode(c, faultSite, nodeId, values) == Outcome(values, [], false);
    DrainUnfold(c, faultSite, [nodeId], {}, values);
    assert [nodeId][1..] + [] == [];
  }
}

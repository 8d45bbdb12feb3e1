/**
 * The ATPG front end's component state and its handlers: fault sensitization,
 * step-by-step fault-cone tracing, backtracking, the blocked-paths check, the
 * clean-up of the basis nodes, and reset.
 *
 * React state setters are modelled as assignments that take effect when the
 * handler returns: a handler reads the state as it was when it started, and a
 * queue updater (`prev => ...`) applies to the queue left by earlier updaters of
 * the same handler.
 */
module Session {

  import opened Wrappers
  import opened DCalculus
  import opened Netlist
  import opened Reach
  import opened Implication
  import opened Frontier

  /** A search-stack entry: the node values after a step and the D-frontier from before it. */
  datatype Checkpoint = Checkpoint(nodeValues: Values, dFrontier: seq<string>)

  /** `currentStep`: only sensitization moves it, to "complete". */
  datatype Step = SensitizeFault | Complete

  /** The messages the handlers show with `alert`. */
  datatype Alert =
    | StartTracingFirst
    | TracingComplete
    | SensitizationConflict
    | TracingConflict
    | TestPatternFound
    | NothingToBacktrack
    | PathsBlocked
    | CleanupComplete

  /** The whole component state, as one value. */
  datatype Snapshot = Snapshot(
    currentStep: Step,
    nodeValues: Values,
    searchStack: seq<Checkpoint>,
    dFrontier: seq<string>,
    faultConeQueue: seq<string>,
    isTracing: bool,
    testPatternFound: bool,
    isCleaningUp: bool)

  /**
   * The frame invariant of a session: every value map covers exactly the nodes, and the
   * queue holds nodes. It says nothing about the soundness of the D-algorithm's search;
   * what each handler does is stated by its own transition.
   */
  predicate Inv(c: Circuit, faultSite: string, s: Snapshot) {
    WellFormed(c) && faultSite in NodeIds(c) &&
    s.nodeValues.Keys == NodeIds(c) &&
    (forall k :: 0 <= k < |s.searchStack| ==> s.searchStack[k].nodeValues.Keys == NodeIds(c)) &&
    (forall x :: x in s.faultConeQueue ==> x in NodeIds(c))
  }

  /** The state of a fresh session and after `handleReset`. */
  function ResetState(c: Circuit): Snapshot {
    Snapshot(SensitizeFault, AllUnknown(c), [], [], [], false, false, false)
  }

  /**
   * `handleFaultSensitization`: the sensitized values, the fault site's fan-out as
   * both queue and D-frontier, a checkpoint holding the new values with the old
   * D-frontier, and the search marked complete on a conflict.
   */
  function Sensitize(c: Circuit, faultSite: string, s: Snapshot): (Snapshot, seq<Alert>)
    requires faultSite in NodeIds(c)
  {
    Sensitized(c, faultSite, s, SensitizedValues(c, faultSite, s.nodeValues))
  }

  /** The state changes of sensitization, given the values it computed. */
  function Sensitized(c: Circuit, faultSite: string, s: Snapshot, values: Values): (Snapshot, seq<Alert>) {
    var drivenGates := GateOutputs(c, faultSite);
    var conflict := HasConflict(values);
    (s.(nodeValues := values, faultConeQueue := drivenGates, dFrontier := drivenGates,
        searchStack := s.searchStack + [Checkpoint(values, s.dFrontier)],
        currentStep := if conflict then Complete else s.currentStep),
     if conflict then [SensitizationConflict] else [])
  }

  /** `backtrack`: restore the last checkpoint and drop it; with none, only a message. */
  function Backtracked(s: Snapshot): (Snapshot, seq<Alert>) {
    if s.searchStack == [] then (s, [NothingToBacktrack])
    else
      var last := s.searchStack[|s.searchStack| - 1];
      (s.(nodeValues := last.nodeValues, dFrontier := last.dFrontier,
          searchStack := s.searchStack[..|s.searchStack| - 1]), [])
  }

  /** The values a tracing step from `cur` produces. */
  function StepValues(c: Circuit, faultSite: string, cur: string, values: Values): Values
    requires faultSite in NodeIds(c) && cur in NodeIds(c)
  {
    if cur == faultSite then FaultSiteStep(c, faultSite, values) else GateStep(c, faultSite, cur, values)
  }

  /** The nodes a tracing step from `cur` appends to the queue, given the queue it started from. */
  function Enqueued(c: Circuit, faultSite: string, cur: string, values: Values, queue: seq<string>): seq<string> {
    if cur == faultSite then GateInputsToEnqueue(c, GateInputs(c, cur), queue)
    else if HasConflict(values) then []
    else NotQueued(GateOutputs(c, cur), queue)
  }

  /**
   * The end of a tracing step that produced `values`: they are committed, the
   * D-frontier is recomputed, a checkpoint keeps them with the old D-frontier; a
   * conflict or a test pattern at "Output1" stops tracing.
   */
  function Commit(c: Circuit, s: Snapshot, values: Values): (Snapshot, seq<Alert>) {
    var conflict := HasConflict(values);
    var found := !conflict && CheckForTest(values);
    (s.(nodeValues := values, dFrontier := DFrontier(c, values),
        searchStack := s.searchStack + [Checkpoint(values, s.dFrontier)],
        isTracing := if conflict || found then false else s.isTracing,
        testPatternFound := s.testPatternFound || found),
     if conflict then [TracingConflict] else if found then [TestPatternFound] else [])
  }

  /** One tracing step from the head of the queue: the head leaves, new nodes are enqueued, the values change. */
  function TraceStep(c: Circuit, faultSite: string, s: Snapshot): (Snapshot, seq<Alert>)
    requires faultSite in NodeIds(c) && s.faultConeQueue != [] && s.faultConeQueue[0] in NodeIds(c)
  {
    var cur := s.faultConeQueue[0];
    var values := StepValues(c, faultSite, cur, s.nodeValues);
    Commit(c, s.(faultConeQueue := s.faultConeQueue[1..] + Enqueued(c, faultSite, cur, values, s.faultConeQueue)),
           values)
  }

  /** `handleNextStep`. */
  function NextStep(c: Circuit, faultSite: string, s: Snapshot): (Snapshot, seq<Alert>)
    requires Inv(c, faultSite, s)
  {
    if !s.isTracing then (s, [StartTracingFirst])
    else if s.faultConeQueue == [] then
      (s.(isTracing := false), if s.testPatternFound then [] else [TracingComplete])
    else TraceStep(c, faultSite, s)
  }

  /** `checkObservationPaths`: with an empty D-frontier, no test and no clean-up running, backtrack. */
  function ObservationCheck(s: Snapshot): (Snapshot, seq<Alert>) {
    if s.dFrontier == [] && !CheckForTest(s.nodeValues) && !s.isCleaningUp then
      var b := Backtracked(s);
      (b.0, [PathsBlocked] + b.1)
    else (s, [])
  }

  /**
   * The end of the clean-up, after the assignments: an implication pass from each
   * updated node, on one value map; the D-frontier is recomputed when there was such
   * a node; the clean-up flag is lowered if a test pattern had been found.
   */
  function FinishCleanup(c: Circuit, faultSite: string, s: Snapshot, filled: Values, updated: seq<string>)
    : (Snapshot, seq<Alert>)
    requires WellFormed(c) && Covers(c, filled) && forall u :: u in updated ==> u in NodeIds(c)
  {
    var values := ImplyFrom(c, faultSite, filled, updated);
    (s.(nodeValues := values, dFrontier := if updated == [] then s.dFrontier else DFrontier(c, values),
        isCleaningUp := if s.testPatternFound then false else s.isCleaningUp),
     [CleanupComplete])
  }

  /**
   * `cleanupBasisNodes`: the clean-up flag is raised, each basis node still at X
   * gets its final value, and the clean-up finishes from the nodes that got 0 or 1.
   */
  ghost function Cleanup(c: Circuit, faultSite: string, basisNodes: seq<string>, s: Snapshot): (Snapshot, seq<Alert>)
    requires Inv(c, faultSite, s)
  {
    var a := AssignBasis(c, faultSite, s.nodeValues, basisNodes);
    FinishCleanup(c, faultSite, s.(isCleaningUp := true), a.0, a.1)
  }

  /**
   * The second loop of `determineFinalValue`: the first required value as soon as any
   * fan-out gate lies on the fault path, else X.
   */
  method PreferFaultPath(required: seq<Value>, gates: seq<string>, path: seq<string>) returns (v: Value)
    ensures v == if |required| > 0 && exists g :: g in gates && g in path then required[0] else X
  {
    var j := 0;
    while j < |required|
      invariant 0 <= j <= |required|
      invariant j > 0 ==> forall g :: g in gates ==> g !in path
    {
      var k := 0;
      while k < |gates|
        invariant 0 <= k <= |gates|
        invariant forall m :: 0 <= m < k ==> gates[m] !in path
      {
        if gates[k] in path {
          return required[j];
        }
        k := k + 1;
      }
      j := j + 1;
    }
    return X;
  }

  class AtpgSession {
    const circuit: Circuit
    const faultSite: string
    /** The basis nodes the clean-up phase assigns. */
    const basisNodes: seq<string>

    var currentStep: Step
    var nodeValues: Values
    var searchStack: seq<Checkpoint>
    var dFrontier: seq<string>
    var faultConeQueue: seq<string>
    var isTracing: bool
    var testPatternFound: bool
    var isCleaningUp: bool

    function State(): Snapshot
      reads this
    {
      Snapshot(currentStep, nodeValues, searchStack, dFrontier, faultConeQueue, isTracing, testPatternFound,
               isCleaningUp)
    }

    predicate Valid()
      reads this
    {
      Inv(circuit, faultSite, State())
    }

    constructor(circuit: Circuit, faultSite: string, basisNodes: seq<string>)
      requires WellFormed(circuit) && faultSite in NodeIds(circuit)
      ensures this.circuit == circuit && this.faultSite == faultSite && this.basisNodes == basisNodes
      ensures Valid() && State() == ResetState(circuit)
    {
      this.circuit := circuit;
      this.faultSite := faultSite;
      this.basisNodes := basisNodes;
      currentStep := SensitizeFault;
      nodeValues := AllUnknown(circuit);
      searchStack := [];
      dFrontier := [];
      faultConeQueue := [];
      isTracing := false;
      testPatternFound := false;
      isCleaningUp := false;
    }

    /** `updateDFrontier(values)`: the D-frontier of `values`, in node order. */
    method UpdateDFrontier(values: Values)
      modifies this`dFrontier
      ensures dFrontier == DFrontier(circuit, values)
    {
      var frontier := [];
      var i := 0;
      while i < |circuit.nodes|
        invariant 0 <= i <= |circuit.nodes|
        invariant frontier == FrontierOf(circuit, circuit.nodes[..i], values)
      {
        assert circuit.nodes[..i + 1][..i] == circuit.nodes[..i];
        var id := circuit.nodes[i].id;
        if OnFrontier(circuit, values, id) {
          frontier := frontier + [id];
        }
        i := i + 1;
      }
      assert circuit.nodes[..i] == circuit.nodes;
      dFrontier := frontier;
    }

    /** The values sensitization sets: the fault site D, its X inputs the controlling value. */
    method SensitizedNodeValues() returns (newValues: Values)
      requires Valid()
      ensures newValues == SensitizedValues(circuit, faultSite, nodeValues)
    {
      newValues := nodeValues[faultSite := D];
      var gateType := LabelOf(circuit, faultSite);
      newValues := AssignWhereUnknown(newValues, GateInputs(circuit, faultSite), [], ControllingValue(gateType));
    }

    /** The state changes of sensitization. */
    method CommitSensitization(newValues: Values) returns (alerts: seq<Alert>)
      modifies this
      ensures (State(), alerts) == Sensitized(circuit, faultSite, old(State()), newValues)
    {
      var drivenGates := GateOutputs(circuit, faultSite);
      faultConeQueue := drivenGates;
      searchStack := searchStack + [Checkpoint(newValues, dFrontier)];
      dFrontier := drivenGates;
      nodeValues := newValues;
      alerts := [];
      if HasConflict(newValues) {
        alerts := [SensitizationConflict];
        currentStep := Complete;
      }
    }

    /** `handleFaultSensitization`. */
    method HandleFaultSensitization() returns (alerts: seq<Alert>)
      requires Valid()
      modifies this
      ensures Valid()
      ensures (State(), alerts) == Sensitize(circuit, faultSite, old(State()))
    {
      ghost var before := State();
      var newValues := SensitizedNodeValues();
      alerts := CommitSensitization(newValues);
      SensitizeKeepsInv(circuit, faultSite, before);
    }

    /** `backtrack`. */
    method Backtrack() returns (alerts: seq<Alert>)
      requires Valid()
      modifies this
      ensures Valid()
      ensures (State(), alerts) == Backtracked(old(State()))
    {
      if |searchStack| > 0 {
        var lastState := searchStack[|searchStack| - 1];
        nodeValues := lastState.nodeValues;
        dFrontier := lastState.dFrontier;
        searchStack := searchStack[..|searchStack| - 1];
        alerts := [];
      } else {
        alerts := [NothingToBacktrack];
      }
    }

    /** `handleFaultConeTracing`: tracing starts from the queue sensitization left. */
    method HandleFaultConeTracing()
      requires Valid()
      modifies this`isTracing
      ensures Valid()
      ensures State() == old(State()).(isTracing := true)
    {
      isTracing := true;
    }

    /** The fault site's inputs to enqueue: those that are gates and not in `queue`, in input order. */
    method FaultSiteInputsToEnqueue(ins: seq<string>, queue: seq<string>) returns (r: seq<string>)
      ensures r == GateInputsToEnqueue(circuit, ins, queue)
    {
      r := [];
      var i := 0;
      while i < |ins|
        invariant 0 <= i <= |ins|
        invariant r == GateInputsToEnqueue(circuit, ins[..i], queue)
      {
        assert ins[..i + 1][..i] == ins[..i];
        var inputId := ins[i];
        var isGate := IsGateNode(circuit, inputId);
        if isGate && inputId !in queue {
          r := r + [inputId];
        }
        i := i + 1;
      }
      assert ins[..i] == ins;
    }

    /** The values of a tracing step from `cur`. */
    method StepNodeValues(cur: string) returns (newValues: Values)
      requires Valid() && cur in NodeIds(circuit)
      ensures newValues == StepValues(circuit, faultSite, cur, nodeValues)
    {
      var gateType := LabelOf(circuit, cur);
      var inputs := GateInputs(circuit, cur);
      if cur == faultSite {
        newValues := AssignWhereUnknown(nodeValues, inputs, [], ControllingValue(gateType));
      } else {
        var faultSiteInputs := GateInputs(circuit, faultSite);
        newValues := AssignWhereUnknown(nodeValues, inputs, faultSiteInputs, NonControllingValue(gateType));
        newValues := newValues[cur := EvalGate(gateType, InputValues(newValues, inputs))];
      }
    }

    /** The nodes a tracing step from `cur` enqueues. */
    method StepEnqueued(cur: string, newValues: Values, queue: seq<string>) returns (more: seq<string>)
      ensures more == Enqueued(circuit, faultSite, cur, newValues, queue)
    {
      if cur == faultSite {
        more := FaultSiteInputsToEnqueue(GateInputs(circuit, cur), queue);
      } else if HasConflict(newValues) {
        more := [];
      } else {
        more := NotQueued(GateOutputs(circuit, cur), queue);
      }
    }

    /** Commit the values of a tracing step and conclude it. */
    method CommitStep(newValues: Values) returns (alerts: seq<Alert>)
      modifies this`nodeValues, this`dFrontier, this`searchStack, this`isTracing, this`testPatternFound
      ensures (State(), alerts) == Commit(circuit, old(State()), newValues)
    {
      var before := dFrontier;
      nodeValues := newValues;
      UpdateDFrontier(newValues);
      searchStack := searchStack + [Checkpoint(newValues, before)];
      alerts := [];
      if HasConflict(newValues) {
        alerts := [TracingConflict];
        isTracing := false;
      } else if CheckForTest(newValues) {
        alerts := [TestPatternFound];
        testPatternFound := true;
        isTracing := false;
      }
    }

    /** One tracing step from the head of the queue. */
    method TraceHead() returns (alerts: seq<Alert>)
      requires Valid() && faultConeQueue != []
      modifies this
      ensures (State(), alerts) == TraceStep(circuit, faultSite, old(State()))
    {
      var queue := faultConeQueue;
      var currentGate := queue[0];
      var newValues := StepNodeValues(currentGate);
      var more := StepEnqueued(currentGate, newValues, queue);
      faultConeQueue := queue[1..] + more;
      alerts := CommitStep(newValues);
    }

    /** `handleNextStep`. */
    method HandleNextStep() returns (alerts: seq<Alert>)
      requires Valid()
      modifies this
      ensures Valid()
      ensures (State(), alerts) == NextStep(circuit, faultSite, old(State()))
    {
      ghost var before := State();
      if !isTracing {
        return [StartTracingFirst];
      }
      if faultConeQueue == [] {
        alerts := if testPatternFound then [] else [TracingComplete];
        isTracing := false;
        return;
      }
      alerts := TraceHead();
      TraceStepKeepsInv(circuit, faultSite, before);
    }

    /** `checkObservationPaths`. */
    method CheckObservationPaths() returns (alerts: seq<Alert>)
      requires Valid()
      modifies this
      ensures Valid()
      ensures (State(), alerts) == ObservationCheck(old(State()))
    {
      alerts := [];
      if dFrontier == [] && !CheckForTest(nodeValues) && !isCleaningUp {
        var more := Backtrack();
        alerts := [PathsBlocked] + more;
      }
    }

    /** The first loop of `determineFinalValue`: the distinct non-controlling values of `gates`, in order. */
    method RequiredValues(gates: seq<string>) returns (requiredValues: seq<Value>)
      requires WellFormed(circuit) && forall g :: g in gates ==> g in NodeIds(circuit)
      ensures requiredValues == Dedup(NonControllingValues(circuit, gates))
    {
      requiredValues := [];
      var i := 0;
      while i < |gates|
        invariant 0 <= i <= |gates|
        invariant requiredValues == Dedup(NonControllingValues(circuit, gates[..i]))
      {
        RequiredValuesStep(circuit, gates, i);
        var nonControllingValue := NonControllingValue(LabelOf(circuit, gates[i]));
        if nonControllingValue !in requiredValues {
          requiredValues := requiredValues + [nonControllingValue];
        }
        i := i + 1;
      }
      assert gates[..i] == gates;
    }

    /** `determineFinalValue(nodeId)`: the value clean-up gives a basis node still at X. */
    method DetermineFinalValue(nodeId: string) returns (v: Value)
      requires WellFormed(circuit)
      ensures v == FinalValue(circuit, faultSite, nodeId)
    {
      var gates := GateOutputs(circuit, nodeId);
      var requiredValues := RequiredValues(gates);
      if |requiredValues| == 1 {
        return requiredValues[0];
      }
      var faultPropagationGates := TraceFaultObservationPath(circuit, faultSite);
      v := PreferFaultPath(requiredValues, gates, faultPropagationGates);
      assert (exists g :: g in gates && g in faultPropagationGates) <==>
             (exists g :: g in gates && Reaches(circuit, [], faultSite, g));
    }

    /** The first loop of `cleanupBasisNodes`: the final values of the basis nodes still at X. */
    method AssignBasisNodes() returns (newValues: Values, updatedNodes: seq<string>)
      requires Valid()
      ensures (newValues, updatedNodes) == AssignBasis(circuit, faultSite, nodeValues, basisNodes)
    {
      newValues := nodeValues;
      updatedNodes := [];
      var i := 0;
      while i < |basisNodes|
        invariant 0 <= i <= |basisNodes|
        invariant (newValues, updatedNodes) == AssignBasis(circuit, faultSite, nodeValues, basisNodes[..i])
      {
        assert basisNodes[..i + 1][..i] == basisNodes[..i];
        var basisNode := basisNodes[i];
        if basisNode in newValues && newValues[basisNode] == X {
          var finalValue := DetermineFinalValue(basisNode);
          newValues := newValues[basisNode := finalValue];
          if finalValue != X {
            updatedNodes := updatedNodes + [basisNode];
          }
        }
        i := i + 1;
      }
      assert basisNodes[..i] == basisNodes;
    }

    /**
     * The second loop of `cleanupBasisNodes`: one implication pass per updated node, on one value map,
     * each followed by `updateDFrontier`. React keeps only the last of those frontier updates, the one
     * computed from the final values, so the frontier is recomputed once after the passes.
     */
    method ImplyFromUpdated(newValues: Values, updatedNodes: seq<string>) returns (values: Values)
      requires WellFormed(circuit) && newValues.Keys == NodeIds(circuit)
      requires forall u :: u in updatedNodes ==> u in NodeIds(circuit)
      modifies this`dFrontier
      ensures values == ImplyFrom(circuit, faultSite, newValues, updatedNodes)
      ensures dFrontier == if updatedNodes == [] then old(dFrontier) else DFrontier(circuit, values)
    {
      values := ImplyAll(circuit, faultSite, newValues, updatedNodes);
      if updatedNodes != [] {
        UpdateDFrontier(values);
      }
    }

    /** The end of `cleanupBasisNodes`, after the assignments. */
    method FinishCleanupFrom(newValues: Values, updatedNodes: seq<string>) returns (alerts: seq<Alert>)
      requires WellFormed(circuit) && newValues.Keys == NodeIds(circuit)
      requires forall u :: u in updatedNodes ==> u in NodeIds(circuit)
      modifies this`nodeValues, this`dFrontier, this`isCleaningUp
      ensures (State(), alerts) == FinishCleanup(circuit, faultSite, old(State()), newValues, updatedNodes)
    {
      nodeValues := newValues;
      var values := ImplyFromUpdated(newValues, updatedNodes);
      nodeValues := values;
      alerts := [CleanupComplete];
      if testPatternFound {
        isCleaningUp := false;
      }
    }

    /** `cleanupBasisNodes`. */
    method CleanupBasisNodes() returns (alerts: seq<Alert>)
      requires Valid()
      modifies this
      ensures Valid()
      ensures (State(), alerts) == Cleanup(circuit, faultSite, basisNodes, old(State()))
    {
      ghost var before := State();
      isCleaningUp := true;
      var newValues, updatedNodes := AssignBasisNodes();
      alerts := FinishCleanupFrom(newValues, updatedNodes);
      CleanupKeepsInv(circuit, faultSite, basisNodes, before);
    }

    /** `handleReset`. */
    method HandleReset()
      requires Valid()
      modifies this
      ensures Valid() && State() == ResetState(circuit)
    {
      nodeValues := AllUnknown(circuit);
      searchStack := [];
      dFrontier := [];
      currentStep := SensitizeFault;
      faultConeQueue := [];
      isTracing := false;
      testPatternFound := false;
      isCleaningUp := false;
    }
  }

  // ---------------------------------------------------------------------------
  // Properties of the handlers
  // ---------------------------------------------------------------------------

  lemma SensitizeKeepsInv(c: Circuit, faultSite: string, s: Snapshot)
    requires Inv(c, faultSite, s)
    ensures Inv(c, faultSite, Sensitize(c, faultSite, s).0)
  {
    var values := SensitizedValues(c, faultSite, s.nodeValues);
    assert values.Keys == NodeIds(c);
    var t := Sensitize(c, faultSite, s).0;
    assert forall k :: 0 <= k < |s.searchStack| ==> t.searchStack[k] == s.searchStack[k];
  }

  lemma TraceStepKeepsInv(c: Circuit, faultSite: string, s: Snapshot)
    requires Inv(c, faultSite, s) && s.faultConeQueue != []
    ensures Inv(c, faultSite, TraceStep(c, faultSite, s).0)
  {
    var cur := s.faultConeQueue[0];
    var values := StepValues(c, faultSite, cur, s.nodeValues);
    assert values.Keys == NodeIds(c);
    var more := Enqueued(c, faultSite, cur, values, s.faultConeQueue);
    assert forall x :: x in more ==> x in NodeIds(c);
    var queue := s.faultConeQueue[1..] + more;
    assert forall x :: x in queue ==> x in s.faultConeQueue[1..] || x in more;
    CommitKeepsInv(c, faultSite, s.(faultConeQueue := queue), values);
  }

  /** Committing a value map over the nodes keeps the invariant. */
  lemma CommitKeepsInv(c: Circuit, faultSite: string, s: Snapshot, values: Values)
    requires Inv(c, faultSite, s) && values.Keys == NodeIds(c)
    ensures Inv(c, faultSite, Commit(c, s, values).0)
  {
    var t := Commit(c, s, values).0;
    assert forall k :: 0 <= k < |s.searchStack| ==> t.searchStack[k] == s.searchStack[k];
  }

  lemma CleanupKeepsInv(c: Circuit, faultSite: string, basisNodes: seq<string>, s: Snapshot)
    requires Inv(c, faultSite, s)
    ensures Inv(c, faultSite, Cleanup(c, faultSite, basisNodes, s).0)
  {
  }
}

# ATPG visualiser and benchmark fault simulator, modelled in Dafny

The repository has two halves, and this project models the core of both.

**The front end** (`App.jsx`) is a step-by-step D-algorithm for one stuck-at fault on a small hard-wired
circuit:
- Roth's five-valued D-calculus (0, 1, X, D, D′, plus a CONFLICT marker), evaluated through literal
  5×5 gate tables.
- Fault sensitization and the implication pass (`calculateImplications`).
- The D-frontier, conflict and success tests.
- Fault-cone tracing one gate per click, with the search stack and backtracking.
- The blocked-paths check and the basis-node clean-up.
- The reachability searches and the absolute-dominator step of the preprocessing.

The modules are `DCalculus`, `Netlist`, `Implication`, `Reach`, `Frontier` and `Session`. The
component's handlers are methods of the class `Session.AtpgSession`. Each handler is proved to perform
the state transition a pure function describes, and the invariants are proved about those functions.

**The back end** (Java) covers ISCAS `.bench` netlists:
- **`Signals`**: the string-keyed `Line` and `Gate` objects, with `setLineValue`, `removeInput` and
  `evaluate` over Java `int`s, modelled as `bv32`.
- **`BenchParse` and `BenchCircuit`**: the line parser and the `Circuit` class that loads a file.
- **`Simulation`**: levelization by Kahn's algorithm and `simulate`. The module is generic over the
  line-id type and over the gate evaluator, so that it serves both revisions of `Gate`.
- **`SimulationOrder`**: proves that the result of `simulate` does not depend on which level order
  levelization picks.
- **`IntGate`, `IntParse` and `IntCircuit`**: the int-keyed `Gate` and `Circuit` of
  `BenchmarkParser.java`.
- **`FaultSim`**: `simulateWithFault` and `serialFaultSimulation` of `FaultSimulator`.
- **`BenchFaultSim`**: the fault list, exhaustive test vectors and the input check of
  `BenchmarkFaultSimulation`.

Where the code iterates a `HashMap` or `HashSet`, the model takes that iteration order as insertion
order. The properties proved about levelization and simulation hold for every order, because they
quantify over all level orders.

The model follows the code as written, including three behaviours a user may not expect:
- The parser accepts `BUFF` (Circuit.java line 56), but `Gate.evaluate` only knows `BUF` (line 67), so a
  `BUFF` gate raises on evaluation.
- A line is checked for `INPUT` before `=`, so a gate whose output name starts with `INPUT` is read as a
  declaration.
- The int-keyed gate knows neither `XNOR` nor `BUFF`.

## Model

| member | source | states |
|---|---|---|
| Bits.Complement | backend/TOPS/src/Gate.java:55 | `~x & 1` is always a bit, and it is 1 - x on a bit |
| Bits.AndAllOfBits | backend/TOPS/src/Gate.java:51 | on 0/1 inputs the AND reduction from seed 1 is a bit, and it is 1 iff every input is 1 (so 1 with no inputs) |
| Bits.OrAllOfBits | backend/TOPS/src/Gate.java:53 | on 0/1 inputs the OR reduction from seed 0 is a bit, and it is 1 iff some input is 1 |
| Bits.XorAllIsParity | backend/TOPS/src/Gate.java:59 | on 0/1 inputs the XOR reduction is the parity of the number of ones |
| Bits.ComplementsOfBits | backend/TOPS/src/Gate.java:55-61 | on 0/1 inputs NAND, NOR and XNOR are exactly 1 minus AND, OR and XOR |
| Text.TrimRightBy | backend/TOPS/src/Circuit.java:29 | trimming keeps a prefix of the text and leaves no trailing whitespace |
| Text.Trim | backend/TOPS/src/Circuit.java:29 | `trim()` leaves no whitespace at either end and never lengthens the text |
| Text.TrimLeftBy | backend/TOPS/src/Circuit.java:29 | trimming the front keeps a suffix and leaves no leading whitespace |
| Text.TrimOfUnpadded | backend/TOPS/src/Circuit.java:29 | text without whitespace at its ends is its own trim |
| Text.TrimOfPadded | backend/TOPS/src/Circuit.java:29-61 | one space before or after a name is trimmed away again |
| Text.ToUpper | backend/TOPS/src/Gate.java:49 | upper-casing maps each character and keeps the length |
| Text.ToLower | frontend/src/App.jsx:237 | lower-casing maps each character and keeps the length |
| Text.IndexOf | backend/TOPS/src/Circuit.java:33 | `indexOf` is -1 iff the character is absent, and otherwise the position of its first occurrence |
| Text.FirstOf | backend/TOPS/src/Circuit.java:40 | the first separator position is -1 iff there is no separator, and otherwise no separator comes before it |
| Text.SplitAllAppend | backend/TOPS/src/Circuit.java:59 | splitting `a + sep + b` gives the pieces of `a` followed by the pieces of `b` |
| Text.SplitAll | backend/TOPS/src/Circuit.java:40-59 | splitting always gives at least one piece |
| Text.FirstOfAfter | backend/TOPS/src/Circuit.java:40 | the first separator is the one after a separator-free prefix |
| Text.DropTrailingEmpty | backend/TOPS/src/Circuit.java:40 | `split` drops only trailing empty pieces: the result is a prefix that does not end in an empty piece |
| Text.DigitsOf | backend/TOPS/src/BenchmarkParser.java:82 | `replaceAll("[^0-9]", "")` keeps only digits and never lengthens the text |
| Text.DigitValue | backend/TOPS/src/BenchmarkParser.java:89 | `Character.digit(c, 10)`: -1 or a digit value; an ASCII digit reads as itself and a character below '0' is no digit |
| Text.ParseIntOfOtherScripts | backend/TOPS/src/BenchmarkParser.java:89 | Arabic-Indic digits read as their values, with or without a sign; a trailing letter fails |
| Text.UnsignedMeaning | backend/TOPS/src/BenchmarkParser.java:89 | the digit run is read iff it is non-empty and every character is a decimal digit, and it reads as its decimal value |
| Text.ParseInt | backend/TOPS/src/BenchmarkParser.java:89 | `Integer.parseInt` fails on the empty text, and a negative result needs a leading '-' |
| Text.ParseIntMeaning | backend/TOPS/src/BenchmarkParser.java:89 | `Integer.parseInt` succeeds iff the text is an optional sign followed by at least one decimal digit of any script, and reads the digits' value, negated after a leading '-' |
| Text.DecimalValue | backend/TOPS/src/BenchmarkParser.java:82 | the decimal text of n reads back as n |
| Text.Decimal | backend/TOPS/src/BenchmarkParser.java:82 | the decimal text of a number is a non-empty run of digits |
| Text.ParseIntOfDecimal | backend/TOPS/src/BenchmarkParser.java:89 | `parseInt` of the decimal text of n is n |
| Netlist.Sources | frontend/src/App.jsx:597-599 | the fan-in holds exactly the sources of links into the node |
| Netlist.Targets | frontend/src/App.jsx:601-603 | the fan-out holds exactly the targets of links out of the node |
| Netlist.GateInputs | frontend/src/App.jsx:597-599 | on a well-formed circuit every fan-in id is a node |
| Netlist.GateOutputs | frontend/src/App.jsx:601-603 | on a well-formed circuit every fan-out id is a node |
| Netlist.FindLabel | frontend/src/App.jsx:234-235 | `data.nodes.find` returns the label of the first node with that id |
| Netlist.PaddedInputLabel | frontend/src/App.jsx:237 | `trim()` strips Unicode space separators too, so a label padded with an em space and an ideographic space still marks an Input node |
| Netlist.InputValues | frontend/src/App.jsx:262 | `inputs.map(id => values[id] \|\| "X")`: one value per fan-in, in order, X where absent |
| Netlist.Dedup | frontend/src/App.jsx:741-748 | a `Set` of values keeps the same members, each once |
| Netlist.AllUnknown | frontend/src/App.jsx:801-804 | the reset value map holds exactly the nodes, each at X |
| DCalculus.GateKindOf | frontend/src/App.jsx:379-387 | a label has an evaluation function iff it is one of the seven table keys |
| DCalculus.ControllingValue | frontend/src/App.jsx:605-616 | the controlling value is 0, 1 or X, never a fault effect |
| DCalculus.NonControllingValue | frontend/src/App.jsx:618-629 | the non-controlling value is 0, 1 or X, never a fault effect |
| DCalculus.TablesAreSymmetric | frontend/src/App.jsx:302 | every two-input lookup, trying both operand orders, is symmetric |
| DCalculus.ConflictOperandGivesX | frontend/src/App.jsx:302 | a CONFLICT operand has no table entry, so the gate gives X; NOT of CONFLICT is X |
| DCalculus.MissingOperandGivesX | frontend/src/App.jsx:292 | a two-input gate with fewer than two inputs gives X |
| DCalculus.TablesNeverProduceConflict | frontend/src/App.jsx:290-387 | evaluation yields CONFLICT iff the node is an "Output" whose first input holds CONFLICT |
| DCalculus.ControllingValueDominates | frontend/src/App.jsx:294-345 | the controlling value of AND, NAND, OR or NOR decides the output, in either position |
| DCalculus.FaultEffectsCancel | frontend/src/App.jsx:297-312 | D AND D′ = 0 and D OR D′ = 1 |
| DCalculus.NonControllingValuePassesThrough | frontend/src/App.jsx:294-359 | the non-controlling value is the identity for AND, OR and XOR and inverts for NAND; NOR with 0 maps X to 0 |
| DCalculus.InvertIsInvolution | frontend/src/App.jsx:361-373 | NOT swaps 0/1 and D/D′, fixes X, is an involution, and agrees with the reference algebra |
| DCalculus.NandIsNotAndExceptFaultPairs | frontend/src/App.jsx:294-331 | NAND is NOT of AND exactly when the two operands are not both fault effects, where it gives X |
| DCalculus.NorIsNotOrExcept | frontend/src/App.jsx:305-345 | NOR is NOT of OR except exactly on (0,X), (X,0), (D,D) and (D′,D′) |
| DCalculus.AndAgreesWithRoth | frontend/src/App.jsx:291-303 | the AND table is exactly the good/faulty-pair reference algebra |
| DCalculus.OrAgreesWithRothExcept | frontend/src/App.jsx:305-317 | the OR table departs from the reference iff X meets X, D or D′ |
| DCalculus.NandAgreesWithRothExcept | frontend/src/App.jsx:319-331 | the NAND table departs from the reference iff both operands are fault effects |
| DCalculus.NorAgreesWithRothExcept | frontend/src/App.jsx:333-345 | the NOR table departs from the reference on exactly the listed pairs, always answering 0 |
| DCalculus.XorAgreesWithRothExcept | frontend/src/App.jsx:347-359 | the XOR table departs from the reference iff both operands are fault effects |
| Implication.ActivateMeaning | frontend/src/App.jsx:246-257 | the fault site's X inputs take the controlling value and are enqueued; other inputs that differ become CONFLICT; nothing else changes |
| Implication.ActivatedIsIdempotent | frontend/src/App.jsx:246-257 | activating an input twice is activating it once |
| Implication.ProcessNode | frontend/src/App.jsx:228-284 | one dequeued node changes only itself, and only when it is not an Input node, or else the fault site's fan-in |
| Implication.ProcessNodeHalts | frontend/src/App.jsx:281-284 | the pass breaks only at an "Output" node that took CONFLICT |
| Implication.Drain | frontend/src/App.jsx:227-285 | the pass keeps the node set and processes each node at most once |
| Implication.ActivateInputs | frontend/src/App.jsx:247-257 | the activation loop computes `Activate` |
| Implication.ProcessDequeued | frontend/src/App.jsx:234-284 | the loop body computes `ProcessNode` |
| Implication.CalculateImplications | frontend/src/App.jsx:223-288 | the queue loop returns the values of the pass `Implications` |
| Implication.DrainChangesOnlyProcessedNodes | frontend/src/App.jsx:223-288 | a node changes only if the pass processed it and it is no Input node, or it feeds the processed fault site |
| Implication.ProcessNodeInputNodes | frontend/src/App.jsx:237-257 | one step keeps an Input node's value, unless it activates the fault site's inputs |
| Implication.DrainInputNodes | frontend/src/App.jsx:237-240 | an Input node keeps its value, unless it feeds the fault site, which may activate it |
| Implication.DrainKeepsFaultEffect | frontend/src/App.jsx:242-259 | a fault site holding D or D′ keeps it through the pass unless it feeds itself |
| Implication.DrainHaltsOnlyAtConflictingOutput | frontend/src/App.jsx:281-284 | an early stop always follows an "Output" node taking CONFLICT |
| Implication.PushOnlyOnChange | frontend/src/App.jsx:247-279 | fan-out is enqueued only when a value changed; the fault site enqueues only its X inputs |
| Implication.ImplicationsFromInputNodeChangeNothing | frontend/src/App.jsx:237-240 | a pass seeded at an Input node changes nothing |
| Reach.ReachesStep | frontend/src/App.jsx:129-130 | a walk to a node outside the stop set extends along one link |
| Reach.ReachesItself | frontend/src/App.jsx:119-121 | the start node is reached by the empty walk |
| Reach.ClosedSetHoldsWalkEnd | frontend/src/App.jsx:121-131 | a set closed under successors holds the end of every walk from it |
| Reach.TraceFaultObservationPath | frontend/src/App.jsx:631-646 | the path starts at the start node, lists each node once, and holds exactly the reachable nodes |
| Reach.GetReachableOutputs | frontend/src/App.jsx:116-134 | each output once, exactly the outputs reachable without passing through another output |
| Reach.KeepIn | frontend/src/App.jsx:103 | the filter keeps exactly the common elements, without repeats |
| Reach.IntersectDominators | frontend/src/App.jsx:98-106 | the intersection holds exactly what lies on every listed dominator list, each once |
| Reach.OutputIds | frontend/src/App.jsx:92 | exactly the ids of the nodes labelled "Output" |
| Reach.PreprocessCircuit | frontend/src/App.jsx:92-107 | exactly the nodes that reach an output get an entry: the intersection of the dominator lists of the outputs they reach |
| Frontier.FrontierOf | frontend/src/App.jsx:180-198 | the D-frontier holds exactly the nodes at D or D′ with some fan-out at X |
| Frontier.HasConflictIff | frontend/src/App.jsx:201-207 | a conflict is detected iff some node holds CONFLICT |
| Frontier.AssignUnknown | frontend/src/App.jsx:487-499 | exactly the ids of the list, outside the skip list, that hold X take the value |
| Frontier.AssignWhereUnknown | frontend/src/App.jsx:487-499 | the assignment loop computes `AssignUnknown` |
| Frontier.SensitizationEffect | frontend/src/App.jsx:139-153 | after sensitization the fault site is D, its X inputs hold the controlling value, and all else is kept |
| Frontier.FaultSiteStepKeepsFaultSite | frontend/src/App.jsx:432-441 | a fault-site step keeps the fault site's value unless it was X |
| Frontier.GateStepFrame | frontend/src/App.jsx:485-513 | a step at another gate alters only that gate and its inputs, and never the fault site's inputs |
| Frontier.GateStepIsConsistent | frontend/src/App.jsx:501-513 | after the step the gate holds its table value on its inputs |
| Frontier.GateInputsToEnqueue | frontend/src/App.jsx:445-450 | exactly the fault-site inputs that are gates and not yet queued |
| Frontier.NotQueued | frontend/src/App.jsx:535 | exactly the fan-out that is not yet queued |
| Frontier.NonControllingValues | frontend/src/App.jsx:743-748 | one non-controlling value per fan-out gate, in order |
| Frontier.FinalValueIsBinaryOrUnknown | frontend/src/App.jsx:736-771 | the clean-up writes 0, 1 or X |
| Frontier.FinalValueWhenFanOutAgrees | frontend/src/App.jsx:750-753 | when every fan-out gate asks the same value, the node gets it |
| Frontier.FinalValueIsFirstFanOutsChoice | frontend/src/App.jsx:758-767 | a decided value is always the first fan-out gate's non-controlling value, even when that gate is off the fault path |
| Frontier.AssignBasisEffect | frontend/src/App.jsx:711-719 | only basis nodes at X change, each to its final value; the listed nodes are exactly those that became 0 or 1 |
| Frontier.AssignBasis | frontend/src/App.jsx:711-719 | the assignment keeps the node set and lists only nodes of it |
| Frontier.ImplyAll | frontend/src/App.jsx:726-730 | the loop over updated nodes computes `ImplyFrom` |
| Frontier.ImplyFrom | frontend/src/App.jsx:726-730 | running the passes in sequence keeps the node set |
| Frontier.ImplyFromStep | frontend/src/App.jsx:726-730 | one more updated node is one more pass on the previous result |
| Frontier.ImplyFromInputNodesChangesNothing | frontend/src/App.jsx:726-730 | implication from Input basis nodes changes nothing |
| Session.PreferFaultPath | frontend/src/App.jsx:758-770 | the first required value when some fan-out gate lies on the fault path, else X |
| Session.AtpgSession.constructor | frontend/src/App.jsx:43-63 | the initial state is the reset state |
| Session.AtpgSession.UpdateDFrontier | frontend/src/App.jsx:180-198 | the D-frontier is recomputed from the values |
| Session.AtpgSession.HandleFaultSensitization | frontend/src/App.jsx:137-177 | new values, queue and frontier set to the fan-out, a checkpoint with the old frontier, "complete" on conflict |
| Session.AtpgSession.SensitizedNodeValues | frontend/src/App.jsx:139-153 | computes the sensitized values |
| Session.AtpgSession.CommitSensitization | frontend/src/App.jsx:155-176 | the state transition `Sensitized` on the new values |
| Session.AtpgSession.Backtrack | frontend/src/App.jsx:209-220 | restores and pops the last checkpoint, or only alerts when there is none |
| Session.AtpgSession.HandleFaultConeTracing | frontend/src/App.jsx:390-395 | only the tracing flag is raised |
| Session.AtpgSession.FaultSiteInputsToEnqueue | frontend/src/App.jsx:445-450 | computes `GateInputsToEnqueue` |
| Session.AtpgSession.StepNodeValues | frontend/src/App.jsx:422-513 | computes the step's values: fault-site step or gate step |
| Session.AtpgSession.StepEnqueued | frontend/src/App.jsx:445-536 | computes what the step appends to the queue, nothing after a conflict |
| Session.AtpgSession.CommitStep | frontend/src/App.jsx:452-545 | values and frontier set, checkpoint pushed, tracing stopped on conflict or test |
| Session.AtpgSession.HandleNextStep | frontend/src/App.jsx:398-546 | the state transition `NextStep`, keeping the invariant |
| Session.AtpgSession.TraceHead | frontend/src/App.jsx:404-546 | the state transition `TraceStep` for the gate at the head of the queue |
| Session.AtpgSession.CheckObservationPaths | frontend/src/App.jsx:656-663 | backtracks iff the frontier is empty, no test is found and no clean-up runs |
| Session.AtpgSession.RequiredValues | frontend/src/App.jsx:741-748 | the distinct non-controlling values of the fan-out gates |
| Session.AtpgSession.DetermineFinalValue | frontend/src/App.jsx:736-771 | computes `FinalValue` |
| Session.AtpgSession.AssignBasisNodes | frontend/src/App.jsx:711-719 | computes `AssignBasis` |
| Session.AtpgSession.ImplyFromUpdated | frontend/src/App.jsx:726-733 | the passes from the updated nodes on one value map; the frontier is recomputed only if one ran |
| Session.AtpgSession.CleanupBasisNodes | frontend/src/App.jsx:671-734 | the state transition `Cleanup`, keeping the invariant |
| Session.AtpgSession.FinishCleanupFrom | frontend/src/App.jsx:720-733 | the state transition `FinishCleanup` after the assignment |
| Session.AtpgSession.HandleReset | frontend/src/App.jsx:798-816 | every field goes back to the reset state |
| Session.SensitizeKeepsInv | frontend/src/App.jsx:137-177 | sensitization keeps every value map over exactly the nodes |
| Session.TraceStepKeepsInv | frontend/src/App.jsx:398-546 | a tracing step keeps the invariant |
| Session.CommitKeepsInv | frontend/src/App.jsx:515-523 | committing a value map over the nodes keeps the invariant |
| Session.CleanupKeepsInv | frontend/src/App.jsx:671-734 | the clean-up keeps the invariant |
| Signals.Gather | backend/TOPS/src/Gate.java:41-47 | gathering succeeds iff every input has a value, listing them in input order; otherwise it names a missing input |
| Signals.GatherIsLocal | backend/TOPS/src/Gate.java:41-47 | gathering reads only the values of the listed inputs |
| Signals.GatherReportsFirstMissing | backend/TOPS/src/Gate.java:42-45 | the exception names the first input without a value |
| Signals.MissingInputRaises | backend/TOPS/src/Gate.java:43-45 | a missing input raises IllegalStateException, whatever the type |
| Signals.UnknownTypeRaises | backend/TOPS/src/Gate.java:72-73 | any other type raises IllegalArgumentException, "BUFF" included |
| Signals.SingleInputGates | backend/TOPS/src/Gate.java:62-71 | NOT and BUF demand exactly one input; BUF passes it through |
| Signals.TypeIgnoresCase | backend/TOPS/src/Gate.java:49 | two spellings of a known type evaluate alike |
| Signals.GateValueIsLocal | backend/TOPS/src/Gate.java:40-75 | evaluation reads only the values of the gate's own inputs |
| Signals.EvalIsLocal | backend/TOPS/src/Simulation.java:93-98 | `gate.evaluate(values)` as `simulate` calls it is local, so the simulation lemmas apply to this revision's gates |
| Signals.SimulateIsOrderIndependent | backend/TOPS/src/Simulation.java:70-115 | `simulate` with Gate.java's `evaluate` gives the same outputs, or raises both times, along any two level orders |
| Signals.ApplyIsBoolean | backend/TOPS/src/Gate.java:49-74 | on bits each accepted type computes its Boolean function |
| Signals.GateValueIsBoolean | backend/TOPS/src/Gate.java:40-75 | on 0/1 inputs `evaluate` is the type's Boolean function, or the NOT/BUF arity exception |
| Signals.Ids | backend/TOPS/src/Gate.java:42 | the ids of the input lines, in order |
| Signals.WithoutId | backend/TOPS/src/Gate.java:18-20 | `removeIf` never lengthens the list |
| Signals.WithoutIdMembers | backend/TOPS/src/Gate.java:18-20 | `removeIf` keeps exactly the lines with another id |
| Signals.WithoutIdDistributes | backend/TOPS/src/Gate.java:18-20 | removal distributes over concatenation |
| Signals.WithoutAbsentId | backend/TOPS/src/Gate.java:18-20 | removing an absent id changes nothing |
| Signals.RemoveUndoesAdd | backend/TOPS/src/Gate.java:14-20 | removing the id just added (and not present before) undoes the add |
| Signals.RemoveIsIdempotent | backend/TOPS/src/Gate.java:18-20 | removing twice is removing once |
| Signals.Line.constructor | backend/TOPS/src/Line.java:11-15 | value, type and id as given; no connections |
| Signals.Line.AddConnectedGate | backend/TOPS/src/Line.java:33-35 | the gate is appended to the fan-out list |
| Signals.Line.AddConnectedLine | backend/TOPS/src/Line.java:41-43 | the line is appended to the connected lines |
| Signals.Line.SetLineValue | backend/TOPS/src/Line.java:21-27 | exactly the line and the lines reachable through connected lines take the value |
| Signals.Gate.constructor | backend/TOPS/src/Gate.java:10-12 | type as given, no output, no inputs |
| Signals.Gate.AddInput | backend/TOPS/src/Gate.java:14-16 | the line is appended to the inputs |
| Signals.Gate.RemoveInput | backend/TOPS/src/Gate.java:18-20 | the inputs with that id are removed, the rest kept in order |
| Signals.Gate.SetOutput | backend/TOPS/src/Gate.java:22-24 | the output becomes the line |
| Signals.Gate.Evaluate | backend/TOPS/src/Gate.java:40-75 | the loop computes `GateValue` of the gate's type and input ids |
| Simulation.WiringMembers | backend/TOPS/src/Simulation.java:25-29 | a gate's wires are exactly its inputs into its output |
| Simulation.EdgesMembers | backend/TOPS/src/Simulation.java:20-30 | the wires are exactly the (input, output) pairs of the gates |
| Simulation.PendingIsZero | backend/TOPS/src/Simulation.java:52 | a node's pending in-degree is zero iff every wire into it starts at a placed node |
| Simulation.PendingAfter | backend/TOPS/src/Simulation.java:50-51 | placing a node takes one from the in-degree per wire from it |
| Simulation.BuildGraph | backend/TOPS/src/Simulation.java:15-35 | `inDegree` has exactly the nodes as keys and counts the wires into each; the adjacency lists list the wires out |
| Simulation.AddGate | backend/TOPS/src/Simulation.java:20-30 | one turn of the gate loop records the gate's output and wires |
| Simulation.WireInputs | backend/TOPS/src/Simulation.java:25-29 | the input loop adds one wire per input |
| Simulation.Release | backend/TOPS/src/Simulation.java:50-55 | in-degrees drop per wire from the placed node; exactly the nodes reaching zero are enqueued |
| Simulation.Drain | backend/TOPS/src/Simulation.java:46-56 | Kahn's loop outputs a topological order of distinct nodes, and leaves out exactly the nodes still waiting on a wire |
| Simulation.Seeds | backend/TOPS/src/Simulation.java:38-43 | the queue starts with exactly the nodes of in-degree zero |
| Simulation.Verdict | backend/TOPS/src/Simulation.java:59-61 | every node is placed iff a level order exists, and then the order is one |
| Simulation.Levelize | backend/TOPS/src/Simulation.java:14-64 | succeeds iff a level order exists, returning one; otherwise raises the cycle exception |
| Simulation.CycleIsRejected | backend/TOPS/src/Simulation.java:59-61 | wires closing a cycle make levelization raise |
| Simulation.UndrivenInputIsRejected | backend/TOPS/src/Simulation.java:59-61 | a gate reading a line that is neither a primary input nor driven makes levelization raise |
| Simulation.FirstMissing | backend/TOPS/src/Simulation.java:75-79 | none iff every primary input has a value; otherwise a missing one |
| Simulation.DriverTableOk | backend/TOPS/src/Simulation.java:82-89 | a built table lists every gate under its output |
| Simulation.DriverTableErr | backend/TOPS/src/Simulation.java:85-87 | a failed build names a line that two gates drive |
| Simulation.DriverTableUnique | backend/TOPS/src/Simulation.java:82-89 | a built table means no two gates drive one line |
| Simulation.DriverTableIsKeyed | backend/TOPS/src/Simulation.java:82-89 | every gate of a built table is filed under its own output |
| Simulation.DriverTableIsOk | backend/TOPS/src/Simulation.java:82-89 | the table is built iff no two gates drive one line |
| Simulation.CollectMeaning | backend/TOPS/src/Simulation.java:105-112 | the result has exactly the primary outputs, with their values; it fails iff one has none |
| Simulation.FindMissing | backend/TOPS/src/Simulation.java:75-79 | the loop computes `FirstMissing` |
| Simulation.IndexDrivers | backend/TOPS/src/Simulation.java:82-89 | the loop computes `DriverTable` |
| Simulation.EvaluateInOrder | backend/TOPS/src/Simulation.java:92-102 | the loop computes `Propagate` |
| Simulation.CollectOutputs | backend/TOPS/src/Simulation.java:105-112 | the loop computes `Collect` |
| Simulation.Simulate | backend/TOPS/src/Simulation.java:70-115 | the cycle exception iff no level order exists, else `Run` along the level order found |
| Simulation.PropagateFrame | backend/TOPS/src/Simulation.java:92-102 | evaluation writes only driven nodes of the order |
| Simulation.PropagateIsConsistent | backend/TOPS/src/Simulation.java:92-102 | after evaluation along a level order, every gate output equals its gate's value on the final values |
| Simulation.PropagateKeepsUndriven | backend/TOPS/src/Simulation.java:72-102 | an undriven line keeps the caller's value, or its absence |
| Simulation.SimulationIsConsistent | backend/TOPS/src/Simulation.java:70-115 | success means all inputs had values, no line has two drivers, and the outputs hold a consistent assignment |
| Simulation.RunErrors | backend/TOPS/src/Simulation.java:75-112 | which exception comes first: missing input, shared driver, gate evaluation, then missing output |
| SimulationOrder.PropagateFollows | backend/TOPS/src/Simulation.java:92-102 | along a wiring-respecting order, every prefix of evaluation matches a settled assignment |
| SimulationOrder.PropagateReaches | backend/TOPS/src/Simulation.java:92-102 | a settled assignment is reached along every covering, wiring-respecting order |
| SimulationOrder.PropagateSettles | backend/TOPS/src/Simulation.java:92-102 | a successful evaluation ends in a settled assignment |
| SimulationOrder.PropagateIsOrderIndependent | backend/TOPS/src/Simulation.java:39-102 | two such orders both fail or give the same values |
| SimulationOrder.LevelOrderFitsTable | backend/TOPS/src/Simulation.java:14-64 | a level order respects the driver table's wiring and places every driven line |
| SimulationOrder.RunIsOrderIndependent | backend/TOPS/src/Simulation.java:70-115 | `simulate` gives alike results along any two level orders |
| BenchParse.TrimAll | backend/TOPS/src/Circuit.java:59-62 | every piece trimmed, in order |
| BenchParse.ParseLineOfGate | backend/TOPS/src/Circuit.java:32-38 | a line starting with neither keyword goes to the gate branch |
| BenchParse.ParenTextOf | backend/TOPS/src/Circuit.java:33-37 | the id between the parentheses of a declaration is read back |
| BenchParse.ParseGateOf | backend/TOPS/src/Circuit.java:40-63 | a gate line reads as its output, its type and the ids inside the parentheses |
| BenchParse.ParseLineErrors | backend/TOPS/src/Circuit.java:29-51 | a line fails only as a declaration with misplaced parentheses or a rejected gate line; others are skipped |
| BenchParse.DeclLineRoundTrip | backend/TOPS/src/Circuit.java:32-37 | `INPUT(id)` and `OUTPUT(id)` read back as their declarations |
| BenchParse.SplitOfJoin | backend/TOPS/src/Circuit.java:59-62 | splitting joined names on ',' and trimming gives the names back |
| BenchParse.GateLineRoundTrip | backend/TOPS/src/Circuit.java:38-63 | a written gate line reads back as its declaration |
| BenchParse.InputIdsOfJoin | backend/TOPS/src/Circuit.java:56-62 | the joined input names read back as those names |
| BenchParse.KeywordNamedOutputIsMisread | backend/TOPS/src/Circuit.java:32-38 | a one-input gate whose output starts with "INPUT" is read as an input declaration |
| BenchParse.EmptyArgumentsGiveEmptyInput | backend/TOPS/src/Circuit.java:53-62 | `()` gives one input with the empty id |
| BenchParse.TwoEqualsAreRejected | backend/TOPS/src/Circuit.java:40-43 | a line with two '=' between names is rejected |
| BenchParse.SplitAtTwoEquals | backend/TOPS/src/Circuit.java:40 | a line with two '=' splits into three pieces |
| BenchParse.TrailingEqualsIsIgnored | backend/TOPS/src/Circuit.java:40 | a trailing '=' is dropped by `split` and changes nothing |
| BenchCircuit.MapLinesAppend | backend/TOPS/src/Circuit.java:28 | parsing distributes over concatenated text |
| BenchCircuit.ParseAllAppend | backend/TOPS/src/Circuit.java:28-30 | parsing text in two parts gives the parses of the parts, concatenated |
| BenchCircuit.LoadLinesAppend | backend/TOPS/src/Circuit.java:28-89 | loading two runs of lines is loading them together, stopping at the first error |
| BenchCircuit.LoadStopsAtError | backend/TOPS/src/Circuit.java:28-89 | once a line raises, what follows has no effect |
| BenchCircuit.LoadStep | backend/TOPS/src/Circuit.java:28-89 | one more line after a clean load: its error, or its declaration applied |
| BenchCircuit.LoadAppend | backend/TOPS/src/Circuit.java:28-89 | loading more after a clean load continues from its state |
| BenchCircuit.DeclareInputs | backend/TOPS/src/Circuit.java:13-16 | input declarations append exactly their ids |
| BenchCircuit.DeclareOutputs | backend/TOPS/src/Circuit.java:18-23 | output declarations append exactly their ids |
| BenchCircuit.DeclareGates | backend/TOPS/src/Circuit.java:66-86 | gate declarations append exactly their shapes |
| BenchCircuit.ParseWrittenLine | backend/TOPS/src/Circuit.java:29-63 | every line of a written netlist parses back to its declaration |
| BenchCircuit.ParseWritten | backend/TOPS/src/Circuit.java:28-63 | a written netlist parses line by line into its declarations |
| BenchCircuit.LoadDecls | backend/TOPS/src/Circuit.java:28-89 | lines that all parse load without error into their declarations applied in order |
| BenchCircuit.LoadParsed | backend/TOPS/src/Circuit.java:25-90 | text whose every line parses loads without error |
| BenchCircuit.DeclareWritten | backend/TOPS/src/Circuit.java:13-87 | declaring the written lines of a netlist into an empty circuit rebuilds it |
| BenchCircuit.LoadWrite | backend/TOPS/src/Circuit.java:25-90 | loading a written netlist into an empty circuit gives the netlist back, without error |
| BenchCircuit.DeclareAllAppend | backend/TOPS/src/Circuit.java:28-89 | declarations apply in sequence |
| BenchCircuit.ShapesOf | backend/TOPS/src/Circuit.java:66-86 | one shape per gate, in order |
| BenchCircuit.LineFor | backend/TOPS/src/Circuit.java:69-79 | the existing line, or a fresh one of value 0 filed under the id |
| BenchCircuit.WiredStep | backend/TOPS/src/Circuit.java:76-84 | wiring one more input adds the gate once to that line's fan-out |
| BenchCircuit.WiredOpened | backend/TOPS/src/Circuit.java:76-79 | a line filed with no fan-out wires like a line not yet filed |
| BenchCircuit.StartGate | backend/TOPS/src/Circuit.java:66-73 | a fresh gate of the type with no inputs, its output the existing line or a fresh "output" line at 0 |
| BenchCircuit.FileInputs | backend/TOPS/src/Circuit.java:76-79 | every input id ends up filed; lines already filed are kept; new ones are fresh, untyped and unwired |
| BenchCircuit.ConnectNext | backend/TOPS/src/Circuit.java:81-82 | one more input id wired: the gate reads its line and that line's fan-out gains the gate |
| BenchCircuit.ConnectInputs | backend/TOPS/src/Circuit.java:76-84 | the gate's inputs are the input lines in order, and each line gains the gate once per occurrence of its id |
| BenchCircuit.WireInputs | backend/TOPS/src/Circuit.java:76-84 | every input line gets the gate once per occurrence; the gate's inputs are those lines in order |
| BenchCircuit.BuildGate | backend/TOPS/src/Circuit.java:66-84 | a fresh gate with the type, the output line and the input lines in order; filed lines kept, a new output line typed "output" and new input lines untyped, all at 0; each input line gains the gate once per occurrence |
| BenchCircuit.Circuit.constructor | backend/TOPS/src/Circuit.java:7-11 | an empty circuit |
| BenchCircuit.Circuit.AddInput | backend/TOPS/src/Circuit.java:13-16 | the id is appended and a fresh "input" line replaces any line of that id |
| BenchCircuit.Circuit.AddOutput | backend/TOPS/src/Circuit.java:18-23 | the id is appended; an "output" line is made only when none exists, and that line is set to 0 |
| BenchCircuit.Circuit.AddGate | backend/TOPS/src/Circuit.java:66-86 | the gate's shape is appended; the line table gains exactly the output and input ids, filed lines keep their objects, a new output line is typed "output" and new input lines untyped, all at 0; the gate reads those lines and each input line's fan-out gains it once per occurrence |
| BenchCircuit.Circuit.Apply | backend/TOPS/src/Circuit.java:32-87 | one parsed line applied: the state is `Declare` of the old state |
| BenchCircuit.Circuit.ParseBench | backend/TOPS/src/Circuit.java:25-90 | the circuit and the error are those of `Load` on the old state |
| IntGate.Gather | backend/TOPS/src/BenchmarkParser.java:18-24 | succeeds iff every input has a value, in order; otherwise raises naming the gate's type |
| IntGate.GateValueErrors | backend/TOPS/src/BenchmarkParser.java:17-45 | IllegalState iff an input is missing; otherwise IllegalArgument iff the type is unknown or NOT has the wrong arity |
| IntGate.XnorAndBuffAreUnknown | backend/TOPS/src/BenchmarkParser.java:42-43 | XNOR and BUFF raise as unknown types |
| IntGate.GateValueOfBits | backend/TOPS/src/BenchmarkParser.java:26-41 | on bits every accepted type gives a bit; AND is 1 iff all inputs are 1, OR iff some input is, NAND and NOR are their complements, NOT flips its input |
| IntGate.XorOfBits | backend/TOPS/src/BenchmarkParser.java:35-36 | on bits XOR succeeds and is the parity of the inputs at 1 |
| IntGate.EvalIsLocal | backend/TOPS/src/BenchmarkParser.java:17-45 | evaluation reads only the gate's own inputs |
| IntGate.GatherIsLocal | backend/TOPS/src/BenchmarkParser.java:18-24 | gathering reads only the gate's own inputs |
| IntGate.Evaluate | backend/TOPS/src/BenchmarkParser.java:17-45 | the loop computes `GateValue` |
| IntParse.Number | backend/TOPS/src/BenchmarkParser.java:89-95 | `parseInt` succeeds iff the text is an integer, else NumberFormatException with the text |
| IntParse.Numbers | backend/TOPS/src/BenchmarkParser.java:92-96 | all pieces trimmed and read, or the exception of a bad one |
| IntParse.DeclId | backend/TOPS/src/BenchmarkParser.java:82-85 | the id is the number formed by all the digits of the line; no digit raises |
| IntParse.ParseLineCases | backend/TOPS/src/BenchmarkParser.java:78-98 | which branch each trimmed line takes |
| IntParse.ParseGateErrors | backend/TOPS/src/BenchmarkParser.java:87-98 | a gate line fails only with an index error or a number format error |
| IntParse.DeclLineRoundTrip | backend/TOPS/src/BenchmarkParser.java:81-86 | `INPUT(n)` and `OUTPUT(n)` read back as their declarations |
| IntParse.GateLineRoundTrip | backend/TOPS/src/BenchmarkParser.java:87-97 | a written gate line reads back as its declaration |
| IntParse.ParseLineOfGate | backend/TOPS/src/BenchmarkParser.java:81-87 | a line starting with neither keyword goes to the gate branch |
| IntParse.GateDefRoundTrip | backend/TOPS/src/BenchmarkParser.java:89-96 | a written gate definition reads back as its declaration |
| IntParse.ExtraEqualsIsIgnored | backend/TOPS/src/BenchmarkParser.java:88-89 | text after a second '=' is ignored |
| IntParse.EmptyParenthesesAreOutOfBounds | backend/TOPS/src/BenchmarkParser.java:90-92 | `TYPE()` raises an index error |
| IntCircuit.Insert | backend/TOPS/src/BenchmarkParser.java:62-68 | a set insertion adds the element, keeps earlier order and keeps elements distinct |
| IntCircuit.InsertCommutes | backend/TOPS/src/BenchmarkParser.java:62-68 | the set does not depend on the order of insertion |
| IntCircuit.DeclareKeepsWellFormed | backend/TOPS/src/BenchmarkParser.java:62-72 | a declaration keeps the sets distinct and the gate map keyed by output |
| IntCircuit.DeclareIsIdempotent | backend/TOPS/src/BenchmarkParser.java:62-72 | declaring the same line twice is declaring it once |
| IntCircuit.LaterGateReplaces | backend/TOPS/src/BenchmarkParser.java:70-72 | a later gate with the same output replaces the earlier one |
| IntCircuit.PutGateKeepsOthers | backend/TOPS/src/BenchmarkParser.java:70-72 | other outputs keep their gates |
| IntCircuit.LoadLinesAppend | backend/TOPS/src/BenchmarkParser.java:77-99 | loading two runs of lines is loading them together |
| IntCircuit.LoadStopsAtError | backend/TOPS/src/BenchmarkParser.java:77-99 | once a line raises, what follows has no effect |
| IntCircuit.LoadStep | backend/TOPS/src/BenchmarkParser.java:77-99 | one more line after a clean load: its error, or its declaration applied |
| IntCircuit.LoadLinesKeepsWellFormed | backend/TOPS/src/BenchmarkParser.java:74-101 | loading keeps the circuit well formed |
| IntCircuit.LoadOfClean | backend/TOPS/src/BenchmarkParser.java:74-101 | a file whose every line parses declares its lines in order, without error |
| IntCircuit.LoadOfInputs | backend/TOPS/src/BenchmarkParser.java:81-83 | a file of INPUT lines declares exactly those ids |
| IntCircuit.DeclareInputs | backend/TOPS/src/BenchmarkParser.java:62-64 | input declarations add exactly their ids to the input set and change nothing else |
| IntCircuit.ShapesIndexBack | backend/TOPS/src/BenchmarkParser.java:60 | the gate map is exactly the driver table of its gates; no line has two drivers |
| IntCircuit.Circuit.constructor | backend/TOPS/src/BenchmarkParser.java:57-60 | an empty circuit |
| IntCircuit.Circuit.AddInput | backend/TOPS/src/BenchmarkParser.java:62-64 | the state is the old one with the input declared |
| IntCircuit.Circuit.AddOutput | backend/TOPS/src/BenchmarkParser.java:66-68 | the state is the old one with the output declared |
| IntCircuit.Circuit.AddGate | backend/TOPS/src/BenchmarkParser.java:70-72 | the state is the old one with the gate put under its output |
| IntCircuit.Circuit.ParseBenchFile | backend/TOPS/src/BenchmarkParser.java:74-101 | the circuit and the error are those of `Load` on the old state |
| FaultSim.PropagateUnsetKeeps | backend/TOPS/src/FaultSimulator.java:26-28 | a line that already has a value is never re-evaluated |
| FaultSim.Unset | backend/TOPS/src/FaultSimulator.java:24-26 | the gates evaluated are exactly those whose output has no value yet |
| FaultSim.PropagateUnsetIsPropagate | backend/TOPS/src/FaultSimulator.java:23-30 | the faulty loop is the fault-free loop over the gates of still-unset lines |
| FaultSim.FaultyRunOutputs | backend/TOPS/src/FaultSimulator.java:14-38 | the keys are the outputs; a non-input fault node shows its stuck-at value; the other given values are kept |
| FaultSim.InputFaultIsIgnored | backend/TOPS/src/FaultSimulator.java:17-20 | a fault on a primary input is not injected, whatever its value |
| FaultSim.FaultyRunIsOrderIndependent | backend/TOPS/src/FaultSimulator.java:22-30 | the faulty run gives alike results along any two level orders |
| FaultSim.LevelOrderOf | backend/TOPS/src/FaultSimulator.java:22 | the chosen order is a level order |
| FaultSim.DetectsMeaning | backend/TOPS/src/FaultSimulator.java:45-54 | detected iff some vector differs after the earlier ones matched; undetected iff every vector matches |
| FaultSim.DetectedCountMeaning | backend/TOPS/src/FaultSimulator.java:42-62 | the count is the number of detected faults, at most the number of faults |
| FaultSim.DetectedCountPrefix | backend/TOPS/src/FaultSimulator.java:44-60 | an error on an earlier fault ends the simulation with an error |
| FaultSim.InputFaultIsUndetected | backend/TOPS/src/FaultSimulator.java:17-50 | a primary-input fault never changes the outputs |
| FaultSim.CollectIsObserved | backend/TOPS/src/FaultSimulator.java:32-35 | fault-free collection equals the faulty observation of the same values |
| FaultSim.RunOnGates | backend/TOPS/src/FaultSimulator.java:47 | `simulate` on the parsed circuit evaluates along its gate map |
| FaultSim.UnexcitedFaultIsUndetected | backend/TOPS/src/FaultSimulator.java:14-50 | a fault stuck at its node's fault-free value is not detected by that vector |
| FaultSim.ObserveOutputs | backend/TOPS/src/FaultSimulator.java:32-35 | exactly the outputs, each with its value or null |
| FaultSim.SimulateWithFault | backend/TOPS/src/FaultSimulator.java:14-38 | the cycle exception iff no level order exists, else the faulty run along the order found |
| FaultSim.FaultFreeIsCanonical | backend/TOPS/src/FaultSimulator.java:47 | the run along any level order is alike with the canonical fault-free run |
| FaultSim.FaultyIsCanonical | backend/TOPS/src/FaultSimulator.java:48 | the faulty run along any level order is alike with the canonical faulty run |
| FaultSim.DetectFault | backend/TOPS/src/FaultSimulator.java:45-54 | the vector loop is alike with `Detects` |
| FaultSim.SerialFaultSimulation | backend/TOPS/src/FaultSimulator.java:41-63 | the result is alike with `DetectedCount` |
| BenchFaultSim.FaultList | backend/TOPS/src/BenchmarkFaultSimulation.java:18-28 | stuck-at-0 then stuck-at-1 for each gate output, then for each primary output |
| BenchFaultSim.FaultListMembers | backend/TOPS/src/BenchmarkFaultSimulation.java:18-28 | the list holds exactly the stuck-at-0/1 faults of gate outputs and primary outputs |
| BenchFaultSim.BitOf | backend/TOPS/src/BenchmarkFaultSimulation.java:74 | `(i >> j) & 1` is a bit |
| BenchFaultSim.GenerateAllTestVectors | backend/TOPS/src/BenchmarkFaultSimulation.java:64-82 | 2^min(n,10) vectors; vector i maps exactly the inputs, bit j of i for the first ten, 0 beyond |
| BenchFaultSim.BuildVector | backend/TOPS/src/BenchmarkFaultSimulation.java:71-79 | one vector maps exactly the inputs to their stimuli |
| BenchFaultSim.GeneratedAreBits | backend/TOPS/src/BenchmarkFaultSimulation.java:64-82 | every generated value is 0 or 1, for every input |
| BenchFaultSim.BitsTellApart | backend/TOPS/src/BenchmarkFaultSimulation.java:74 | two different numbers below 2^m differ in some bit below m |
| BenchFaultSim.GeneratedAreDistinct | backend/TOPS/src/BenchmarkFaultSimulation.java:64-82 | the generated vectors are pairwise different |
| BenchFaultSim.Lacking | backend/TOPS/src/BenchmarkFaultSimulation.java:90-98 | none iff every vector has every input; otherwise an input some vector lacks |
| BenchFaultSim.ValidateInputs | backend/TOPS/src/BenchmarkFaultSimulation.java:90-98 | raises iff a vector lacks an input, with IllegalState naming the first one |
| BenchFaultSim.GeneratedPassValidation | backend/TOPS/src/BenchmarkFaultSimulation.java:31-34 | the generated vectors always pass validation |

## Left out

- Rendering, `alert`, `console.log`, `useEffect` scheduling and the `currentGateProcessing` highlight are left out. The alerts are kept as a returned list of messages.
- `processedDFrontierNodes` is left out. It is only ever the empty set, so its filter in `updateDFrontier` has no effect.
- `handleFaultConeTracingComplete` is left out, because no control invokes it. `traceFaultObservationPath`, which it calls, is modelled.
- The hard-wired `initialData`, dominator table and basis-node list are parameters, because the results hold for any circuit.
- Session.AtpgSession: a React setter is modelled as a write applied when the handler returns, and each handler reads the state as it was at its start. Re-renders between handlers are not modelled.
- File reading, `printCircuit`, `toString`, both `main` methods, `PerformanceAnalysis` and `FaultCoverageVerification` are left out. A file is given as its sequence of lines.
- `parallelFaultSimulation` is left out: its parallel stream is concurrency.
- FaultSim.SerialFaultSimulation returns the number of detected faults, not the `double` ratio over the fault count. This avoids floating point and the division by zero on an empty fault list.
- FaultSim.SerialFaultSimulation and FaultSim.DetectFault are proved "alike" with their specifications. Both fail or both give the same value; when both fail, the model does not say which exception comes out.
- FaultSim.SimulateWithFault and FaultSim.SerialFaultSimulation run the string-keyed levelization and simulation code at int ids. The repository holds no int-keyed `Simulation` class, although `BenchmarkParser` and `FaultSimulator` use one.
- BenchFaultSim.FaultList builds the fault list from the string-keyed circuit's declarations, as `main` does. Its `Fault` is the one datatype the model uses for both id types.
- `Fault.java` is not part of this model beyond its two fields.
- `Integer.parseInt` overflow is not modelled: ids are unbounded integers.
- Text.DigitValue uses the Unicode 15 table of decimal digits. A Java runtime on an older Unicode version accepts fewer scripts.
- Signals.Line.SetLineValue assumes the connected lines form no cycle: it requires a ranking that falls along every connection. On a cycle the source recurses until a StackOverflowError, which the model does not capture. Every circuit built here satisfies the ranking, because nothing calls `addConnectedLine`.
- Hash iteration order is modelled as insertion order. The levelization seeds and the set-to-list copy of the inputs follow this order; the order-independence lemmas cover the levelization order.
- Line.java's `getLineValue`, `getId`, `getType` and `getConnectedLines`, and Gate.java's `getOutput` and `getInputs`, are field reads and have no member of their own.
- `inputCounts` in Circuit.java is left out: it is declared but never used.
- BenchCircuit.WireInputs files all of a gate's missing input lines first and then wires them in order. The source files and wires each input in one pass. Both orders leave the same lines, gate inputs and fan-outs; only the order of these side effects differs.

/**
 * The string-keyed `Circuit` of the Java back end: primary input and output ids, the
 * gate objects in file order, and a map from line id to line object. It is loaded
 * from `.bench` text line by line, and simulated through `Simulation`.
 */
module BenchCircuit {

  import opened Wrappers
  import opened Text
  import opened Bits
  import opened Signals
  import opened BenchParse
  import Simulation

  type Shape = Simulation.GateShape<string>

  /** What the file has declared so far: inputs and outputs in order, and one shape per gate. */
  datatype Netlist = Netlist(inputs: seq<string>, outputs: seq<string>, gates: seq<Shape>)

  const Empty := Netlist([], [], [])

  /** The effect of one parsed line on the declarations. */
  function Declare(n: Netlist, d: Decl): Netlist {
    match d
    case Skip => n
    case InputDecl(id) => n.(inputs := n.inputs + [id])
    case OutputDecl(id) => n.(outputs := n.outputs + [id])
    case GateDecl(output, gateType, ins) => n.(gates := n.gates + [Simulation.GateShape(gateType, output, ins)])
  }

  /** `f` applied to every line of a file, in order. */
  function MapLines<T>(f: string -> T, text: seq<string>): (r: seq<T>)
    ensures |r| == |text| && forall k :: 0 <= k < |text| ==> r[k] == f(text[k])
  {
    seq(|text|, k requires 0 <= k < |text| => f(text[k]))
  }

  lemma MapLinesAppend<T>(f: string -> T, text: seq<string>, more: seq<string>)
    ensures MapLines(f, text + more) == MapLines(f, text) + MapLines(f, more)
  {
    var whole := MapLines(f, text + more);
    var parts := MapLines(f, text) + MapLines(f, more);
    forall k | 0 <= k < |whole|
      ensures whole[k] == parts[k]
    {
      if k >= |text| {
        assert (text + more)[k] == more[k - |text|];
      }
    }
  }

  /** Each line of the file parsed on its own, in order. */
  function ParseAll(text: seq<string>): seq<Result<Decl, Error>>
  {
    MapLines(ParseLine, text)
  }

  /** Applying parsed lines in order; the first line that raised stops the load, keeping what came before it. */
  function LoadLines(n: Netlist, parsed: seq<Result<Decl, Error>>): (Netlist, Option<Error>)
    decreases |parsed|
  {
    if parsed == [] then (n, None)
    else
      match parsed[0]
      case Err(e) => (n, Some(e))
      case Ok(d) => LoadLines(Declare(n, d), parsed[1..])
  }

  /** Loading `.bench` text: the declarations read before the first error, and that error. */
  function Load(n: Netlist, text: seq<string>): (Netlist, Option<Error>) {
    LoadLines(n, ParseAll(text))
  }

  /** Loading two runs of lines one after the other is loading them together. */
  lemma {:induction false} LoadLinesAppend(n: Netlist, a: seq<Result<Decl, Error>>, b: seq<Result<Decl, Error>>)
    ensures LoadLines(n, a + b) == if LoadLines(n, a).1.Some? then LoadLines(n, a) else LoadLines(LoadLines(n, a).0, b)
    decreases |a|
  {
    if a != [] {
      assert (a + b)[0] == a[0] && (a + b)[1..] == a[1..] + b;
      if a[0].Ok? {
        LoadLinesAppend(Declare(n, a[0].value), a[1..], b);
      }
    } else {
      assert a + b == b;
    }
  }

  lemma ParseAllAppend(text: seq<string>, more: seq<string>)
    ensures ParseAll(text + more) == ParseAll(text) + ParseAll(more)
  {
    MapLinesAppend(ParseLine, text, more);
  }

  /** Loading stops at the first line that raises, whatever follows it. */
  lemma LoadStopsAtError(n: Netlist, text: seq<string>, more: seq<string>)
    requires Load(n, text).1.Some?
    ensures Load(n, text + more) == Load(n, text)
  {
    ParseAllAppend(text, more);
    LoadLinesAppend(n, ParseAll(text), ParseAll(more));
  }

  /** Loading one more line after a clean load: its error, or its declaration applied. */
  lemma LoadStep(n: Netlist, text: seq<string>, i: nat)
    requires i < |text| && Load(n, text[..i]).1.None?
    ensures Load(n, text[..i + 1]) ==
      match ParseLine(text[i])
      case Err(e) => (Load(n, text[..i]).0, Some(e))
      case Ok(d) => (Declare(Load(n, text[..i]).0, d), None)
  {
    assert text[..i + 1] == text[..i] + [text[i]];
    LoadAppend(n, text[..i], [text[i]]);
    var m := Load(n, text[..i]).0;
    var parsed := ParseAll([text[i]]);
    assert parsed == [ParseLine(text[i])] && parsed[1..] == [];
    match ParseLine(text[i])
    case Err(e) =>
    case Ok(d) =>
      assert LoadLines(m, parsed) == LoadLines(Declare(m, d), []);
  }

  /** Declarations accumulate: loading more text after a clean load continues from where it left off. */
  lemma LoadAppend(n: Netlist, text: seq<string>, more: seq<string>)
    requires Load(n, text).1.None?
    ensures Load(n, text + more) == Load(Load(n, text).0, more)
  {
    ParseAllAppend(text, more);
    LoadLinesAppend(n, ParseAll(text), ParseAll(more));
  }

  // ---------------------------------------------------------------------------
  // Writing a netlist back as text
  // ---------------------------------------------------------------------------

  predicate WritableGate(g: Shape) {
    IsName(g.output) && IsName(g.gateType) && |g.inputs| >= 1 &&
    (forall k :: 0 <= k < |g.inputs| ==> IsName(g.inputs[k])) &&
    (TakesOneInput(g.gateType) ==> |g.inputs| == 1) &&
    !StartsWith(g.output, "INPUT") && !StartsWith(g.output, "OUTPUT")
  }

  /** Names the format can carry, gates it reads back as written. */
  predicate Writable(n: Netlist) {
    (forall k :: 0 <= k < |n.inputs| ==> IsName(n.inputs[k])) &&
    (forall k :: 0 <= k < |n.outputs| ==> IsName(n.outputs[k])) &&
    (forall k :: 0 <= k < |n.gates| ==> WritableGate(n.gates[k]))
  }

  function DeclLines(kind: string, ids: seq<string>): (r: seq<string>)
    ensures |r| == |ids| && forall k :: 0 <= k < |ids| ==> r[k] == DeclLine(kind, ids[k])
  {
    seq(|ids|, k requires 0 <= k < |ids| => DeclLine(kind, ids[k]))
  }

  function GateLines(gates: seq<Shape>): (r: seq<string>)
    ensures |r| == |gates| && forall k :: 0 <= k < |gates| ==> r[k] == GateLine(gates[k].output, gates[k].gateType, gates[k].inputs)
  {
    seq(|gates|, k requires 0 <= k < |gates| => GateLine(gates[k].output, gates[k].gateType, gates[k].inputs))
  }

  /** The `.bench` text of a netlist: input declarations, output declarations, then the gates. */
  function Write(n: Netlist): seq<string> {
    DeclLines("INPUT", n.inputs) + DeclLines("OUTPUT", n.outputs) + GateLines(n.gates)
  }

  /** Declaring each of `decls` in turn, with no error. */
  function OkAll(decls: seq<Decl>): (r: seq<Result<Decl, Error>>)
    ensures |r| == |decls| && forall k :: 0 <= k < |decls| ==> r[k] == Ok(decls[k])
  {
    seq(|decls|, k requires 0 <= k < |decls| => Ok(decls[k]))
  }

  lemma {:induction false} LoadDecls(m: Netlist, decls: seq<Decl>)
    ensures LoadLines(m, OkAll(decls)) == (DeclareAll(m, decls), None)
    decreases |decls|
  {
    if decls != [] {
      assert OkAll(decls)[1..] == OkAll(decls[1..]);
      LoadDecls(Declare(m, decls[0]), decls[1..]);
    }
  }

  function DeclareAll(n: Netlist, decls: seq<Decl>): Netlist
    decreases |decls|
  {
    if decls == [] then n else DeclareAll(Declare(n, decls[0]), decls[1..])
  }

  lemma {:induction false} DeclareInputs(m: Netlist, ids: seq<string>)
    ensures DeclareAll(m, InputDecls(ids)) == m.(inputs := m.inputs + ids)
    decreases |ids|
  {
    if ids != [] {
      assert InputDecls(ids)[1..] == InputDecls(ids[1..]);
      DeclareInputs(m.(inputs := m.inputs + [ids[0]]), ids[1..]);
      assert m.inputs + [ids[0]] + ids[1..] == m.inputs + ids;
    } else {
      assert m.inputs + ids == m.inputs;
    }
  }

  lemma {:induction false} DeclareOutputs(m: Netlist, ids: seq<string>)
    ensures DeclareAll(m, OutputDecls(ids)) == m.(outputs := m.outputs + ids)
    decreases |ids|
  {
    if ids != [] {
      assert OutputDecls(ids)[1..] == OutputDecls(ids[1..]);
      DeclareOutputs(m.(outputs := m.outputs + [ids[0]]), ids[1..]);
      assert m.outputs + [ids[0]] + ids[1..] == m.outputs + ids;
    } else {
      assert m.outputs + ids == m.outputs;
    }
  }

  function GateDecls(gates: seq<Shape>): (r: seq<Decl>)
    ensures |r| == |gates| && forall k :: 0 <= k < |gates| ==> r[k] == GateDecl(gates[k].output, gates[k].gateType, gates[k].inputs)
  {
    seq(|gates|, k requires 0 <= k < |gates| => GateDecl(gates[k].output, gates[k].gateType, gates[k].inputs))
  }

  lemma {:induction false} DeclareGates(m: Netlist, gates: seq<Shape>)
    ensures DeclareAll(m, GateDecls(gates)) == m.(gates := m.gates + gates)
    decreases |gates|
  {
    if gates != [] {
      var g := gates[0];
      assert GateDecls(gates)[1..] == GateDecls(gates[1..]);
      assert Simulation.GateShape(g.gateType, g.output, g.inputs) == g;
      DeclareGates(m.(gates := m.gates + [g]), gates[1..]);
      assert m.gates + [g] + gates[1..] == m.gates + gates;
    } else {
      assert m.gates + gates == m.gates;
    }
  }

  function InputDecls(ids: seq<string>): (r: seq<Decl>)
    ensures |r| == |ids| && forall k :: 0 <= k < |ids| ==> r[k] == InputDecl(ids[k])
  {
    seq(|ids|, k requires 0 <= k < |ids| => InputDecl(ids[k]))
  }

  function OutputDecls(ids: seq<string>): (r: seq<Decl>)
    ensures |r| == |ids| && forall k :: 0 <= k < |ids| ==> r[k] == OutputDecl(ids[k])
  {
    seq(|ids|, k requires 0 <= k < |ids| => OutputDecl(ids[k]))
  }

  /** The declarations `Write` puts on its lines, in line order. */
  function Written(n: Netlist): (r: seq<Decl>)
    ensures |r| == |Write(n)|
  {
    InputDecls(n.inputs) + OutputDecls(n.outputs) + GateDecls(n.gates)
  }

  lemma ParseWrittenLine(n: Netlist, k: nat)
    requires Writable(n) && k < |Write(n)|
    ensures ParseLine(Write(n)[k]) == Ok(Written(n)[k])
  {
    var a := |n.inputs|;
    var b := |n.outputs|;
    if k < a {
      assert Write(n)[k] == DeclLine("INPUT", n.inputs[k]) && Written(n)[k] == InputDecl(n.inputs[k]);
      DeclLineRoundTrip(n.inputs[k]);
    } else if k < a + b {
      assert Write(n)[k] == DeclLine("OUTPUT", n.outputs[k - a]) && Written(n)[k] == OutputDecl(n.outputs[k - a]);
      DeclLineRoundTrip(n.outputs[k - a]);
    } else {
      var g := n.gates[k - a - b];
      assert WritableGate(g);
      assert Write(n)[k] == GateLine(g.output, g.gateType, g.inputs) && Written(n)[k] == GateDecl(g.output, g.gateType, g.inputs);
      GateLineRoundTrip(g.output, g.gateType, g.inputs);
    }
  }

  /** Every written line parses back to the declaration it was written from. */
  lemma ParseWritten(n: Netlist)
    requires Writable(n)
    ensures ParseAll(Write(n)) == OkAll(Written(n))
  {
    forall k | 0 <= k < |Write(n)|
      ensures ParseAll(Write(n))[k] == OkAll(Written(n))[k]
    {
      ParseWrittenLine(n, k);
    }
  }

  /** Text whose every line parses cleanly loads as those declarations applied in order. */
  lemma LoadParsed(n: Netlist, text: seq<string>, decls: seq<Decl>)
    requires ParseAll(text) == OkAll(decls)
    ensures Load(n, text) == (DeclareAll(n, decls), None)
  {
    LoadDecls(n, decls);
  }

  /** Declaring what `Write` wrote, starting from nothing, rebuilds the netlist. */
  lemma DeclareWritten(n: Netlist)
    ensures DeclareAll(Empty, Written(n)) == n
  {
    var ins := InputDecls(n.inputs);
    var outs := OutputDecls(n.outputs);
    var gs := GateDecls(n.gates);
    assert Written(n) == ins + outs + gs;
    DeclareAllAppend(Empty, ins + outs, gs);
    DeclareAllAppend(Empty, ins, outs);
    DeclareInputs(Empty, n.inputs);
    assert Empty.inputs + n.inputs == n.inputs;
    DeclareOutputs(Netlist(n.inputs, [], []), n.outputs);
    assert Empty.outputs + n.outputs == n.outputs;
    DeclareGates(Netlist(n.inputs, n.outputs, []), n.gates);
    assert Empty.gates + n.gates == n.gates;
  }

  /** Writing a netlist out and loading it back gives the same netlist, with no error. */
  lemma LoadWrite(n: Netlist)
    requires Writable(n)
    ensures Load(Empty, Write(n)) == (n, None)
  {
    ParseWritten(n);
    LoadParsed(Empty, Write(n), Written(n));
    DeclareWritten(n);
  }

  lemma {:induction false} DeclareAllAppend(n: Netlist, a: seq<Decl>, b: seq<Decl>)
    ensures DeclareAll(n, a + b) == DeclareAll(DeclareAll(n, a), b)
    decreases |a|
  {
    if a != [] {
      assert (a + b)[0] == a[0] && (a + b)[1..] == a[1..] + b;
      DeclareAllAppend(Declare(n, a[0]), a[1..], b);
    } else {
      assert a + b == b;
    }
  }

  // ---------------------------------------------------------------------------
  // The circuit object
  // ---------------------------------------------------------------------------

  /**
   * The shape of a gate object: its type, its output line's id and its input lines'
   * ids (a gate of a valid circuit always has an output line; without one the id
   * reads as empty).
   */
  function ShapeOf(g: Gate): Shape
    reads g`output, g`inputs
  {
    Simulation.GateShape(g.gateType, if g.output == null then "" else g.output.id, g.InputIds())
  }

  function ShapesOf(gs: seq<Gate>): (r: seq<Shape>)
    reads gs`output, gs`inputs
    ensures |r| == |gs| && forall k :: 0 <= k < |gs| ==> r[k] == ShapeOf(gs[k])
  {
    if gs == [] then [] else ShapesOf(gs[..|gs| - 1]) + [ShapeOf(gs[|gs| - 1])]
  }

  /** `count` copies of `g`. */
  function Repeat(g: Gate, count: nat): seq<Gate>
  {
    if count == 0 then [] else Repeat(g, count - 1) + [g]
  }

  /** Every line is filed under its own id. */
  ghost predicate Filed(ls: map<string, Line>)
  {
    forall k :: k in ls ==> ls[k].id == k
  }

  /** No line is wired to another line (nothing in the circuit calls `addConnectedLine`). */
  ghost predicate Unlinked(ls: map<string, Line>)
    reads ls.Values`connectedLines
  {
    forall k :: k in ls ==> ls[k].connectedLines == []
  }

  /**
   * The line filed under `id`, created with type `lineType` and value 0 and filed if
   * there is none (the `containsKey`/`put` pairs of `parseBenchFile`).
   */
  method LineFor(ls: map<string, Line>, id: string, lineType: string) returns (ls': map<string, Line>, l: Line)
    ensures id in ls' && l == ls'[id]
    ensures id in ls ==> ls' == ls
    ensures id !in ls ==> (fresh(l) && ls' == ls[id := l] && l.id == id && l.lineType == lineType &&
                           l.value == 0 && l.connectedGates == [] && l.connectedLines == [])
    ensures Filed(ls) ==> Filed(ls')
    ensures FanOuts(ls') == old(FanOuts(ls)) || (id !in ls && FanOuts(ls') == old(FanOuts(ls))[id := []])
  {
    if id in ls {
      return ls, ls[id];
    }
    l := new Line(0, lineType, id);
    ls' := ls[id := l];
  }

  /** The fan-out list of every filed line, read off the heap. */
  ghost function FanOuts(ls: map<string, Line>): map<string, seq<Gate>>
    reads ls.Values`connectedGates
  {
    map k | k in ls :: ls[k].connectedGates
  }

  /** `m` with `g` appended to the list under `k` (an absent list reads as empty). */
  function Append(m: map<string, seq<Gate>>, k: string, g: Gate): map<string, seq<Gate>> {
    m[k := (if k in m then m[k] else []) + [g]]
  }

  /**
   * The fan-out lists after wiring `gate` to the lines `ids`: each line of `keys`
   * keeps what it had in `base` (nothing if it is new) and gains the gate once per
   * occurrence of its id.
   */
  function Wired(base: map<string, seq<Gate>>, keys: set<string>, gate: Gate, ids: seq<string>): map<string, seq<Gate>> {
    map k | k in keys :: (if k in base then base[k] else []) + Repeat(gate, Simulation.Count(ids, k))
  }

  /** Before any input is wired every list is as it was. */
  lemma WiredNone(base: map<string, seq<Gate>>, gate: Gate, ids: seq<string>)
    ensures Wired(base, base.Keys, gate, ids[..0]) == base
  {
    assert ids[..0] == [];
    var m := Wired(base, base.Keys, gate, ids[..0]);
    forall k | k in m
      ensures m[k] == base[k]
    {
      assert Repeat(gate, 0) == [];
      assert base[k] + [] == base[k];
    }
  }

  /** Wiring one more input appends the gate to that input's list and to no other. */
  lemma WiredStep(base: map<string, seq<Gate>>, keys: set<string>, gate: Gate, ids: seq<string>, i: nat)
    requires i < |ids| && ids[i] in keys
    ensures Wired(base, keys, gate, ids[..i + 1]) == Append(Wired(base, keys, gate, ids[..i]), ids[i], gate)
  {
    var m := Wired(base, keys, gate, ids[..i + 1]);
    var n := Append(Wired(base, keys, gate, ids[..i]), ids[i], gate);
    forall k | k in m
      ensures m[k] == n[k]
    {
      WiredStepAt(base, keys, gate, ids, i, k);
    }
  }

  /** `WiredStep` at a single key. */
  lemma WiredStepAt(base: map<string, seq<Gate>>, keys: set<string>, gate: Gate, ids: seq<string>, i: nat, k: string)
    requires i < |ids| && ids[i] in keys && k in keys
    ensures Wired(base, keys, gate, ids[..i + 1])[k] == Append(Wired(base, keys, gate, ids[..i]), ids[i], gate)[k]
  {
    var c := Simulation.Count(ids[..i], k);
    Simulation.CountStep(ids, i);
    if k == ids[i] {
      assert Repeat(gate, c + 1) == Repeat(gate, c) + [gate];
    }
  }

  /** Lines filed with an empty fan-out count as lines filed with none. */
  lemma WiredOpened(base: map<string, seq<Gate>>, filed: map<string, seq<Gate>>, keys: set<string>, gate: Gate, ids: seq<string>)
    requires forall k :: k in filed ==> filed[k] == if k in base then base[k] else []
    requires base.Keys <= filed.Keys
    ensures Wired(filed, keys, gate, ids) == Wired(base, keys, gate, ids)
  {
  }

  /** Appending `g` to the fan-out of the line filed under `id` changes that entry only. */
  lemma FanOutsPush(ls: map<string, Line>, id: string, g: Gate, before: map<string, seq<Gate>>)
    requires id in ls && before.Keys == ls.Keys
    requires ls[id].connectedGates == before[id] + [g]
    requires forall k :: k in ls && k != id ==> ls[k].connectedGates == before[k]
    ensures FanOuts(ls) == before[id := before[id] + [g]]
  {
  }

  lemma ElemsStep<T>(xs: seq<T>, i: nat)
    requires i < |xs|
    ensures Simulation.Elems(xs[..i + 1]) == Simulation.Elems(xs[..i]) + {xs[i]}
  {
    assert xs[..i + 1] == xs[..i] + [xs[i]];
  }

  lemma ElemsPrefix<T>(xs: seq<T>, i: nat)
    requires i <= |xs|
    ensures Simulation.Elems(xs[..i]) <= Simulation.Elems(xs)
  {
    assert forall j :: 0 <= j < i ==> xs[..i][j] == xs[j];
  }

  /**
   * The `containsKey`/`put` half of the input loop of `parseBenchFile`'s gate branch:
   * every input id without a line gets a fresh one with an empty type and no fan-out.
   */
  method FileInputs(ls: map<string, Line>, inputIds: seq<string>) returns (ls': map<string, Line>)
    requires Filed(ls)
    ensures Filed(ls') && ls'.Keys == ls.Keys + Simulation.Elems(inputIds)
    ensures forall k :: k in ls ==> ls'[k] == ls[k]
    ensures forall k :: k in ls' && k !in ls ==>
      fresh(ls'[k]) && ls'[k].lineType == "" && ls'[k].value == 0 &&
        ls'[k].connectedGates == [] && ls'[k].connectedLines == []
  {
    ls' := ls;
    var i := 0;
    while i < |inputIds|
      invariant 0 <= i <= |inputIds| && Filed(ls')
      invariant ls'.Keys == ls.Keys + Simulation.Elems(inputIds[..i])
      invariant forall k :: k in ls ==> ls'[k] == ls[k]
      invariant forall k :: k in ls' && k !in ls ==>
        fresh(ls'[k]) && ls'[k].lineType == "" && ls'[k].value == 0 &&
        ls'[k].connectedGates == [] && ls'[k].connectedLines == []
    {
      ElemsStep(inputIds, i);
      var l;
      ls', l := LineFor(ls', inputIds[i], "");
      i := i + 1;
    }
    assert inputIds[..i] == inputIds;
  }

  /**
   * The wiring half of the input loop, over lines already filed: for each input id in
   * order, its line is appended to the gate's inputs and the gate to that line's
   * fan-out.
   */
  method ConnectInputs(gate: Gate, ls: map<string, Line>, inputIds: seq<string>)
    requires Filed(ls) && Simulation.Elems(inputIds) <= ls.Keys && gate.inputs == []
    modifies gate`inputs, ls.Values`connectedGates
    ensures gate.inputs == LinesOf(ls, inputIds)
    ensures FanOuts(ls) == Wired(old(FanOuts(ls)), ls.Keys, gate, inputIds)
  {
    ghost var base := FanOuts(ls);
    var i := 0;
    WiredNone(base, gate, inputIds);
    ElemsPrefix(inputIds, 0);
    while i < |inputIds|
      invariant Connected(gate, ls, inputIds, i, base)
    {
      ConnectNext(gate, ls, inputIds, i, base);
      i := i + 1;
    }
    assert inputIds[..i] == inputIds;
  }

  /** The first `i` input ids are wired: the gate reads their lines, and each line has the gate once per occurrence. */
  ghost predicate Connected(gate: Gate, ls: map<string, Line>, ids: seq<string>, i: nat, base: map<string, seq<Gate>>)
    reads gate, ls.Values
  {
    i <= |ids| && Simulation.Elems(ids[..i]) <= ls.Keys &&
    gate.inputs == LinesOf(ls, ids[..i]) && FanOuts(ls) == Wired(base, ls.Keys, gate, ids[..i])
  }

  /** One pass of the wiring loop: the line of the next input id and the gate are wired to each other. */
  method ConnectNext(gate: Gate, ls: map<string, Line>, inputIds: seq<string>, i: nat, ghost base: map<string, seq<Gate>>)
    requires Filed(ls) && Simulation.Elems(inputIds) <= ls.Keys
    requires i < |inputIds| && Connected(gate, ls, inputIds, i, base)
    modifies gate`inputs, {ls[inputIds[i]]}`connectedGates
    ensures Connected(gate, ls, inputIds, i + 1, base)
  {
    ElemsPrefix(inputIds, i + 1);
    var inId := inputIds[i];
    var l := ls[inId];
    ghost var before := FanOuts(ls);
    gate.AddInput(l);
    l.AddConnectedGate(gate);
    FanOutsPush(ls, inId, gate, before);
    WiredStep(base, ls.Keys, gate, inputIds, i);
    LinesOfStep(ls, inputIds, i);
  }

  lemma LinesOfStep(ls: map<string, Line>, ids: seq<string>, i: nat)
    requires i < |ids| && Simulation.Elems(ids[..i + 1]) <= ls.Keys
    ensures Simulation.Elems(ids[..i]) <= ls.Keys
    ensures LinesOf(ls, ids[..i + 1]) == LinesOf(ls, ids[..i]) + [ls[ids[i]]]
  {
    assert ids[..i + 1][..i] == ids[..i];
  }

  /**
   * The input loop of `parseBenchFile`'s gate branch. The source files a missing
   * line and wires it in the same pass; filing every missing line first and then
   * wiring in order leaves the same lines, inputs and fan-outs.
   */
  method WireInputs(gate: Gate, ls: map<string, Line>, inputIds: seq<string>) returns (ls': map<string, Line>)
    requires Filed(ls) && gate.inputs == []
    modifies gate`inputs, ls.Values`connectedGates
    ensures Filed(ls') && ls'.Keys == ls.Keys + Simulation.Elems(inputIds)
    ensures forall k :: k in ls ==> ls'[k] == ls[k]
    ensures forall k :: k in ls' && k !in ls ==>
      fresh(ls'[k]) && ls'[k].lineType == "" && ls'[k].value == 0 && ls'[k].connectedLines == []
    ensures gate.inputs == LinesOf(ls', inputIds)
    ensures FanOuts(ls') == Wired(old(FanOuts(ls)), ls'.Keys, gate, inputIds)
  {
    ls' := FileInputs(ls, inputIds);
    WiredOpened(old(FanOuts(ls)), FanOuts(ls'), ls'.Keys, gate, inputIds);
    ConnectInputs(gate, ls', inputIds);
  }

  /** The lines filed under `ids`, in order. */
  function LinesOf(ls: map<string, Line>, ids: seq<string>): (r: seq<Line>)
    requires Simulation.Elems(ids) <= ls.Keys
  {
    if ids == [] then [] else LinesOf(ls, ids[..|ids| - 1]) + [ls[ids[|ids| - 1]]]
  }

  lemma {:induction false} LinesOfAt(ls: map<string, Line>, ids: seq<string>)
    requires Simulation.Elems(ids) <= ls.Keys
    ensures |LinesOf(ls, ids)| == |ids| && forall j :: 0 <= j < |ids| ==> LinesOf(ls, ids)[j] == ls[ids[j]]
  {
    if ids != [] {
      LinesOfAt(ls, ids[..|ids| - 1]);
    }
  }

  /**
   * The gate-building half of `parseBenchFile`: a new gate of that type; its output
   * line, created as an "output" line if no line has the id; then for each input
   * id in order, the line with that id (created with an empty type if missing) is
   * appended to the gate's inputs and the gate to that line's fan-out.
   */
  method BuildGate(ls: map<string, Line>, gateType: string, outputId: string, inputIds: seq<string>)
    returns (gate: Gate, ls': map<string, Line>)
    requires Filed(ls)
    modifies ls.Values`connectedGates
    ensures fresh(gate) && Filed(ls')
    ensures ls'.Keys == ls.Keys + {outputId} + Simulation.Elems(inputIds)
    ensures forall k :: k in ls ==> ls'[k] == ls[k]
    ensures gate.gateType == gateType && gate.output == ls'[outputId] && gate.inputs == LinesOf(ls', inputIds)
    ensures ShapeOf(gate) == Simulation.GateShape(gateType, outputId, inputIds)
    ensures Unlinked(ls) ==> Unlinked(ls')
    ensures forall k :: k in ls' && k !in ls ==> fresh(ls'[k]) && ls'[k].value == 0
    ensures outputId !in ls ==> ls'[outputId].lineType == "output"
    ensures forall k :: k in ls' && k !in ls && k != outputId ==> ls'[k].lineType == ""
    ensures FanOuts(ls') == Wired(old(FanOuts(ls)), ls'.Keys, gate, inputIds)
  {
    gate, ls' := StartGate(ls, gateType, outputId);
    WiredOpened(old(FanOuts(ls)), FanOuts(ls'), ls'.Keys + Simulation.Elems(inputIds), gate, inputIds);
    ghost var started := ls';
    ls' := WireInputs(gate, ls', inputIds);
    KeptEntries(ls, started, ls');
    IdsOfLinesOf(ls', inputIds);
    forall k | k in ls' && k !in ls
      ensures fresh(ls'[k]) && ls'[k].connectedLines == [] && ls'[k].value == 0
      ensures k == outputId ==> ls'[k].lineType == "output"
      ensures k != outputId ==> ls'[k].lineType == ""
    {
      if k in started {
        assert ls'[k] == started[k];
      }
    }
  }

  lemma KeptEntries(ls: map<string, Line>, mid: map<string, Line>, ls': map<string, Line>)
    requires ls.Keys <= mid.Keys && (forall k :: k in ls ==> mid[k] == ls[k])
    requires mid.Keys <= ls'.Keys && (forall k :: k in mid ==> ls'[k] == mid[k])
    ensures forall k :: k in ls ==> ls'[k] == ls[k]
  {
  }

  /** The lines filed under `ids` carry those ids. */
  lemma IdsOfLinesOf(ls: map<string, Line>, ids: seq<string>)
    requires Filed(ls) && Simulation.Elems(ids) <= ls.Keys
    ensures Ids(LinesOf(ls, ids)) == ids
  {
    LinesOfAt(ls, ids);
  }

  /** The fan-out table once `k` has an entry: an empty one if it had none. */
  function Opened(m: map<string, seq<Gate>>, k: string): map<string, seq<Gate>>
  {
    if k in m then m else m[k := []]
  }

  /** A new gate of that type, its output the line filed under `outputId` (an "output" line if new). */
  method StartGate(ls: map<string, Line>, gateType: string, outputId: string) returns (gate: Gate, ls': map<string, Line>)
    requires Filed(ls)
    ensures fresh(gate) && gate.gateType == gateType && gate.inputs == []
    ensures Filed(ls') && ls'.Keys == ls.Keys + {outputId} && gate.output == ls'[outputId]
    ensures forall k :: k in ls ==> ls'[k] == ls[k]
    ensures outputId !in ls ==>
      fresh(ls'[outputId]) && ls'[outputId].lineType == "output" &&
      ls'[outputId].value == 0 && ls'[outputId].connectedLines == []
    ensures forall k :: k in ls' && k !in ls ==> fresh(ls'[k]) && ls'[k].connectedLines == []
    ensures FanOuts(ls') == Opened(old(FanOuts(ls)), outputId)
  {
    var out;
    ls', out := LineFor(ls, outputId, "output");
    gate := new Gate(gateType);
    gate.SetOutput(out);
  }

  lemma ShapesOfSnoc(gs: seq<Gate>, g: Gate)
    ensures ShapesOf(gs + [g]) == ShapesOf(gs) + [ShapeOf(g)]
  {
    assert (gs + [g])[..|gs|] == gs;
  }

  /** `setLineValue(0)` on a line wired to no other line: only its own value changes. */
  method Reset(l: Line)
    requires l.connectedLines == []
    modifies l`value
    ensures l.value == 0
  {
    l.SetLineValue(0, map[l := 0]);
    assert Downstream(l, map[l := 0]) == {l};
  }

  /** Gates no step has touched keep their shapes. */
  twostate lemma {:induction false} ShapesKept(gs: seq<Gate>)
    requires forall g :: g in gs ==> old(allocated(g)) && g.output == old(g.output) && g.inputs == old(g.inputs)
    ensures ShapesOf(gs) == old(ShapesOf(gs))
  {
    if gs != [] {
      assert forall g :: g in gs[..|gs| - 1] ==> g in gs;
      ShapesKept(gs[..|gs| - 1]);
    }
  }

  /** Lines no step has touched keep their fan-outs and links. */
  twostate lemma FanOutsKept(ls: map<string, Line>)
    requires forall l :: l in ls.Values ==>
      old(allocated(l)) && l.connectedGates == old(l.connectedGates) && l.connectedLines == old(l.connectedLines)
    ensures FanOuts(ls) == old(FanOuts(ls)) && (old(Unlinked(ls)) ==> Unlinked(ls))
  {
  }

  class Circuit {
    var primaryInputs: seq<string>
    var primaryOutputs: seq<string>
    var gates: seq<Gate>
    var lines: map<string, Line>

    /** Every line is filed under its own id and wired to no other line. */
    ghost predicate Valid()
      reads this, lines.Values`connectedLines
    {
      Filed(lines) && Unlinked(lines)
    }

    function Shapes(): seq<Shape>
      reads this, gates`output, gates`inputs
    {
      ShapesOf(gates)
    }

    /** The declarations the circuit holds. */
    function State(): Netlist
      reads this, gates`output, gates`inputs
    {
      Netlist(primaryInputs, primaryOutputs, Shapes())
    }

    constructor()
      ensures Valid() && State() == Empty && lines == map[]
    {
      primaryInputs := [];
      primaryOutputs := [];
      gates := [];
      lines := map[];
    }

    /** `addInput`: the id is appended, and a fresh "input" line replaces whatever line had that id. */
    method AddInput(inputId: string)
      requires Valid()
      modifies this`primaryInputs, this`lines
      ensures Valid()
      ensures primaryInputs == old(primaryInputs) + [inputId]
      ensures inputId in lines && fresh(lines[inputId]) && lines == old(lines)[inputId := lines[inputId]]
      ensures lines[inputId].value == 0 && lines[inputId].lineType == "input" && lines[inputId].connectedGates == []
      ensures State() == old(State()).(inputs := old(primaryInputs) + [inputId])
    {
      primaryInputs := primaryInputs + [inputId];
      var l := new Line(0, "input", inputId);
      lines := lines[inputId := l];
    }

    /**
     * `addOutput`: the id is appended; an "output" line is created only if none has
     * that id, and the line with that id is set to 0.
     */
    method AddOutput(outputId: string)
      requires Valid()
      modifies this`primaryOutputs, this`lines, (if outputId in lines then {lines[outputId]} else {})`value
      ensures Valid()
      ensures State() == old(State()).(outputs := old(primaryOutputs) + [outputId])
      ensures outputId in lines && lines[outputId].value == 0
      ensures outputId in old(lines) ==> lines == old(lines)
      ensures outputId !in old(lines) ==>
        fresh(lines[outputId]) && lines == old(lines)[outputId := lines[outputId]] &&
        lines[outputId].lineType == "output" && lines[outputId].connectedGates == []
    {
      var ls, l := LineFor(lines, outputId, "output");
      primaryOutputs := primaryOutputs + [outputId];
      lines := ls;
      Reset(l);
      ShapesKept(gates);
    }

    /**
     * The gate-building half of `parseBenchFile`, applied to the circuit: the gate
     * built by `BuildGate` is appended and the line table takes its new lines. Lines
     * already filed stay in place; a new output line is an "output" line, a new input
     * line an untyped one, both at 0; each input line gains the gate once per
     * occurrence of its id.
     */
    method AddGate(gateType: string, outputId: string, inputIds: seq<string>)
      requires Valid()
      modifies this`gates, this`lines, lines.Values`connectedGates
      ensures Valid()
      ensures Shapes() == old(Shapes()) + [Simulation.GateShape(gateType, outputId, inputIds)]
      ensures |gates| == |old(gates)| + 1 && gates == old(gates) + [gates[|old(gates)|]] && fresh(gates[|old(gates)|])
      ensures lines.Keys == old(lines).Keys + {outputId} + Simulation.Elems(inputIds)
      ensures forall k :: k in old(lines) ==> lines[k] == old(lines)[k]
      ensures forall k :: k in lines && k !in old(lines) ==> fresh(lines[k]) && lines[k].value == 0
      ensures outputId !in old(lines) ==> lines[outputId].lineType == "output"
      ensures forall k :: k in lines && k !in old(lines) && k != outputId ==> lines[k].lineType == ""
      ensures gates[|old(gates)|].output == lines[outputId] && gates[|old(gates)|].inputs == LinesOf(lines, inputIds)
      ensures FanOuts(lines) == Wired(old(FanOuts(lines)), lines.Keys, gates[|old(gates)|], inputIds)
      ensures forall k :: k in lines ==> lines[k] in old(lines.Values) || fresh(lines[k])
    {
      var gate, ls := BuildGate(lines, gateType, outputId, inputIds);
      assert Unlinked(ls);
      label built:
      lines, gates := ls, gates + [gate];
      FanOutsKept@built(lines);
      ShapesKept(old(gates));
      ShapesOfSnoc(old(gates), gate);
    }

    /** One parsed line of `parseBenchFile` applied to the circuit. */
    method Apply(d: Decl)
      requires Valid()
      modifies this, lines.Values
      ensures Valid() && State() == Declare(old(State()), d)
      ensures forall k :: k in lines ==> lines[k] in old(lines.Values) || fresh(lines[k])
    {
      match d
      case Skip =>
      case InputDecl(id) => AddInput(id);
      case OutputDecl(id) => AddOutput(id);
      case GateDecl(output, gateType, ins) => AddGate(gateType, output, ins);
    }

    /**
     * `parseBenchFile` over the lines of the file (opening and reading it is not
     * modelled): each line is parsed and applied in order, and the first line that
     * raises stops the load with that error, keeping what the lines before it did.
     */
    method ParseBench(text: seq<string>) returns (error: Option<Error>)
      requires Valid()
      modifies this, lines.Values
      ensures Valid() && (State(), error) == Load(old(State()), text)
    {
      var i := 0;
      while i < |text|
        invariant 0 <= i <= |text| && Valid()
        invariant (State(), None) == Load(old(State()), text[..i])
        invariant forall k :: k in lines ==> lines[k] in old(lines.Values) || fresh(lines[k])
      {
        LoadStep(old(State()), text, i);
        match ParseLine(text[i])
        case Err(e) =>
          LoadStopsAtError(old(State()), text[..i + 1], text[i + 1..]);
          assert text[..i + 1] + text[i + 1..] == text;
          return Some(e);
        case Ok(d) =>
          Apply(d);
        i := i + 1;
      }
      assert text[..i] == text;
      return None;
    }
  }
}

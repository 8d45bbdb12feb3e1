/**
 * The int-keyed `Circuit` of the back end's second revision (the one `FaultSimulator`
 * works on): a set of primary input ids, a set of primary output ids and a map from
 * output id to gate, filled from `.bench` text line by line.
 *
 * Java's `HashSet` and `HashMap` are modelled as sequences without repeats; the
 * order of a sequence stands for the collection's iteration order, taken to be the
 * order of first insertion. For the gate map that order is kept in `order`.
 */
module IntCircuit {

  import opened Wrappers
  import opened IntGate
  import opened IntParse
  import BenchCircuit
  import Simulation

  /** What the file has declared so far. */
  datatype Netlist = Netlist(inputs: seq<int>, outputs: seq<int>, gates: map<int, Shape>, order: seq<int>)

  const Empty := Netlist([], [], map[], [])

  /** `Set.add`: the id joins the set unless it is already there. */
  function Insert(xs: seq<int>, x: int): (r: seq<int>)
    ensures Simulation.Elems(r) == Simulation.Elems(xs) + {x}
    ensures Simulation.Distinct(xs) ==> Simulation.Distinct(r)
    ensures |xs| <= |r| && r[..|xs|] == xs
  {
    if x in xs then xs else xs + [x]
  }

  /** `gates.put(output, gate)`: the gate is filed under its output, replacing any gate filed there before. */
  function PutGate(n: Netlist, g: Shape): Netlist {
    n.(gates := n.gates[g.output := g], order := Insert(n.order, g.output))
  }

  /** The effect of one parsed line on the circuit. */
  function Declare(n: Netlist, d: Decl): Netlist {
    match d
    case Skip => n
    case InputDecl(id) => n.(inputs := Insert(n.inputs, id))
    case OutputDecl(id) => n.(outputs := Insert(n.outputs, id))
    case GateDecl(output, gateType, ins) => PutGate(n, Simulation.GateShape(gateType, output, ins))
  }

  /** Sets hold each id once, and the gate map files every gate under its own output. */
  ghost predicate WellFormed(n: Netlist) {
    Simulation.Distinct(n.inputs) && Simulation.Distinct(n.outputs) && Simulation.Distinct(n.order) &&
    Simulation.Elems(n.order) == n.gates.Keys && Simulation.Keyed(n.gates)
  }

  lemma DeclareKeepsWellFormed(n: Netlist, d: Decl)
    requires WellFormed(n)
    ensures WellFormed(Declare(n, d))
    ensures Declare(n, d).gates.Keys == n.gates.Keys + (if d.GateDecl? then {d.output} else {})
  {
  }

  /** `addInput`, `addOutput` and `addGate` are idempotent: declaring the same thing twice is declaring it once. */
  lemma DeclareIsIdempotent(n: Netlist, d: Decl)
    ensures Declare(Declare(n, d), d) == Declare(n, d)
  {
  }

  /** Adding the same id in either order gives the same set. */
  lemma {:induction false} InsertCommutes(xs: seq<int>, x: int, y: int)
    ensures Simulation.Elems(Insert(Insert(xs, x), y)) == Simulation.Elems(Insert(Insert(xs, y), x))
  {
  }

  /** A later gate with the same output replaces the earlier one and leaves no trace of it. */
  lemma LaterGateReplaces(n: Netlist, g1: Shape, g2: Shape)
    requires g1.output == g2.output
    ensures PutGate(PutGate(n, g1), g2) == PutGate(n, g2)
    ensures PutGate(PutGate(n, g1), g2).gates[g2.output] == g2
  {
  }

  /** Another output's gate is left where it was. */
  lemma PutGateKeepsOthers(n: Netlist, g: Shape, x: int)
    requires x != g.output
    ensures (x in PutGate(n, g).gates <==> x in n.gates) && (x in n.gates ==> PutGate(n, g).gates[x] == n.gates[x])
  {
  }

  /** Each line of the file parsed on its own, in order. */
  function ParseAll(text: seq<string>): seq<Result<Decl, Error>> {
    BenchCircuit.MapLines(ParseLine, text)
  }

  /** Applying parsed lines in order; the first line that raised ends the load, keeping what came before it. */
  function LoadLines(n: Netlist, parsed: seq<Result<Decl, Error>>): (Netlist, Option<Error>)
    decreases |parsed|
  {
    if parsed == [] then (n, None)
    else
      match parsed[0]
      case Err(e) => (n, Some(e))
      case Ok(d) => LoadLines(Declare(n, d), parsed[1..])
  }

  /** `parseBenchFile` over the lines of the file: the declarations before the first error, and that error. */
  function Load(n: Netlist, text: seq<string>): (Netlist, Option<Error>) {
    LoadLines(n, ParseAll(text))
  }

  lemma {:induction false} LoadLinesAppend(n: Netlist, a: seq<Result<Decl, Error>>, b: seq<Result<Decl, Error>>)
    ensures LoadLines(n, a + b) == if LoadLines(n, a).1.Some? then LoadLines(n, a) else LoadLines(LoadLines(n, a).0, b)
    decreases |a|
  {
    if a != [] {
      assert (a + b)[0] == a[0] && (a + b)[1..] == a[1..] + b;
      if a[0].Ok? {
        LoadLinesAppend(Declare(n, a[0].value), a[1..], b);
      }
    } else {
      assert a + b == b;
    }
  }

  lemma ParseAllAppend(text: seq<string>, more: seq<string>)
    ensures ParseAll(text + more) == ParseAll(text) + ParseAll(more)
  {
    BenchCircuit.MapLinesAppend(ParseLine, text, more);
  }

  /** Loading ends at the first line that raises, whatever follows it. */
  lemma LoadStopsAtError(n: Netlist, text: seq<string>, more: seq<string>)
    requires Load(n, text).1.Some?
    ensures Load(n, text + more) == Load(n, text)
  {
    ParseAllAppend(text, more);
    LoadLinesAppend(n, ParseAll(text), ParseAll(more));
  }

  /** After a clean load, the next line adds its declaration or ends the load with its error. */
  lemma LoadStep(n: Netlist, text: seq<string>, i: nat)
    requires i < |text| && Load(n, text[..i]).1.None?
    ensures Load(n, text[..i + 1]) ==
      match ParseLine(text[i])
      case Err(e) => (Load(n, text[..i]).0, Some(e))
      case Ok(d) => (Declare(Load(n, text[..i]).0, d), None)
  {
    assert text[..i + 1] == text[..i] + [text[i]];
    ParseAllAppend(text[..i], [text[i]]);
    LoadLinesAppend(n, ParseAll(text[..i]), ParseAll([text[i]]));
    var parsed := ParseAll([text[i]]);
    assert parsed == [ParseLine(text[i])] && parsed[1..] == [];
  }

  /** Loading keeps the circuit well formed. */
  lemma {:induction false} LoadLinesKeepsWellFormed(n: Netlist, parsed: seq<Result<Decl, Error>>)
    requires WellFormed(n)
    ensures WellFormed(LoadLines(n, parsed).0)
    decreases |parsed|
  {
    if parsed != [] && parsed[0].Ok? {
      DeclareKeepsWellFormed(n, parsed[0].value);
      LoadLinesKeepsWellFormed(Declare(n, parsed[0].value), parsed[1..]);
    }
  }

  /** Declarations applied in order. */
  function DeclareAll(n: Netlist, ds: seq<Decl>): Netlist
    decreases |ds|
  {
    if ds == [] then n else Declare(DeclareAll(n, ds[..|ds| - 1]), ds[|ds| - 1])
  }

  /** A file every line of which parses loads cleanly, applying the parsed declarations in file order. */
  lemma {:induction false} LoadOfClean(n: Netlist, text: seq<string>, ds: seq<Decl>)
    requires |ds| == |text| && forall k :: 0 <= k < |text| ==> ParseLine(text[k]) == Ok(ds[k])
    ensures Load(n, text) == (DeclareAll(n, ds), None)
    decreases |text|
  {
    if text == [] {
      assert ParseAll(text) == [];
    } else {
      var i := |text| - 1;
      LoadOfClean(n, text[..i], ds[..i]);
      LoadStep(n, text, i);
      assert text[..i + 1] == text;
    }
  }

  /** Declaring inputs only adds exactly those ids to the input set, and touches nothing else. */
  lemma {:induction false} DeclareInputs(n: Netlist, ids: seq<int>)
    ensures var m := DeclareAll(n, seq(|ids|, k requires 0 <= k < |ids| => InputDecl(ids[k])));
      m.outputs == n.outputs && m.gates == n.gates && m.order == n.order &&
      Simulation.Elems(m.inputs) == Simulation.Elems(n.inputs) + Simulation.Elems(ids)
    decreases |ids|
  {
    var ds := seq(|ids|, k requires 0 <= k < |ids| => InputDecl(ids[k]));
    if ids != [] {
      var i := |ids| - 1;
      DeclareInputs(n, ids[..i]);
      assert ds[..i] == seq(i, k requires 0 <= k < i => InputDecl(ids[..i][k]));
      assert ids == ids[..i] + [ids[i]];
    }
  }

  /** A file of `INPUT(n)` lines loads cleanly and declares exactly those ids as inputs. */
  lemma LoadOfInputs(n: Netlist, ids: seq<nat>)
    ensures var text := seq(|ids|, k requires 0 <= k < |ids| => DeclLine("INPUT", ids[k]));
      Load(n, text).1 == None &&
      var m := Load(n, text).0;
      m.outputs == n.outputs && m.gates == n.gates && m.order == n.order &&
      Simulation.Elems(m.inputs) == Simulation.Elems(n.inputs) + Simulation.Elems(ids)
  {
    var text := seq(|ids|, k requires 0 <= k < |ids| => DeclLine("INPUT", ids[k]));
    var ds := seq(|ids|, k requires 0 <= k < |ids| => InputDecl(ids[k]));
    forall k | 0 <= k < |text|
      ensures ParseLine(text[k]) == Ok(ds[k])
    {
      DeclLineRoundTrip(ids[k]);
    }
    LoadOfClean(n, text, ds);
    DeclareInputs(n, ids);
  }

  /** The gates in map order, as the simulator receives them. */
  function Shapes(n: Netlist): seq<Shape>
    requires WellFormed(n)
  {
    seq(|n.order|, k requires 0 <= k < |n.order| => n.gates[n.order[k]])
  }

  /**
   * Since gates are filed by output, no two gates of a circuit drive the same line:
   * indexing them by output never fails and gives back the gate map.
   */
  lemma ShapesIndexBack(n: Netlist)
    requires WellFormed(n)
    ensures !Simulation.SharedDriver(Shapes(n))
    ensures Simulation.DriverTable(Shapes(n)) == Ok(n.gates)
    ensures Simulation.Outputs(Shapes(n)) == n.gates.Keys
  {
    var shapes := Shapes(n);
    assert !Simulation.SharedDriver(shapes) by {
      forall i, j | 0 <= i < j < |shapes|
        ensures shapes[i].output != shapes[j].output
      {
        assert shapes[i].output == n.order[i] && shapes[j].output == n.order[j];
      }
    }
    Simulation.DriverTableIsOk(shapes);
    Simulation.DriverTableOk(shapes);
    var table := Simulation.DriverTable(shapes).value;
    assert Simulation.Outputs(shapes) == n.gates.Keys by {
      forall x | x in n.gates.Keys
        ensures x in Simulation.Outputs(shapes)
      {
        assert x in Simulation.Elems(n.order);
        var k :| 0 <= k < |n.order| && n.order[k] == x;
        assert shapes[k] in shapes;
      }
    }
    forall x | x in n.gates
      ensures table[x] == n.gates[x]
    {
      assert x in Simulation.Elems(n.order);
      var k :| 0 <= k < |n.order| && n.order[k] == x;
      assert shapes[k] in shapes && shapes[k] == n.gates[x] && shapes[k].output == x;
    }
    assert table.Keys == n.gates.Keys;
    assert table == n.gates;
  }

  /**
   * The circuit object. The two sets and the gate map are fields that the `add`
   * methods update in place; `order` is the gate map's iteration order.
   */
  class Circuit {
    var inputs: seq<int>
    var outputs: seq<int>
    var gates: map<int, Shape>
    var order: seq<int>

    function State(): Netlist
      reads this
    {
      Netlist(inputs, outputs, gates, order)
    }

    ghost predicate Valid()
      reads this
    {
      WellFormed(State())
    }

    constructor ()
      ensures State() == Empty && Valid()
    {
      inputs := [];
      outputs := [];
      gates := map[];
      order := [];
    }

    method AddInput(input: int)
      modifies this`inputs
      ensures State() == Declare(old(State()), InputDecl(input))
    {
      if input !in inputs {
        inputs := inputs + [input];
      }
    }

    method AddOutput(output: int)
      modifies this`outputs
      ensures State() == Declare(old(State()), OutputDecl(output))
    {
      if output !in outputs {
        outputs := outputs + [output];
      }
    }

    method AddGate(gateType: string, output: int, ins: seq<int>)
      modifies this`gates, this`order
      ensures State() == Declare(old(State()), GateDecl(output, gateType, ins))
    {
      gates := gates[output := Simulation.GateShape(gateType, output, ins)];
      if output !in order {
        order := order + [output];
      }
    }

    /**
     * `parseBenchFile` over the lines of the file (reading the file is not
     * modelled): each line is parsed and applied in order, and the first line that
     * raises ends the load with that error, keeping what the lines before it did.
     */
    method ParseBenchFile(text: seq<string>) returns (error: Option<Error>)
      requires Valid()
      modifies this
      ensures Valid() && (State(), error) == Load(old(State()), text)
    {
      LoadLinesKeepsWellFormed(State(), ParseAll(text));
      var i := 0;
      while i < |text|
        invariant 0 <= i <= |text|
        invariant (State(), None) == Load(old(State()), text[..i])
      {
        LoadStep(old(State()), text, i);
        var parsed := ParseLine(text[i]);
        if parsed.Err? {
          LoadStopsAtError(old(State()), text[..i + 1], text[i + 1..]);
          assert text[..i + 1] + text[i + 1..] == text;
          return Some(parsed.error);
        }
        match parsed.value {
          case Skip =>
          case InputDecl(id) => AddInput(id);
          case OutputDecl(id) => AddOutput(id);
          case GateDecl(output, gateType, ins) => AddGate(gateType, output, ins);
        }
        i := i + 1;
      }
      assert text[..i] == text;
      return None;
    }
  }
}

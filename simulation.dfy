/**
 * Levelization and fault-free simulation of a gate netlist, as `Simulation.java`
 * does it: Kahn's algorithm over the wires from gate inputs to gate outputs,
 * then one evaluation of each gate in that order. Line ids are a type parameter
 * so that the string-keyed and the int-keyed revisions of the netlist share it,
 * and the gate evaluator is a parameter for the same reason.
 */
module Simulation {

  import opened Wrappers
  import opened Bits

  /** A gate as levelization and simulation see it: its type, the line it drives and its input lines in order. */
  datatype GateShape<Id> = GateShape(gateType: string, output: Id, inputs: seq<Id>)

  /** A wire from an input line of a gate to the line the gate drives. */
  datatype Edge<Id> = Edge(from: Id, to: Id)

  predicate Distinct<T(==)>(xs: seq<T>) {
    forall i, j :: 0 <= i < j < |xs| ==> xs[i] != xs[j]
  }

  /** The wires of one gate: one from each input, in input order, to `output`. */
  function Wiring<Id(==)>(inputs: seq<Id>, output: Id): (r: seq<Edge<Id>>)
    ensures |r| == |inputs|
  {
    if inputs == [] then [] else Wiring(inputs[..|inputs| - 1], output) + [Edge(inputs[|inputs| - 1], output)]
  }

  lemma {:induction false} WiringMembers<Id>(inputs: seq<Id>, output: Id, e: Edge<Id>)
    ensures e in Wiring(inputs, output) <==> e.from in inputs && e.to == output
  {
    if inputs != [] {
      var init := inputs[..|inputs| - 1];
      WiringMembers(init, output, e);
      assert inputs == init + [inputs[|inputs| - 1]];
    }
  }

  /** Every wire of the netlist, gate by gate and input by input, as the building loop visits them. */
  function Edges<Id(==)>(gates: seq<GateShape<Id>>): seq<Edge<Id>> {
    if gates == [] then [] else Edges(gates[..|gates| - 1]) + Wiring(gates[|gates| - 1].inputs, gates[|gates| - 1].output)
  }

  /** `e` runs from an input of some gate to that gate's output. */
  ghost predicate IsWire<Id>(gates: seq<GateShape<Id>>, e: Edge<Id>) {
    exists g :: g in gates && e.from in g.inputs && e.to == g.output
  }

  /** The wires are exactly the (input, output) pairs of the gates. */
  lemma {:induction false} EdgesMembers<Id>(gates: seq<GateShape<Id>>, e: Edge<Id>)
    ensures e in Edges(gates) <==> IsWire(gates, e)
  {
    if gates != [] {
      var init := gates[..|gates| - 1];
      var last := gates[|gates| - 1];
      EdgesMembers(init, e);
      WiringMembers(last.inputs, last.output, e);
      assert gates == init + [last];
      if IsWire(gates, e) {
        var g :| g in gates && e.from in g.inputs && e.to == g.output;
        assert g == last || g in init;
      }
    }
  }

  /** The lines driven by some gate. */
  function Outputs<Id(==)>(gates: seq<GateShape<Id>>): set<Id> {
    set g | g in gates :: g.output
  }

  /** The nodes of levelization: every gate output and every primary input (the keys of `inDegree`). */
  function Nodes<Id(==)>(primaryInputs: seq<Id>, gates: seq<GateShape<Id>>): set<Id> {
    Outputs(gates) + set x | x in primaryInputs
  }

  /** How many wires into `n` start at a line outside `done`: the in-degree Kahn's loop keeps. */
  function Pending<Id(==)>(es: seq<Edge<Id>>, n: Id, done: set<Id>): nat {
    if es == [] then 0
    else Pending(es[..|es| - 1], n, done) + (if es[|es| - 1].to == n && es[|es| - 1].from !in done then 1 else 0)
  }

  /** The lines fed by `x`, one entry per wire, in wire order: the adjacency list of `x`. */
  function Targets<Id(==)>(es: seq<Edge<Id>>, x: Id): seq<Id> {
    if es == [] then []
    else Targets(es[..|es| - 1], x) + (if es[|es| - 1].from == x then [es[|es| - 1].to] else [])
  }

  /** How many times `x` occurs in `xs`. */
  function Count<T(==)>(xs: seq<T>, x: T): nat {
    if xs == [] then 0 else Count(xs[..|xs| - 1], x) + (if xs[|xs| - 1] == x then 1 else 0)
  }

  /** How many wires run from `c` to `n`. */
  function Wires<Id(==)>(es: seq<Edge<Id>>, c: Id, n: Id): nat {
    if es == [] then 0 else Wires(es[..|es| - 1], c, n) + (if es[|es| - 1] == Edge(c, n) then 1 else 0)
  }

  lemma {:induction false} PendingIsZero<Id>(es: seq<Edge<Id>>, n: Id, done: set<Id>)
    ensures Pending(es, n, done) == 0 <==> forall e :: e in es && e.to == n ==> e.from in done
  {
    if es != [] {
      var init := es[..|es| - 1];
      PendingIsZero(init, n, done);
      assert forall e :: e in es ==> e in init || e == es[|es| - 1];
    }
  }

  /** Marking `c` done takes one from the in-degree of `n` per wire from `c` to `n`. */
  lemma {:induction false} PendingAfter<Id>(es: seq<Edge<Id>>, n: Id, done: set<Id>, c: Id)
    requires c !in done
    ensures Wires(es, c, n) <= Pending(es, n, done)
    ensures Pending(es, n, done + {c}) == Pending(es, n, done) - Wires(es, c, n)
  {
    if es != [] {
      PendingAfter(es[..|es| - 1], n, done, c);
    }
  }

  /** `c` appears in its adjacency list once per wire. */
  lemma {:induction false} CountTargets<Id>(es: seq<Edge<Id>>, c: Id, n: Id)
    ensures Count(Targets(es, c), n) == Wires(es, c, n)
  {
    if es != [] {
      var init := es[..|es| - 1];
      CountTargets(init, c, n);
      var tail := if es[|es| - 1].from == c then [es[|es| - 1].to] else [];
      CountAppend(Targets(init, c), tail, n);
    }
  }

  lemma {:induction false} CountAppend<T>(xs: seq<T>, ys: seq<T>, x: T)
    ensures Count(xs + ys, x) == Count(xs, x) + Count(ys, x)
  {
    if ys != [] {
      CountAppend(xs, ys[..|ys| - 1], x);
      assert (xs + ys)[..|xs + ys| - 1] == xs + ys[..|ys| - 1];
    } else {
      assert xs + ys == xs;
    }
  }

  lemma {:induction false} TargetsAreWired<Id>(es: seq<Edge<Id>>, c: Id)
    ensures forall n :: n in Targets(es, c) ==> Edge(c, n) in es
  {
    if es != [] {
      TargetsAreWired(es[..|es| - 1], c);
    }
  }

  /** A line no wire enters has nothing pending. */
  lemma {:induction false} PendingOfUnfed<Id>(es: seq<Edge<Id>>, n: Id, done: set<Id>)
    requires forall e :: e in es ==> e.to != n
    ensures Pending(es, n, done) == 0
  {
    if es != [] {
      PendingOfUnfed(es[..|es| - 1], n, done);
    }
  }

  /**
   * `inDegree` holds the wires into each of its nodes and `adjacency` the lines each
   * line feeds, both counted over the wires `es`; a line with no entry feeds nothing.
   */
  ghost predicate Counted<Id>(es: seq<Edge<Id>>, inDegree: map<Id, int>, adjacency: map<Id, seq<Id>>) {
    (forall n :: n in inDegree ==> inDegree[n] == Pending(es, n, {})) &&
    (forall x :: x in adjacency ==> adjacency[x] == Targets(es, x)) &&
    (forall e :: e in es ==> e.from in adjacency)
  }

  /** Recording one more wire: one more into its target, and the target appended to its source's list. */
  lemma AddWire<Id>(es: seq<Edge<Id>>, inDegree: map<Id, int>, adjacency: map<Id, seq<Id>>, e: Edge<Id>)
    requires Counted(es, inDegree, adjacency) && e.to in inDegree
    ensures Counted(es + [e], inDegree[e.to := inDegree[e.to] + 1],
                    adjacency[e.from := (if e.from in adjacency then adjacency[e.from] else []) + [e.to]])
  {
    var es' := es + [e];
    assert es'[..|es|] == es;
    if e.from !in adjacency {
      TargetsOfUnwired(es, e.from);
    }
    forall x | x in adjacency && x != e.from
      ensures Targets(es', x) == adjacency[x]
    {
    }
    forall f | f in es'
      ensures f.from in adjacency || f == e
    {
    }
  }

  /** A node nothing enters starts at in-degree 0. */
  lemma CountedNewNode<Id>(es: seq<Edge<Id>>, inDegree: map<Id, int>, adjacency: map<Id, seq<Id>>, n: Id)
    requires Counted(es, inDegree, adjacency) && Pending(es, n, {}) == 0
    ensures Counted(es, inDegree[n := 0], adjacency)
  {
  }

  /** A line with no list yet feeds nothing, so it starts with the empty list. */
  lemma CountedNewList<Id>(es: seq<Edge<Id>>, inDegree: map<Id, int>, adjacency: map<Id, seq<Id>>, x: Id)
    requires Counted(es, inDegree, adjacency) && x !in adjacency
    ensures Counted(es, inDegree, adjacency[x := []])
  {
    TargetsOfUnwired(es, x);
  }

  /** A line no wire starts at feeds nothing. */
  lemma {:induction false} TargetsOfUnwired<Id>(es: seq<Edge<Id>>, x: Id)
    requires forall e :: e in es ==> e.from != x
    ensures Targets(es, x) == []
  {
    if es != [] {
      TargetsOfUnwired(es[..|es| - 1], x);
    }
  }

  /**
   * The first two loops of `levelizeCircuit`: `inDegree` counts the wires into each
   * node, `adjacencyList` lists the lines each line feeds (an absent entry reads as
   * empty, as `getOrDefault` does), and `keys` records the nodes in insertion order.
   */
  method BuildGraph<Id(==)>(primaryInputs: seq<Id>, gates: seq<GateShape<Id>>)
    returns (inDegree: map<Id, int>, keys: seq<Id>, adjacency: map<Id, seq<Id>>)
    ensures inDegree.Keys == Nodes(primaryInputs, gates)
    ensures Distinct(keys) && forall x :: x in keys <==> x in inDegree
    ensures Counted(Edges(gates), inDegree, adjacency)
  {
    inDegree, keys, adjacency := map[], [], map[];
    var i := 0;
    while i < |gates|
      invariant 0 <= i <= |gates|
      invariant inDegree.Keys == Outputs(gates[..i])
      invariant Distinct(keys) && forall x :: x in keys <==> x in inDegree
      invariant Counted(Edges(gates[..i]), inDegree, adjacency)
    {
      inDegree, keys, adjacency := AddGate(gates, i, inDegree, keys, adjacency);
      i := i + 1;
    }
    assert gates[..i] == gates;
    var p := 0;
    while p < |primaryInputs|
      invariant 0 <= p <= |primaryInputs|
      invariant inDegree.Keys == Outputs(gates) + set x | x in primaryInputs[..p]
      invariant Distinct(keys) && forall x :: x in keys <==> x in inDegree
      invariant Counted(Edges(gates), inDegree, adjacency)
    {
      var input := primaryInputs[p];
      if input !in inDegree {
        assert input !in Outputs(gates);
        forall e | e in Edges(gates)
          ensures e.to != input
        {
          EdgesMembers(gates, e);
        }
        PendingOfUnfed(Edges(gates), input, {});
        inDegree := inDegree[input := 0];
        keys := keys + [input];
      }
      assert primaryInputs[..p + 1] == primaryInputs[..p] + [input];
      p := p + 1;
    }
    assert primaryInputs[..p] == primaryInputs;
  }

  /** One turn of the gate loop of `levelizeCircuit`: register the gate's output, then one wire per input. */
  method AddGate<Id(==)>(gates: seq<GateShape<Id>>, i: nat, inDegree0: map<Id, int>, keys0: seq<Id>, adjacency0: map<Id, seq<Id>>)
    returns (inDegree: map<Id, int>, keys: seq<Id>, adjacency: map<Id, seq<Id>>)
    requires i < |gates|
    requires inDegree0.Keys == Outputs(gates[..i])
    requires Distinct(keys0) && forall x :: x in keys0 <==> x in inDegree0
    requires Counted(Edges(gates[..i]), inDegree0, adjacency0)
    ensures inDegree.Keys == Outputs(gates[..i + 1])
    ensures Distinct(keys) && forall x :: x in keys <==> x in inDegree
    ensures Counted(Edges(gates[..i + 1]), inDegree, adjacency)
  {
    var g := gates[i];
    var before := Edges(gates[..i]);
    GatesStep(gates, i);
    inDegree, keys, adjacency := inDegree0, keys0, adjacency0;
    if g.output !in inDegree {
      WiresEnterOutputs(gates[..i]);
      PendingOfUnfed(before, g.output, {});
      CountedNewNode(before, inDegree, adjacency, g.output);
      inDegree := inDegree[g.output := 0];
      keys := keys + [g.output];
    }
    if g.output !in adjacency {
      CountedNewList(before, inDegree, adjacency, g.output);
      adjacency := adjacency[g.output := []];
    }
    inDegree, adjacency := WireInputs(before, g.inputs, g.output, inDegree, adjacency);
  }

  /** One more gate on top of a prefix: its output and its wires. */
  lemma GatesStep<Id>(gates: seq<GateShape<Id>>, i: nat)
    requires i < |gates|
    ensures Outputs(gates[..i + 1]) == Outputs(gates[..i]) + {gates[i].output}
    ensures Edges(gates[..i + 1]) == Edges(gates[..i]) + Wiring(gates[i].inputs, gates[i].output)
  {
    assert gates[..i + 1][..i] == gates[..i];
    assert gates[..i + 1] == gates[..i] + [gates[i]];
  }

  /** The inner loop of the gate loop: one wire from each input of a gate to its output. */
  method WireInputs<Id(==)>(es: seq<Edge<Id>>, inputs: seq<Id>, output: Id, inDegree0: map<Id, int>, adjacency0: map<Id, seq<Id>>)
    returns (inDegree: map<Id, int>, adjacency: map<Id, seq<Id>>)
    requires Counted(es, inDegree0, adjacency0) && output in inDegree0
    ensures inDegree.Keys == inDegree0.Keys
    ensures Counted(es + Wiring(inputs, output), inDegree, adjacency)
  {
    inDegree, adjacency := inDegree0, adjacency0;
    var k := 0;
    assert es + Wiring(inputs[..k], output) == es;
    while k < |inputs|
      invariant 0 <= k <= |inputs|
      invariant inDegree.Keys == inDegree0.Keys
      invariant Counted(es + Wiring(inputs[..k], output), inDegree, adjacency)
    {
      var input := inputs[k];
      AddWire(es + Wiring(inputs[..k], output), inDegree, adjacency, Edge(input, output));
      assert es + Wiring(inputs[..k + 1], output) == es + Wiring(inputs[..k], output) + [Edge(input, output)] by {
        assert inputs[..k + 1][..k] == inputs[..k];
      }
      var list := if input in adjacency then adjacency[input] else [];
      adjacency := adjacency[input := list + [output]];
      inDegree := inDegree[output := inDegree[output] + 1];
      k := k + 1;
    }
    assert inputs[..k] == inputs;
  }

  /** Every wire enters a line some gate drives. */
  lemma {:induction false} WiresEnterOutputs<Id>(gates: seq<GateShape<Id>>)
    ensures forall e :: e in Edges(gates) ==> e.to in Outputs(gates)
  {
    forall e | e in Edges(gates)
      ensures e.to in Outputs(gates)
    {
      EdgesMembers(gates, e);
    }
  }

  /** The elements of a sequence, as a set. */
  function Elems<T>(xs: seq<T>): set<T> {
    set x | x in xs
  }

  /** Every wire into a node of `order` starts at a node placed before it. */
  ghost predicate Topological<Id>(es: seq<Edge<Id>>, order: seq<Id>) {
    forall i, e :: 0 <= i < |order| && e in es && e.to == order[i] ==> e.from in order[..i]
  }

  /** A level order of the netlist: each node once, and every gate after the lines it reads. */
  ghost predicate IsLevelOrder<Id>(order: seq<Id>, primaryInputs: seq<Id>, gates: seq<GateShape<Id>>) {
    Distinct(order) && Elems(order) == Nodes(primaryInputs, gates) && Topological(Edges(gates), order)
  }

  ghost predicate Levelizable<Id(!new)>(primaryInputs: seq<Id>, gates: seq<GateShape<Id>>) {
    exists order :: IsLevelOrder(order, primaryInputs, gates)
  }

  /** Placing a node all of whose wires come from placed nodes keeps the order topological. */
  lemma TopologicalAppend<Id>(es: seq<Edge<Id>>, order: seq<Id>, n: Id)
    requires Topological(es, order)
    requires Pending(es, n, Elems(order)) == 0
    ensures Topological(es, order + [n])
  {
    PendingIsZero(es, n, Elems(order));
    var order' := order + [n];
    forall i, e | 0 <= i < |order'| && e in es && e.to == order'[i]
      ensures e.from in order'[..i]
    {
      if i < |order| {
        assert order'[..i] == order[..i];
      } else {
        assert order'[..i] == order;
      }
    }
  }

  lemma CountStep<T>(xs: seq<T>, j: nat)
    requires j < |xs|
    ensures forall x :: Count(xs[..j + 1], x) == Count(xs[..j], x) + (if xs[j] == x then 1 else 0)
  {
    assert xs[..j + 1][..j] == xs[..j];
  }

  lemma CountPrefix<T>(xs: seq<T>, j: nat, x: T)
    requires j <= |xs|
    ensures Count(xs[..j], x) <= Count(xs, x)
  {
    CountAppend(xs[..j], xs[j..], x);
    assert xs[..j] + xs[j..] == xs;
  }

  /** Placing `current` releases, from each in-degree, one per occurrence in the adjacency list of `current`. */
  lemma PlacingReleases<Id>(es: seq<Edge<Id>>, done: set<Id>, current: Id, inDegree: map<Id, int>)
    requires current !in done
    requires forall n :: n in inDegree ==> inDegree[n] == Pending(es, n, done)
    ensures forall n :: n in inDegree ==> inDegree[n] == Pending(es, n, done + {current}) + Count(Targets(es, current), n)
  {
    forall n | n in inDegree
      ensures inDegree[n] == Pending(es, n, done + {current}) + Count(Targets(es, current), n)
    {
      PendingAfter(es, n, done, current);
      CountTargets(es, current, n);
    }
  }

  /**
   * The inner loop of Kahn's algorithm in `levelizeCircuit`: with `current` just
   * placed, take one from the in-degree of each line it feeds and enqueue the
   * lines that reach zero.
   */
  method Release<Id(==)>(ghost es: seq<Edge<Id>>, ghost done: set<Id>, current: Id, neighbors: seq<Id>,
                         inDegree0: map<Id, int>, queue0: seq<Id>)
    returns (inDegree: map<Id, int>, queue: seq<Id>)
    requires current !in done && current !in queue0
    requires neighbors == Targets(es, current)
    requires forall e :: e in es ==> e.to in inDegree0
    requires forall n :: n in inDegree0 ==> inDegree0[n] == Pending(es, n, done)
    requires Distinct(queue0) && forall n :: n in queue0 ==> n in inDegree0 && n !in done
    requires forall n :: n in inDegree0 ==> (n in done || n == current || n in queue0 <==> inDegree0[n] == 0)
    ensures inDegree.Keys == inDegree0.Keys
    ensures forall n :: n in inDegree ==> inDegree[n] == Pending(es, n, done + {current})
    ensures Distinct(queue) && forall n :: n in queue ==> n in inDegree && n !in done + {current}
    ensures forall n :: n in inDegree ==> (n in done + {current} || n in queue <==> inDegree[n] == 0)
  {
    ghost var done' := done + {current};
    PlacingReleases(es, done, current, inDegree0);
    TargetsAreWired(es, current);
    inDegree, queue := inDegree0, queue0;
    var j := 0;
    while j < |neighbors|
      invariant 0 <= j <= |neighbors|
      invariant inDegree.Keys == inDegree0.Keys
      invariant forall n :: n in inDegree ==> inDegree[n] == Pending(es, n, done') + Count(neighbors, n) - Count(neighbors[..j], n)
      invariant Distinct(queue) && forall n :: n in queue ==> n in inDegree && n !in done'
      invariant forall n :: n in inDegree ==> (n in done' || n in queue <==> inDegree[n] == 0)
    {
      var neighbor := neighbors[j];
      assert Edge(current, neighbor) in es;
      CountStep(neighbors, j);
      CountPrefix(neighbors, j + 1, neighbor);
      inDegree := inDegree[neighbor := inDegree[neighbor] - 1];
      if inDegree[neighbor] == 0 {
        queue := queue + [neighbor];
      }
      j := j + 1;
    }
    assert neighbors[..j] == neighbors;
  }

  /**
   * The outer loop of Kahn's algorithm in `levelizeCircuit`: poll the queue, place
   * the node, release the lines it feeds. What comes out is a topological order of
   * the nodes it placed, and it stops only when every node left out still waits on
   * a wire from a node left out.
   */
  method Drain<Id(==)>(ghost es: seq<Edge<Id>>, adjacency: map<Id, seq<Id>>, inDegree0: map<Id, int>, queue0: seq<Id>)
    returns (order: seq<Id>)
    requires Counted(es, inDegree0, adjacency)
    requires forall e :: e in es ==> e.to in inDegree0
    requires Distinct(queue0) && forall n :: n in queue0 ==> n in inDegree0
    requires forall n :: n in inDegree0 ==> (n in queue0 <==> inDegree0[n] == 0)
    ensures Distinct(order) && forall n :: n in order ==> n in inDegree0
    ensures Topological(es, order)
    ensures forall n :: n in inDegree0 ==> (n in order <==> Pending(es, n, Elems(order)) == 0)
  {
    var inDegree, queue := inDegree0, queue0;
    order := [];
    ghost var done: set<Id> := {};
    while queue != []
      invariant inDegree.Keys == inDegree0.Keys
      invariant forall n :: n in inDegree ==> inDegree[n] == Pending(es, n, done)
      invariant forall n :: n in order <==> n in done
      invariant Distinct(order) && Distinct(queue)
      invariant forall n :: n in done ==> n in inDegree && n !in queue
      invariant forall n :: n in queue ==> n in inDegree
      invariant forall n :: n in inDegree ==> (n in done || n in queue <==> inDegree[n] == 0)
      invariant Topological(es, order)
      decreases inDegree0.Keys - done
    {
      var current := queue[0];
      queue := queue[1..];
      assert Elems(order) == done;
      TopologicalAppend(es, order, current);
      var neighbors := if current in adjacency then adjacency[current] else [];
      if current !in adjacency {
        TargetsOfUnwired(es, current);
      }
      inDegree, queue := Release(es, done, current, neighbors, inDegree, queue);
      order := order + [current];
      done := done + {current};
    }
    assert Elems(order) == done;
  }

  /** A sequence without repeats has as many elements as its set. */
  lemma {:induction false} DistinctCard<T>(xs: seq<T>)
    requires Distinct(xs)
    ensures |Elems(xs)| == |xs|
  {
    if xs != [] {
      var init, last := xs[..|xs| - 1], xs[|xs| - 1];
      assert Distinct(init) by {
        forall i, j | 0 <= i < j < |init|
          ensures init[i] != init[j]
        {
          assert init[i] == xs[i] && init[j] == xs[j];
        }
      }
      DistinctCard(init);
      assert last !in init by {
        forall k | 0 <= k < |init|
          ensures init[k] != last
        {
          assert init[k] == xs[k];
        }
      }
      assert xs == init + [last];
      assert Elems(xs) == Elems(init) + {last};
    }
  }

  /**
   * If the nodes left out of `done` are exactly those still waiting on a wire,
   * every node of a topological order is in `done`.
   */
  lemma {:induction false} ClosedHoldsOrder<Id>(es: seq<Edge<Id>>, done: set<Id>, nodes: set<Id>, order: seq<Id>, i: nat)
    requires Topological(es, order) && Elems(order) <= nodes && i <= |order|
    requires forall n :: n in nodes ==> (n in done <==> Pending(es, n, done) == 0)
    ensures forall k :: 0 <= k < i ==> order[k] in done
  {
    if i > 0 {
      ClosedHoldsOrder(es, done, nodes, order, i - 1);
      var n := order[i - 1];
      forall e | e in es && e.to == n
        ensures e.from in done
      {
        assert e.from in order[..i - 1];
      }
      PendingIsZero(es, n, done);
    }
  }

  /**
   * `levelizeCircuit`: Kahn's algorithm over the wires of the netlist, seeded with
   * the nodes of in-degree zero in the order the in-degree table lists them. It
   * succeeds exactly when the netlist has a level order, and then returns one; it
   * fails when a gate sits on a cycle or reads a line nothing drives.
   */
  method Levelize<Id(==,!new)>(primaryInputs: seq<Id>, gates: seq<GateShape<Id>>) returns (r: Result<seq<Id>, Exception<Id>>)
    ensures r.Ok? <==> Levelizable(primaryInputs, gates)
    ensures r.Ok? ==> IsLevelOrder(r.value, primaryInputs, gates)
    ensures r.Err? ==> r.error == CyclicCircuit
  {
    var inDegree, keys, adjacency := BuildGraph(primaryInputs, gates);
    var queue := Seeds(keys, inDegree);
    WiresEnterOutputs(gates);
    var order := Drain(Edges(gates), adjacency, inDegree, queue);
    Verdict(primaryInputs, gates, inDegree, order);
    if |order| != |inDegree| {
      r := Err(CyclicCircuit);
    } else {
      r := Ok(order);
    }
  }

  /** The queue Kahn's loop starts from: the nodes of in-degree zero, in table order. */
  method Seeds<Id(==)>(keys: seq<Id>, inDegree: map<Id, int>) returns (queue: seq<Id>)
    requires Distinct(keys) && forall x :: x in keys <==> x in inDegree
    ensures Distinct(queue) && forall n :: n in queue ==> n in inDegree
    ensures forall n :: n in inDegree ==> (n in queue <==> inDegree[n] == 0)
  {
    queue := [];
    var i := 0;
    while i < |keys|
      invariant 0 <= i <= |keys|
      invariant Distinct(queue) && forall n :: n in queue ==> n in keys[..i]
      invariant forall n :: n in keys[..i] ==> (n in queue <==> inDegree[n] == 0)
    {
      if inDegree[keys[i]] == 0 {
        queue := queue + [keys[i]];
      }
      assert keys[..i + 1] == keys[..i] + [keys[i]];
      i := i + 1;
    }
    assert keys[..i] == keys;
  }

  /**
   * What the size check after Kahn's loop decides: the loop placed every node
   * exactly when a level order exists, and then what it placed is one.
   */
  lemma Verdict<Id(!new)>(primaryInputs: seq<Id>, gates: seq<GateShape<Id>>, inDegree: map<Id, int>, order: seq<Id>)
    requires inDegree.Keys == Nodes(primaryInputs, gates)
    requires Distinct(order) && forall n :: n in order ==> n in inDegree
    requires Topological(Edges(gates), order)
    requires forall n :: n in inDegree ==> (n in order <==> Pending(Edges(gates), n, Elems(order)) == 0)
    ensures |order| == |inDegree| <==> Levelizable(primaryInputs, gates)
    ensures |order| == |inDegree| ==> IsLevelOrder(order, primaryInputs, gates)
  {
    DistinctCard(order);
    assert Elems(order) <= inDegree.Keys;
    if |order| == |inDegree| {
      assert |inDegree.Keys - Elems(order)| == 0;
      assert IsLevelOrder(order, primaryInputs, gates);
    }
    if Levelizable(primaryInputs, gates) {
      var sorted :| IsLevelOrder(sorted, primaryInputs, gates);
      ClosedHoldsOrder(Edges(gates), Elems(order), inDegree.Keys, sorted, |sorted|);
      assert inDegree.Keys <= Elems(order);
    }
  }

  /** The first position of `x` in `xs`. */
  function IndexOf<T(==)>(xs: seq<T>, x: T): (r: nat)
    requires x in xs
    ensures r < |xs| && xs[r] == x && x !in xs[..r]
  {
    if xs[0] == x then 0 else 1 + IndexOf(xs[1..], x)
  }

  /** In a topological order without repeats every wire runs forwards. */
  lemma WireRunsForward<Id>(es: seq<Edge<Id>>, order: seq<Id>, a: Id, b: Id)
    requires Topological(es, order) && Distinct(order)
    requires Edge(a, b) in es && b in order
    ensures a in order && IndexOf(order, a) < IndexOf(order, b)
  {
    var i := IndexOf(order, b);
    assert a in order[..i];
    var k :| 0 <= k < i && order[k] == a;
    FirstIndexNoLater(order, a, k);
  }

  /** The first position of `x` comes no later than any position holding `x`. */
  lemma {:induction false} FirstIndexNoLater<T>(xs: seq<T>, x: T, k: nat)
    requires k < |xs| && xs[k] == x
    ensures IndexOf(xs, x) <= k
  {
    if xs[0] != x {
      FirstIndexNoLater(xs[1..], x, k - 1);
    }
  }

  /** `path` follows wires of the netlist from its first line back to that same line. */
  ghost predicate IsCycle<Id>(gates: seq<GateShape<Id>>, path: seq<Id>) {
    |path| >= 2 && path[0] == path[|path| - 1] &&
    forall j :: 0 <= j < |path| - 1 ==> IsWire(gates, Edge(path[j], path[j + 1]))
  }

  lemma {:induction false} PathRunsForward<Id>(gates: seq<GateShape<Id>>, order: seq<Id>, path: seq<Id>, j: nat)
    requires Topological(Edges(gates), order) && Distinct(order) && Elems(order) >= Outputs(gates)
    requires 1 <= j < |path|
    requires forall t :: 0 <= t < |path| - 1 ==> IsWire(gates, Edge(path[t], path[t + 1]))
    ensures path[0] in order && path[j] in order && IndexOf(order, path[0]) < IndexOf(order, path[j])
  {
    var e := Edge(path[j - 1], path[j]);
    assert IsWire(gates, e);
    EdgesMembers(gates, e);
    var g :| g in gates && e.from in g.inputs && e.to == g.output;
    assert path[j] in Elems(order);
    WireRunsForward(Edges(gates), order, path[j - 1], path[j]);
    if j > 1 {
      PathRunsForward(gates, order, path, j - 1);
    }
  }

  /** A netlist whose wires close a cycle has no level order, so levelization raises. */
  lemma CycleIsRejected<Id(!new)>(primaryInputs: seq<Id>, gates: seq<GateShape<Id>>, path: seq<Id>)
    requires IsCycle(gates, path)
    ensures !Levelizable(primaryInputs, gates)
  {
    if Levelizable(primaryInputs, gates) {
      var order :| IsLevelOrder(order, primaryInputs, gates);
      PathRunsForward(gates, order, path, |path| - 1);
      assert false;
    }
  }

  /** A gate reading a line that is neither a primary input nor driven by a gate makes levelization raise. */
  lemma UndrivenInputIsRejected<Id(!new)>(primaryInputs: seq<Id>, gates: seq<GateShape<Id>>, g: GateShape<Id>, x: Id)
    requires g in gates && x in g.inputs && x !in Nodes(primaryInputs, gates)
    ensures !Levelizable(primaryInputs, gates)
  {
    if Levelizable(primaryInputs, gates) {
      var order :| IsLevelOrder(order, primaryInputs, gates);
      EdgesMembers(gates, Edge(x, g.output));
      assert g.output in Elems(order);
      WireRunsForward(Edges(gates), order, x, g.output);
      assert false;
    }
  }

  // ---------------------------------------------------------------------------
  // simulate
  // ---------------------------------------------------------------------------

  /** How a gate is evaluated against the current value map: `Gate.evaluate` of the revision at hand. */
  type Evaluator<!Id> = (GateShape<Id>, map<Id, Word>) -> Result<Word, Exception<Id>>

  /** `m1` and `m2` hold the same values, or the same absence, at every line of `ids`. */
  ghost predicate Agree<Id>(m1: map<Id, Word>, m2: map<Id, Word>, ids: seq<Id>) {
    forall x :: x in ids ==> (x in m1 <==> x in m2) && (x in m1 ==> m1[x] == m2[x])
  }

  /** A gate's evaluation depends on the values of its own input lines only. */
  ghost predicate IsLocal<Id(!new)>(eval: Evaluator<Id>) {
    forall g: GateShape<Id>, m1: map<Id, Word>, m2: map<Id, Word> {:trigger eval(g, m1), eval(g, m2)} :: Agree(m1, m2, g.inputs) ==> eval(g, m1) == eval(g, m2)
  }

  /** The first line of `ids` with no value, if any. */
  function FirstMissing<Id(==)>(ids: seq<Id>, values: map<Id, Word>): (r: Option<Id>)
    ensures r.None? <==> forall x :: x in ids ==> x in values
    ensures r.Some? ==> r.value in ids && r.value !in values
  {
    if ids == [] then None
    else if FirstMissing(ids[..|ids| - 1], values).Some? then FirstMissing(ids[..|ids| - 1], values)
    else if ids[|ids| - 1] !in values then Some(ids[|ids| - 1])
    else None
  }

  /** Two gates drive the same line. */
  ghost predicate SharedDriver<Id>(gates: seq<GateShape<Id>>) {
    exists i, j :: 0 <= i < j < |gates| && gates[i].output == gates[j].output
  }

  /** `outputToGate`: each gate under the line it drives, or the first line a second gate drives. */
  function DriverTable<Id(==)>(gates: seq<GateShape<Id>>): Result<map<Id, GateShape<Id>>, Exception<Id>> {
    if gates == [] then Ok(map[])
    else
      var last := gates[|gates| - 1];
      match DriverTable(gates[..|gates| - 1])
      case Err(e) => Err(e)
      case Ok(table) => if last.output in table then Err(MultipleDrivers(last.output)) else Ok(table[last.output := last])
  }

  /** When the table is built, it lists every gate under its output. */
  lemma {:induction false} DriverTableOk<Id>(gates: seq<GateShape<Id>>)
    requires DriverTable(gates).Ok?
    ensures DriverTable(gates).value.Keys == Outputs(gates)
    ensures forall g :: g in gates ==> DriverTable(gates).value[g.output] == g
  {
    if gates != [] {
      var init := gates[..|gates| - 1];
      DriverTableOk(init);
      assert gates == init + [gates[|gates| - 1]];
    }
  }

  /** When the table is built, no two gates drive one line. */
  lemma {:induction false} DriverTableUnique<Id>(gates: seq<GateShape<Id>>)
    requires DriverTable(gates).Ok?
    ensures !SharedDriver(gates)
  {
    if gates != [] {
      var init := gates[..|gates| - 1];
      DriverTableUnique(init);
      DriverTableOk(init);
      forall i, j | 0 <= i < j < |gates|
        ensures gates[i].output != gates[j].output
      {
        assert init[i] == gates[i];
        if j == |gates| - 1 {
          assert init[i] in init;
        } else {
          assert init[j] == gates[j];
        }
      }
    }
  }

  /** When the table is not built, the error names a line that two gates drive. */
  lemma {:induction false} DriverTableErr<Id>(gates: seq<GateShape<Id>>)
    requires DriverTable(gates).Err?
    ensures DriverTable(gates).error.MultipleDrivers?
    ensures exists i, j :: 0 <= i < j < |gates| && gates[i].output == gates[j].output == DriverTable(gates).error.signal
  {
    var init := gates[..|gates| - 1];
    var last := gates[|gates| - 1];
    assert forall k :: 0 <= k < |init| ==> init[k] == gates[k];
    if DriverTable(init).Ok? {
      DriverTableOk(init);
      var g :| g in init && g.output == last.output;
      var i :| 0 <= i < |init| && init[i] == g;
      assert gates[i].output == gates[|gates| - 1].output;
    } else {
      DriverTableErr(init);
      var i, j :| 0 <= i < j < |init| && init[i].output == init[j].output == DriverTable(init).error.signal;
      assert gates[i].output == gates[j].output;
    }
  }

  /** The table is built exactly when no two gates drive one line. */
  lemma DriverTableIsOk<Id>(gates: seq<GateShape<Id>>)
    ensures DriverTable(gates).Ok? <==> !SharedDriver(gates)
  {
    if DriverTable(gates).Ok? {
      DriverTableUnique(gates);
    } else {
      DriverTableErr(gates);
    }
  }

  /**
   * The evaluation loop of `simulate` over a prefix of the order: each node that a
   * gate drives gets that gate's value on the values so far.
   */
  function Propagate<Id(==)>(eval: Evaluator<Id>, table: map<Id, GateShape<Id>>, order: seq<Id>, values: map<Id, Word>)
    : Result<map<Id, Word>, Exception<Id>>
  {
    if order == [] then Ok(values)
    else
      var node := order[|order| - 1];
      match Propagate(eval, table, order[..|order| - 1], values)
      case Err(e) => Err(e)
      case Ok(vs) =>
        if node in table then
          match eval(table[node], vs)
          case Err(e) => Err(e)
          case Ok(v) => Ok(vs[table[node].output := v])
        else Ok(vs)
  }

  /** The collecting loop of `simulate`: the value of every primary output, or the first that has none. */
  function Collect<Id(==)>(outputs: seq<Id>, values: map<Id, Word>): Result<map<Id, Word>, Exception<Id>> {
    if outputs == [] then Ok(map[])
    else
      var o := outputs[|outputs| - 1];
      match Collect(outputs[..|outputs| - 1], values)
      case Err(e) => Err(e)
      case Ok(m) => if o in values then Ok(m[o := values[o]]) else Err(NotComputed(o))
  }

  /** The result map has exactly the primary outputs as keys, each with its simulated value; it fails exactly when one has none. */
  lemma {:induction false} CollectMeaning<Id>(outputs: seq<Id>, values: map<Id, Word>)
    ensures Collect(outputs, values).Ok? <==> forall o :: o in outputs ==> o in values
    ensures Collect(outputs, values).Ok? ==> var m := Collect(outputs, values).value;
      m.Keys == Elems(outputs) && forall o :: o in m ==> m[o] == values[o]
    ensures Collect(outputs, values).Err? ==> Collect(outputs, values) == Err(NotComputed(FirstMissing(outputs, values).value))
  {
    if outputs != [] {
      var init := outputs[..|outputs| - 1];
      CollectMeaning(init, values);
      assert outputs == init + [outputs[|outputs| - 1]];
    }
  }

  /**
   * `simulate` after levelization has produced `order`: check the primary inputs,
   * index the gates by output, evaluate along the order, collect the outputs.
   */
  function Run<Id(==)>(eval: Evaluator<Id>, primaryInputs: seq<Id>, primaryOutputs: seq<Id>, gates: seq<GateShape<Id>>,
                       order: seq<Id>, inputValues: map<Id, Word>): Result<map<Id, Word>, Exception<Id>>
  {
    match FirstMissing(primaryInputs, inputValues)
    case Some(x) => Err(MissingInput(x))
    case None =>
      match DriverTable(gates)
      case Err(e) => Err(e)
      case Ok(table) =>
        match Propagate(eval, table, order, inputValues)
        case Err(e) => Err(e)
        case Ok(values) => Collect(primaryOutputs, values)
  }

  lemma {:induction false} FirstMissingPrefix<Id>(ids: seq<Id>, values: map<Id, Word>, i: nat)
    requires i <= |ids| && FirstMissing(ids[..i], values).Some?
    ensures FirstMissing(ids, values) == FirstMissing(ids[..i], values)
  {
    if i < |ids| {
      var init := ids[..|ids| - 1];
      assert init[..i] == ids[..i];
      FirstMissingPrefix(init, values, i);
    } else {
      assert ids[..i] == ids;
    }
  }

  lemma {:induction false} DriverTablePrefix<Id>(gates: seq<GateShape<Id>>, i: nat)
    requires i <= |gates| && DriverTable(gates[..i]).Err?
    ensures DriverTable(gates) == DriverTable(gates[..i])
  {
    if i < |gates| {
      var init := gates[..|gates| - 1];
      assert init[..i] == gates[..i];
      DriverTablePrefix(init, i);
    } else {
      assert gates[..i] == gates;
    }
  }

  lemma {:induction false} PropagatePrefix<Id>(eval: Evaluator<Id>, table: map<Id, GateShape<Id>>, order: seq<Id>, values: map<Id, Word>, i: nat)
    requires i <= |order| && Propagate(eval, table, order[..i], values).Err?
    ensures Propagate(eval, table, order, values) == Propagate(eval, table, order[..i], values)
  {
    if i < |order| {
      var init := order[..|order| - 1];
      assert init[..i] == order[..i];
      PropagatePrefix(eval, table, init, values, i);
    } else {
      assert order[..i] == order;
    }
  }

  lemma {:induction false} CollectPrefix<Id>(outputs: seq<Id>, values: map<Id, Word>, i: nat)
    requires i <= |outputs| && Collect(outputs[..i], values).Err?
    ensures Collect(outputs, values) == Collect(outputs[..i], values)
  {
    if i < |outputs| {
      var init := outputs[..|outputs| - 1];
      assert init[..i] == outputs[..i];
      CollectPrefix(init, values, i);
    } else {
      assert outputs[..i] == outputs;
    }
  }

  /** The loop of `simulate` that checks every primary input has a value. */
  method FindMissing<Id(==)>(ids: seq<Id>, values: map<Id, Word>) returns (r: Option<Id>)
    ensures r == FirstMissing(ids, values)
  {
    var i := 0;
    while i < |ids|
      invariant 0 <= i <= |ids|
      invariant FirstMissing(ids[..i], values) == None
    {
      assert ids[..i + 1][..i] == ids[..i];
      if ids[i] !in values {
        FirstMissingPrefix(ids, values, i + 1);
        return Some(ids[i]);
      }
      i := i + 1;
    }
    assert ids[..i] == ids;
    return None;
  }

  /** The loop of `simulate` that builds `outputToGate`. */
  method IndexDrivers<Id(==)>(gates: seq<GateShape<Id>>) returns (r: Result<map<Id, GateShape<Id>>, Exception<Id>>)
    ensures r == DriverTable(gates)
  {
    var table := map[];
    var i := 0;
    while i < |gates|
      invariant 0 <= i <= |gates|
      invariant DriverTable(gates[..i]) == Ok(table)
    {
      assert gates[..i + 1][..i] == gates[..i];
      var outputId := gates[i].output;
      if outputId in table {
        DriverTablePrefix(gates, i + 1);
        return Err(MultipleDrivers(outputId));
      }
      table := table[outputId := gates[i]];
      i := i + 1;
    }
    assert gates[..i] == gates;
    return Ok(table);
  }

  /** The loop of `simulate` that evaluates the gates in topological order. */
  method EvaluateInOrder<Id(==)>(eval: Evaluator<Id>, table: map<Id, GateShape<Id>>, order: seq<Id>, inputValues: map<Id, Word>)
    returns (r: Result<map<Id, Word>, Exception<Id>>)
    ensures r == Propagate(eval, table, order, inputValues)
  {
    var values := inputValues;
    var k := 0;
    while k < |order|
      invariant 0 <= k <= |order|
      invariant Propagate(eval, table, order[..k], inputValues) == Ok(values)
    {
      assert order[..k + 1][..k] == order[..k];
      var node := order[k];
      if node in table {
        var gate := table[node];
        var outputValue := eval(gate, values);
        if outputValue.Err? {
          PropagatePrefix(eval, table, order, inputValues, k + 1);
          return Err(outputValue.error);
        }
        values := values[gate.output := outputValue.value];
      }
      k := k + 1;
    }
    assert order[..k] == order;
    return Ok(values);
  }

  /** The loop of `simulate` that collects the primary outputs. */
  method CollectOutputs<Id(==)>(primaryOutputs: seq<Id>, values: map<Id, Word>) returns (r: Result<map<Id, Word>, Exception<Id>>)
    ensures r == Collect(primaryOutputs, values)
  {
    var outputValues := map[];
    var j := 0;
    while j < |primaryOutputs|
      invariant 0 <= j <= |primaryOutputs|
      invariant Collect(primaryOutputs[..j], values) == Ok(outputValues)
    {
      assert primaryOutputs[..j + 1][..j] == primaryOutputs[..j];
      var output := primaryOutputs[j];
      if output !in values {
        CollectPrefix(primaryOutputs, values, j + 1);
        return Err(NotComputed(output));
      }
      outputValues := outputValues[output := values[output]];
      j := j + 1;
    }
    assert primaryOutputs[..j] == primaryOutputs;
    return Ok(outputValues);
  }

  /**
   * `simulate`: levelize, then run. It raises the levelization error exactly when no
   * level order exists, and otherwise computes `Run` along the order levelization
   * found. The caller's map is a value and is left as it was.
   */
  method Simulate<Id(==,!new)>(eval: Evaluator<Id>, primaryInputs: seq<Id>, primaryOutputs: seq<Id>, gates: seq<GateShape<Id>>,
                               inputValues: map<Id, Word>)
    returns (r: Result<map<Id, Word>, Exception<Id>>, ghost order: seq<Id>)
    ensures !Levelizable(primaryInputs, gates) ==> r == Err(CyclicCircuit)
    ensures Levelizable(primaryInputs, gates) ==>
      IsLevelOrder(order, primaryInputs, gates) && r == Run(eval, primaryInputs, primaryOutputs, gates, order, inputValues)
  {
    order := [];
    var levels := Levelize(primaryInputs, gates);
    if levels.Err? {
      return Err(levels.error), order;
    }
    var topologicalOrder := levels.value;
    order := topologicalOrder;
    var values := inputValues;
    var missing := FindMissing(primaryInputs, values);
    if missing.Some? {
      return Err(MissingInput(missing.value)), order;
    }
    var outputToGate := IndexDrivers(gates);
    if outputToGate.Err? {
      return Err(outputToGate.error), order;
    }
    var evaluated := EvaluateInOrder(eval, outputToGate.value, topologicalOrder, values);
    if evaluated.Err? {
      return Err(evaluated.error), order;
    }
    r := CollectOutputs(primaryOutputs, evaluated.value);
  }

  /** Every gate in the table is listed under the line it drives. */
  ghost predicate Keyed<Id>(table: map<Id, GateShape<Id>>) {
    forall n :: n in table ==> table[n].output == n
  }

  lemma DriverTableIsKeyed<Id>(gates: seq<GateShape<Id>>)
    requires DriverTable(gates).Ok?
    ensures Keyed(DriverTable(gates).value)
  {
    DriverTableOk(gates);
    var table := DriverTable(gates).value;
    forall n | n in table
      ensures table[n].output == n
    {
      var g :| g in gates && g.output == n;
    }
  }

  /**
   * Evaluating the nodes `order[i..k]` writes only lines that are among those nodes
   * and that a gate drives; every other line keeps its value, or its absence.
   */
  lemma {:induction false} PropagateFrame<Id>(eval: Evaluator<Id>, table: map<Id, GateShape<Id>>, order: seq<Id>,
                                              values: map<Id, Word>, i: nat, k: nat)
    requires Keyed(table) && i <= k <= |order|
    requires Propagate(eval, table, order[..k], values).Ok?
    ensures Propagate(eval, table, order[..i], values).Ok?
    ensures var vi := Propagate(eval, table, order[..i], values).value;
            var vk := Propagate(eval, table, order[..k], values).value;
            forall x :: x !in table || x !in order[i..k] ==> (x in vi <==> x in vk) && (x in vi ==> vi[x] == vk[x])
  {
    if i < k {
      assert order[..k][..k - 1] == order[..k - 1];
      PropagateFrame(eval, table, order, values, i, k - 1);
      assert forall x :: x in order[i..k - 1] ==> x in order[i..k];
    }
  }

  lemma DistinctSplit<T>(xs: seq<T>, i: nat, x: T)
    requires Distinct(xs) && i <= |xs| && x in xs[..i]
    ensures x !in xs[i..]
  {
    var a :| 0 <= a < i && xs[a] == x;
    forall b | i <= b < |xs|
      ensures xs[b] != x
    {
      assert xs[a] != xs[b];
    }
  }

  /**
   * Along a level order, each gate is evaluated after all of its input lines are
   * final, so in the values simulation ends with every gate's output holds what the
   * gate evaluates to on those same values.
   */
  lemma PropagateIsConsistent<Id(!new)>(eval: Evaluator<Id>, gates: seq<GateShape<Id>>, order: seq<Id>, values: map<Id, Word>, g: GateShape<Id>)
    requires IsLocal(eval) && DriverTable(gates).Ok?
    requires Distinct(order) && Topological(Edges(gates), order) && Outputs(gates) <= Elems(order)
    requires Propagate(eval, DriverTable(gates).value, order, values).Ok?
    requires g in gates
    ensures var final := Propagate(eval, DriverTable(gates).value, order, values).value;
            g.output in final && eval(g, final) == Ok(final[g.output])
  {
    var table := DriverTable(gates).value;
    DriverTableOk(gates);
    DriverTableIsKeyed(gates);
    var n := |order|;
    assert order[..n] == order;
    var i := IndexOf(order, g.output);
    PropagateFrame(eval, table, order, values, i + 1, n);
    PropagateFrame(eval, table, order, values, i, n);
    assert order[..i + 1][..i] == order[..i];
    var before := Propagate(eval, table, order[..i], values).value;
    var final := Propagate(eval, table, order, values).value;
    assert g.output !in order[i + 1..n] by {
      DistinctSplit(order, i + 1, g.output);
    }
    forall x | x in g.inputs
      ensures x !in order[i..n]
    {
      EdgesMembers(gates, Edge(x, g.output));
      assert x in order[..i];
      DistinctSplit(order, i, x);
    }
    assert Agree(before, final, g.inputs);
    assert eval(g, before) == eval(g, final);
  }

  /** A line no gate drives keeps the value the caller gave it, or stays absent. */
  lemma PropagateKeepsUndriven<Id>(eval: Evaluator<Id>, gates: seq<GateShape<Id>>, order: seq<Id>, values: map<Id, Word>, x: Id)
    requires DriverTable(gates).Ok? && Propagate(eval, DriverTable(gates).value, order, values).Ok?
    requires x !in Outputs(gates)
    ensures var final := Propagate(eval, DriverTable(gates).value, order, values).value;
            (x in final <==> x in values) && (x in values ==> final[x] == values[x])
  {
    DriverTableOk(gates);
    DriverTableIsKeyed(gates);
    assert order[..|order|] == order;
    PropagateFrame(eval, DriverTable(gates).value, order, values, 0, |order|);
  }

  /**
   * What a successful simulation guarantees: every primary input had a value, no
   * two gates drive one line, the result holds exactly the primary outputs, each
   * with the value of a consistent assignment in which every gate output equals
   * the gate's evaluation and every undriven line keeps its input value.
   */
  lemma SimulationIsConsistent<Id(!new)>(eval: Evaluator<Id>, primaryInputs: seq<Id>, primaryOutputs: seq<Id>,
                                         gates: seq<GateShape<Id>>, order: seq<Id>, inputValues: map<Id, Word>)
    requires IsLocal(eval) && IsLevelOrder(order, primaryInputs, gates)
    requires Run(eval, primaryInputs, primaryOutputs, gates, order, inputValues).Ok?
    ensures forall x :: x in primaryInputs ==> x in inputValues
    ensures !SharedDriver(gates)
    ensures Propagate(eval, DriverTable(gates).value, order, inputValues).Ok?
    ensures var final := Propagate(eval, DriverTable(gates).value, order, inputValues).value;
            var outputs := Run(eval, primaryInputs, primaryOutputs, gates, order, inputValues).value;
            (forall g :: g in gates ==> g.output in final && eval(g, final) == Ok(final[g.output])) &&
            (forall x :: x in inputValues && x !in Outputs(gates) ==> x in final && final[x] == inputValues[x]) &&
            outputs.Keys == Elems(primaryOutputs) && (forall o :: o in outputs ==> o in final && outputs[o] == final[o])
  {
    DriverTableUnique(gates);
    var final := Propagate(eval, DriverTable(gates).value, order, inputValues).value;
    CollectMeaning(primaryOutputs, final);
    forall g | g in gates
      ensures g.output in final && eval(g, final) == Ok(final[g.output])
    {
      PropagateIsConsistent(eval, gates, order, inputValues, g);
    }
    forall x | x in inputValues && x !in Outputs(gates)
      ensures x in final && final[x] == inputValues[x]
    {
      PropagateKeepsUndriven(eval, gates, order, inputValues, x);
    }
  }

  /**
   * Which exception `simulate` raises after levelization: a missing primary input
   * first, then a line two gates drive, then a gate evaluation error, and last a
   * primary output left without a value.
   */
  lemma RunErrors<Id>(eval: Evaluator<Id>, primaryInputs: seq<Id>, primaryOutputs: seq<Id>,
                      gates: seq<GateShape<Id>>, order: seq<Id>, inputValues: map<Id, Word>)
    ensures var r := Run(eval, primaryInputs, primaryOutputs, gates, order, inputValues);
      (exists x :: x in primaryInputs && x !in inputValues) ==>
        r.Err? && r.error.MissingInput? && r.error.signal in primaryInputs && r.error.signal !in inputValues
    ensures var r := Run(eval, primaryInputs, primaryOutputs, gates, order, inputValues);
      (forall x :: x in primaryInputs ==> x in inputValues) && SharedDriver(gates) ==>
        r.Err? && r.error.MultipleDrivers? &&
        exists i, j :: 0 <= i < j < |gates| && gates[i].output == gates[j].output == r.error.signal
    ensures var r := Run(eval, primaryInputs, primaryOutputs, gates, order, inputValues);
      (forall x :: x in primaryInputs ==> x in inputValues) && DriverTable(gates).Ok? &&
      Propagate(eval, DriverTable(gates).value, order, inputValues).Ok? && r.Err? ==>
        var final := Propagate(eval, DriverTable(gates).value, order, inputValues).value;
        r.error.NotComputed? && r.error.signal in primaryOutputs && r.error.signal !in final
  {
    DriverTableIsOk(gates);
    if DriverTable(gates).Err? {
      DriverTableErr(gates);
    }
    var r := Run(eval, primaryInputs, primaryOutputs, gates, order, inputValues);
    if FirstMissing(primaryInputs, inputValues).None? && DriverTable(gates).Ok? {
      var table := DriverTable(gates).value;
      if Propagate(eval, table, order, inputValues).Ok? {
        CollectMeaning(primaryOutputs, Propagate(eval, table, order, inputValues).value);
      }
    }
  }
}

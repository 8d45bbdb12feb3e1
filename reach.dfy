/**
 * Breadth-first searches over the links of the front-end circuit:
 * `traceFaultObservationPath` (also `getFaultPropagationGates`, the same loop),
 * `getReachableOutputs`, which does not search past an output, and the
 * absolute-dominator intersection of `preprocessCircuit`.
 *
 * Reachability is stated with walks: sequences of nodes joined by links.
 */
module Reach {

  import opened Netlist

  /** `p` follows links, and none of its nodes but the last is in `stop`. */
  ghost predicate IsWalk(c: Circuit, stop: seq<string>, p: seq<string>) {
    |p| >= 1 && forall i :: 0 <= i < |p| - 1 ==> Link(p[i], p[i + 1]) in c.links && p[i] !in stop
  }

  /** `b` can be reached from `a` along links without passing through a node of `stop`. */
  ghost predicate Reaches(c: Circuit, stop: seq<string>, a: string, b: string) {
    exists p :: IsWalk(c, stop, p) && p[0] == a && p[|p| - 1] == b
  }

  lemma ReachesItself(c: Circuit, stop: seq<string>, a: string)
    ensures Reaches(c, stop, a, a)
  {
    assert IsWalk(c, stop, [a]);
  }

  /** A walk to a node outside `stop` extends along one more link. */
  lemma ReachesStep(c: Circuit, stop: seq<string>, a: string, b: string, s: string)
    requires Reaches(c, stop, a, b) && b !in stop && Link(b, s) in c.links
    ensures Reaches(c, stop, a, s)
  {
    var p :| IsWalk(c, stop, p) && p[0] == a && p[|p| - 1] == b;
    var q := p + [s];
    assert forall i :: 0 <= i < |p| ==> q[i] == p[i];
    assert q[|q| - 1] == s;
    assert IsWalk(c, stop, q);
  }

  /** A set that holds the start of a walk and every successor of its nodes outside `stop` holds the walk's end. */
  lemma {:induction false} ClosedSetHoldsWalkEnd(c: Circuit, stop: seq<string>, closed: set<string>, p: seq<string>)
    requires IsWalk(c, stop, p) && p[0] in closed
    requires forall v, s :: v in closed && v !in stop && Link(v, s) in c.links ==> s in closed
    ensures p[|p| - 1] in closed
    decreases |p|
  {
    if |p| > 1 {
      var q := p[..|p| - 1];
      assert IsWalk(c, stop, q);
      ClosedSetHoldsWalkEnd(c, stop, closed, q);
      assert Link(q[|q| - 1], p[|p| - 1]) in c.links;
    }
  }

  /** The ids a search from `start` can meet: the start and the link targets. */
  function Universe(c: Circuit, start: string): set<string> {
    {start} + set l | l in c.links :: l.target
  }

  /**
   * `traceFaultObservationPath(start)`: the nodes reachable from `start`, each once,
   * in breadth-first order starting with `start`.
   */
  method TraceFaultObservationPath(c: Circuit, start: string) returns (path: seq<string>)
    ensures |path| > 0 && path[0] == start
    ensures Distinct(path)
    ensures forall x :: x in path <==> Reaches(c, [], start, x)
  {
    path := [];
    var queue := [start];
    var visited: set<string> := {};
    ReachesItself(c, [], start);
    while queue != []
      invariant forall x :: x in visited <==> x in path
      invariant Distinct(path)
      invariant visited <= Universe(c, start) && forall x :: x in queue ==> x in Universe(c, start)
      invariant path == [] ==> queue == [start]
      invariant path != [] ==> path[0] == start
      invariant forall x :: x in visited ==> Reaches(c, [], start, x)
      invariant forall x :: x in queue ==> Reaches(c, [], start, x)
      invariant forall v, s :: v in visited && Link(v, s) in c.links ==> s in visited || s in queue
      decreases Universe(c, start) - visited, |queue|
    {
      var cur := queue[0];
      queue := queue[1..];
      if cur !in visited {
        visited := visited + {cur};
        path := path + [cur];
        var outs := GateOutputs(c, cur);
        forall s | s in outs
          ensures Reaches(c, [], start, s)
        {
          ReachesStep(c, [], start, cur, s);
        }
        queue := queue + outs;
      }
    }
    forall x | Reaches(c, [], start, x)
      ensures x in path
    {
      var p :| IsWalk(c, [], p) && p[0] == start && p[|p| - 1] == x;
      ClosedSetHoldsWalkEnd(c, [], visited, p);
    }
  }

  /**
   * `getReachableOutputs(nodeId, outputs)`: the outputs reachable from `nodeId`
   * without passing through another output, each once, in breadth-first order.
   */
  method GetReachableOutputs(c: Circuit, nodeId: string, outputs: seq<string>) returns (reachable: seq<string>)
    ensures Distinct(reachable)
    ensures forall x :: x in reachable <==> x in outputs && Reaches(c, outputs, nodeId, x)
  {
    reachable := [];
    var queue := [nodeId];
    var visited: set<string> := {};
    ReachesItself(c, outputs, nodeId);
    while queue != []
      invariant forall x :: x in reachable <==> x in visited && x in outputs
      invariant Distinct(reachable)
      invariant visited <= Universe(c, nodeId) && forall x :: x in queue ==> x in Universe(c, nodeId)
      invariant visited == {} ==> queue == [nodeId]
      invariant visited != {} ==> nodeId in visited
      invariant forall x :: x in visited ==> Reaches(c, outputs, nodeId, x)
      invariant forall x :: x in queue ==> Reaches(c, outputs, nodeId, x)
      invariant forall v, s :: v in visited && v !in outputs && Link(v, s) in c.links ==> s in visited || s in queue
      decreases Universe(c, nodeId) - visited, |queue|
    {
      var cur := queue[0];
      queue := queue[1..];
      if cur in visited {
        continue;
      }
      visited := visited + {cur};
      if cur in outputs {
        reachable := reachable + [cur];
        continue;
      }
      var children := GateOutputs(c, cur);
      forall s | s in children
        ensures Reaches(c, outputs, nodeId, s)
      {
        ReachesStep(c, outputs, nodeId, cur, s);
      }
      queue := queue + children;
    }
    forall x | x in outputs && Reaches(c, outputs, nodeId, x)
      ensures x in reachable
    {
      var p :| IsWalk(c, outputs, p) && p[0] == nodeId && p[|p| - 1] == x;
      ClosedSetHoldsWalkEnd(c, outputs, visited, p);
    }
  }

  /** The elements of `xs` that occur in `ys`, in order (`xs.filter(x => ys.includes(x))`). */
  function KeepIn(xs: seq<string>, ys: seq<string>): (r: seq<string>)
    ensures forall x :: x in r <==> x in xs && x in ys
    ensures Distinct(xs) ==> Distinct(r)
  {
    if xs == [] then []
    else if xs[0] in ys then [xs[0]] + KeepIn(xs[1..], ys)
    else KeepIn(xs[1..], ys)
  }

  /** The intersection of the dominator lists of `outs`, in the order of the first one. */
  method IntersectDominators(dominators: map<string, seq<string>>, outs: seq<string>) returns (inter: seq<string>)
    requires |outs| > 0 && forall o :: o in outs ==> o in dominators
    ensures Distinct(inter)
    ensures forall x :: x in inter <==> forall o :: o in outs ==> x in dominators[o]
  {
    inter := Dedup(dominators[outs[0]]);
    var k := 1;
    while k < |outs|
      invariant 1 <= k <= |outs|
      invariant Distinct(inter)
      invariant forall x :: x in inter <==> forall j :: 0 <= j < k ==> x in dominators[outs[j]]
    {
      inter := KeepIn(inter, dominators[outs[k]]);
      k := k + 1;
    }
  }

  /** `data.nodes.filter(n => n.label === "Output").map(n => n.id)`. */
  function OutputIds(nodes: seq<Node>): (r: seq<string>)
    ensures forall x :: x in r <==> exists n :: n in nodes && n.gateType == "Output" && n.id == x
  {
    if nodes == [] then []
    else
      assert forall n :: n in nodes <==> n == nodes[0] || n in nodes[1..];
      (if nodes[0].gateType == "Output" then [nodes[0].id] else []) + OutputIds(nodes[1..])
  }

  /** Some primary output lies downstream of `id`. */
  ghost predicate ReachesAnOutput(c: Circuit, id: string) {
    exists o :: o in OutputIds(c.nodes) && Reaches(c, OutputIds(c.nodes), id, o)
  }

  /** What the absolute-dominator table holds for a node that reaches some output. */
  ghost predicate AbsoluteDominatorsOf(c: Circuit, dominators: map<string, seq<string>>, id: string, doms: seq<string>) {
    var outputs := OutputIds(c.nodes);
    Distinct(doms) &&
    forall x :: x in doms <==>
      forall o :: o in outputs && Reaches(c, outputs, id, o) ==> o in dominators && x in dominators[o]
  }

  /**
   * The absolute-dominator step of `preprocessCircuit`: every node that reaches an
   * output gets the nodes lying on the dominator lists of all the outputs it reaches.
   */
  method PreprocessCircuit(c: Circuit, dominators: map<string, seq<string>>) returns (absolute: map<string, seq<string>>)
    requires forall x :: x in OutputIds(c.nodes) ==> x in dominators
    ensures forall id :: id in absolute <==> id in NodeIds(c) && ReachesAnOutput(c, id)
    ensures forall id :: id in absolute ==> AbsoluteDominatorsOf(c, dominators, id, absolute[id])
  {
    var outputs := OutputIds(c.nodes);
    absolute := map[];
    ghost var seen: set<string> := {};
    var i := 0;
    while i < |c.nodes|
      invariant 0 <= i <= |c.nodes|
      invariant seen == set n | n in c.nodes[..i] :: n.id
      invariant forall id :: id in absolute <==> id in seen && ReachesAnOutput(c, id)
      invariant forall id :: id in absolute ==> AbsoluteDominatorsOf(c, dominators, id, absolute[id])
    {
      var id := c.nodes[i].id;
      var reachable := GetReachableOutputs(c, id, outputs);
      if reachable != [] {
        assert reachable[0] in outputs && Reaches(c, outputs, id, reachable[0]);
        var inter := IntersectDominators(dominators, reachable);
        absolute := absolute[id := inter];
      }
      assert c.nodes[..i + 1] == c.nodes[..i] + [c.nodes[i]];
      seen := seen + {id};
      i := i + 1;
    }
    assert c.nodes[..i] == c.nodes;
    assert seen == NodeIds(c);
  }
}

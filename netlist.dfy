/**
 * The circuit graph the ATPG front end works on: a list of nodes (id and label)
 * and a list of directed links, with the fan-in and fan-out lookups that filter
 * the link list, and the node-value map.
 */
module Netlist {

  import opened Wrappers
  import opened Text
  import opened DCalculus

  datatype Node = Node(id: string, gateType: string)

  datatype Link = Link(source: string, target: string)

  datatype Circuit = Circuit(nodes: seq<Node>, links: seq<Link>)

  /** The map from node id to its current value. */
  type Values = map<string, Value>

  /** No element occurs twice. */
  predicate Distinct<T(==)>(xs: seq<T>) {
    forall i, j :: 0 <= i < j < |xs| ==> xs[i] != xs[j]
  }

  function NodeIds(c: Circuit): set<string> {
    set n | n in c.nodes :: n.id
  }

  /** Every link joins two nodes of the node list (a dangling link makes the source's node lookup fail). */
  predicate WellFormed(c: Circuit) {
    forall l :: l in c.links ==> l.source in NodeIds(c) && l.target in NodeIds(c)
  }

  /** Every node holds a value. */
  predicate Covers(c: Circuit, values: Values) {
    NodeIds(c) <= values.Keys
  }

  /** The sources of the links into `id`, in link order. */
  function Sources(links: seq<Link>, id: string): (r: seq<string>)
    ensures |r| <= |links|
    ensures forall x :: x in r <==> Link(x, id) in links
  {
    if links == [] then []
    else (if links[0].target == id then [links[0].source] else []) + Sources(links[1..], id)
  }

  /** The targets of the links out of `id`, in link order. */
  function Targets(links: seq<Link>, id: string): (r: seq<string>)
    ensures |r| <= |links|
    ensures forall x :: x in r <==> Link(id, x) in links
  {
    if links == [] then []
    else (if links[0].source == id then [links[0].target] else []) + Targets(links[1..], id)
  }

  /** `getGateInputs`: the fan-in of a node. */
  function GateInputs(c: Circuit, id: string): (r: seq<string>)
    ensures WellFormed(c) ==> forall x :: x in r ==> x in NodeIds(c)
  {
    Sources(c.links, id)
  }

  /** `getGateOutputs` (and `getGatesDrivenByNode`, the same filter): the fan-out of a node. */
  function GateOutputs(c: Circuit, id: string): (r: seq<string>)
    ensures WellFormed(c) ==> forall x :: x in r ==> x in NodeIds(c)
  {
    Targets(c.links, id)
  }

  /** The label (`gateType`) of the first node with that id, as `data.nodes.find` returns it. */
  function FindLabel(nodes: seq<Node>, id: string): (r: string)
    requires exists n :: n in nodes && n.id == id
    ensures exists i :: 0 <= i < |nodes| && nodes[i].id == id && nodes[i].gateType == r
                        && forall j :: 0 <= j < i ==> nodes[j].id != id
  {
    if nodes[0].id == id then nodes[0].gateType
    else
      assert nodes[0] !in nodes[1..] || nodes[0] in nodes[1..];
      var r := FindLabel(nodes[1..], id);
      var i :| 0 <= i < |nodes[1..]| && nodes[1..][i].id == id && nodes[1..][i].gateType == r
               && forall j :: 0 <= j < i ==> nodes[1..][j].id != id;
      assert nodes[i + 1].id == id && forall j :: 0 <= j < i + 1 ==> nodes[j].id != id;
      r
  }

  function LabelOf(c: Circuit, id: string): string
    requires id in NodeIds(c)
  {
    FindLabel(c.nodes, id)
  }

  /** The label test the implication pass uses to skip primary inputs: `label.trim().toLowerCase() === "input"`. */
  predicate IsInputLabel(gateType: string) {
    ToLower(JsTrim(gateType)) == "input"
  }

  /** JavaScript whitespace of any kind around the word still spells an Input node. */
  lemma PaddedInputLabel()
    ensures IsInputLabel("\U{2003}Input\U{3000}")
  {
    var s := "\U{2003}Input\U{3000}";
    assert TrimLeftBy(s, true) == s[1..];
    assert JsTrim(s) == "Input";
  }

  /** `inputs.map(id => values[id] || "X")`: the values of the fan-in, in fan-in order; a node without a value reads X. */
  function InputValues(values: Values, ids: seq<string>): (r: seq<Value>)
    ensures |r| == |ids| && forall k :: 0 <= k < |ids| ==> r[k] == if ids[k] in values then values[ids[k]] else X
  {
    seq(|ids|, k requires 0 <= k < |ids| => if ids[k] in values then values[ids[k]] else X)
  }

  /** `Array.from(new Set(xs))`: the first occurrence of each element, in order. */
  function Dedup<T(==,!new)>(xs: seq<T>): (r: seq<T>)
    ensures forall x :: x in r <==> x in xs
    ensures Distinct(r)
  {
    if xs == [] then []
    else
      var r := Dedup(xs[..|xs| - 1]);
      assert forall x :: x in xs <==> x in xs[..|xs| - 1] || x == xs[|xs| - 1];
      if xs[|xs| - 1] in r then r else r + [xs[|xs| - 1]]
  }

  /** The node-value map `handleReset` and the initial state build: every node is X. */
  function AllUnknown(c: Circuit): (r: Values)
    ensures r.Keys == NodeIds(c)
    ensures forall id :: id in r ==> r[id] == X
  {
    map id | id in NodeIds(c) :: X
  }
}

/**
 * Why `simulate` does not depend on which level order levelization picks: Kahn's
 * loop in the back end drains a `HashMap`, so the order is fixed only by the map's
 * iteration order. Along any order that places each gate after the driven lines it
 * reads, a successful evaluation ends in the one assignment that is consistent with
 * every gate, so every such order gives the same result.
 */
module SimulationOrder {

  import opened Wrappers
  import opened Bits
  import opened Simulation

  type Table<Id> = map<Id, GateShape<Id>>

  /** Each gate of the table comes after every input line of it that a gate of the table drives. */
  ghost predicate TopoFor<Id>(table: Table<Id>, order: seq<Id>) {
    forall i, x :: 0 <= i < |order| && order[i] in table && x in table[order[i]].inputs && x in table ==> x in order[..i]
  }

  /** Every driven line is placed. */
  ghost predicate Covers<Id>(table: Table<Id>, order: seq<Id>) {
    forall n :: n in table ==> n in order
  }

  /**
   * `f` settles the circuit: every driven line holds what its gate evaluates to on
   * `f`, and every other line keeps the caller's value, or its absence.
   */
  ghost predicate Consistent<Id(!new)>(eval: Evaluator<Id>, table: Table<Id>, values: map<Id, Word>, f: map<Id, Word>) {
    (forall n :: n in table ==> n in f && eval(table[n], f) == Ok(f[n])) &&
    (forall x :: x !in table ==> (x in f <==> x in values) && (x in f ==> f[x] == values[x]))
  }

  /** Two results alike: both fail, or both succeed with the same value. */
  predicate Like<T(==), E(==)>(r1: Result<T, E>, r2: Result<T, E>) {
    r1.Ok? == r2.Ok? && (r1.Ok? ==> r1 == r2)
  }

  /** The settled values on the lines of `done` that a gate drives, and the caller's values elsewhere. */
  ghost function Partial<Id>(table: Table<Id>, values: map<Id, Word>, f: map<Id, Word>, done: seq<Id>): map<Id, Word>
    requires forall n :: n in table ==> n in f
  {
    map x | x in values.Keys + (set n | n in table && n in done) :: if x in table && x in done then f[x] else values[x]
  }

  /**
   * Along an order that places every gate after its driven inputs, evaluation
   * follows a settled assignment: after each prefix, the lines evaluated so far hold
   * their settled values.
   */
  lemma {:induction false} PropagateFollows<Id(!new)>(eval: Evaluator<Id>, table: Table<Id>, order: seq<Id>,
                                                       values: map<Id, Word>, f: map<Id, Word>, i: nat)
    requires IsLocal(eval) && Keyed(table) && TopoFor(table, order) && Consistent(eval, table, values, f)
    requires i <= |order|
    ensures Propagate(eval, table, order[..i], values) == Ok(Partial(table, values, f, order[..i]))
  {
    if i == 0 {
      assert order[..0] == [];
      assert Partial(table, values, f, []) == values;
    } else {
      var j := i - 1;
      PropagateFollows(eval, table, order, values, f, j);
      var before := Partial(table, values, f, order[..j]);
      var node := order[j];
      assert order[..i] == order[..j] + [node];
      assert order[..i][..j] == order[..j];
      PartialStep(table, values, f, order[..j], node);
      if node in table {
        var g := table[node];
        assert Agree(before, f, g.inputs) by {
          forall x | x in g.inputs
            ensures (x in before <==> x in f) && (x in before ==> before[x] == f[x])
          {
            if x in table {
              assert x in order[..j];
            }
          }
        }
        assert eval(g, before) == eval(g, f);
      }
    }
  }

  /** One more placed line: it takes its settled value when a gate drives it, and nothing changes otherwise. */
  lemma PartialStep<Id>(table: Table<Id>, values: map<Id, Word>, f: map<Id, Word>, done: seq<Id>, node: Id)
    requires forall n :: n in table ==> n in f
    ensures Partial(table, values, f, done + [node]) ==
      if node in table then Partial(table, values, f, done)[node := f[node]] else Partial(table, values, f, done)
  {
    var before := Partial(table, values, f, done);
    var after := Partial(table, values, f, done + [node]);
    assert forall x :: x in done + [node] <==> x in done || x == node;
    if node in table {
      assert after.Keys == before.Keys + {node};
      assert after == before[node := f[node]];
    } else {
      assert after.Keys == before.Keys;
      assert after == before;
    }
  }

  /** A settled assignment is reached along every order that covers the driven lines and respects their wiring. */
  lemma PropagateReaches<Id(!new)>(eval: Evaluator<Id>, table: Table<Id>, order: seq<Id>, values: map<Id, Word>, f: map<Id, Word>)
    requires IsLocal(eval) && Keyed(table) && TopoFor(table, order) && Covers(table, order)
    requires Consistent(eval, table, values, f)
    ensures Propagate(eval, table, order, values) == Ok(f)
  {
    PropagateFollows(eval, table, order, values, f, |order|);
    assert order[..|order|] == order;
    var p := Partial(table, values, f, order);
    assert p.Keys == f.Keys;
    assert p == f;
  }

  /**
   * Conversely, a successful evaluation along such an order, placing each line once,
   * ends in a settled assignment.
   */
  lemma PropagateSettles<Id(!new)>(eval: Evaluator<Id>, table: Table<Id>, order: seq<Id>, values: map<Id, Word>)
    requires IsLocal(eval) && Keyed(table) && Distinct(order) && TopoFor(table, order) && Covers(table, order)
    requires Propagate(eval, table, order, values).Ok?
    ensures Consistent(eval, table, values, Propagate(eval, table, order, values).value)
  {
    var last := |order|;
    assert order[..last] == order;
    var final := Propagate(eval, table, order, values).value;
    forall n | n in table
      ensures n in final && eval(table[n], final) == Ok(final[n])
    {
      SettledAt(eval, table, order, values, n);
    }
    PropagateFrame(eval, table, order, values, 0, last);
    assert order[..0] == [];
  }

  lemma SettledAt<Id(!new)>(eval: Evaluator<Id>, table: Table<Id>, order: seq<Id>, values: map<Id, Word>, n: Id)
    requires IsLocal(eval) && Keyed(table) && Distinct(order) && TopoFor(table, order)
    requires Propagate(eval, table, order, values).Ok?
    requires n in table && n in order
    ensures var final := Propagate(eval, table, order, values).value;
            n in final && eval(table[n], final) == Ok(final[n])
  {
    var last := |order|;
    assert order[..last] == order;
    var i := IndexOf(order, n);
    PropagateFrame(eval, table, order, values, i + 1, last);
    PropagateFrame(eval, table, order, values, i, last);
    assert order[..i + 1][..i] == order[..i] && order[..i + 1][i] == n;
    var before := Propagate(eval, table, order[..i], values).value;
    var final := Propagate(eval, table, order, values).value;
    assert n !in order[i + 1..last] by {
      DistinctSplit(order, i + 1, n);
    }
    var g := table[n];
    forall x | x in g.inputs && x in table
      ensures x !in order[i..last]
    {
      assert x in order[..i];
      DistinctSplit(order, i, x);
    }
    assert Agree(before, final, g.inputs);
    assert eval(g, before) == eval(g, final);
  }

  /**
   * The order does not matter: along two orders that both respect the wiring and
   * cover the driven lines, evaluation succeeds for both or fails for both, and
   * when it succeeds the values are the same.
   */
  lemma PropagateIsOrderIndependent<Id(!new)>(eval: Evaluator<Id>, table: Table<Id>, o1: seq<Id>, o2: seq<Id>, values: map<Id, Word>)
    requires IsLocal(eval) && Keyed(table)
    requires Distinct(o1) && TopoFor(table, o1) && Covers(table, o1)
    requires Distinct(o2) && TopoFor(table, o2) && Covers(table, o2)
    ensures Like(Propagate(eval, table, o1, values), Propagate(eval, table, o2, values))
  {
    if Propagate(eval, table, o1, values).Ok? {
      PropagateSettles(eval, table, o1, values);
      PropagateReaches(eval, table, o2, values, Propagate(eval, table, o1, values).value);
    } else if Propagate(eval, table, o2, values).Ok? {
      PropagateSettles(eval, table, o2, values);
      PropagateReaches(eval, table, o1, values, Propagate(eval, table, o2, values).value);
    }
  }

  /** A level order of the netlist respects the wiring of its driver table and places every driven line. */
  lemma LevelOrderFitsTable<Id>(primaryInputs: seq<Id>, gates: seq<GateShape<Id>>, order: seq<Id>)
    requires IsLevelOrder(order, primaryInputs, gates) && DriverTable(gates).Ok?
    ensures Distinct(order)
    ensures TopoFor(DriverTable(gates).value, order) && Covers(DriverTable(gates).value, order)
  {
    var table := DriverTable(gates).value;
    DriverTableOk(gates);
    forall i, x | 0 <= i < |order| && order[i] in table && x in table[order[i]].inputs && x in table
      ensures x in order[..i]
    {
      var g :| g in gates && g.output == order[i];
      assert table[order[i]] == g;
      EdgesMembers(gates, Edge(x, order[i]));
    }
    forall n | n in table
      ensures n in order
    {
      assert n in Elems(order);
    }
  }

  /**
   * `simulate` gives alike results along any two level orders, so the model's
   * freedom in the choice of order does not show in what simulation returns.
   */
  lemma RunIsOrderIndependent<Id(!new)>(eval: Evaluator<Id>, primaryInputs: seq<Id>, primaryOutputs: seq<Id>,
                                        gates: seq<GateShape<Id>>, o1: seq<Id>, o2: seq<Id>, inputValues: map<Id, Word>)
    requires IsLocal(eval) && IsLevelOrder(o1, primaryInputs, gates) && IsLevelOrder(o2, primaryInputs, gates)
    ensures Like(Run(eval, primaryInputs, primaryOutputs, gates, o1, inputValues),
                 Run(eval, primaryInputs, primaryOutputs, gates, o2, inputValues))
  {
    if DriverTable(gates).Ok? {
      DriverTableIsKeyed(gates);
      LevelOrderFitsTable(primaryInputs, gates, o1);
      LevelOrderFitsTable(primaryInputs, gates, o2);
      PropagateIsOrderIndependent(eval, DriverTable(gates).value, o1, o2, inputValues);
    }
  }
}

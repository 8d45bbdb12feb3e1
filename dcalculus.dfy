/**
 * Roth's five-valued D-calculus as the ATPG front end implements it: the literal
 * 5x5 gate tables, the way a node label selects a table, and the controlling /
 * non-controlling value tables. A reference semantics (each value as a pair of
 * good-circuit and faulty-circuit three-valued signals) states where the literal
 * tables agree with the textbook algebra and exactly where they do not.
 */
module DCalculus {

  import opened Wrappers

  /**
   * The values a node can hold: 0, 1, X, D (good 1 / faulty 0), D' (good 0 /
   * faulty 1), and the "CONFLICT" marker the implication pass writes.
   */
  datatype Value = Zero | One | X | D | DBar | Conflict

  predicate IsFaultEffect(v: Value) {
    v == D || v == DBar
  }

  /** The five values that have a row and a column in the gate tables. */
  predicate InTables(v: Value) {
    v != Conflict
  }

  datatype GateKind = And | Or | Nand | Nor | Xor | Not | Output

  predicate IsTwoInput(k: GateKind) {
    k != Not && k != Output
  }

  /** The dispatch table from a node label to its evaluation function; other labels have none. */
  function GateKindOf(gateType: string): (k: Option<GateKind>)
    ensures k.Some? <==> gateType in {"AND Gate", "OR Gate", "NAND Gate", "NOR Gate", "XOR Gate", "NOT Gate", "Output"}
  {
    if gateType == "AND Gate" then Some(And)
    else if gateType == "OR Gate" then Some(Or)
    else if gateType == "NAND Gate" then Some(Nand)
    else if gateType == "NOR Gate" then Some(Nor)
    else if gateType == "XOR Gate" then Some(Xor)
    else if gateType == "NOT Gate" then Some(Not)
    else if gateType == "Output" then Some(Output)
    else None
  }

  /** One row of a table, columns in the order 0, 1, D, D', X; a CONFLICT column is absent. */
  function Row(b: Value, v0: Value, v1: Value, vD: Value, vDBar: Value, vX: Value): Option<Value> {
    match b
    case Zero => Some(v0)
    case One => Some(v1)
    case D => Some(vD)
    case DBar => Some(vDBar)
    case X => Some(vX)
    case Conflict => None
  }

  function AndTable(a: Value, b: Value): Option<Value> {
    match a
    case Zero => Row(b, Zero, Zero, Zero, Zero, Zero)
    case One => Row(b, Zero, One, D, DBar, X)
    case D => Row(b, Zero, D, D, Zero, X)
    case DBar => Row(b, Zero, DBar, Zero, DBar, X)
    case X => Row(b, Zero, X, X, X, X)
    case Conflict => None
  }

  function OrTable(a: Value, b: Value): Option<Value> {
    match a
    case Zero => Row(b, Zero, One, D, DBar, X)
    case One => Row(b, One, One, One, One, One)
    case D => Row(b, D, One, D, One, One)
    case DBar => Row(b, DBar, One, One, DBar, One)
    case X => Row(b, X, One, One, One, One)
    case Conflict => None
  }

  function NandTable(a: Value, b: Value): Option<Value> {
    match a
    case Zero => Row(b, One, One, One, One, One)
    case One => Row(b, One, Zero, DBar, D, X)
    case D => Row(b, One, DBar, X, X, X)
    case DBar => Row(b, One, D, X, X, X)
    case X => Row(b, One, X, X, X, X)
    case Conflict => None
  }

  function NorTable(a: Value, b: Value): Option<Value> {
    match a
    case Zero => Row(b, One, Zero, DBar, D, Zero)
    case One => Row(b, Zero, Zero, Zero, Zero, Zero)
    case D => Row(b, DBar, Zero, Zero, Zero, Zero)
    case DBar => Row(b, D, Zero, Zero, Zero, Zero)
    case X => Row(b, Zero, Zero, Zero, Zero, Zero)
    case Conflict => None
  }

  function XorTable(a: Value, b: Value): Option<Value> {
    match a
    case Zero => Row(b, Zero, One, D, DBar, X)
    case One => Row(b, One, Zero, DBar, D, X)
    case D => Row(b, D, DBar, One, Zero, X)
    case DBar => Row(b, DBar, D, Zero, One, X)
    case X => Row(b, X, X, X, X, X)
    case Conflict => None
  }

  function NotTable(a: Value): Option<Value> {
    match a
    case Zero => Some(One)
    case One => Some(Zero)
    case D => Some(DBar)
    case DBar => Some(D)
    case X => Some(X)
    case Conflict => None
  }

  function Table(k: GateKind, a: Value, b: Value): Option<Value>
    requires IsTwoInput(k)
  {
    match k
    case And => AndTable(a, b)
    case Or => OrTable(a, b)
    case Nand => NandTable(a, b)
    case Nor => NorTable(a, b)
    case Xor => XorTable(a, b)
  }

  /** `table[a]?.[b] || table[b]?.[a] || "X"`: look up both orders, X when neither has an entry. */
  function Lookup(k: GateKind, a: Value, b: Value): Value
    requires IsTwoInput(k)
  {
    match Table(k, a, b)
    case Some(v) => v
    case None =>
      match Table(k, b, a)
      case Some(v) => v
      case None => X
  }

  /**
   * A gate of kind `k` on its input values in fan-in order. Two-input tables read
   * the first two inputs (a missing operand has no entry, so the result is X); NOT
   * reads the first; an output node passes its first input through unchanged.
   */
  function EvalKind(k: GateKind, ins: seq<Value>): Value {
    match k
    case Not => if |ins| == 0 then X else (match NotTable(ins[0]) case Some(v) => v case None => X)
    case Output => if |ins| == 0 then X else ins[0]
    case _ => if |ins| < 2 then X else Lookup(k, ins[0], ins[1])
  }

  /** Evaluation of a node whose label is `gateType`: labels without an evaluation function give X. */
  function EvalGate(gateType: string, ins: seq<Value>): Value {
    match GateKindOf(gateType)
    case Some(k) => EvalKind(k, ins)
    case None => X
  }

  function Invert(v: Value): Value {
    EvalKind(Not, [v])
  }

  /** The controlling-value table: 0 for AND/NAND, 1 for OR/NOR, X for every other label. */
  function ControllingValue(gateType: string): (v: Value)
    ensures v in {Zero, One, X}
  {
    match GateKindOf(gateType)
    case Some(And) => Zero
    case Some(Nand) => Zero
    case Some(Or) => One
    case Some(Nor) => One
    case _ => X
  }

  /** The non-controlling-value table: 1 for AND/NAND, 0 for OR/NOR/XOR, X for every other label. */
  function NonControllingValue(gateType: string): (v: Value)
    ensures v in {Zero, One, X}
  {
    match GateKindOf(gateType)
    case Some(And) => One
    case Some(Nand) => One
    case Some(Or) => Zero
    case Some(Nor) => Zero
    case Some(Xor) => Zero
    case _ => X
  }

  // ---------------------------------------------------------------------------
  // Reference semantics: a value is a pair (good circuit, faulty circuit) of
  // three-valued signals; X is the pair of two unknowns.
  // ---------------------------------------------------------------------------

  datatype Tri = F | T | U

  function TriNot(p: Tri): Tri {
    match p
    case F => T
    case T => F
    case U => U
  }

  function TriAnd(p: Tri, q: Tri): Tri {
    if p == F || q == F then F else if p == T && q == T then T else U
  }

  function TriOr(p: Tri, q: Tri): Tri {
    if p == T || q == T then T else if p == F && q == F then F else U
  }

  function TriXor(p: Tri, q: Tri): Tri {
    if p == U || q == U then U else if p == q then F else T
  }

  function TriOp(k: GateKind, p: Tri, q: Tri): Tri
    requires IsTwoInput(k)
  {
    match k
    case And => TriAnd(p, q)
    case Or => TriOr(p, q)
    case Nand => TriNot(TriAnd(p, q))
    case Nor => TriNot(TriOr(p, q))
    case Xor => TriXor(p, q)
  }

  function Good(v: Value): Tri
    requires InTables(v)
  {
    match v
    case Zero => F
    case One => T
    case D => T
    case DBar => F
    case X => U
  }

  function Faulty(v: Value): Tri
    requires InTables(v)
  {
    match v
    case Zero => F
    case One => T
    case D => F
    case DBar => T
    case X => U
  }

  /** Back from a pair to the five values: any unknown component collapses to X. */
  function FromPair(g: Tri, f: Tri): Value {
    match (g, f)
    case (F, F) => Zero
    case (T, T) => One
    case (T, F) => D
    case (F, T) => DBar
    case _ => X
  }

  /** The textbook result of a two-input gate: the gate applied separately to both circuits. */
  function Roth(k: GateKind, a: Value, b: Value): Value
    requires IsTwoInput(k) && InTables(a) && InTables(b)
  {
    FromPair(TriOp(k, Good(a), Good(b)), TriOp(k, Faulty(a), Faulty(b)))
  }

  function RothNot(a: Value): Value
    requires InTables(a)
  {
    FromPair(TriNot(Good(a)), TriNot(Faulty(a)))
  }

  // ---------------------------------------------------------------------------
  // Properties of the literal tables
  // ---------------------------------------------------------------------------

  /** Every two-input table is invariant under swapping its operands, CONFLICT included. */
  lemma TablesAreSymmetric(k: GateKind, a: Value, b: Value)
    requires IsTwoInput(k)
    ensures EvalKind(k, [a, b]) == EvalKind(k, [b, a])
  {
    match k
    case And =>
    case Or =>
    case Nand =>
    case Nor =>
    case Xor =>
  }

  /** An operand outside the five table values (CONFLICT) makes every table answer X. */
  lemma ConflictOperandGivesX(k: GateKind, a: Value, b: Value)
    requires IsTwoInput(k)
    ensures a == Conflict || b == Conflict ==> EvalKind(k, [a, b]) == X
    ensures Invert(Conflict) == X
  {
  }

  /** A two-input gate with fewer than two inputs has no table entry and gives X. */
  lemma MissingOperandGivesX(k: GateKind, ins: seq<Value>)
    requires IsTwoInput(k) && |ins| < 2
    ensures EvalKind(k, ins) == X
  {
  }

  /** No gate table produces CONFLICT: only an output node can pass one through from its input. */
  lemma TablesNeverProduceConflict(gateType: string, ins: seq<Value>)
    ensures EvalGate(gateType, ins) == Conflict <==> GateKindOf(gateType) == Some(Output) && |ins| > 0 && ins[0] == Conflict
  {
  }

  /**
   * The controlling value of AND, NAND, OR and NOR decides the output alone, in
   * either operand position, whatever table value the other operand has.
   */
  lemma ControllingValueDominates(gateType: string, v: Value)
    requires GateKindOf(gateType) in {Some(And), Some(Nand), Some(Or), Some(Nor)}
    requires InTables(v)
    ensures var c := ControllingValue(gateType);
      var r := if GateKindOf(gateType) in {Some(And), Some(Nor)} then Zero else One;
      EvalGate(gateType, [c, v]) == r && EvalGate(gateType, [v, c]) == r
  {
  }

  /** The two fault effects cancel: D AND D' = 0, D OR D' = 1. */
  lemma FaultEffectsCancel()
    ensures EvalKind(And, [D, DBar]) == Zero && EvalKind(And, [DBar, D]) == Zero
    ensures EvalKind(Or, [D, DBar]) == One && EvalKind(Or, [DBar, D]) == One
  {
  }

  /**
   * The non-controlling value lets the other operand through: AND with 1, OR and
   * XOR with 0 are the identity, NAND with 1 inverts; NOR with 0 inverts every
   * value except X, for which the table gives 0.
   */
  lemma NonControllingValuePassesThrough(v: Value)
    requires InTables(v)
    ensures EvalKind(And, [One, v]) == v
    ensures EvalKind(Or, [Zero, v]) == v
    ensures EvalKind(Xor, [Zero, v]) == v
    ensures EvalKind(Nand, [One, v]) == Invert(v)
    ensures EvalKind(Nor, [Zero, v]) == Invert(v) <==> v != X
    ensures EvalKind(Nor, [Zero, X]) == Zero
  {
  }

  /** NOT swaps 0 with 1 and D with D', fixes X, and is an involution on the table values. */
  lemma InvertIsInvolution(v: Value)
    requires InTables(v)
    ensures Invert(Zero) == One && Invert(One) == Zero && Invert(D) == DBar && Invert(DBar) == D && Invert(X) == X
    ensures Invert(Invert(v)) == v
    ensures Invert(v) == RothNot(v)
  {
  }

  /** The NAND table is NOT of the AND table except when both operands are fault effects, where it gives X. */
  lemma NandIsNotAndExceptFaultPairs(a: Value, b: Value)
    requires InTables(a) && InTables(b)
    ensures EvalKind(Nand, [a, b]) == Invert(EvalKind(And, [a, b])) <==> !(IsFaultEffect(a) && IsFaultEffect(b))
    ensures IsFaultEffect(a) && IsFaultEffect(b) ==> EvalKind(Nand, [a, b]) == X
  {
    assert EvalKind(Nand, [a, b]) == Lookup(Nand, a, b) && EvalKind(And, [a, b]) == Lookup(And, a, b);
    match a
    case Zero =>
    case One =>
    case D =>
    case DBar =>
    case X =>
  }

  /** The NOR table is NOT of the OR table except on (0, X), (X, 0), (D, D) and (D', D'), where it gives 0. */
  lemma NorIsNotOrExcept(a: Value, b: Value)
    requires InTables(a) && InTables(b)
    ensures EvalKind(Nor, [a, b]) == Invert(EvalKind(Or, [a, b]))
        <==> !((a, b) in {(Zero, X), (X, Zero), (D, D), (DBar, DBar)})
  {
    assert EvalKind(Nor, [a, b]) == Lookup(Nor, a, b) && EvalKind(Or, [a, b]) == Lookup(Or, a, b);
    match a
    case Zero =>
    case One =>
    case D =>
    case DBar =>
    case X =>
  }

  /** The AND table is exactly the textbook algebra. */
  lemma AndAgreesWithRoth(a: Value, b: Value)
    requires InTables(a) && InTables(b)
    ensures EvalKind(And, [a, b]) == Roth(And, a, b)
  {
    assert EvalKind(And, [a, b]) == Lookup(And, a, b);
    match a
    case Zero =>
    case One =>
    case D =>
    case DBar =>
    case X =>
  }

  /** The OR table departs from the textbook algebra exactly when X meets X, D or D' (the table gives 1). */
  lemma OrAgreesWithRothExcept(a: Value, b: Value)
    requires InTables(a) && InTables(b)
    ensures EvalKind(Or, [a, b]) == Roth(Or, a, b)
        <==> !((a == X && b in {X, D, DBar}) || (b == X && a in {X, D, DBar}))
    ensures EvalKind(Or, [X, X]) == One && Roth(Or, X, X) == X
  {
    assert EvalKind(Or, [a, b]) == Lookup(Or, a, b);
    match a
    case Zero =>
    case One =>
    case D =>
    case DBar =>
    case X =>
  }

  /** The NAND table departs from the textbook algebra exactly on two fault-effect operands. */
  lemma NandAgreesWithRothExcept(a: Value, b: Value)
    requires InTables(a) && InTables(b)
    ensures EvalKind(Nand, [a, b]) == Roth(Nand, a, b) <==> !(IsFaultEffect(a) && IsFaultEffect(b))
    ensures EvalKind(Nand, [D, D]) == X && Roth(Nand, D, D) == DBar
  {
    assert EvalKind(Nand, [a, b]) == Lookup(Nand, a, b);
    match a
    case Zero =>
    case One =>
    case D =>
    case DBar =>
    case X =>
  }

  /**
   * The NOR table departs from the textbook algebra exactly on (0, X), (D, D),
   * (D', D'), X against D, D' or X, and their swaps; the table answers 0 on all of them.
   */
  lemma NorAgreesWithRothExcept(a: Value, b: Value)
    requires InTables(a) && InTables(b)
    ensures EvalKind(Nor, [a, b]) == Roth(Nor, a, b)
        <==> !((a, b) in {(Zero, X), (X, Zero), (D, D), (DBar, DBar)}
               || (a == X && b in {X, D, DBar}) || (b == X && a in {X, D, DBar}))
    ensures EvalKind(Nor, [Zero, X]) == Zero && Roth(Nor, Zero, X) == X
  {
    assert EvalKind(Nor, [a, b]) == Lookup(Nor, a, b);
    match a
    case Zero =>
    case One =>
    case D =>
    case DBar =>
    case X =>
  }

  /** The XOR table departs from the textbook algebra exactly on two fault effects: D xor D = 1, D xor D' = 0. */
  lemma XorAgreesWithRothExcept(a: Value, b: Value)
    requires InTables(a) && InTables(b)
    ensures EvalKind(Xor, [a, b]) == Roth(Xor, a, b) <==> !(IsFaultEffect(a) && IsFaultEffect(b))
    ensures EvalKind(Xor, [D, D]) == One && Roth(Xor, D, D) == Zero
    ensures EvalKind(Xor, [D, DBar]) == Zero && Roth(Xor, D, DBar) == One
  {
    assert EvalKind(Xor, [a, b]) == Lookup(Xor, a, b);
    match a
    case Zero =>
    case One =>
    case D =>
    case DBar =>
    case X =>
  }
}

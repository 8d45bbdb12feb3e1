/**
 * The arithmetic of the Java gate evaluators: a signal value is a Java `int`, and
 * the gates reduce the list of input values with `&`, `|` or `^` from a fixed
 * seed, and complement with `~x & 1`. A Java `int` is modelled as its 32 bits.
 */
module Bits {

  /** A Java `int`, as the 32 bits `&`, `|`, `^` and `~` act on. */
  type Word = bv32

  predicate IsBit(w: Word) {
    w == 0 || w == 1
  }

  predicate AllBits(ws: seq<Word>) {
    forall i :: 0 <= i < |ws| ==> IsBit(ws[i])
  }

  /** `stream().reduce(1, (a, b) -> a & b)`. */
  function AndAll(ws: seq<Word>): Word {
    if ws == [] then 1 else AndAll(ws[..|ws| - 1]) & ws[|ws| - 1]
  }

  /** `stream().reduce(0, (a, b) -> a | b)`. */
  function OrAll(ws: seq<Word>): Word {
    if ws == [] then 0 else OrAll(ws[..|ws| - 1]) | ws[|ws| - 1]
  }

  /** `stream().reduce(0, (a, b) -> a ^ b)`. */
  function XorAll(ws: seq<Word>): Word {
    if ws == [] then 0 else XorAll(ws[..|ws| - 1]) ^ ws[|ws| - 1]
  }

  /** `~w & 1`: whatever `w` holds, only the complement of its lowest bit survives. */
  function Complement(w: Word): (r: Word)
    ensures IsBit(r)
    ensures IsBit(w) ==> r == 1 - w
  {
    !w & 1
  }

  /** How many of the values are 1. */
  function Ones(ws: seq<Word>): nat {
    if ws == [] then 0 else Ones(ws[..|ws| - 1]) + (if ws[|ws| - 1] == 1 then 1 else 0)
  }

  /** On 0/1 inputs, AND is a bit, and it is 1 exactly when every input is 1 (so 1 for no inputs). */
  lemma {:induction false} AndAllOfBits(ws: seq<Word>)
    requires AllBits(ws)
    ensures IsBit(AndAll(ws))
    ensures AndAll(ws) == 1 <==> forall i :: 0 <= i < |ws| ==> ws[i] == 1
  {
    if ws != [] {
      var init := ws[..|ws| - 1];
      AndAllOfBits(init);
      assert forall i :: 0 <= i < |init| ==> init[i] == ws[i];
    }
  }

  /** On 0/1 inputs, OR is a bit, and it is 1 exactly when some input is 1 (so 0 for no inputs). */
  lemma {:induction false} OrAllOfBits(ws: seq<Word>)
    requires AllBits(ws)
    ensures IsBit(OrAll(ws))
    ensures OrAll(ws) == 1 <==> exists i :: 0 <= i < |ws| && ws[i] == 1
  {
    if ws != [] {
      var init := ws[..|ws| - 1];
      OrAllOfBits(init);
      assert forall i :: 0 <= i < |init| ==> init[i] == ws[i];
      if OrAll(ws) == 1 && ws[|ws| - 1] != 1 {
        var i :| 0 <= i < |init| && init[i] == 1;
        assert ws[i] == 1;
      }
    }
  }

  /** On 0/1 inputs, XOR is the parity of the number of ones. */
  lemma {:induction false} XorAllIsParity(ws: seq<Word>)
    requires AllBits(ws)
    ensures XorAll(ws) == if Ones(ws) % 2 == 1 then 1 else 0
  {
    if ws != [] {
      XorAllIsParity(ws[..|ws| - 1]);
    }
  }

  /** On 0/1 inputs NAND is 1 - AND, NOR is 1 - OR and XNOR is 1 - XOR. */
  lemma ComplementsOfBits(ws: seq<Word>)
    requires AllBits(ws)
    ensures Complement(AndAll(ws)) == 1 - AndAll(ws)
    ensures Complement(OrAll(ws)) == 1 - OrAll(ws)
    ensures Complement(XorAll(ws)) == 1 - XorAll(ws)
  {
    AndAllOfBits(ws);
    OrAllOfBits(ws);
    XorAllIsParity(ws);
  }
}

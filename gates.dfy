/** The seven gate functions on known values (mod.ts). `not` and `xor` work on
    the integer encoding with JavaScript's 32-bit bitwise operators; `and` and
    `or` follow the short-circuit operators `&&` and `||`, which return one of
    their operands. */
module Gates {
  import opened Components

  /** The number 0 or 1 a known value stands for, as a 32-bit word. */
  function Code(a: ValidState): (w: bv32)
    ensures w == 0 || w == 1
  {
    if a == One then 1 else 0
  }

  /** The known value of a word that is 0 or 1. */
  function Decode(w: bv32): (a: ValidState)
    requires w == 0 || w == 1
    ensures Code(a) == w
  {
    if w == 1 then One else Zero
  }

  /** `not(a)` is `~a & 1`: it flips the value. */
  function Not(a: ValidState): (r: ValidState)
    ensures r != a
  {
    Decode(!Code(a) & 1)
  }

  /** `and(a, b)` is `a && b`: `a` when `a` is 0, otherwise `b`. */
  function And(a: ValidState, b: ValidState): (r: ValidState)
    ensures r == One <==> a == One && b == One
  {
    if a == Zero then a else b
  }

  function Nand(a: ValidState, b: ValidState): (r: ValidState)
    ensures r == Zero <==> a == One && b == One
  {
    Not(And(a, b))
  }

  /** `or(a, b)` is `a || b`: `a` when `a` is 1, otherwise `b`. */
  function Or(a: ValidState, b: ValidState): (r: ValidState)
    ensures r == Zero <==> a == Zero && b == Zero
  {
    if a == One then a else b
  }

  function Nor(a: ValidState, b: ValidState): (r: ValidState)
    ensures r == One <==> a == Zero && b == Zero
  {
    Not(Or(a, b))
  }

  /** `xor(a, b)` is `a ^ b`. */
  function Xor(a: ValidState, b: ValidState): (r: ValidState)
    ensures r == One <==> a != b
  {
    var w := Code(a) ^ Code(b);
    assert w == 0 || w == 1;
    Decode(w)
  }

  function Xnor(a: ValidState, b: ValidState): (r: ValidState)
    ensures r == One <==> a == b
  {
    Not(Xor(a, b))
  }

  /** The negated gates are `not` of their positive counterparts, and `not` is an involution. */
  lemma NegatedGates(a: ValidState, b: ValidState)
    ensures Nand(a, b) == Not(And(a, b))
    ensures Nor(a, b) == Not(Or(a, b))
    ensures Xnor(a, b) == Not(Xor(a, b))
    ensures Not(Not(a)) == a
  {
  }

  /** All seven gates are symmetric in their operands. */
  lemma GatesCommute(a: ValidState, b: ValidState)
    ensures And(a, b) == And(b, a) && Nand(a, b) == Nand(b, a)
    ensures Or(a, b) == Or(b, a) && Nor(a, b) == Nor(b, a)
    ensures Xor(a, b) == Xor(b, a) && Xnor(a, b) == Xnor(b, a)
  {
  }
}

/**
 * The gate library: one primitive NAND gate, the scalar gates derived from it,
 * their 16-lane lifts and the multi-way selectors built as trees of 2-way ones.
 *
 * Only Nand uses Dafny's native Boolean operators; every other gate is the
 * same composition of gate calls as in the library, and its contract states
 * its truth table against the native operators.
 */
module Logic {
  import opened Encoding

  type Bit = bool

  type Bits2 = s: seq<Bit> | |s| == 2 witness [false, false]
  type Bits3 = s: seq<Bit> | |s| == 3 witness [false, false, false]
  type Bits4 = s: seq<Bit> | |s| == 4 witness [false, false, false, false]
  type Bits8 = s: seq<Bit> | |s| == 8 witness seq(8, _ => false)
  type Bits16 = s: seq<Bit> | |s| == 16 witness seq(16, _ => false)

  // ---------------------------------------------------------------- NAND

  /** The universal gate; the one place native Boolean operators appear. */
  function Nand(a: Bit, b: Bit): (r: Bit)
    ensures r <==> !a || !b
  {
    !(a && b)
  }

  lemma NandTruthTable()
    ensures Nand(false, false) == true
    ensures Nand(false, true) == true
    ensures Nand(true, false) == true
    ensures Nand(true, true) == false
  {
  }

  // ---------------------------------------------------------- scalar gates

  function Not(a: Bit): (r: Bit)
    ensures r == !a
  {
    Nand(a, a)
  }

  function And(a: Bit, b: Bit): (r: Bit)
    ensures r == (a && b)
  {
    Not(Nand(a, b))
  }

  function Or(a: Bit, b: Bit): (r: Bit)
    ensures r == (a || b)
  {
    Nand(Not(a), Not(b))
  }

  function Nor(a: Bit, b: Bit): (r: Bit)
    ensures r == !(a || b)
  {
    Not(Or(a, b))
  }

  /** True exactly when one of the two inputs is true. */
  function Xor(a: Bit, b: Bit): (r: Bit)
    ensures r == (a != b)
  {
    And(Nand(a, b), Or(a, b))
  }

  /** Selects `a` when `sel` is clear and `b` when it is set. */
  function Mux(a: Bit, b: Bit, sel: Bit): (r: Bit)
    ensures r == (if sel then b else a)
  {
    Or(And(Not(sel), a), And(sel, b))
  }

  /** Routes `x` to branch 0 when `sel` is clear, to branch 1 when it is set; the other branch is clear. */
  function DMux(x: Bit, sel: Bit): (r: Bits2)
    ensures r[0] == (if sel then false else x)
    ensures r[1] == (if sel then x else false)
  {
    [And(Not(sel), x), And(sel, x)]
  }

  /** Algebraic laws that follow from the truth tables. */
  lemma GateLaws(a: Bit, b: Bit)
    ensures Not(Not(a)) == a
    ensures And(a, b) == And(b, a) && Or(a, b) == Or(b, a) && Xor(a, b) == Xor(b, a)
    ensures Nor(a, b) == Not(Or(a, b))
    ensures Not(And(a, b)) == Or(Not(a), Not(b))
    ensures Not(Or(a, b)) == And(Not(a), Not(b))
  {
  }

  // ------------------------------------------------------ 16-lane lifts
  // Each lane i of the result is the scalar gate applied to lane i of the inputs.

  function Not16(x: Bits16): (r: Bits16)
    ensures forall i | 0 <= i < 16 :: r[i] == !x[i]
  {
    seq(16, i requires 0 <= i < 16 => Not(x[i]))
  }

  function And16(a: Bits16, b: Bits16): (r: Bits16)
    ensures forall i | 0 <= i < 16 :: r[i] == (a[i] && b[i])
  {
    seq(16, i requires 0 <= i < 16 => And(a[i], b[i]))
  }

  function Or16(a: Bits16, b: Bits16): (r: Bits16)
    ensures forall i | 0 <= i < 16 :: r[i] == (a[i] || b[i])
  {
    seq(16, i requires 0 <= i < 16 => Or(a[i], b[i]))
  }

  /** One select bit fanned out over all sixteen lanes. */
  function Mux16(a: Bits16, b: Bits16, sel: Bit): (r: Bits16)
    ensures r == (if sel then b else a)
  {
    seq(16, i requires 0 <= i < 16 => Mux(a[i], b[i], sel))
  }

  // ------------------------------------------------------ multi-way gates

  /** A balanced tree of ORs over eight inputs: true iff some input is. */
  function Or8Way(x: Bits8): (r: Bit)
    ensures r <==> exists i | 0 <= i < 8 :: x[i]
  {
    Or(Or(Or(x[0], x[1]), Or(x[2], x[3])), Or(Or(x[4], x[5]), Or(x[6], x[7])))
  }

  /** Returns the input numbered by the selector, sel[0] being its low bit. */
  function Mux4Way16(a: Bits16, b: Bits16, c: Bits16, d: Bits16, sel: Bits2): (r: Bits16)
    ensures Decode(sel) < 4 && r == [a, b, c, d][Decode(sel)]
  {
    DecodeTwo(sel);
    Mux16(Mux16(a, b, sel[0]), Mux16(c, d, sel[0]), sel[1])
  }

  /** Returns the input numbered by the selector, sel[0] being its low bit. */
  function Mux8Way16(a: Bits16, b: Bits16, c: Bits16, d: Bits16,
                     e: Bits16, f: Bits16, g: Bits16, h: Bits16, sel: Bits3): (r: Bits16)
    ensures Decode(sel) < 8 && r == [a, b, c, d, e, f, g, h][Decode(sel)]
  {
    DecodeThree(sel);
    DecodeTwo([sel[0], sel[1]]);
    Mux16(Mux4Way16(a, b, c, d, [sel[0], sel[1]]), Mux4Way16(e, f, g, h, [sel[0], sel[1]]), sel[2])
  }

  /** Routes `x` to the branch numbered by the selector; every other branch is clear. */
  function DMux4Way(x: Bit, sel: Bits2): (r: Bits4)
    ensures forall k | 0 <= k < 4 :: r[k] == (x && k == Decode(sel))
  {
    DecodeTwo(sel);
    [
      And(And(Not(sel[0]), Not(sel[1])), x),
      And(And(sel[0], Not(sel[1])), x),
      And(And(Not(sel[0]), sel[1]), x),
      And(And(sel[0], sel[1]), x)
    ]
  }

  /** Routes `x` to the branch numbered by the selector; every other branch is clear. */
  function DMux8Way(x: Bit, sel: Bits3): (r: Bits8)
    ensures forall k | 0 <= k < 8 :: r[k] == (x && k == Decode(sel))
  {
    DecodeThree(sel);
    [
      And(And(And(Not(sel[0]), Not(sel[1])), Not(sel[2])), x),
      And(And(And(sel[0], Not(sel[1])), Not(sel[2])), x),
      And(And(And(Not(sel[0]), sel[1]), Not(sel[2])), x),
      And(And(And(sel[0], sel[1]), Not(sel[2])), x),
      And(And(And(Not(sel[0]), Not(sel[1])), sel[2]), x),
      And(And(And(sel[0], Not(sel[1])), sel[2]), x),
      And(And(And(Not(sel[0]), sel[1]), sel[2]), x),
      And(And(And(sel[0], sel[1]), sel[2]), x)
    ]
  }
}

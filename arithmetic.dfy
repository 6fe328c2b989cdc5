/**
 * Ripple-carry arithmetic built from the gates: half adder, full adder, a
 * 16-bit adder that threads a carry from bit 0 upward and drops the final
 * carry-out, and a 16-bit increment that adds the constant one.
 */
module Arithmetic {
  import opened Encoding
  import opened Logic

  /** Returns (sum, carry) of two bits. */
  function HalfAdder(a: Bit, b: Bit): (r: (Bit, Bit))
    ensures r.0 == (a != b) && r.1 == (a && b)
    ensures BitValue(r.0) + 2 * BitValue(r.1) == BitValue(a) + BitValue(b)
  {
    (Xor(a, b), And(a, b))
  }

  /** Returns (sum, carry) of three bits; the carry is their majority. */
  function FullAdder(a: Bit, b: Bit, c: Bit): (r: (Bit, Bit))
    ensures BitValue(r.0) + 2 * BitValue(r.1) == BitValue(a) + BitValue(b) + BitValue(c)
    ensures r.1 <==> BitValue(a) + BitValue(b) + BitValue(c) >= 2
  {
    (Xor(Xor(a, b), c), Or(Or(And(a, b), And(b, c)), And(c, a)))
  }

  /** The all-clear word. */
  const Zero16: Bits16 := seq(16, _ => false)

  /** The constant operand of Inc16: bit 0 set, every other bit clear. */
  const One16: Bits16 := seq(16, i => i == 0)

  /** The carry into position i of the ripple: clear at 0, then the carry-out of position i - 1. */
  ghost function CarryIn(a: Bits16, b: Bits16, i: nat): Bit
    requires i <= 16
  {
    if i == 0 then false else FullAdder(a[i - 1], b[i - 1], CarryIn(a, b, i - 1)).1
  }

  /** Bit i is the full-adder sum of a[i], b[i] and the carry rippled into position i. */
  ghost function Ripple(a: Bits16, b: Bits16): Bits16
  {
    seq(16, i requires 0 <= i < 16 => FullAdder(a[i], b[i], CarryIn(a, b, i)).0)
  }

  /** Position i of the ripple: its sum bit, and the carry it passes on. */
  lemma RippleStep(a: Bits16, b: Bits16, i: nat)
    requires i < 16
    ensures Ripple(a, b)[i] == FullAdder(a[i], b[i], CarryIn(a, b, i)).0
    ensures CarryIn(a, b, i + 1) == FullAdder(a[i], b[i], CarryIn(a, b, i)).1
  {
  }

  /** One ripple step in integers: the sum bit takes weight p and the new carry weight 2p. */
  lemma PrefixStep(sumSoFar: int, aSoFar: int, bSoFar: int, p: int,
                   x: nat, y: nat, c: nat, s: nat, c': nat)
    requires sumSoFar + c * p == aSoFar + bSoFar
    requires s + 2 * c' == x + y + c
    ensures (sumSoFar + s * p) + c' * (2 * p) == (aSoFar + x * p) + (bSoFar + y * p)
  {
    calc {
      s * p + c' * (2 * p);
      (s + 2 * c') * p;
      (x + y + c) * p;
      x * p + y * p + c * p;
    }
  }

  /** After i positions, the sum bits so far plus the pending carry weigh as much as the two operands' low i bits. */
  lemma {:induction false} RipplePrefix(a: Bits16, b: Bits16, i: nat)
    requires i <= 16
    ensures Decode(Ripple(a, b)[..i]) + BitValue(CarryIn(a, b, i)) * Pow2(i)
            == Decode(a[..i]) + Decode(b[..i])
  {
    if i > 0 {
      var j := i - 1;
      RipplePrefix(a, b, j);
      var r := Ripple(a, b);
      var out := FullAdder(a[j], b[j], CarryIn(a, b, j));
      assert r[j] == out.0 && CarryIn(a, b, i) == out.1;
      DecodePrefix(r, j);
      DecodePrefix(a, j);
      DecodePrefix(b, j);
      PrefixStep(Decode(r[..j]), Decode(a[..j]), Decode(b[..j]), Pow2(j),
                 BitValue(a[j]), BitValue(b[j]), BitValue(CarryIn(a, b, j)),
                 BitValue(out.0), BitValue(out.1));
    }
  }

  /** A 16-bit value plus a carry of weight 2^16 leaves that value as the remainder. */
  lemma DropCarry(low: nat, carry: nat, total: nat)
    requires low < 0x10000 && carry <= 1
    requires low + carry * 0x10000 == total
    ensures low == total % 0x10000
  {
  }

  /** The ripple computes the sum of the operands modulo 2^16, dropping the carry-out. */
  lemma RippleSum(a: Bits16, b: Bits16)
    ensures Decode(Ripple(a, b)) == (Decode(a) + Decode(b)) % 0x10000
  {
    RipplePrefix(a, b, 16);
    Pow2Sixteen();
    WholePrefix(Ripple(a, b));
    WholePrefix(a);
    WholePrefix(b);
    DropCarry(Decode(Ripple(a, b)), BitValue(CarryIn(a, b, 16)), Decode(a) + Decode(b));
  }

  /** The ripple is the one word whose value is the sum modulo 2^16. */
  lemma RippleDetermined(a: Bits16, b: Bits16, c: Bits16)
    requires Decode(c) == (Decode(a) + Decode(b)) % 0x10000
    ensures Ripple(a, b) == c
  {
    RippleSum(a, b);
    DecodeInjective(Ripple(a, b), c);
  }

  /** Adding the all-clear word changes nothing. */
  lemma RippleAddZero(a: Bits16)
    ensures Ripple(a, Zero16) == a
  {
    DecodeAllClear(Zero16);
    Pow2Sixteen();
    RippleDetermined(a, Zero16, a);
  }

  lemma RippleCommutes(a: Bits16, b: Bits16)
    ensures Ripple(a, b) == Ripple(b, a)
  {
    RippleSum(b, a);
    RippleDetermined(a, b, Ripple(b, a));
  }

  /** On encoded numbers the ripple is addition modulo 2^16. */
  lemma RippleEncoded(u: nat, v: nat)
    requires u < 0x10000 && v < 0x10000
    ensures Ripple(Encode(u, 16), Encode(v, 16)) == Encode((u + v) % 0x10000, 16)
  {
    Pow2Sixteen();
    var w := (u + v) % 0x10000;
    DecodeEncode(u, 16);
    DecodeEncode(v, 16);
    DecodeEncode(w, 16);
    RippleDetermined(Encode(u, 16), Encode(v, 16), Encode(w, 16));
  }

  /** 0x8000 + 0x8000 overflows: the carry-out is dropped and the result is all clear. */
  lemma RippleOverflowDropped(a: Bits16, b: Bits16)
    requires Decode(a) == 0x8000 && Decode(b) == 0x8000
    ensures Ripple(a, b) == Zero16
  {
    DecodeAllClear(Zero16);
    RippleDetermined(a, b, Zero16);
  }

  /** The constant operand of the increment stands for one. */
  lemma OneDecodes()
    ensures Decode(One16) == 1
  {
    DecodeAllClear(One16[1..]);
  }

  /** Incrementing 0xFFFF wraps round to the all-clear word. */
  lemma IncrementWraps(a: Bits16)
    requires Decode(a) == 0xFFFF
    ensures Ripple(a, One16) == Zero16
  {
    OneDecodes();
    DecodeAllClear(Zero16);
    RippleDetermined(a, One16, Zero16);
  }

  /** The 16-bit adder: a carry threaded from bit 0 upward, the final carry-out dropped. */
  method Add16(a: Bits16, b: Bits16) returns (r: Bits16)
    ensures r == Ripple(a, b)
    ensures Decode(r) == (Decode(a) + Decode(b)) % 0x10000
  {
    var carry := false;
    var sum: seq<Bit> := [];
    for i := 0 to 16
      invariant |sum| == i
      invariant carry == CarryIn(a, b, i)
      invariant sum == Ripple(a, b)[..i]
    {
      var (s, c) := FullAdder(a[i], b[i], carry);
      RippleStep(a, b, i);
      PrefixExtend(Ripple(a, b), i);
      sum := sum + [s];
      carry := c;
    }
    r := sum;
    RippleSum(a, b);
  }

  /** The 16-bit increment: Add16 with the constant one. */
  method Inc16(a: Bits16) returns (r: Bits16)
    ensures r == Ripple(a, One16)
    ensures Decode(r) == (Decode(a) + 1) % 0x10000
  {
    r := Add16(a, One16);
    OneDecodes();
  }
}

/**
 * Little-endian conversion between bit sequences and natural numbers.
 *
 * The gate library itself never converts to integers; this is the boundary
 * convention its callers use (index 0 is the least significant bit). It is
 * what the multi-way selectors' selector value and the adder's
 * "a + b (mod 0x10000)" are stated in.
 */
module Encoding {

  /** The integer a single bit stands for. */
  function BitValue(b: bool): nat
  {
    if b then 1 else 0
  }

  ghost function Pow2(n: nat): (p: nat)
    ensures p >= 1
  {
    if n == 0 then 1 else 2 * Pow2(n - 1)
  }

  lemma Pow2Sixteen()
    ensures Pow2(16) == 0x10000
  {
    assert Pow2(2) == 4;
    assert Pow2(4) == 16;
    assert Pow2(6) == 64;
    assert Pow2(8) == 256;
    assert Pow2(10) == 1024;
    assert Pow2(12) == 4096;
    assert Pow2(14) == 16384;
  }

  /** The number a bit sequence stands for, s[0] being the least significant bit. */
  ghost function Decode(s: seq<bool>): (v: nat)
    ensures v < Pow2(|s|)
  {
    if s == [] then 0 else BitValue(s[0]) + 2 * Decode(s[1..])
  }

  /** The `width` low-order bits of `n`, least significant first. */
  ghost function Encode(n: nat, width: nat): (s: seq<bool>)
    ensures |s| == width
  {
    if width == 0 then [] else [n % 2 == 1] + Encode(n / 2, width - 1)
  }

  lemma {:induction false} DecodeEncode(n: nat, width: nat)
    requires n < Pow2(width)
    ensures Decode(Encode(n, width)) == n
  {
    if width > 0 {
      var s := Encode(n, width);
      assert s[1..] == Encode(n / 2, width - 1);
      DecodeEncode(n / 2, width - 1);
    }
  }

  lemma {:induction false} EncodeDecode(s: seq<bool>)
    ensures Encode(Decode(s), |s|) == s
  {
    if s != [] {
      var v := Decode(s);
      assert v % 2 == 1 <==> s[0];
      assert v / 2 == Decode(s[1..]);
      EncodeDecode(s[1..]);
      assert Encode(v, |s|) == [s[0]] + s[1..];
    }
  }

  /** Two bit sequences of one width that stand for the same number are equal. */
  lemma DecodeInjective(s: seq<bool>, t: seq<bool>)
    requires |s| == |t| && Decode(s) == Decode(t)
    ensures s == t
  {
    EncodeDecode(s);
    EncodeDecode(t);
  }

  /** Appending a bit on the most significant end adds its weight. */
  lemma {:induction false} DecodeAppend(s: seq<bool>, b: bool)
    ensures Decode(s + [b]) == Decode(s) + BitValue(b) * Pow2(|s|)
  {
    if s == [] {
      assert [] + [b] == [b];
    } else {
      assert (s + [b])[1..] == s[1..] + [b];
      DecodeAppend(s[1..], b);
      if b {
        assert Decode(s + [b]) == Decode(s) + Pow2(|s|);
      } else {
        assert Decode(s + [b]) == Decode(s);
      }
    }
  }

  /** A prefix one longer is the prefix followed by the next element. */
  lemma PrefixExtend<T>(s: seq<T>, i: nat)
    requires i < |s|
    ensures s[..i + 1] == s[..i] + [s[i]]
  {
  }

  /** The prefix of full length is the whole sequence. */
  lemma WholePrefix<T>(s: seq<T>)
    ensures s[..|s|] == s
  {
  }

  /** Extending a prefix by one bit adds that bit's weight. */
  lemma DecodePrefix(s: seq<bool>, i: nat)
    requires i < |s|
    ensures Decode(s[..i + 1]) == Decode(s[..i]) + BitValue(s[i]) * Pow2(i)
  {
    PrefixExtend(s, i);
    DecodeAppend(s[..i], s[i]);
  }

  /** A sequence of clear bits stands for zero. */
  lemma {:induction false} DecodeAllClear(s: seq<bool>)
    requires forall i | 0 <= i < |s| :: !s[i]
    ensures Decode(s) == 0
  {
    if s != [] {
      DecodeAllClear(s[1..]);
    }
  }

  /** The value of a two-bit selector: sel[0] + 2 * sel[1]. */
  lemma DecodeTwo(s: seq<bool>)
    requires |s| == 2
    ensures Decode(s) == BitValue(s[0]) + 2 * BitValue(s[1])
  {
    assert s[1..][1..] == [];
  }

  /** The value of a three-bit selector: sel[0] + 2 * sel[1] + 4 * sel[2]. */
  lemma DecodeThree(s: seq<bool>)
    requires |s| == 3
    ensures Decode(s) == BitValue(s[0]) + 2 * BitValue(s[1]) + 4 * BitValue(s[2])
  {
    DecodeTwo(s[1..]);
  }
}

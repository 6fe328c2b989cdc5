# NAND gate library and ripple-carry adder, in Dafny

This project models the two bottom layers of a NAND-based hardware-construction
library:

- the gate layer, in `logic.dfy` (module `Logic`);
- the arithmetic layer, in `arithmetic.dfy` (module `Arithmetic`).

The gate layer has one primitive gate, `Nand`. The scalar gates `Not`, `And`,
`Or`, `Nor`, `Xor`, `Mux` and `DMux` are built from it. These are lifted to
16-lane words (`Not16`, `And16`, `Or16`, `Mux16`). The fan-out selectors
`Or8Way`, `Mux4Way16`, `Mux8Way16`, `DMux4Way` and `DMux8Way` sit on top.

The arithmetic layer has `HalfAdder` and `FullAdder`, the 16-bit ripple-carry
adder `Add16`, and the increment `Inc16`.

`encoding.dfy` (module `Encoding`) holds the little-endian conversion between
bit sequences and numbers. Bit 0 is the least significant bit. The contracts
of the selectors and the adder are stated in these terms.

How the model follows the code:

- A `Bit` is a `bool`. Fixed-size Rust arrays `[Bit; n]` become subset types
  of `seq<bool>` of exactly that length (`Bits2` … `Bits16`), so a word of the
  wrong width cannot be built.
- Every gate is a function whose body is the same composition of gate calls
  as the library's. Only `Nand` uses native Boolean operators. Each gate's
  `ensures` states its truth table against native `!`, `&&`, `||` and `!=`.
- The library writes the 16-lane lifts as sixteen-element array literals. The
  model writes them as `seq(16, i => Gate(x[i]))`, which is the same value,
  lane for lane. The solver handles the comprehension cheaply; a literal of
  sixteen Boolean calls makes it split cases exponentially. `Inc16`'s constant
  operand is written the same way (`One16`).
- `Or8Way`, `Mux4Way16`, `Mux8Way16`, `DMux4Way` and `DMux8Way` keep the
  library's tree shapes and literal branch lists.
- The doc comments of `half_adder` and `full_adder` write the result as
  `[sum, carry]`; the signatures return the tuple `(Bit, Bit)`, and
  `HalfAdder` and `FullAdder` follow the signatures.
- `add16` threads a mutable carry through an iterator `scan`. `Add16` is a
  method with a `for` loop over positions 0 to 15, a carry variable and a
  growing output sequence. Its invariants tie both to the ghost specification
  `Ripple`. In `Ripple`, bit i is the full-adder sum of `a[i]`, `b[i]` and
  `CarryIn(a, b, i)`, the carry rippled into position i from a clear carry at
  position 0. What the library promises about the adder, "a + b (mod
  0x10000)", is proved of `Ripple` (`RippleSum`).
- `inc16` calls `add16`, so `Inc16` is a method that calls `Add16` with the
  constant one.

## Model

| member | source | states |
|---|---|---|
| `Logic.Nand` | src/logic.rs:5-7 | the primitive gate: true exactly when at least one input is false; its four-row truth table is stated in `NandTruthTable` |
| `Logic.NandTruthTable` | src/logic.rs:5-7 | NAND's four-row truth table: false exactly when both inputs are true |
| `Logic.Not` | src/logic.rs:10-12 | NOT built as `Nand(a, a)` equals native `!a` |
| `Logic.And` | src/logic.rs:15-17 | AND built from NAND and NOT equals native `a && b` |
| `Logic.Or` | src/logic.rs:20-22 | OR built from NAND and NOT equals the native disjunction of a and b |
| `Logic.Nor` | src/logic.rs:25-27 | NOR equals the negation of the native disjunction of a and b |
| `Logic.Xor` | src/logic.rs:30-32 | XOR is true exactly when one of the inputs is true |
| `Logic.Mux` | src/logic.rs:35-37 | returns `a` when `sel` is clear and `b` when it is set |
| `Logic.DMux` | src/logic.rs:40-45 | puts the input on branch `sel`; the other branch is false |
| `Logic.GateLaws` | src/logic.rs:10-32 | double negation, commutativity of AND, OR and XOR, NOR as NOT of OR, and both De Morgan laws for the NAND-built gates |
| `Logic.Not16` | src/logic.rs:48-67 | lane i of the result is the negation of lane i, for all 16 lanes |
| `Logic.And16` | src/logic.rs:70-89 | lane i of the result is the AND of the inputs' lanes i |
| `Logic.Or16` | src/logic.rs:92-111 | lane i of the result is the OR of the inputs' lanes i |
| `Logic.Mux16` | src/logic.rs:114-133 | one select bit picks the whole of `a` (clear) or of `b` (set) |
| `Logic.Or8Way` | src/logic.rs:136-138 | true iff some input bit is true, so all-clear gives false and any set bit gives true |
| `Logic.Mux4Way16` | src/logic.rs:141-143 | returns input number k of a, b, c, d, where k = sel[0] + 2·sel[1] |
| `Logic.Mux8Way16` | src/logic.rs:146-158 | returns input number k of a … h, where k = sel[0] + 2·sel[1] + 4·sel[2] |
| `Logic.DMux4Way` | src/logic.rs:161-168 | branch k carries the input when the selector's value is k and is false otherwise |
| `Logic.DMux8Way` | src/logic.rs:171-182 | branch k of eight carries the input when the three-bit selector's value is k and is false otherwise |
| `Encoding.Decode` | src/arithmetic.rs:109-117 | the little-endian value of a bit sequence is below 2 to the power of its length |
| `Encoding.DecodeEncode` | src/arithmetic.rs:112-116 | decoding the low `width` bits of a number below 2^width gives the number back |
| `Encoding.EncodeDecode` | src/arithmetic.rs:112-116 | encoding a sequence's value at its own width gives the sequence back |
| `Encoding.DecodeInjective` | src/arithmetic.rs:112-118 | two words of one width with the same value are equal |
| `Arithmetic.HalfAdder` | src/arithmetic.rs:7-9 | sum is XOR and carry is AND of the inputs; sum + 2·carry = a + b |
| `Arithmetic.FullAdder` | src/arithmetic.rs:16-21 | sum + 2·carry = a + b + c; the carry is set iff at least two inputs are set |
| `Arithmetic.RippleStep` | src/arithmetic.rs:30-35 | bit i is the full-adder sum of a[i], b[i] and the carry into position i; that adder's carry is the carry into position i + 1 |
| `Arithmetic.RipplePrefix` | src/arithmetic.rs:30-35 | after i positions, the value of the sum bits plus carry·2^i equals the sum of the two operands' low i bits |
| `Arithmetic.RippleSum` | src/arithmetic.rs:23-29 | the ripple's value is (a + b) mod 2^16: the carry-out is dropped |
| `Arithmetic.RippleDetermined` | src/arithmetic.rs:26-28 | the ripple is the only 16-bit word whose value is (a + b) mod 2^16 |
| `Arithmetic.RippleAddZero` | src/arithmetic.rs:26 | adding the all-clear word returns the other operand unchanged |
| `Arithmetic.RippleCommutes` | src/arithmetic.rs:26 | the adder is commutative |
| `Arithmetic.RippleEncoded` | src/arithmetic.rs:103-120 | for all u, v below 2^16, adding their 16-bit encodings gives the encoding of (u + v) mod 2^16 |
| `Arithmetic.RippleOverflowDropped` | src/arithmetic.rs:104-108 | 0x8000 + 0x8000 gives the all-clear word: the overflow is silently discarded |
| `Arithmetic.Add16` | src/arithmetic.rs:29-40 | the loop returns exactly 16 bits, each the ripple's bit at that position, and their value is (a + b) mod 2^16 |
| `Arithmetic.OneDecodes` | src/arithmetic.rs:48-53 | the increment's constant operand has value 1 |
| `Arithmetic.Inc16` | src/arithmetic.rs:47-54 | the result is the ripple of `a` and one, with value (a + 1) mod 2^16 |
| `Arithmetic.IncrementWraps` | src/arithmetic.rs:122-137 | incrementing 0xFFFF wraps round to the all-clear word |

## Left out

- The `#[cfg(test)]` modules of both files are not modelled as code. They are the source of the proved properties. Their u16-to-bits loops correspond to `Encode` and `Decode`.
- The fixed test vectors of `add16` (0+0, 1+1, 0+2, 3+2, 0x8000+0x8000) and `inc16` (0, 1, 2, 3, 0xFFFF) are not stated one by one. `RippleEncoded` covers every pair of operands. The two overflow cases have their own lemmas. Dafny unfolds `Encode` on literal arguments too expensively for per-vector lemmas.
- The Rust iterator and allocation steps in `add16` (`zip`, `scan`, `collect`, `as_slice`, `try_into`, `unwrap`) become the loop. The only fact kept from them is that the result has exactly 16 bits, so the `unwrap` cannot fail.
- Gate counts are not modelled. The tree shapes of `or8way` and the multi-way multiplexers appear in the function bodies but are not stated as properties.
- Nothing in the two files involves I/O, concurrency, floating point or foreign calls.

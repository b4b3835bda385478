/** Go's fixed-width unsigned integers as subsets of `int`.
    Every wrap-around of the source (`byte` arithmetic mod 256, `uint16`
    arithmetic mod 65536) is written out with `%`; Dafny's `%` is Euclidean,
    so `(a - b) % 0x100` is Go's wrapping subtraction on bytes. */
module Words {

  type byte = x: int | 0 <= x < 0x100
  type u16 = x: int | 0 <= x < 0x1_0000
  type u32 = x: int | 0 <= x < 0x1_0000_0000

  /** A 4-bit field of an opcode, such as a register index. */
  type nibble = x: int | 0 <= x < 0x10

  /** Go `a + b` on `byte`. */
  function Add8(a: byte, b: byte): byte { (a + b) % 0x100 }

  /** Go `a - b` on `byte`. */
  function Sub8(a: byte, b: byte): byte { (a - b) % 0x100 }

  /** Go `a + b` on `uint16`. */
  function Add16(a: u16, b: u16): u16 { (a + b) % 0x1_0000 }

  /** Go `a - b` on `uint16`. */
  function Sub16(a: u16, b: u16): u16 { (a - b) % 0x1_0000 }

  /** Go `a & b` on `byte`. */
  function And8(a: byte, b: byte): byte { ((a as bv8) & (b as bv8)) as int }

  /** Go `a | b` on `byte`. */
  function Or8(a: byte, b: byte): byte { ((a as bv8) | (b as bv8)) as int }

  /** Go `a ^ b` on `byte`. */
  function Xor8(a: byte, b: byte): byte { ((a as bv8) ^ (b as bv8)) as int }

  /** Go `p ^ 1` on `uint32`: flips the lowest bit. */
  function Flip(p: u32): u32 { if p % 2 == 0 then p + 1 else p - 1 }

  /** Go `b & (0x80 >> col) != 0`: bit `col` of `b`, counting from the most
      significant bit. */
  predicate BitSet(b: byte, col: nat)
    requires col < 8
  {
    (b as bv8) & ((0x80 as bv8) >> col) != 0
  }

  datatype Option<T> = None | Some(value: T)
}

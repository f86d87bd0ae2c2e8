/**
 * Fixed-width machine integers of the interpreter: `uint8_t` and `uint16_t`,
 * their truncating conversions, and the bitwise operators the opcodes use.
 *
 * Shifts and masks on unsigned values are division and remainder by powers
 * of two (`x >> k == x / 2^k`, `x & (2^k - 1) == x % 2^k`), which is how the
 * rest of the model writes them.  AND, OR and XOR are defined bit by bit.
 */
module Words {

  type u8 = x: int | 0 <= x < 0x100
  type u16 = x: int | 0 <= x < 0x1_0000

  /**
   * The conversion `uint8_t(x)` for the sums and differences the interpreter
   * forms, which are less than one period away from the byte range.
   */
  function Wrap8(x: int): u8
    requires -0x100 <= x < 0x200
  {
    if x < 0 then x + 0x100 else if x < 0x100 then x else x - 0x100
  }

  /** The conversion `uint16_t(x)`, likewise for values within one period of the word range. */
  function Wrap16(x: int): u16
    requires -0x1_0000 <= x < 0x2_0000
  {
    if x < 0 then x + 0x1_0000 else if x < 0x1_0000 then x else x - 0x1_0000
  }

  /** Both conversions keep the value modulo 2^8 and 2^16. */
  lemma WrapIsModulo(x: int)
    ensures -0x100 <= x < 0x200 ==> Wrap8(x) == x % 0x100
    ensures -0x1_0000 <= x < 0x2_0000 ==> Wrap16(x) == x % 0x1_0000
  {
  }

  function Pow2(n: nat): (r: nat)
    ensures r >= 1
  {
    if n == 0 then 1 else 2 * Pow2(n - 1)
  }

  datatype BitOp = And | Or | Xor

  function BitOf(op: BitOp, a: bool, b: bool): bool
  {
    match op
    case And => a && b
    case Or => a || b
    case Xor => a != b
  }

  /** `op` applied to the low `width` bits of `a` and `b`, least significant bit first. */
  function Bitwise(op: BitOp, a: nat, b: nat, width: nat): (r: nat)
    ensures r < Pow2(width)
  {
    if width == 0 then 0
    else 2 * Bitwise(op, a / 2, b / 2, width - 1) + (if BitOf(op, a % 2 == 1, b % 2 == 1) then 1 else 0)
  }

  /** Bit k of a, least significant first: `(a >> k) & 1`. */
  function Bit(a: nat, k: nat): (r: nat)
    ensures r < 2
  {
    if k == 0 then a % 2 else Bit(a / 2, k - 1)
  }

  /** Zero has no bit set. */
  lemma {:induction false} BitOfZero(k: nat)
    ensures Bit(0, k) == 0
  {
    if k > 0 {
      BitOfZero(k - 1);
    }
  }

  /**
   * Bit k of the result is `op` applied to bit k of each operand, for every k
   * below the width; the bits from the width up are clear.
   */
  lemma {:induction false} BitwiseBit(op: BitOp, a: nat, b: nat, width: nat, k: nat)
    ensures Bit(Bitwise(op, a, b, width), k) == if k < width && BitOf(op, Bit(a, k) == 1, Bit(b, k) == 1) then 1 else 0
    decreases width
  {
    if width == 0 {
      BitOfZero(k);
    } else if k > 0 {
      assert Bitwise(op, a, b, width) / 2 == Bitwise(op, a / 2, b / 2, width - 1);
      BitwiseBit(op, a / 2, b / 2, width - 1, k - 1);
    }
  }

  /** `a & b` on bytes. */
  function And8(a: u8, b: u8): u8
  {
    Bitwise(And, a, b, 8)
  }

  /** `a | b` on bytes. */
  function Or8(a: u8, b: u8): u8
  {
    Bitwise(Or, a, b, 8)
  }

  /** `a ^ b` on bytes. */
  function Xor8(a: u8, b: u8): u8
  {
    Bitwise(Xor, a, b, 8)
  }

  /**
   * Masking with `m` keeps only bits of `m`: masking the result again changes
   * nothing, and the result never exceeds the mask.
   */
  lemma {:induction false} AndIsSubmask(a: nat, m: nat, width: nat)
    ensures Bitwise(And, Bitwise(And, a, m, width), m, width) == Bitwise(And, a, m, width)
    ensures Bitwise(And, a, m, width) <= m
  {
    if width > 0 {
      AndIsSubmask(a / 2, m / 2, width - 1);
      var r := Bitwise(And, a, m, width);
      var rest := Bitwise(And, a / 2, m / 2, width - 1);
      assert r / 2 == rest && r % 2 == (if a % 2 == 1 && m % 2 == 1 then 1 else 0);
    }
  }
}

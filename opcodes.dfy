/**
 * The fields of a 16-bit CHIP-8 opcode, as `src/cpu.cpp` splits it
 * (`first_hex` .. `fourth_hex`, `opcode & 0x00FF`, `opcode & 0x0FFF`), and the
 * big-endian word built from two memory bytes (`fetch_opcode`, `stack_top`).
 */
module Opcodes {
  import opened Words

  /** `opcode >> 12`: the instruction family. */
  function FirstHex(op: u16): (r: u8)
    ensures r < 16
  {
    op / 0x1000
  }

  /** `(opcode & 0x0FFF) >> 8`: the X register index. */
  function SecondHex(op: u16): (r: u8)
    ensures r < 16
  {
    op % 0x1000 / 0x100
  }

  /** `(opcode & 0x00FF) >> 4`: the Y register index. */
  function ThirdHex(op: u16): (r: u8)
    ensures r < 16
  {
    op % 0x100 / 0x10
  }

  /** `opcode & 0x000F`: the N nibble. */
  function FourthHex(op: u16): (r: u8)
    ensures r < 16
  {
    op % 0x10
  }

  /** `opcode & 0x00FF`: the NN byte. */
  function Nn(op: u16): u8
  {
    op % 0x100
  }

  /** `opcode & 0x0FFF`: the NNN address. */
  function Nnn(op: u16): u16
  {
    op % 0x1000
  }

  /** `(uint16_t(hi) << 8) | uint16_t(lo)`: the big-endian word of two bytes. */
  function Word(hi: u8, lo: u8): u16
  {
    hi * 0x100 + lo
  }

  /** The word at `addr` and `addr + 1`, high byte first. */
  function ReadWord(mem: seq<u8>, addr: u16): (w: u16)
    requires addr as int + 1 < |mem|
    ensures w / 0x100 == mem[addr] && w % 0x100 == mem[addr + 1]
  {
    WordBytes(mem[addr], mem[addr + 1]);
    Word(mem[addr], mem[addr + 1])
  }

  /** A word splits back into the two bytes it was built from. */
  lemma WordBytes(hi: u8, lo: u8)
    ensures Word(hi, lo) / 0x100 == hi && Word(hi, lo) % 0x100 == lo
  {
  }

  /** Words built from different byte pairs differ. */
  lemma WordInjective(hi1: u8, lo1: u8, hi2: u8, lo2: u8)
    requires Word(hi1, lo1) == Word(hi2, lo2)
    ensures hi1 == hi2 && lo1 == lo2
  {
    WordBytes(hi1, lo1);
    WordBytes(hi2, lo2);
  }

  /**
   * The four nibbles recombine to the opcode
   * (`a << 12 | b << 8 | c << 4 | d`, the bit fields being disjoint), and
   * NN and NNN are the low two and three nibbles.
   */
  lemma Recombine(op: u16)
    ensures op == FirstHex(op) * 0x1000 + SecondHex(op) * 0x100 + ThirdHex(op) * 0x10 + FourthHex(op)
    ensures Nnn(op) == SecondHex(op) * 0x100 + ThirdHex(op) * 0x10 + FourthHex(op)
    ensures Nn(op) == ThirdHex(op) * 0x10 + FourthHex(op)
  {
  }

  /** An opcode fetched from bytes `hi`, `lo` has the nibbles of `hi` first, then those of `lo`. */
  lemma WordNibbles(hi: u8, lo: u8)
    ensures FirstHex(Word(hi, lo)) == hi / 16 && SecondHex(Word(hi, lo)) == hi % 16
    ensures ThirdHex(Word(hi, lo)) == lo / 16 && FourthHex(Word(hi, lo)) == lo % 16
    ensures Nn(Word(hi, lo)) == lo
  {
    var w, a, b, c, d := Word(hi, lo), hi / 16, hi % 16, lo / 16, lo % 16;
    var rest := b * 0x100 + lo;
    QuotientRemainder(w, 0x1000, a, rest);
    QuotientRemainder(rest, 0x100, b, lo);
    QuotientRemainder(w, 0x100, hi, lo);
    QuotientRemainder(lo, 0x10, c, d);
    QuotientRemainder(w, 0x10, hi * 0x10 + c, d);
  }

  /** Division and remainder are determined by any decomposition n = q * d + r with 0 <= r < d. */
  lemma QuotientRemainder(n: int, d: int, q: int, r: int)
    requires d > 0 && n == q * d + r && 0 <= r < d
    ensures n / d == q && n % d == r
  {
    var q0, r0 := n / d, n % d;
    assert (q - q0) * d == r0 - r;
    if q0 < q {
      MultipleAtLeast(q - q0, d);
    } else if q0 > q {
      MultipleAtLeast(q0 - q, d);
    }
  }

  lemma MultipleAtLeast(k: int, d: int)
    requires k >= 1 && d > 0
    ensures k * d >= d
  {
  }

  /** Splitting into nibbles loses nothing: opcodes with the same four nibbles are equal. */
  lemma NibblesDetermineOpcode(a: u16, b: u16)
    requires FirstHex(a) == FirstHex(b) && SecondHex(a) == SecondHex(b)
    requires ThirdHex(a) == ThirdHex(b) && FourthHex(a) == FourthHex(b)
    ensures a == b
  {
    Recombine(a);
    Recombine(b);
  }
}

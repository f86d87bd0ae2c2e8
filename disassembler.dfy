/**
 * The opcode classifier of `src/disassembler.cpp`: `Impl::type` renders an
 * opcode as four upper-case hex digits, `Impl::comp` matches that text
 * against a pattern in which `n`, `x` and `y` are wildcards, and
 * `Impl::execute` tries the 35 patterns in order and names the first one
 * that matches, with its operands, or reports NOP.  The printing is not
 * modelled: the result is a tagged value.
 */
module Disassembler {
  import opened Words
  import opened Opcodes

  const HEX_DIGITS := "0123456789ABCDEF"

  /** An upper-case hexadecimal digit. */
  predicate IsHexDigit(c: char)
  {
    '0' <= c <= '9' || 'A' <= c <= 'F'
  }

  /** One `case` of the `switch` in `Impl::type`: a nibble as a hex digit. */
  function HexChar(n: u8): (c: char)
    requires n < 16
    ensures IsHexDigit(c)
  {
    HEX_DIGITS[n]
  }

  /** The value of a hex digit (0 for any other character). */
  function HexValue(c: char): (n: u8)
    ensures n < 16
  {
    if '0' <= c <= '9' then c as int - '0' as int
    else if 'A' <= c <= 'F' then c as int - 'A' as int + 10
    else 0
  }

  /** Reading back the digit a nibble renders as gives the nibble. */
  lemma HexCharRoundTrip(n: u8)
    requires n < 16
    ensures HexValue(HexChar(n)) == n
  {
  }

  /** Every hex digit is the rendering of its value. */
  lemma HexValueRoundTrip(c: char)
    requires IsHexDigit(c)
    ensures HexChar(HexValue(c)) == c
  {
  }

  /** The text `Impl::type` returns: nibble i is character i, most significant first. */
  function Render(op: u16): (t: string)
    ensures |t| == 4
    ensures forall i :: 0 <= i < 4 ==> IsHexDigit(t[i])
  {
    [HexChar(FirstHex(op)), HexChar(SecondHex(op)), HexChar(ThirdHex(op)), HexChar(FourthHex(op))]
  }

  /** The nibble `Impl::type` extracts in round i: `uint8_t(opcode >> 4 * (3 - i)) & 0x000F`. */
  function ShiftedNibble(op: u16, i: nat): u8
    requires i < 4
  {
    op / Pow2(4 * (3 - i)) % 0x100 % 0x10
  }

  lemma ShiftedNibbleIsField(op: u16, i: nat)
    requires i < 4
    ensures ShiftedNibble(op, i) < 16
    ensures HexChar(ShiftedNibble(op, i)) == Render(op)[i]
  {
    if i == 0 {
      NibbleShift12(op);
    } else if i == 1 {
      NibbleShift8(op);
    } else if i == 2 {
      NibbleShift4(op);
    } else {
      NibbleShift0(op);
    }
  }

  lemma NibbleShift12(op: u16)
    ensures ShiftedNibble(op, 0) == FirstHex(op)
  {
    assert Pow2(12) == 0x1000;
    var a := op / 0x1000;
    QuotientRemainder(a, 0x100, 0, a);
    QuotientRemainder(a, 0x10, 0, a);
  }

  lemma NibbleShift8(op: u16)
    ensures ShiftedNibble(op, 1) == SecondHex(op)
  {
    assert Pow2(8) == 0x100;
    Recombine(op);
    var a: int, b: int, c: int, d: int := FirstHex(op), SecondHex(op), ThirdHex(op), FourthHex(op);
    assert op / 0x100 == a * 0x10 + b;
  }

  lemma NibbleShift4(op: u16)
    ensures ShiftedNibble(op, 2) == ThirdHex(op)
  {
    assert Pow2(4) == 0x10;
    Recombine(op);
    var a: int, b: int, c: int, d: int := FirstHex(op), SecondHex(op), ThirdHex(op), FourthHex(op);
    assert op / 0x10 == (a * 0x10 + b) * 0x10 + c;
  }

  lemma NibbleShift0(op: u16)
    ensures ShiftedNibble(op, 3) == FourthHex(op)
  {
    assert Pow2(0) == 1;
    assert op / 1 == op;
    Recombine(op);
    QuotientRemainder(op % 0x100, 0x10, ThirdHex(op), FourthHex(op));
  }

  /** `Impl::type`: builds the four-character rendering one nibble at a time. */
  method Type(op: u16) returns (ret: string)
    ensures ret == Render(op)
  {
    ret := "";
    for i := 0 to 4
      invariant ret == Render(op)[..i]
    {
      var shift := 4 * (3 - i);
      var nibble := op / Pow2(shift) % 0x100 % 0x10;
      ShiftedNibbleIsField(op, i);
      ret := ret + [HexChar(nibble)];
    }
  }

  /** Opcodes with the same rendering are equal: `Impl::type` loses nothing. */
  lemma RenderInjective(a: u16, b: u16)
    requires Render(a) == Render(b)
    ensures a == b
  {
    assert Render(a)[0] == Render(b)[0] && Render(a)[1] == Render(b)[1];
    assert Render(a)[2] == Render(b)[2] && Render(a)[3] == Render(b)[3];
    HexCharRoundTrip(FirstHex(a));
    HexCharRoundTrip(FirstHex(b));
    HexCharRoundTrip(SecondHex(a));
    HexCharRoundTrip(SecondHex(b));
    HexCharRoundTrip(ThirdHex(a));
    HexCharRoundTrip(ThirdHex(b));
    HexCharRoundTrip(FourthHex(a));
    HexCharRoundTrip(FourthHex(b));
    NibblesDetermineOpcode(a, b);
  }

  /** The pattern characters `Impl::comp` lets stand for any digit. */
  predicate IsWildcard(c: char)
  {
    c == 'n' || c == 'x' || c == 'y'
  }

  /** Position i of text `a` fits pattern character `p`. */
  predicate Fits(a: char, p: char)
  {
    IsWildcard(p) || a == p
  }

  /** What `Impl::comp` decides: every one of the first four positions fits. */
  predicate Matches(a: string, p: string)
    requires |a| >= 4 && |p| >= 4
  {
    Fits(a[0], p[0]) && Fits(a[1], p[1]) && Fits(a[2], p[2]) && Fits(a[3], p[3])
  }

  /** `Impl::comp`: scans the four positions and stops at the first mismatch. */
  method Comp(a: string, b: string) returns (r: bool)
    requires |a| >= 4 && |b| >= 4
    ensures r == Matches(a, b)
    ensures r <==> forall i :: 0 <= i < 4 ==> IsWildcard(b[i]) || a[i] == b[i]
  {
    for i := 0 to 4
      invariant forall j :: 0 <= j < i ==> Fits(a[j], b[j])
    {
      if !IsWildcard(b[i]) {
        if a[i] != b[i] {
          return false;
        }
      }
    }
    return true;
  }

  /** A pattern without wildcards matches exactly the text equal to it. */
  lemma LiteralPattern(a: string, p: string)
    requires |a| == 4 && |p| == 4
    requires forall i :: 0 <= i < 4 ==> !IsWildcard(p[i])
    ensures Matches(a, p) <==> a == p
  {
    if Matches(a, p) {
      assert !IsWildcard(p[0]) && !IsWildcard(p[1]) && !IsWildcard(p[2]) && !IsWildcard(p[3]);
      assert forall i :: 0 <= i < 4 ==> a[i] == p[i];
    }
  }

  /** Instruction names of the Cowgod CHIP-8 Technical Reference, section 3.1. */
  datatype Mnemonic =
    | CLS | RET | SYS | JP | CALL | SE | SNE | LD | ADD | OR | AND | XOR
    | SUB | SHR | SUBN | SHL | RND | DRW | SKP | SKNP

  /**
   * What `Impl::execute` prints, as a value: the pattern that matched, its
   * mnemonic and its operand texts in printing order, or NOP.
   */
  datatype Listing =
    | Instruction(form: string, mnemonic: Mnemonic, operands: seq<string>)
    | NOP

  /** `Impl::execute` without the printing: the first of its 35 patterns that matches. */
  function Classify(op: u16): Listing
  {
    ClassifyText(Render(op))
  }

  /** The if/else chain of `Impl::execute`, on the text of an opcode. */
  function ClassifyText(t: string): Listing
    requires |t| == 4
  {
    var nibble, addr, byte := t[3..4], t[1..4], t[2..4];
    var vx, vy := ['V', t[1]], ['V', t[2]];
    if Matches(t, "00E0") then Instruction("00E0", CLS, [])
    else if Matches(t, "00EE") then Instruction("00EE", RET, [])
    else if Matches(t, "0nnn") then Instruction("0nnn", SYS, [addr])
    else if Matches(t, "1nnn") then Instruction("1nnn", JP, [addr])
    else if Matches(t, "2nnn") then Instruction("2nnn", CALL, [addr])
    else if Matches(t, "3xnn") then Instruction("3xnn", SE, [vx, byte])
    else if Matches(t, "4xnn") then Instruction("4xnn", SNE, [vx, byte])
    else if Matches(t, "5xy0") then Instruction("5xy0", SE, [vx, vy])
    else if Matches(t, "6xnn") then Instruction("6xnn", LD, [vx, byte])
    else if Matches(t, "7xnn") then Instruction("7xnn", ADD, [vx, byte])
    else if Matches(t, "8xy0") then Instruction("8xy0", LD, [vx, vy])
    else if Matches(t, "8xy1") then Instruction("8xy1", OR, [vx, vy])
    else if Matches(t, "8xy2") then Instruction("8xy2", AND, [vx, vy])
    else if Matches(t, "8xy3") then Instruction("8xy3", XOR, [vx, vy])
    else if Matches(t, "8xy4") then Instruction("8xy4", ADD, [vx, vy])
    else if Matches(t, "8xy5") then Instruction("8xy5", SUB, [vx, vy])
    else if Matches(t, "8xy6") then Instruction("8xy6", SHR, [vx, vy])
    else if Matches(t, "8xy7") then Instruction("8xy7", SUBN, [vx, vy])
    else if Matches(t, "8xyE") then Instruction("8xyE", SHL, [vx, vy])
    else if Matches(t, "9xy0") then Instruction("9xy0", SNE, [vx, vy])
    else if Matches(t, "Annn") then Instruction("Annn", LD, ["I", addr])
    else if Matches(t, "Bnnn") then Instruction("Bnnn", JP, ["V0", addr])
    else if Matches(t, "Cxnn") then Instruction("Cxnn", RND, [vx, byte])
    else if Matches(t, "Dxyn") then Instruction("Dxyn", DRW, [vx, vy, nibble])
    else if Matches(t, "Ex9E") then Instruction("Ex9E", SKP, [vx])
    else if Matches(t, "ExA1") then Instruction("ExA1", SKNP, [vx])
    else if Matches(t, "Fx07") then Instruction("Fx07", LD, [vx, "DT"])
    else if Matches(t, "Fx0A") then Instruction("Fx0A", LD, [vx, "K"])
    else if Matches(t, "Fx15") then Instruction("Fx15", LD, ["DT", vx])
    else if Matches(t, "Fx18") then Instruction("Fx18", LD, ["ST", vx])
    else if Matches(t, "Fx1E") then Instruction("Fx1E", ADD, ["I", vx])
    else if Matches(t, "Fx29") then Instruction("Fx29", LD, ["F", vx])
    else if Matches(t, "Fx33") then Instruction("Fx33", LD, ["B", vx])
    else if Matches(t, "Fx55") then Instruction("Fx55", LD, ["[I]", vx])
    else if Matches(t, "Fx65") then Instruction("Fx65", LD, [vx, "[I]"])
    else NOP
  }

  /** `width` hex digits of `v`, most significant first. */
  function HexText(v: nat, width: nat): (t: string)
    ensures |t| == width
  {
    if width == 0 then "" else HexText(v / 16, width - 1) + [HexChar(v % 16)]
  }

  /** The name of data register `n`, as the Cowgod reference writes it. */
  function RegisterName(n: u8): string
    requires n < 16
  {
    ['V', HexChar(n)]
  }

  /**
   * The instruction table of the Cowgod reference, section 3.1, read by
   * nibbles instead of by text patterns: family `f`, register fields `x`
   * and `y`, last nibble `n`.  An independent statement of what
   * `Impl::execute` reports for each opcode.
   */
  function Decode(f: u8, x: u8, y: u8, n: u8): Listing
    requires f < 16 && x < 16 && y < 16 && n < 16
  {
    var vx, vy := RegisterName(x), RegisterName(y);
    var addr, byte, nibble := [HexChar(x), HexChar(y), HexChar(n)], [HexChar(y), HexChar(n)], [HexChar(n)];
    var nn := y * 0x10 + n;
    match f
    case 0x0 =>
      if x == 0 && nn == 0xE0 then Instruction("00E0", CLS, [])
      else if x == 0 && nn == 0xEE then Instruction("00EE", RET, [])
      else Instruction("0nnn", SYS, [addr])
    case 0x1 => Instruction("1nnn", JP, [addr])
    case 0x2 => Instruction("2nnn", CALL, [addr])
    case 0x3 => Instruction("3xnn", SE, [vx, byte])
    case 0x4 => Instruction("4xnn", SNE, [vx, byte])
    case 0x5 => if n == 0 then Instruction("5xy0", SE, [vx, vy]) else NOP
    case 0x6 => Instruction("6xnn", LD, [vx, byte])
    case 0x7 => Instruction("7xnn", ADD, [vx, byte])
    case 0x8 => (
      match n
      case 0x0 => Instruction("8xy0", LD, [vx, vy])
      case 0x1 => Instruction("8xy1", OR, [vx, vy])
      case 0x2 => Instruction("8xy2", AND, [vx, vy])
      case 0x3 => Instruction("8xy3", XOR, [vx, vy])
      case 0x4 => Instruction("8xy4", ADD, [vx, vy])
      case 0x5 => Instruction("8xy5", SUB, [vx, vy])
      case 0x6 => Instruction("8xy6", SHR, [vx, vy])
      case 0x7 => Instruction("8xy7", SUBN, [vx, vy])
      case 0xE => Instruction("8xyE", SHL, [vx, vy])
      case _ => NOP)
    case 0x9 => if n == 0 then Instruction("9xy0", SNE, [vx, vy]) else NOP
    case 0xA => Instruction("Annn", LD, ["I", addr])
    case 0xB => Instruction("Bnnn", JP, ["V0", addr])
    case 0xC => Instruction("Cxnn", RND, [vx, byte])
    case 0xD => Instruction("Dxyn", DRW, [vx, vy, nibble])
    case 0xE =>
      if nn == 0x9E then Instruction("Ex9E", SKP, [vx])
      else if nn == 0xA1 then Instruction("ExA1", SKNP, [vx])
      else NOP
    case _ => (
      match nn
      case 0x07 => Instruction("Fx07", LD, [vx, "DT"])
      case 0x0A => Instruction("Fx0A", LD, [vx, "K"])
      case 0x15 => Instruction("Fx15", LD, ["DT", vx])
      case 0x18 => Instruction("Fx18", LD, ["ST", vx])
      case 0x1E => Instruction("Fx1E", ADD, ["I", vx])
      case 0x29 => Instruction("Fx29", LD, ["F", vx])
      case 0x33 => Instruction("Fx33", LD, ["B", vx])
      case 0x55 => Instruction("Fx55", LD, ["[I]", vx])
      case 0x65 => Instruction("Fx65", LD, [vx, "[I]"])
      case _ => NOP)
  }

  /**
   * The operand texts `Impl::execute` cuts out of the rendering are the
   * fields of the opcode: characters 1-3 the address NNN, 2-3 the byte NN,
   * 3 the nibble N, and "V" + character 1 or 2 the registers X and Y.
   */
  lemma OperandText(op: u16)
    ensures Render(op)[1..4] == HexText(Nnn(op), 3)
    ensures Render(op)[2..4] == HexText(Nn(op), 2)
    ensures Render(op)[3..4] == HexText(FourthHex(op), 1)
    ensures ['V', Render(op)[1]] == RegisterName(SecondHex(op))
    ensures ['V', Render(op)[2]] == RegisterName(ThirdHex(op))
  {
    AddressText(op);
    ByteText(op);
    NibbleText(op);
    RegisterTexts(op);
  }

  lemma NibbleText(op: u16)
    ensures Render(op)[3..4] == HexText(FourthHex(op), 1)
  {
    QuotientRemainder(FourthHex(op), 16, 0, FourthHex(op));
    assert HexText(FourthHex(op), 1) == [HexChar(FourthHex(op))];
  }

  lemma RegisterTexts(op: u16)
    ensures ['V', Render(op)[1]] == RegisterName(SecondHex(op))
    ensures ['V', Render(op)[2]] == RegisterName(ThirdHex(op))
  {
  }

  lemma AddressText(op: u16)
    ensures Render(op)[1..4] == HexText(Nnn(op), 3)
  {
    AddressDigits(op);
    HexTextThree(Nnn(op));
  }

  lemma ByteText(op: u16)
    ensures Render(op)[2..4] == HexText(Nn(op), 2)
  {
    AddressDigits(op);
    HexTextTwo(Nn(op));
  }

  lemma AddressDigits(op: u16)
    ensures Nnn(op) / 16 / 16 % 16 == SecondHex(op)
    ensures Nnn(op) / 16 % 16 == ThirdHex(op) && Nnn(op) % 16 == FourthHex(op)
    ensures Nn(op) / 16 % 16 == ThirdHex(op) && Nn(op) % 16 == FourthHex(op)
  {
    Recombine(op);
    var b: int, c: int, d: int := SecondHex(op), ThirdHex(op), FourthHex(op);
    assert Nnn(op) / 16 == b * 16 + c;
  }

  lemma HexTextThree(v: nat)
    ensures HexText(v, 3) == [HexChar(v / 16 / 16 % 16), HexChar(v / 16 % 16), HexChar(v % 16)]
  {
    assert HexText(v / 16 / 16, 1) == [HexChar(v / 16 / 16 % 16)];
  }

  lemma HexTextTwo(v: nat)
    ensures HexText(v, 2) == [HexChar(v / 16 % 16), HexChar(v % 16)]
  {
    assert HexText(v / 16, 1) == [HexChar(v / 16 % 16)];
  }

  /** The text chain and the nibble table agree on every opcode. */
  lemma ClassifyIsDecode(op: u16)
    ensures Classify(op) == Decode(FirstHex(op), SecondHex(op), ThirdHex(op), FourthHex(op))
  {
    DigitsAgree(FirstHex(op), SecondHex(op), ThirdHex(op), FourthHex(op));
  }

  /** The first-match chain, on the rendering of four nibbles, is the nibble table. */
  lemma DigitsAgree(f: u8, x: u8, y: u8, n: u8)
    requires f < 16 && x < 16 && y < 16 && n < 16
    ensures ClassifyText([HexChar(f), HexChar(x), HexChar(y), HexChar(n)]) == Decode(f, x, y, n)
  {
    if f < 8 {
      AgreeBelowEight(f, x, y, n);
    } else if f < 0xE {
      AgreeEightToD(f, x, y, n);
    } else if f == 0xE {
      AgreeE(x, y, n);
    } else {
      AgreeF(x, y, n);
    }
  }

  /** Families 0 to 7: only family 0 looks at X, and only 0 and 5 at the low nibbles. */
  lemma AgreeBelowEight(f: u8, x: u8, y: u8, n: u8)
    requires f < 8 && x < 16 && y < 16 && n < 16
    ensures ClassifyText([HexChar(f), HexChar(x), HexChar(y), HexChar(n)]) == Decode(f, x, y, n)
  {
    var t := [HexChar(f), HexChar(x), HexChar(y), HexChar(n)];
    PatternTests(t);
    assert t[1..4] == [HexChar(x), HexChar(y), HexChar(n)];
    assert t[2..4] == [HexChar(y), HexChar(n)] && t[3..4] == [HexChar(n)];
    DigitIs(f);
    DigitIs(x);
    DigitIs(y);
    DigitIs(n);
  }

  /** Families 8 to D: those that look further look at the last nibble only. */
  lemma AgreeEightToD(f: u8, x: u8, y: u8, n: u8)
    requires 8 <= f < 0xE && x < 16 && y < 16 && n < 16
    ensures ClassifyText([HexChar(f), HexChar(x), HexChar(y), HexChar(n)]) == Decode(f, x, y, n)
  {
    var t := [HexChar(f), HexChar(x), HexChar(y), HexChar(n)];
    PatternTests(t);
    assert t[1..4] == [HexChar(x), HexChar(y), HexChar(n)];
    assert t[2..4] == [HexChar(y), HexChar(n)] && t[3..4] == [HexChar(n)];
    DigitIs(f);
    DigitIs(n);
  }

  /** Family E is told apart by its low byte. */
  lemma AgreeE(x: u8, y: u8, n: u8)
    requires x < 16 && y < 16 && n < 16
    ensures ClassifyText([HexChar(0xE), HexChar(x), HexChar(y), HexChar(n)]) == Decode(0xE, x, y, n)
  {
    var t := [HexChar(0xE), HexChar(x), HexChar(y), HexChar(n)];
    PatternTests(t);
    assert t[1..4] == [HexChar(x), HexChar(y), HexChar(n)];
    assert t[2..4] == [HexChar(y), HexChar(n)] && t[3..4] == [HexChar(n)];
    HexCharRoundTrip(y);
    HexCharRoundTrip(n);
    assert (HexChar(y) == '9') == (y == 0x9) && (HexChar(y) == 'A') == (y == 0xA);
    assert (HexChar(n) == 'E') == (n == 0xE) && (HexChar(n) == '1') == (n == 0x1);
  }

  /** So is family F. */
  lemma AgreeF(x: u8, y: u8, n: u8)
    requires x < 16 && y < 16 && n < 16
    ensures ClassifyText([HexChar(0xF), HexChar(x), HexChar(y), HexChar(n)]) == Decode(0xF, x, y, n)
  {
    var t := [HexChar(0xF), HexChar(x), HexChar(y), HexChar(n)];
    PatternTests(t);
    assert t[1..4] == [HexChar(x), HexChar(y), HexChar(n)];
    assert t[2..4] == [HexChar(y), HexChar(n)] && t[3..4] == [HexChar(n)];
    DigitIs(y);
    DigitIs(n);
  }

  /** Which digit a nibble renders as, one literal at a time. */
  lemma DigitIs(n: u8)
    requires n < 16
    ensures (HexChar(n) == '0') == (n == 0x0) && (HexChar(n) == '1') == (n == 0x1)
    ensures (HexChar(n) == '2') == (n == 0x2) && (HexChar(n) == '3') == (n == 0x3)
    ensures (HexChar(n) == '4') == (n == 0x4) && (HexChar(n) == '5') == (n == 0x5)
    ensures (HexChar(n) == '6') == (n == 0x6) && (HexChar(n) == '7') == (n == 0x7)
    ensures (HexChar(n) == '8') == (n == 0x8) && (HexChar(n) == '9') == (n == 0x9)
    ensures (HexChar(n) == 'A') == (n == 0xA) && (HexChar(n) == 'B') == (n == 0xB)
    ensures (HexChar(n) == 'C') == (n == 0xC) && (HexChar(n) == 'D') == (n == 0xD)
    ensures (HexChar(n) == 'E') == (n == 0xE) && (HexChar(n) == 'F') == (n == 0xF)
  {
    HexCharRoundTrip(n);
  }

  /** Each of the 35 patterns, with its wildcards dropped. */
  lemma PatternTests(t: string)
    requires |t| == 4
    ensures Matches(t, "00E0") <==> t[0] == '0' && t[1] == '0' && t[2] == 'E' && t[3] == '0'
    ensures Matches(t, "00EE") <==> t[0] == '0' && t[1] == '0' && t[2] == 'E' && t[3] == 'E'
    ensures Matches(t, "0nnn") <==> t[0] == '0'
    ensures Matches(t, "1nnn") <==> t[0] == '1'
    ensures Matches(t, "2nnn") <==> t[0] == '2'
    ensures Matches(t, "3xnn") <==> t[0] == '3'
    ensures Matches(t, "4xnn") <==> t[0] == '4'
    ensures Matches(t, "5xy0") <==> t[0] == '5' && t[3] == '0'
    ensures Matches(t, "6xnn") <==> t[0] == '6'
    ensures Matches(t, "7xnn") <==> t[0] == '7'
    ensures Matches(t, "8xy0") <==> t[0] == '8' && t[3] == '0'
    ensures Matches(t, "8xy1") <==> t[0] == '8' && t[3] == '1'
    ensures Matches(t, "8xy2") <==> t[0] == '8' && t[3] == '2'
    ensures Matches(t, "8xy3") <==> t[0] == '8' && t[3] == '3'
    ensures Matches(t, "8xy4") <==> t[0] == '8' && t[3] == '4'
    ensures Matches(t, "8xy5") <==> t[0] == '8' && t[3] == '5'
    ensures Matches(t, "8xy6") <==> t[0] == '8' && t[3] == '6'
    ensures Matches(t, "8xy7") <==> t[0] == '8' && t[3] == '7'
    ensures Matches(t, "8xyE") <==> t[0] == '8' && t[3] == 'E'
    ensures Matches(t, "9xy0") <==> t[0] == '9' && t[3] == '0'
    ensures Matches(t, "Annn") <==> t[0] == 'A'
    ensures Matches(t, "Bnnn") <==> t[0] == 'B'
    ensures Matches(t, "Cxnn") <==> t[0] == 'C'
    ensures Matches(t, "Dxyn") <==> t[0] == 'D'
    ensures Matches(t, "Ex9E") <==> t[0] == 'E' && t[2] == '9' && t[3] == 'E'
    ensures Matches(t, "ExA1") <==> t[0] == 'E' && t[2] == 'A' && t[3] == '1'
    ensures Matches(t, "Fx07") <==> t[0] == 'F' && t[2] == '0' && t[3] == '7'
    ensures Matches(t, "Fx0A") <==> t[0] == 'F' && t[2] == '0' && t[3] == 'A'
    ensures Matches(t, "Fx15") <==> t[0] == 'F' && t[2] == '1' && t[3] == '5'
    ensures Matches(t, "Fx18") <==> t[0] == 'F' && t[2] == '1' && t[3] == '8'
    ensures Matches(t, "Fx1E") <==> t[0] == 'F' && t[2] == '1' && t[3] == 'E'
    ensures Matches(t, "Fx29") <==> t[0] == 'F' && t[2] == '2' && t[3] == '9'
    ensures Matches(t, "Fx33") <==> t[0] == 'F' && t[2] == '3' && t[3] == '3'
    ensures Matches(t, "Fx55") <==> t[0] == 'F' && t[2] == '5' && t[3] == '5'
    ensures Matches(t, "Fx65") <==> t[0] == 'F' && t[2] == '6' && t[3] == '5'
  {
  }

  /** The 35 patterns of `Impl::execute`, in the order the chain tries them. */
  const PATTERNS: seq<string> := [
    "00E0", "00EE", "0nnn", "1nnn", "2nnn", "3xnn", "4xnn", "5xy0", "6xnn", "7xnn",
    "8xy0", "8xy1", "8xy2", "8xy3", "8xy4", "8xy5", "8xy6", "8xy7", "8xyE", "9xy0",
    "Annn", "Bnnn", "Cxnn", "Dxyn", "Ex9E", "ExA1", "Fx07", "Fx0A", "Fx15", "Fx18",
    "Fx1E", "Fx29", "Fx33", "Fx55", "Fx65"]

  /** The patterns up to family 7, by position. */
  lemma PatternsUpToSeven()
    ensures |PATTERNS| == 35
    ensures PATTERNS[0] == "00E0"
    ensures PATTERNS[1] == "00EE"
    ensures PATTERNS[2] == "0nnn"
    ensures PATTERNS[3] == "1nnn"
    ensures PATTERNS[4] == "2nnn"
    ensures PATTERNS[5] == "3xnn"
    ensures PATTERNS[6] == "4xnn"
    ensures PATTERNS[7] == "5xy0"
    ensures PATTERNS[8] == "6xnn"
    ensures PATTERNS[9] == "7xnn"
  {
  }

  /** The patterns of family 8, by position. */
  lemma PatternsOfEight()
    ensures PATTERNS[10] == "8xy0"
    ensures PATTERNS[11] == "8xy1"
    ensures PATTERNS[12] == "8xy2"
    ensures PATTERNS[13] == "8xy3"
    ensures PATTERNS[14] == "8xy4"
    ensures PATTERNS[15] == "8xy5"
    ensures PATTERNS[16] == "8xy6"
    ensures PATTERNS[17] == "8xy7"
    ensures PATTERNS[18] == "8xyE"
  {
  }

  /** The patterns of families 9 to D, by position. */
  lemma PatternsNineToD()
    ensures PATTERNS[19] == "9xy0"
    ensures PATTERNS[20] == "Annn"
    ensures PATTERNS[21] == "Bnnn"
    ensures PATTERNS[22] == "Cxnn"
    ensures PATTERNS[23] == "Dxyn"
  {
  }

  /** The patterns of family E, by position. */
  lemma PatternsOfE()
    ensures PATTERNS[24] == "Ex9E"
    ensures PATTERNS[25] == "ExA1"
  {
  }

  /** The patterns of family F, by position. */
  lemma PatternsOfF()
    ensures PATTERNS[26] == "Fx07"
    ensures PATTERNS[27] == "Fx0A"
    ensures PATTERNS[28] == "Fx15"
    ensures PATTERNS[29] == "Fx18"
    ensures PATTERNS[30] == "Fx1E"
    ensures PATTERNS[31] == "Fx29"
    ensures PATTERNS[32] == "Fx33"
    ensures PATTERNS[33] == "Fx55"
    ensures PATTERNS[34] == "Fx65"
  {
  }

  /** The chain reports NOP exactly when none of the patterns matches. */
  lemma NopWhenNothingMatches(t: string)
    requires |t| == 4
    ensures ClassifyText(t) == NOP <==> forall k :: 0 <= k < |PATTERNS| ==> !Matches(t, PATTERNS[k])
  {
    if ClassifyText(t) == NOP {
      NothingMatchesInNop(t);
    } else {
      SomethingMatchesInInstruction(t);
    }
  }

  lemma NothingMatchesInNop(t: string)
    requires |t| == 4 && ClassifyText(t) == NOP
    ensures forall k :: 0 <= k < |PATTERNS| ==> !Matches(t, PATTERNS[k])
  {
    PatternTests(t);
    PatternsUpToSeven();
    PatternsOfEight();
    PatternsNineToD();
    PatternsOfE();
    PatternsOfF();
  }

  lemma SomethingMatchesInInstruction(t: string)
    requires |t| == 4 && ClassifyText(t) != NOP
    ensures exists k :: 0 <= k < |PATTERNS| && Matches(t, PATTERNS[k])
  {
    PatternsUpToSeven();
    PatternsOfEight();
    PatternsNineToD();
    PatternsOfE();
    PatternsOfF();
  }

  /** The chain reports the first pattern that matches, whatever later ones match too. */
  lemma FirstMatchWins(t: string, k: nat)
    requires |t| == 4 && k < |PATTERNS|
    requires Matches(t, PATTERNS[k])
    requires forall j :: 0 <= j < k ==> !Matches(t, PATTERNS[j])
    ensures ClassifyText(t).Instruction? && ClassifyText(t).form == PATTERNS[k]
  {
    if k < 19 {
      FirstMatchBeforeNine(t, k);
    } else {
      FirstMatchFromNine(t, k);
    }
  }

  lemma FirstMatchBeforeNine(t: string, k: nat)
    requires |t| == 4 && k < 19
    requires Matches(t, PATTERNS[k])
    requires forall j :: 0 <= j < k ==> !Matches(t, PATTERNS[j])
    ensures ClassifyText(t).Instruction? && ClassifyText(t).form == PATTERNS[k]
  {
    PatternsUpToSeven();
    PatternsOfEight();
  }

  lemma FirstMatchFromNine(t: string, k: nat)
    requires |t| == 4 && 19 <= k < |PATTERNS|
    requires Matches(t, PATTERNS[k])
    requires forall j :: 0 <= j < k ==> !Matches(t, PATTERNS[j])
    ensures ClassifyText(t).Instruction? && ClassifyText(t).form == PATTERNS[k]
  {
    PatternsUpToSeven();
    PatternsOfEight();
    PatternsNineToD();
    PatternsOfE();
    PatternsOfF();
  }

  /** An instruction is reported under a pattern that matches the opcode's text. */
  lemma ReportedPatternMatches(t: string)
    requires |t| == 4 && ClassifyText(t).Instruction?
    ensures |ClassifyText(t).form| == 4 && Matches(t, ClassifyText(t).form)
  {
  }

  /**
   * 00E0 is CLS and 00EE is RET although `0nnn` matches them too; every
   * other opcode of family 0 is SYS.
   */
  lemma ZeroFamily(op: u16)
    requires FirstHex(op) == 0
    ensures Matches(Render(op), "0nnn")
    ensures Classify(op).Instruction?
    ensures Classify(op).mnemonic == (if op == 0x00E0 then CLS else if op == 0x00EE then RET else SYS)
  {
    ClassifyIsDecode(op);
    Recombine(op);
  }

  /** Families 1, 2, 3, 4, 6, 7, A, B, C and D are told apart by their first nibble alone. */
  lemma FirstNibbleDecides(a: u16, b: u16)
    requires FirstHex(a) == FirstHex(b)
    requires FirstHex(a) in {0x1, 0x2, 0x3, 0x4, 0x6, 0x7, 0xA, 0xB, 0xC, 0xD}
    ensures Classify(a).Instruction? && Classify(b).Instruction?
    ensures Classify(a).form == Classify(b).form && Classify(a).mnemonic == Classify(b).mnemonic
  {
    ClassifyIsDecode(a);
    ClassifyIsDecode(b);
  }

  /** The opcodes no pattern names: the unused forms of families 5, 8, 9, E and F. */
  predicate Undefined(op: u16)
  {
    var f, n, nn := FirstHex(op), FourthHex(op), Nn(op);
    || ((f == 0x5 || f == 0x9) && n != 0)
    || (f == 0x8 && n !in {0x0, 0x1, 0x2, 0x3, 0x4, 0x5, 0x6, 0x7, 0xE})
    || (f == 0xE && nn != 0x9E && nn != 0xA1)
    || (f == 0xF && nn !in {0x07, 0x0A, 0x15, 0x18, 0x1E, 0x29, 0x33, 0x55, 0x65})
  }

  /** `Impl::execute` prints NOP for exactly the undefined opcodes. */
  lemma NopExactlyUndefined(op: u16)
    ensures Classify(op) == NOP <==> Undefined(op)
  {
    ClassifyIsDecode(op);
    Recombine(op);
    DecodeNop(FirstHex(op), SecondHex(op), ThirdHex(op), FourthHex(op));
  }

  lemma DecodeNop(f: u8, x: u8, y: u8, n: u8)
    requires f < 16 && x < 16 && y < 16 && n < 16
    ensures Decode(f, x, y, n) == NOP <==>
      || ((f == 0x5 || f == 0x9) && n != 0)
      || (f == 0x8 && n !in {0x0, 0x1, 0x2, 0x3, 0x4, 0x5, 0x6, 0x7, 0xE})
      || (f == 0xE && y * 0x10 + n != 0x9E && y * 0x10 + n != 0xA1)
      || (f == 0xF && y * 0x10 + n !in {0x07, 0x0A, 0x15, 0x18, 0x1E, 0x29, 0x33, 0x55, 0x65})
  {
  }
}

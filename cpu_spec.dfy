/**
 * Value-level semantics of the CHIP-8 interpreter in `src/cpu.cpp`: the
 * machine state, the flag-writing arithmetic helpers, the call stack kept
 * inside memory, and one `execute_opcode` step.  The class in module
 * Interpreter runs the same operations in place and is proved against these
 * functions.
 */
module CpuSpec {
  import opened Words
  import opened Opcodes

  const MEMORY_SIZE := 4096
  const REGISTER_COUNT := 16
  /** VF, the register the arithmetic helpers write their flag to. */
  const FLAG := 0xF
  const PROGRAM_START := 512
  const STACK_START := 0x0EA0

  /** The fields `memory`, `data_reg`, `address_reg`, `program_counter`, `stack_pointer`. */
  datatype State = State(
    memory: seq<u8>,
    dataReg: seq<u8>,
    addressReg: u16,
    programCounter: u16,
    stackPointer: u16)

  predicate WellFormed(s: State)
  {
    |s.memory| == MEMORY_SIZE && |s.dataReg| == REGISTER_COUNT
  }

  /**
   * The state `open_rom` leaves before its first step: memory cleared, the ROM
   * bytes from address 512 on, PC = 512, SP = 0x0EA0.  The registers and I are
   * never initialised by the source, so they are whatever the caller supplies.
   */
  function Boot(rom: seq<u8>, registers: seq<u8>, address: u16): (s: State)
    requires |rom| <= MEMORY_SIZE - PROGRAM_START && |registers| == REGISTER_COUNT
    ensures WellFormed(s)
    ensures s.programCounter == PROGRAM_START && s.stackPointer == STACK_START
    ensures forall k :: 0 <= k < PROGRAM_START ==> s.memory[k] == 0
    ensures forall k :: 0 <= k < |rom| ==> s.memory[PROGRAM_START + k] == rom[k]
    ensures forall k :: PROGRAM_START + |rom| <= k < MEMORY_SIZE ==> s.memory[k] == 0
  {
    var zeros := seq(MEMORY_SIZE, _ => 0);
    State(zeros[..PROGRAM_START] + rom + zeros[PROGRAM_START + |rom|..], registers, address, PROGRAM_START, STACK_START)
  }

  // ---------------------------------------------------------------- helpers

  /** A helper's return value together with the value it stored in VF. */
  datatype Flagged = Flagged(value: u8, flag: u8)

  /** `add`: the 8-bit sum, with the carry out of bit 7 as the flag. */
  function Add(a: u8, b: u8): (r: Flagged)
    ensures r.value == (a + b) % 0x100
    ensures r.flag == (if a + b > 0xFF then 1 else 0)
    ensures r.flag * 0x100 + r.value == a + b
  {
    var sum := a + b;
    Flagged(sum % 0x100, sum / 0x100)
  }

  /**
   * `subtract`: the flag is "no borrow" (a >= b).  When a < b the source
   * returns b - a, the absolute difference, not a wrapped a - b.
   */
  function Subtract(a: u8, b: u8): (r: Flagged)
    ensures r.flag == 1 <==> a >= b
    ensures r.flag <= 1
    ensures r.value + (if a >= b then b else a) == (if a >= b then a else b)
  {
    if a >= b then Flagged(a - b, 1) else Flagged(b - a, 0)
  }

  /** `lshift`: bit 7 goes to the flag, the rest moves up one place. */
  function ShiftLeft(n: u8): (r: Flagged)
    ensures r.value == (2 * n) % 0x100
    ensures r.flag == 1 <==> n >= 0x80
    ensures r.flag * 0x100 + r.value == 2 * n
  {
    Flagged((n % 0x80) * 2, n / 0x80)
  }

  /** `rshift`: bit 0 goes to the flag, the rest moves down one place. */
  function ShiftRight(n: u8): (r: Flagged)
    ensures r.flag < 2 && r.flag == n % 2
    ensures 2 * r.value + r.flag == n
  {
    Flagged(n / 2, n % 2)
  }

  /**
   * `data_reg[X] = helper(...)`: the helper stores its flag in VF first, and
   * the destination store happens after it returns.
   */
  function StoreFlagged(v: seq<u8>, x: u8, f: Flagged): (r: seq<u8>)
    requires x < 16 && |v| == REGISTER_COUNT
    ensures |r| == REGISTER_COUNT && r[x] == f.value
    ensures x != FLAG ==> r[FLAG] == f.flag
    ensures forall i :: 0 <= i < REGISTER_COUNT && i != x && i != FLAG ==> r[i] == v[i]
  {
    v[FLAG := f.flag][x := f.value]
  }

  /** The `8xyN` group. Forms other than N = 0..7 and E leave the registers alone. */
  function Arithmetic(v: seq<u8>, x: u8, y: u8, n: u8): (r: seq<u8>)
    requires x < 16 && y < 16 && |v| == REGISTER_COUNT
    ensures |r| == REGISTER_COUNT
  {
    if n == 0x0 then v[x := v[y]]
    else if n == 0x1 then v[x := Or8(v[x], v[y])]
    else if n == 0x2 then v[x := And8(v[x], v[y])]
    else if n == 0x3 then v[x := Xor8(v[x], v[y])]
    else if n == 0x4 then StoreFlagged(v, x, Add(v[x], v[y]))
    else if n == 0x5 then StoreFlagged(v, x, Subtract(v[x], v[y]))
    else if n == 0x6 then StoreFlagged(v, x, ShiftRight(v[x]))
    else if n == 0x7 then StoreFlagged(v, x, Subtract(v[y], v[x]))
    else if n == 0xE then StoreFlagged(v, x, ShiftLeft(v[x]))
    else v
  }

  // ------------------------------------------------------------------ stack

  /** The bytes `stack_push` writes must lie in memory. */
  predicate CanPush(s: State)
  {
    Wrap16(s.stackPointer + 2) + 1 < |s.memory|
  }

  /** `stack_top`: the word at SP. */
  function Top(s: State): u16
    requires s.stackPointer as int + 1 < |s.memory|
  {
    ReadWord(s.memory, s.stackPointer)
  }

  /** `stack_pop`: SP goes down by two, modulo 2^16. */
  function Pop(s: State): State
  {
    s.(stackPointer := Wrap16(s.stackPointer - 2))
  }

  /** `stack_push`: SP goes up by two first, then the high and low bytes are stored there. */
  function Push(s: State, address: u16): (r: State)
    requires CanPush(s)
    ensures |r.memory| == |s.memory|
  {
    var sp := Wrap16(s.stackPointer + 2);
    s.(stackPointer := sp, memory := s.memory[sp := address / 0x100][sp + 1 := address % 0x100])
  }

  /** `call_subroutine`: push the address of the next instruction, then jump. */
  function Call(s: State, address: u16): State
    requires CanPush(s) && s.programCounter as int + 2 < 0x1_0000
  {
    Push(s, s.programCounter + 2).(programCounter := address)
  }

  /** `return_from_call`: jump to the top of the stack, then pop. */
  function Return(s: State): State
    requires s.stackPointer as int + 1 < |s.memory|
  {
    Pop(s.(programCounter := Top(s)))
  }

  /** `skip_next_opcode`: PC + 4. */
  function Skip(s: State): State
    requires s.programCounter as int + 4 < 0x1_0000
  {
    s.(programCounter := s.programCounter + 4)
  }

  // ------------------------------------------------------------------- step

  /** `fetch_opcode`: the word at PC. */
  function Fetch(s: State): u16
    requires s.programCounter as int + 1 < |s.memory|
  {
    ReadWord(s.memory, s.programCounter)
  }

  /** The stack accesses `op` makes stay inside memory. */
  predicate StackFits(s: State, op: u16)
  {
    && (op == 0x00EE ==> s.stackPointer as int + 1 < |s.memory|)
    && (FirstHex(op) == 0x2 ==> CanPush(s))
  }

  /** Every memory access of one `execute_opcode` call is in range. */
  predicate CanStep(s: State)
  {
    WellFormed(s) && s.programCounter as int + 1 < MEMORY_SIZE && StackFits(s, Fetch(s))
  }

  /**
   * The `switch` of `execute_opcode` on an already fetched opcode.  CLS and
   * DRW only reach the display and change no CPU state; `rnd` stands for
   * `uint8_t(rand() % 256)`.
   */
  function Execute(s: State, op: u16, rnd: u8): State
    requires WellFormed(s) && s.programCounter as int + 1 < MEMORY_SIZE && StackFits(s, op)
  {
    var x, y, n := SecondHex(op), ThirdHex(op), FourthHex(op);
    var nn, nnn := Nn(op), Nnn(op);
    var v := s.dataReg;
    match FirstHex(op)
    case 0x0 => if op == 0x00E0 then s else if op == 0x00EE then Return(s) else s
    case 0x1 => s.(programCounter := nnn)
    case 0x2 => Call(s, nnn)
    case 0x3 => if v[x] == nn then Skip(s) else s
    case 0x4 => if v[x] != nn then Skip(s) else s
    case 0x5 => if n != 0 then s else if v[x] == v[y] then Skip(s) else s
    case 0x6 => s.(dataReg := v[x := nn])
    case 0x7 => s.(dataReg := v[x := Wrap8(v[x] + nn)])
    case 0x8 => s.(dataReg := Arithmetic(v, x, y, n))
    case 0x9 => if n != 0 then s else if v[x] != v[y] then Skip(s) else s
    case 0xA => s.(addressReg := nnn)
    case 0xB => s.(programCounter := v[0] + nnn)
    case 0xC => s.(dataReg := v[x := And8(rnd, nn)])
    case _ => s
  }

  /**
   * One `execute_opcode` call: fetch, execute, and advance PC by two only if
   * the instruction left PC where it was.  PC therefore never stays put.
   */
  function Step(s: State, rnd: u8): (r: State)
    requires CanStep(s)
    ensures WellFormed(r)
    ensures r.programCounter != s.programCounter
  {
    var after := Execute(s, Fetch(s), rnd);
    if after.programCounter == s.programCounter then after.(programCounter := s.programCounter + 2)
    else after
  }
}

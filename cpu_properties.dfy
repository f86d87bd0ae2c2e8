/**
 * Properties of the interpreter semantics in module CpuSpec: the fetched
 * opcode, the stack round trip, and what one `execute_opcode` step does to
 * PC, the registers and memory, family by family.
 */
module CpuProperties {
  import opened Words
  import opened Opcodes
  import opened CpuSpec

  // ------------------------------------------------------------------ fetch

  /** The opcode is `memory[PC] * 256 + memory[PC + 1]`; its nibbles are those of the two bytes. */
  lemma FetchReadsTwoBytes(s: State)
    requires s.programCounter as int + 1 < |s.memory|
    ensures Fetch(s) == s.memory[s.programCounter] as int * 0x100 + s.memory[s.programCounter + 1]
    ensures FirstHex(Fetch(s)) == s.memory[s.programCounter] / 16
    ensures SecondHex(Fetch(s)) == s.memory[s.programCounter] % 16
    ensures ThirdHex(Fetch(s)) == s.memory[s.programCounter + 1] / 16
    ensures FourthHex(Fetch(s)) == s.memory[s.programCounter + 1] % 16
  {
    WordNibbles(s.memory[s.programCounter], s.memory[s.programCounter + 1]);
  }

  /** The first instruction of a freshly loaded ROM is its first two bytes. */
  lemma BootFetchesRomStart(rom: seq<u8>, registers: seq<u8>, address: u16)
    requires 2 <= |rom| <= MEMORY_SIZE - PROGRAM_START && |registers| == REGISTER_COUNT
    ensures Fetch(Boot(rom, registers, address)) == rom[0] as int * 0x100 + rom[1]
  {
    var s := Boot(rom, registers, address);
    assert s.memory[PROGRAM_START] == rom[0] && s.memory[PROGRAM_START + 1] == rom[1];
  }

  // ------------------------------------------------------------------ stack

  /** `stack_push` moves SP up by two and writes only the two bytes at the new SP. */
  lemma PushWritesTwoBytes(s: State, address: u16)
    requires CanPush(s)
    ensures var r, sp := Push(s, address), Wrap16(s.stackPointer + 2);
      && r.stackPointer == sp
      && r.memory[sp] == address / 0x100 && r.memory[sp + 1] == address % 0x100
      && (forall k :: 0 <= k < |s.memory| && k != sp && k != sp + 1 ==> r.memory[k] == s.memory[k])
      && r.dataReg == s.dataReg && r.addressReg == s.addressReg && r.programCounter == s.programCounter
  {
  }

  /** A pushed address is the next `stack_top`, and the following `stack_pop` restores SP. */
  lemma PushTopPop(s: State, address: u16)
    requires CanPush(s)
    ensures Push(s, address).stackPointer as int + 1 < |s.memory|
    ensures Top(Push(s, address)) == address
    ensures Pop(Push(s, address)).stackPointer == s.stackPointer
  {
    var r := Push(s, address);
    assert r.memory[r.stackPointer] == address / 0x100 && r.memory[r.stackPointer + 1] == address % 0x100;
  }

  // --------------------------------------------------- step: control flow

  /** Opcodes whose `switch` arm changes no CPU state. */
  predicate NoCpuEffect(op: u16)
  {
    || (FirstHex(op) == 0x0 && op != 0x00EE)
    || ((FirstHex(op) == 0x5 || FirstHex(op) == 0x9) && FourthHex(op) != 0)
    || (FirstHex(op) == 0x8 && 0x8 <= FourthHex(op) <= 0xD)
    || (FirstHex(op) == 0x8 && FourthHex(op) == 0xF)
    || FirstHex(op) == 0xD || FirstHex(op) == 0xE || FirstHex(op) == 0xF
  }

  /** Such an opcode (SYS, CLS, DRW, all of E and F, the unused 5/8/9 forms) only advances PC by two. */
  lemma StepWithoutEffect(s: State, rnd: u8)
    requires CanStep(s) && NoCpuEffect(Fetch(s))
    ensures Step(s, rnd) == s.(programCounter := s.programCounter + 2)
  {
  }

  /** The condition under which `3xNN`, `4xNN`, `5xy0` or `9xy0` skips. */
  predicate SkipTaken(s: State, op: u16)
    requires |s.dataReg| == REGISTER_COUNT
  {
    var vx, vy := s.dataReg[SecondHex(op)], s.dataReg[ThirdHex(op)];
    match FirstHex(op)
    case 0x3 => vx == Nn(op)
    case 0x4 => vx != Nn(op)
    case 0x5 => vx == vy
    case 0x9 => vx != vy
    case _ => false
  }

  /** A conditional skip moves PC by four when taken, by two otherwise, and changes nothing else. */
  lemma StepConditionalSkip(s: State, rnd: u8)
    requires CanStep(s)
    requires var op := Fetch(s);
      || FirstHex(op) == 0x3 || FirstHex(op) == 0x4
      || ((FirstHex(op) == 0x5 || FirstHex(op) == 0x9) && FourthHex(op) == 0)
    ensures Step(s, rnd) == s.(programCounter := s.programCounter + if SkipTaken(s, Fetch(s)) then 4 else 2)
  {
  }

  /** `1nnn` jumps to NNN; a jump to itself is turned into PC + 2 by the advance rule. */
  lemma StepJump(s: State, rnd: u8)
    requires CanStep(s) && FirstHex(Fetch(s)) == 0x1
    ensures var target := Nnn(Fetch(s));
      Step(s, rnd) == s.(programCounter := if target == s.programCounter then s.programCounter + 2 else target)
  {
  }

  /** `Bnnn` jumps to V0 + NNN, which is not masked to twelve bits. */
  lemma StepJumpWithOffset(s: State, rnd: u8)
    requires CanStep(s) && FirstHex(Fetch(s)) == 0xB
    ensures var target := s.dataReg[0] + Nnn(Fetch(s));
      Step(s, rnd) == s.(programCounter := if target == s.programCounter then s.programCounter + 2 else target)
  {
  }

  /** When V0 + NNN passes 0xFFF, `Bnnn` leaves PC outside memory: the next fetch is out of range. */
  lemma JumpWithOffsetEscapesMemory(s: State, rnd: u8)
    requires CanStep(s) && FirstHex(Fetch(s)) == 0xB
    requires s.dataReg[0] + Nnn(Fetch(s)) > 0xFFF
    ensures Step(s, rnd).programCounter > 0xFFF
    ensures !CanStep(Step(s, rnd))
  {
  }

  /**
   * `2nnn` pushes PC + 2 (so it is the new stack top), moves SP up by two and
   * jumps to NNN; registers, I and the rest of memory are unchanged.
   */
  lemma StepCall(s: State, rnd: u8)
    requires CanStep(s) && FirstHex(Fetch(s)) == 0x2
    ensures var r, target, sp := Step(s, rnd), Nnn(Fetch(s)), Wrap16(s.stackPointer + 2);
      && r.stackPointer == sp
      && sp + 1 < MEMORY_SIZE && Top(r) == s.programCounter + 2
      && (forall k :: 0 <= k < MEMORY_SIZE && k != sp && k != sp + 1 ==> r.memory[k] == s.memory[k])
      && r.dataReg == s.dataReg && r.addressReg == s.addressReg
      && r.programCounter == if target == s.programCounter then s.programCounter + 2 else target
  {
    PushTopPop(s, s.programCounter + 2);
  }

  /** `00EE` jumps to the stack top and moves SP down by two; nothing else changes. */
  lemma StepReturn(s: State, rnd: u8)
    requires CanStep(s) && Fetch(s) == 0x00EE
    ensures var r, target := Step(s, rnd), Top(s);
      r == s.(stackPointer := Wrap16(s.stackPointer - 2),
               programCounter := if target == s.programCounter then s.programCounter + 2 else target)
  {
    assert FirstHex(0x00EE) == 0;
    assert Execute(s, Fetch(s), rnd) == Return(s);
  }

  /** The opcode at an address holding the bytes 00 EE is `RET`. */
  lemma FetchReturn(s: State)
    requires s.programCounter as int + 1 < |s.memory|
    requires s.memory[s.programCounter] == 0x00 && s.memory[s.programCounter + 1] == 0xEE
    ensures Fetch(s) == 0x00EE
  {
  }

  /** The conditions under which `CALL nnn` at PC enters a subroutine that starts with `RET`. */
  predicate CallsReturn(s: State)
    requires CanStep(s)
  {
    var target, sp := Nnn(Fetch(s)), Wrap16(s.stackPointer + 2);
    && FirstHex(Fetch(s)) == 0x2
    && target + 1 < MEMORY_SIZE
    && target != s.programCounter && target != s.programCounter + 2
    && s.memory[target] == 0x00 && s.memory[target + 1] == 0xEE
    && target != sp && target != sp + 1 && target + 1 != sp
  }

  /** After such a call the machine stands on the `RET`, with PC + 2 on top of the stack. */
  lemma CallReachesReturn(s: State, rnd: u8)
    requires CanStep(s) && CallsReturn(s)
    ensures var m := Step(s, rnd);
      && CanStep(m) && Fetch(m) == 0x00EE && Top(m) == s.programCounter + 2
      && m.programCounter == Nnn(Fetch(s))
      && m.stackPointer == Wrap16(s.stackPointer + 2)
      && m.dataReg == s.dataReg && m.addressReg == s.addressReg
  {
    StepCall(s, rnd);
    FetchReturn(Step(s, rnd));
  }

  /**
   * A `CALL nnn` at p whose target holds `RET` comes back to p + 2 with the
   * original SP, registers and I (when the pushed bytes do not overwrite the
   * `RET` itself, and the subroutine is neither p nor p + 2).
   */
  lemma CallThenReturn(s: State, rnd1: u8, rnd2: u8)
    requires CanStep(s) && CallsReturn(s)
    ensures CanStep(Step(s, rnd1))
    ensures var r := Step(Step(s, rnd1), rnd2);
      && r.programCounter == s.programCounter + 2
      && r.stackPointer == s.stackPointer
      && r.dataReg == s.dataReg && r.addressReg == s.addressReg
  {
    CallReachesReturn(s, rnd1);
    StepReturn(Step(s, rnd1), rnd2);
  }

  /**
   * A `CALL nnn` at p whose target is p + 2 and holds `RET` does not land
   * back on p + 2: the `RET` jumps to the pushed p + 2, which is where it
   * stands, so the advance rule moves PC on to p + 4.
   */
  lemma CallToNextReturnsPastIt(s: State, rnd1: u8, rnd2: u8)
    requires CanStep(s) && FirstHex(Fetch(s)) == 0x2
    requires Nnn(Fetch(s)) == s.programCounter + 2 && s.programCounter as int + 3 < MEMORY_SIZE
    requires s.memory[s.programCounter + 2] == 0x00 && s.memory[s.programCounter + 3] == 0xEE
    requires var sp := Wrap16(s.stackPointer + 2);
      sp != s.programCounter + 2 && sp != s.programCounter + 3 && sp + 1 != s.programCounter + 2
    ensures CanStep(Step(s, rnd1))
    ensures var r := Step(Step(s, rnd1), rnd2);
      && r.programCounter == s.programCounter + 4
      && r.stackPointer == s.stackPointer
      && r.dataReg == s.dataReg && r.addressReg == s.addressReg
  {
    CallLandsOnNext(s, rnd1);
    ReturnToItself(Step(s, rnd1), rnd2);
  }

  /** The state between the two steps: on the `RET` at p + 2, with p + 2 on top of the stack. */
  lemma CallLandsOnNext(s: State, rnd: u8)
    requires CanStep(s) && FirstHex(Fetch(s)) == 0x2
    requires Nnn(Fetch(s)) == s.programCounter + 2 && s.programCounter as int + 3 < MEMORY_SIZE
    requires s.memory[s.programCounter + 2] == 0x00 && s.memory[s.programCounter + 3] == 0xEE
    requires var sp := Wrap16(s.stackPointer + 2);
      sp != s.programCounter + 2 && sp != s.programCounter + 3 && sp + 1 != s.programCounter + 2
    ensures var m := Step(s, rnd);
      && CanStep(m) && Fetch(m) == 0x00EE && Top(m) == m.programCounter
      && m.programCounter == s.programCounter + 2 && m.stackPointer == Wrap16(s.stackPointer + 2)
      && m.dataReg == s.dataReg && m.addressReg == s.addressReg
  {
    StepCall(s, rnd);
    FetchReturn(Step(s, rnd));
  }

  /** A `RET` whose stack top is its own address moves on to the next opcode. */
  lemma ReturnToItself(m: State, rnd: u8)
    requires CanStep(m) && Fetch(m) == 0x00EE && Top(m) == m.programCounter
    ensures Step(m, rnd) == m.(stackPointer := Wrap16(m.stackPointer - 2), programCounter := m.programCounter + 2)
  {
    StepReturn(m, rnd);
  }

  // ------------------------------------------------------ step: registers

  /** `6xNN` sets only V[X], to NN. */
  lemma StepLoadByte(s: State, rnd: u8)
    requires CanStep(s) && FirstHex(Fetch(s)) == 0x6
    ensures Step(s, rnd) == s.(dataReg := s.dataReg[SecondHex(Fetch(s)) := Nn(Fetch(s))],
                               programCounter := s.programCounter + 2)
  {
  }

  /** `7xNN` adds NN to V[X] modulo 256 and touches no other register (not even VF). */
  lemma StepAddByte(s: State, rnd: u8)
    requires CanStep(s) && FirstHex(Fetch(s)) == 0x7
    ensures var r, x := Step(s, rnd), SecondHex(Fetch(s));
      && r.dataReg[x] == (s.dataReg[x] as int + Nn(Fetch(s))) % 0x100
      && (forall i :: 0 <= i < REGISTER_COUNT && i != x ==> r.dataReg[i] == s.dataReg[i])
      && r == s.(dataReg := r.dataReg, programCounter := s.programCounter + 2)
  {
  }

  /** `8xy0`..`8xy3` store V[Y], V[X] | V[Y], V[X] & V[Y] or V[X] ^ V[Y] in V[X] alone. */
  lemma StepRegisterLogic(s: State, rnd: u8)
    requires CanStep(s) && FirstHex(Fetch(s)) == 0x8 && FourthHex(Fetch(s)) <= 0x3
    ensures var r, x, n := Step(s, rnd), SecondHex(Fetch(s)), FourthHex(Fetch(s));
      var vx, vy := s.dataReg[x], s.dataReg[ThirdHex(Fetch(s))];
      && r.dataReg[x] == (if n == 0 then vy else if n == 1 then Or8(vx, vy) else if n == 2 then And8(vx, vy) else Xor8(vx, vy))
      && (forall i :: 0 <= i < REGISTER_COUNT && i != x ==> r.dataReg[i] == s.dataReg[i])
      && r == s.(dataReg := r.dataReg, programCounter := s.programCounter + 2)
  {
  }

  /** The result and flag of the flag-writing `8xyN` forms (N = 4, 5, 6, 7, E). */
  predicate FlagForm(n: u8)
  {
    n == 0x4 || n == 0x5 || n == 0x6 || n == 0x7 || n == 0xE
  }

  function FlagResult(n: u8, vx: u8, vy: u8): Flagged
    requires FlagForm(n)
  {
    if n == 0x4 then Add(vx, vy)
    else if n == 0x5 then Subtract(vx, vy)
    else if n == 0x6 then ShiftRight(vx)
    else if n == 0x7 then Subtract(vy, vx)
    else ShiftLeft(vx)
  }

  /**
   * The flag-writing forms store the helper's result in V[X] and its flag in
   * VF, leave every other register alone, and change nothing else.  When
   * X = F the result is stored last, so VF ends up holding the result.
   */
  lemma StepFlagArithmetic(s: State, rnd: u8)
    requires CanStep(s) && FirstHex(Fetch(s)) == 0x8 && FlagForm(FourthHex(Fetch(s)))
    ensures var r, x := Step(s, rnd), SecondHex(Fetch(s));
      var f := FlagResult(FourthHex(Fetch(s)), s.dataReg[x], s.dataReg[ThirdHex(Fetch(s))]);
      && r.dataReg[x] == f.value
      && (x != FLAG ==> r.dataReg[FLAG] == f.flag)
      && (x == FLAG ==> r.dataReg[FLAG] == f.value)
      && (forall i :: 0 <= i < REGISTER_COUNT && i != x && i != FLAG ==> r.dataReg[i] == s.dataReg[i])
      && r == s.(dataReg := r.dataReg, programCounter := s.programCounter + 2)
  {
  }

  /** `8xy4`: V[X] = (V[X] + V[Y]) mod 256; VF = 1 exactly when the sum exceeds 255 (X /= F). */
  lemma StepAddRegisters(s: State, rnd: u8)
    requires CanStep(s) && FirstHex(Fetch(s)) == 0x8 && FourthHex(Fetch(s)) == 0x4
    ensures var r, x := Step(s, rnd), SecondHex(Fetch(s));
      var vx, vy := s.dataReg[x], s.dataReg[ThirdHex(Fetch(s))];
      && r.dataReg[x] == (vx as int + vy) % 0x100
      && (x != FLAG ==> (r.dataReg[FLAG] == 1 <==> vx as int + vy > 0xFF) && r.dataReg[FLAG] <= 1)
  {
    StepFlagArithmetic(s, rnd);
  }

  /**
   * `8xy5` and `8xy7`: VF = 1 exactly when the minuend is at least the
   * subtrahend (X /= F), and V[X] is their absolute difference.
   */
  lemma StepSubtractRegisters(s: State, rnd: u8)
    requires CanStep(s) && FirstHex(Fetch(s)) == 0x8 && (FourthHex(Fetch(s)) == 0x5 || FourthHex(Fetch(s)) == 0x7)
    ensures var r, x := Step(s, rnd), SecondHex(Fetch(s));
      var vx, vy := s.dataReg[x], s.dataReg[ThirdHex(Fetch(s))];
      var (a, b) := if FourthHex(Fetch(s)) == 0x5 then (vx, vy) else (vy, vx);
      && r.dataReg[x] == (if a >= b then a - b else b - a)
      && (x != FLAG ==> (r.dataReg[FLAG] == 1 <==> a >= b) && r.dataReg[FLAG] <= 1)
  {
    StepFlagArithmetic(s, rnd);
  }

  /** `8xy6` and `8xyE`: the shifted-out bit goes to VF (X /= F) whatever VF held before. */
  lemma StepShiftRegister(s: State, rnd: u8)
    requires CanStep(s) && FirstHex(Fetch(s)) == 0x8 && (FourthHex(Fetch(s)) == 0x6 || FourthHex(Fetch(s)) == 0xE)
    ensures var r, x := Step(s, rnd), SecondHex(Fetch(s));
      var vx := s.dataReg[x];
      if FourthHex(Fetch(s)) == 0x6 then
        r.dataReg[x] == vx / 2 && (x != FLAG ==> r.dataReg[FLAG] == vx % 2)
      else
        r.dataReg[x] == (2 * vx as int) % 0x100 && (x != FLAG ==> r.dataReg[FLAG] == vx / 0x80)
  {
    StepFlagArithmetic(s, rnd);
  }

  /** `Annn` sets I to NNN and nothing else. */
  lemma StepLoadAddress(s: State, rnd: u8)
    requires CanStep(s) && FirstHex(Fetch(s)) == 0xA
    ensures Step(s, rnd) == s.(addressReg := Nnn(Fetch(s)), programCounter := s.programCounter + 2)
  {
  }

  /** `Cxnn` stores the random byte masked with NN in V[X]: a bitwise subset of NN. */
  lemma StepRandom(s: State, rnd: u8)
    requires CanStep(s) && FirstHex(Fetch(s)) == 0xC
    ensures var r, x, nn := Step(s, rnd), SecondHex(Fetch(s)), Nn(Fetch(s));
      && r == s.(dataReg := s.dataReg[x := And8(rnd, nn)], programCounter := s.programCounter + 2)
      && And8(r.dataReg[x], nn) == r.dataReg[x]
      && r.dataReg[x] <= nn
  {
    AndIsSubmask(rnd, Nn(Fetch(s)), 8);
  }

  /**
   * SUB agrees with a wrapping `a - b` exactly when a >= b, or when the
   * difference is 128, the one borrow case where |a - b| and its negation
   * coincide modulo 256.
   */
  lemma SubtractVersusWrap(a: u8, b: u8)
    ensures Subtract(a, b).value == (a - b) % 0x100 <==> a >= b || b - a == 0x80
  {
  }
}

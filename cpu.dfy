/**
 * The CPU object of `src/cpu.cpp`, updated in place: a 4096-byte memory, the
 * sixteen data registers, the address register, the program counter and the
 * stack pointer.  Every method is proved to move the object's state exactly
 * as the matching function of module CpuSpec moves a state value.
 */
module Interpreter {
  import opened Words
  import opened Opcodes
  import opened CpuSpec

  class Cpu {
    var memory: array<u8>
    var dataReg: array<u8>
    var addressReg: u16
    var programCounter: u16
    var stackPointer: u16

    ghost predicate Valid()
      reads this
    {
      memory.Length == MEMORY_SIZE && dataReg.Length == REGISTER_COUNT
    }

    /** The object's state as a value. */
    ghost function Snapshot(): State
      reads this, memory, dataReg
    {
      State(memory[..], dataReg[..], addressReg, programCounter, stackPointer)
    }

    /**
     * `open_rom` up to its interpreter loop: memory is cleared, the ROM bytes
     * are stored from address 512 on, PC = 512 and SP = 0x0EA0.  The source
     * never initialises the registers or I; `registers` and `address` are
     * whatever they hold.
     */
    constructor OpenRom(rom: seq<u8>, registers: seq<u8>, address: u16)
      requires |rom| <= MEMORY_SIZE - PROGRAM_START && |registers| == REGISTER_COUNT
      ensures Valid() && fresh(memory) && fresh(dataReg)
      ensures Snapshot() == Boot(rom, registers, address)
    {
      var mem := new u8[MEMORY_SIZE];
      for k := 0 to MEMORY_SIZE
        invariant forall j :: 0 <= j < k ==> mem[j] == 0
      {
        mem[k] := 0;
      }
      for k := 0 to |rom|
        invariant forall j :: 0 <= j < MEMORY_SIZE ==> mem[j] == if PROGRAM_START <= j < PROGRAM_START + k then rom[j - PROGRAM_START] else 0
      {
        mem[PROGRAM_START + k] := rom[k];
      }
      memory := mem;
      dataReg := new u8[REGISTER_COUNT](i requires 0 <= i < REGISTER_COUNT => registers[i]);
      addressReg := address;
      programCounter := PROGRAM_START;
      stackPointer := STACK_START;
      new;
      assert memory[..] == Boot(rom, registers, address).memory;
    }

    /** `fetch_opcode`: the big-endian word at PC; reading it changes nothing. */
    function FetchOpcode(): (op: u16)
      reads this, memory
      requires Valid() && programCounter as int + 1 < MEMORY_SIZE
      ensures op == memory[programCounter] as int * 0x100 + memory[programCounter + 1]
      ensures FirstHex(op) == memory[programCounter] / 16 && SecondHex(op) == memory[programCounter] % 16
      ensures ThirdHex(op) == memory[programCounter + 1] / 16 && FourthHex(op) == memory[programCounter + 1] % 16
    {
      WordNibbles(memory[programCounter], memory[programCounter + 1]);
      Word(memory[programCounter], memory[programCounter + 1])
    }

    /** `stack_top`: the big-endian word at SP. */
    function StackTop(): (top: u16)
      reads this, memory
      requires Valid() && stackPointer as int + 1 < MEMORY_SIZE
      ensures top / 0x100 == memory[stackPointer] && top % 0x100 == memory[stackPointer + 1]
    {
      WordBytes(memory[stackPointer], memory[stackPointer + 1]);
      Word(memory[stackPointer], memory[stackPointer + 1])
    }

    /** `stack_pop`. */
    method StackPop()
      requires Valid()
      modifies this
      ensures Valid() && memory == old(memory) && dataReg == old(dataReg)
      ensures Snapshot() == Pop(old(Snapshot()))
    {
      stackPointer := Wrap16(stackPointer - 2);
    }

    /** `stack_push`. */
    method StackPush(address: u16)
      requires Valid() && Wrap16(stackPointer + 2) + 1 < MEMORY_SIZE
      modifies this, memory
      ensures Valid() && memory == old(memory) && dataReg == old(dataReg)
      ensures Snapshot() == Push(old(Snapshot()), address)
    {
      stackPointer := Wrap16(stackPointer + 2);
      memory[stackPointer] := address / 0x100;
      memory[stackPointer + 1] := address % 0x100;
    }

    /** `jump_to`. */
    method JumpTo(address: u16)
      modifies this
      ensures memory == old(memory) && dataReg == old(dataReg)
      ensures Snapshot() == old(Snapshot()).(programCounter := address)
    {
      programCounter := address;
    }

    /** `call_subroutine`. */
    method CallSubroutine(address: u16)
      requires Valid() && Wrap16(stackPointer + 2) + 1 < MEMORY_SIZE && programCounter as int + 2 < 0x1_0000
      modifies this, memory
      ensures Valid() && memory == old(memory) && dataReg == old(dataReg)
      ensures Snapshot() == Call(old(Snapshot()), address)
    {
      StackPush(programCounter + 2);
      JumpTo(address);
    }

    /** `return_from_call`. */
    method ReturnFromCall()
      requires Valid() && stackPointer as int + 1 < MEMORY_SIZE
      modifies this
      ensures Valid() && memory == old(memory) && dataReg == old(dataReg)
      ensures Snapshot() == Return(old(Snapshot()))
    {
      var top := StackTop();
      JumpTo(top);
      StackPop();
    }

    /** `skip_next_opcode`. */
    method SkipNextOpcode()
      requires programCounter as int + 4 < 0x1_0000
      modifies this
      ensures memory == old(memory) && dataReg == old(dataReg)
      ensures Snapshot() == Skip(old(Snapshot()))
    {
      JumpTo(programCounter + 4);
    }

    /** `add`: stores the carry in VF and returns the 8-bit sum. */
    method Add(a: u8, b: u8) returns (r: u8)
      requires Valid()
      modifies dataReg
      ensures dataReg[..] == old(dataReg[..])[FLAG := CpuSpec.Add(a, b).flag]
      ensures r == CpuSpec.Add(a, b).value
    {
      var ret: u16 := a + b;
      dataReg[FLAG] := ret / 0x100;
      r := ret % 0x100;
    }

    /** `subtract`: stores "no borrow" in VF and returns the absolute difference. */
    method Subtract(a: u8, b: u8) returns (r: u8)
      requires Valid()
      modifies dataReg
      ensures dataReg[..] == old(dataReg[..])[FLAG := CpuSpec.Subtract(a, b).flag]
      ensures r == CpuSpec.Subtract(a, b).value
    {
      if a >= b {
        dataReg[FLAG] := 0x01;
        r := a - b;
      } else {
        dataReg[FLAG] := 0x00;
        r := b - a;
      }
    }

    /** `lshift`: stores bit 7 in VF and returns the byte shifted left. */
    method LShift(num: u8) returns (r: u8)
      requires Valid()
      modifies dataReg
      ensures dataReg[..] == old(dataReg[..])[FLAG := ShiftLeft(num).flag]
      ensures r == ShiftLeft(num).value
    {
      dataReg[FLAG] := num / 0x80;
      r := (num % 0x80) * 2;
    }

    /** `rshift`: stores bit 0 in VF and returns the byte shifted right. */
    method RShift(num: u8) returns (r: u8)
      requires Valid()
      modifies dataReg
      ensures dataReg[..] == old(dataReg[..])[FLAG := ShiftRight(num).flag]
      ensures r == ShiftRight(num).value
    {
      dataReg[FLAG] := num % 2;
      r := num / 2;
    }

    /** The `8xyN` arm of `execute_opcode`. */
    method ExecuteArithmetic(x: u8, y: u8, n: u8)
      requires Valid() && x < 16 && y < 16
      modifies dataReg
      ensures dataReg[..] == Arithmetic(old(dataReg[..]), x, y, n)
    {
      if n == 0x0 {
        dataReg[x] := dataReg[y];
      } else if n == 0x1 {
        dataReg[x] := Or8(dataReg[x], dataReg[y]);
      } else if n == 0x2 {
        dataReg[x] := And8(dataReg[x], dataReg[y]);
      } else if n == 0x3 {
        dataReg[x] := Xor8(dataReg[x], dataReg[y]);
      } else if n == 0x4 {
        var r := Add(dataReg[x], dataReg[y]);
        dataReg[x] := r;
      } else if n == 0x5 {
        var r := Subtract(dataReg[x], dataReg[y]);
        dataReg[x] := r;
      } else if n == 0x6 {
        var r := RShift(dataReg[x]);
        dataReg[x] := r;
      } else if n == 0x7 {
        var r := Subtract(dataReg[y], dataReg[x]);
        dataReg[x] := r;
      } else if n == 0xE {
        var r := LShift(dataReg[x]);
        dataReg[x] := r;
      }
    }

    /**
     * `execute_opcode`: fetch, dispatch on the first nibble, and advance PC
     * by two when the instruction left it unchanged.  `rnd` is the byte
     * `rand() % 256` draws for `Cxnn`.
     */
    method ExecuteOpcode(rnd: u8)
      requires Valid() && CanStep(Snapshot())
      modifies this, memory, dataReg
      ensures Valid() && memory == old(memory) && dataReg == old(dataReg)
      ensures Snapshot() == Step(old(Snapshot()), rnd)
    {
      var oldPc := programCounter;
      var opcode := FetchOpcode();
      assert opcode == Fetch(Snapshot());
      Dispatch(opcode, rnd);
      if oldPc == programCounter {
        programCounter := programCounter + 2;
      }
    }

    /** The `switch` of `execute_opcode`.  CLS and DRW reach only the display. */
    method Dispatch(opcode: u16, rnd: u8)
      requires Valid() && programCounter as int + 1 < MEMORY_SIZE && StackFits(Snapshot(), opcode)
      modifies this, memory, dataReg
      ensures Valid() && memory == old(memory) && dataReg == old(dataReg)
      ensures Snapshot() == Execute(old(Snapshot()), opcode, rnd)
    {
      var family, x, y, n := FirstHex(opcode), SecondHex(opcode), ThirdHex(opcode), FourthHex(opcode);
      var nn, nnn := Nn(opcode), Nnn(opcode);
      if family == 0x0 {
        if opcode == 0x00E0 {
          // display->clear() changes no CPU state
        } else if opcode == 0x00EE {
          ReturnFromCall();
        }
      } else if family == 0x1 {
        JumpTo(nnn);
      } else if family == 0x2 {
        CallSubroutine(nnn);
      } else if family == 0x3 {
        if dataReg[x] == nn {
          SkipNextOpcode();
        }
      } else if family == 0x4 {
        if dataReg[x] != nn {
          SkipNextOpcode();
        }
      } else if family == 0x5 {
        if n == 0 && dataReg[x] == dataReg[y] {
          SkipNextOpcode();
        }
      } else if family == 0x6 {
        dataReg[x] := nn;
      } else if family == 0x7 {
        dataReg[x] := Wrap8(dataReg[x] as int + nn);
      } else if family == 0x8 {
        ExecuteArithmetic(x, y, n);
      } else if family == 0x9 {
        if n == 0 && dataReg[x] != dataReg[y] {
          SkipNextOpcode();
        }
      } else if family == 0xA {
        addressReg := nnn;
      } else if family == 0xB {
        JumpTo(dataReg[0] + nnn);
      } else if family == 0xC {
        dataReg[x] := And8(rnd, nn);
      }
      // 0xD: draw(X, Y, N) reaches only the display; 0xE and 0xF do nothing
    }
  }
}

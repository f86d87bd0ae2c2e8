/**
 * Where the classifier of `src/disassembler.cpp` and the interpreter of
 * `src/cpu.cpp` meet: both read the same nibbles, and an opcode the listing
 * calls NOP is one the interpreter only steps over.
 */
module Consistency {
  import opened Words
  import opened Opcodes
  import opened CpuSpec
  import CpuProperties
  import Disassembler

  /** Every opcode the listing reports as NOP is one `execute_opcode` gives no effect. */
  lemma UndefinedHasNoEffect(op: u16)
    requires Disassembler.Classify(op) == Disassembler.NOP
    ensures CpuProperties.NoCpuEffect(op)
  {
    Disassembler.NopExactlyUndefined(op);
  }

  /** Stepping over an opcode the listing reports as NOP only moves PC to the next opcode. */
  lemma StepOverNop(s: State, rnd: u8)
    requires CanStep(s) && Disassembler.Classify(Fetch(s)) == Disassembler.NOP
    ensures Step(s, rnd) == s.(programCounter := s.programCounter + 2)
  {
    UndefinedHasNoEffect(Fetch(s));
    CpuProperties.StepWithoutEffect(s, rnd);
  }
}

# CHIP-8 interpreter core, modelled in Dafny

This project models three parts of a small CHIP-8 emulator written in C++:

- **The interpreter step** (`src/cpu.cpp`). The CPU has a 4096-byte memory and sixteen byte registers V0..VF. It also has the address register I, the program counter and a stack pointer. The call stack lives inside memory.
  - `execute_opcode` fetches a big-endian opcode at PC and dispatches on its first nibble.
  - It then advances PC by two only if the instruction left PC where it was.
  - The helpers `add`, `subtract`, `lshift` and `rshift` write their carry/borrow/shifted-out bit to VF as a side effect, before the destination register is stored.
- **The opcode classifier** (`src/disassembler.cpp`).
  - `Impl::type` renders an opcode as four upper-case hex digits.
  - `Impl::comp` matches that text against a pattern where `n`, `x` and `y` are wildcards.
  - `Impl::execute` tries 35 patterns in order. It names the first that matches, with its operand texts, or reports NOP.
- **The keypad latch** (`src/io.cpp`).
  - `IO::update` reads one SDL event and moves the two fields `key_pressed` and `key_value`, using a fixed 16-key map.
  - `IO::wait_key` updates until a key is held.
  - `IO::last_key` reads the latched digit.

Modules:

- `Words` (words.dfy): `uint8_t`/`uint16_t` as subset types, truncating conversions, and bitwise AND/OR/XOR defined bit by bit.
- `Opcodes` (opcodes.dfy): the nibble splitters and the big-endian word.
- `CpuSpec` (cpu_spec.dfy): the machine state as a value, and one step as a function.
- `Interpreter` (cpu.dfy): the CPU as a class over arrays. Each method is proved to move the object exactly as the matching `CpuSpec` function moves a state value.
- `CpuProperties` (cpu_properties.dfy): what a step does, family by family, and the call/return round trip.
- `Disassembler` (disassembler.dfy): `type` and `comp` as methods, and the first-match chain as a function returning a tagged `Listing`. A nibble-level reference table `Decode` is proved equal to the chain.
- `Keyboard` (io.dfy): the latch as a value-level transition, and the `IO` class whose methods are proved against it. The SDL event queue is a sequence of pending events.
- `Consistency` (consistency.dfy): an opcode the classifier calls NOP is one the interpreter only steps over.

**Specification versus code.** CHIP-8 descriptions usually say `8xy5` stores `Vx - Vy` modulo 256. `subtract` (src/cpu.cpp:114-125) returns the absolute difference `b - a` when `a < b`. The model follows the code (`CpuSpec.Subtract`). `CpuProperties.SubtractVersusWrap` states, for all operands, when the two readings agree: exactly when a >= b or b - a = 128.

## Model

| member | source | states |
|---|---|---|
| Words.WrapIsModulo | src/cpu.cpp:200 | The truncating conversions `uint8_t(x)` and `uint16_t(x)` keep x modulo 2^8 and 2^16. |
| Words.Wrap8 | src/cpu.cpp:200 | The `uint8_t` store of `data_reg[X] += NN`; its meaning, reduction modulo 2^8, is `Words.WrapIsModulo`. |
| Words.Wrap16 | src/cpu.cpp:73 | The `uint16_t` arithmetic on SP; its meaning, reduction modulo 2^16, is `Words.WrapIsModulo`. |
| Words.Bitwise | src/cpu.cpp:208-210 | AND, OR or XOR of the low `width` bits, less than 2^width; `Words.BitwiseBit` states it bit by bit. |
| Words.Bit | src/cpu.cpp:130 | Bit k of a value, `(a >> k) & 1`, is 0 or 1. |
| Words.BitwiseBit | src/cpu.cpp:208-210 | Bit k of `a op b` is `op` applied to bit k of a and bit k of b for every k below the width, and 0 above it. |
| Words.And8 | src/cpu.cpp:209 | `a & b` on bytes; `Words.BitwiseBit` gives each result bit as the AND of the operand bits, `Words.AndIsSubmask` bounds it by the mask. |
| Words.Or8 | src/cpu.cpp:208 | Bitwise OR on bytes; `Words.BitwiseBit` gives each result bit as the OR of the operand bits. |
| Words.Xor8 | src/cpu.cpp:210 | `a ^ b` on bytes; `Words.BitwiseBit` gives each result bit as the XOR of the operand bits. |
| Words.AndIsSubmask | src/cpu.cpp:237 | Masking with m keeps only bits of m: masking again changes nothing, and the result is at most m. |
| Opcodes.FirstHex | src/cpu.cpp:42-45 | The family nibble `opcode >> 12` is below 16. |
| Opcodes.SecondHex | src/cpu.cpp:47-50 | The X nibble is below 16. |
| Opcodes.ThirdHex | src/cpu.cpp:52-55 | The Y nibble is below 16. |
| Opcodes.FourthHex | src/cpu.cpp:57-60 | The N nibble is below 16. |
| Opcodes.Nn | src/cpu.cpp:174 | `opcode & 0x00FF`; `Opcodes.Recombine` states it is the low two nibbles. |
| Opcodes.Nnn | src/cpu.cpp:165 | `opcode & 0x0FFF`; `Opcodes.Recombine` states it is the low three nibbles. |
| Opcodes.Word | src/cpu.cpp:36-38 | The high byte shifted up by 8, OR the low byte; `Opcodes.WordBytes` and `Opcodes.WordInjective` state it splits back into its two bytes. |
| Opcodes.ReadWord | src/cpu.cpp:33-40 | The word at addr has memory[addr] as its high byte and memory[addr+1] as its low byte. |
| Opcodes.Recombine | src/cpu.cpp:42-60 | The four nibbles recombine to the opcode as a<<12 + b<<8 + c<<4 + d (disjoint bit fields); NNN and NN are the low three and two nibbles. |
| Opcodes.WordBytes | src/cpu.cpp:33-40 | The big-endian word of two bytes splits back into those bytes. |
| Opcodes.WordInjective | src/cpu.cpp:33-40 | Different byte pairs give different words. |
| Opcodes.WordNibbles | src/cpu.cpp:33-60 | A fetched opcode's nibbles are the high byte's two nibbles, then the low byte's; NN is the low byte. |
| Opcodes.NibblesDetermineOpcode | src/cpu.cpp:42-60 | Opcodes with the same four nibbles are equal. |
| CpuSpec.Boot | src/cpu.cpp:21-29 | After loading: memory below 512 and after the ROM is zero, the ROM bytes sit from 512 on, PC = 512, SP = 0x0EA0. |
| CpuSpec.Add | src/cpu.cpp:106-112 | The result is (a+b) mod 256; the flag is 1 exactly when a+b > 255; flag*256 + result = a+b. |
| CpuSpec.Subtract | src/cpu.cpp:114-125 | The flag is 1 exactly when a >= b; the result is the absolute difference of a and b. |
| CpuSpec.ShiftLeft | src/cpu.cpp:127-132 | The result is 2n mod 256; the flag is 1 exactly when bit 7 was set; flag*256 + result = 2n. |
| CpuSpec.ShiftRight | src/cpu.cpp:134-139 | The flag is bit 0 of n; 2*result + flag = n. |
| CpuSpec.StoreFlagged | src/cpu.cpp:211-215 | V[X] holds the helper's result; VF holds its flag unless X = F; every other register is unchanged. |
| CpuSpec.Arithmetic | src/cpu.cpp:203-217 | The `8xyN` arm keeps sixteen registers; `CpuProperties.StepRegisterLogic`, `StepFlagArithmetic`, `StepAddRegisters`, `StepSubtractRegisters` and `StepShiftRegister` state each form. |
| CpuSpec.Push | src/cpu.cpp:76-82 | Keeps the memory size; what the push writes, and that `stack_top` then reads it back, is `CpuProperties.PushWritesTwoBytes` and `CpuProperties.PushTopPop`. |
| CpuSpec.Top | src/cpu.cpp:62-69 | The word at SP; `Opcodes.ReadWord` gives its bytes, `CpuProperties.PushTopPop` that it reads back a push. |
| CpuSpec.Pop | src/cpu.cpp:71-74 | SP - 2 modulo 2^16; `CpuProperties.PushTopPop` states it undoes a push's SP change. |
| CpuSpec.Call | src/cpu.cpp:89-93 | Push PC + 2, then jump; `CpuProperties.StepCall` states the effect. |
| CpuSpec.Return | src/cpu.cpp:95-99 | Jump to the stack top, then pop; `CpuProperties.StepReturn` states the effect. |
| CpuSpec.Skip | src/cpu.cpp:101-104 | PC + 4; `CpuProperties.StepConditionalSkip` states when it happens. |
| CpuSpec.Fetch | src/cpu.cpp:33-40 | The word at PC; `CpuProperties.FetchReadsTwoBytes` states its bytes and nibbles. |
| CpuSpec.Execute | src/cpu.cpp:157-254 | The `switch` on the first nibble; its arms are stated by the `CpuProperties.Step*` lemmas through `CpuSpec.Step`. |
| CpuSpec.Step | src/cpu.cpp:151-257 | One step keeps the state well formed and always moves PC. |
| CpuProperties.FetchReadsTwoBytes | src/cpu.cpp:33-40 | The fetched opcode is memory[PC]*256 + memory[PC+1], and its nibbles are those of the two bytes. |
| CpuProperties.BootFetchesRomStart | src/cpu.cpp:26-40 | The first opcode fetched after loading is built from the ROM's first two bytes. |
| CpuProperties.PushWritesTwoBytes | src/cpu.cpp:76-82 | A push moves SP up by two and writes only memory[SP+2] and memory[SP+3], high byte first; nothing else changes. |
| CpuProperties.PushTopPop | src/cpu.cpp:62-82 | After a push of a, `stack_top` returns a and `stack_pop` restores SP. |
| CpuProperties.StepWithoutEffect | src/cpu.cpp:151-257 | Families D, E, F, 0 except 00EE, the unused 5/8/9 forms: the step only advances PC by two. |
| CpuProperties.StepConditionalSkip | src/cpu.cpp:172-224 | A conditional skip moves PC by four when its condition holds, by two otherwise, and changes nothing else. |
| CpuProperties.StepJump | src/cpu.cpp:164-166 | `1nnn` sets PC to NNN, or to PC+2 when NNN is the old PC. |
| CpuProperties.StepJumpWithOffset | src/cpu.cpp:229-232 | `Bnnn` sets PC to V0 + NNN (unmasked), or to PC+2 when that is the old PC. |
| CpuProperties.JumpWithOffsetEscapesMemory | src/cpu.cpp:229-232 | When V0 + NNN exceeds 0xFFF, PC ends up outside memory and no further step is defined. |
| CpuProperties.StepCall | src/cpu.cpp:168-170 | `2nnn` pushes PC+2 (the new stack top) and moves SP up by two; PC becomes NNN, or PC+2 when NNN is the old PC; registers, I and the rest of memory are unchanged. |
| CpuProperties.StepReturn | src/cpu.cpp:159-162 | `00EE` jumps to the stack top and moves SP down by two (modulo 2^16); nothing else changes. |
| CpuProperties.FetchReturn | src/cpu.cpp:33-40 | The bytes 00 EE at PC fetch as `00EE`. |
| CpuProperties.CallReachesReturn | src/cpu.cpp:89-99 | A call into a subroutine that starts with RET stands on that RET with PC+2 on top of the stack and registers and I unchanged. |
| CpuProperties.CallThenReturn | src/cpu.cpp:89-99 | CALL at p followed by RET leaves PC = p+2 with the original SP, registers and I, when the target holds 00 EE, is neither p nor p+2, and the pushed bytes do not overlap the RET (`CallsReturn`). |
| CpuProperties.CallToNextReturnsPastIt | src/cpu.cpp:255-256 | CALL at p to p+2 holding RET ends at p+4, not p+2: the RET jumps to where it stands, so the advance rule adds 2; SP, registers and I are restored. |
| CpuProperties.CallLandsOnNext | src/cpu.cpp:89-93 | After such a call the machine stands on the RET at p+2, with p+2 on top of the stack. |
| CpuProperties.ReturnToItself | src/cpu.cpp:95-99 | A RET whose stack top is its own address pops and moves PC on by two. |
| CpuProperties.StepLoadByte | src/cpu.cpp:191-196 | `6xNN` sets only V[X], to NN. |
| CpuProperties.StepAddByte | src/cpu.cpp:197-202 | `7xNN` adds NN to V[X] modulo 256 and changes no other register, VF included. |
| CpuProperties.StepRegisterLogic | src/cpu.cpp:207-210 | `8xy0`..`8xy3` store V[Y], V[X] OR V[Y], V[X] & V[Y] or V[X] ^ V[Y] in V[X] alone. |
| CpuProperties.StepFlagArithmetic | src/cpu.cpp:211-215 | The flag-writing forms store the helper's result in V[X] and its flag in VF. With X = F, VF ends up holding the result. Other registers are unchanged. |
| CpuProperties.StepAddRegisters | src/cpu.cpp:106-112 | `8xy4`: V[X] = (V[X]+V[Y]) mod 256, and VF = 1 exactly on carry (X /= F). |
| CpuProperties.StepSubtractRegisters | src/cpu.cpp:114-125 | `8xy5`/`8xy7`: V[X] is the absolute difference, and VF = 1 exactly when the minuend is at least the subtrahend (X /= F). |
| CpuProperties.StepShiftRegister | src/cpu.cpp:127-139 | `8xy6`/`8xyE`: the shifted-out bit lands in VF (X /= F) and V[X] holds the shifted byte. |
| CpuProperties.StepLoadAddress | src/cpu.cpp:225-228 | `Annn` sets only I, to NNN. |
| CpuProperties.StepRandom | src/cpu.cpp:233-239 | `Cxnn` stores the random byte AND NN in V[X] alone; the result is a bitwise subset of NN. |
| CpuProperties.SubtractVersusWrap | src/cpu.cpp:114-125 | For all bytes a, b: `subtract` returns the wrapped a - b exactly when a >= b or b - a = 128; otherwise it returns the absolute difference instead. |
| Interpreter.Cpu.OpenRom | src/cpu.cpp:21-29 | The new object's state is `CpuSpec.Boot` of the ROM bytes. |
| Interpreter.Cpu.FetchOpcode | src/cpu.cpp:33-40 | Returns memory[PC]*256 + memory[PC+1] with the nibbles of the two bytes, reading only. |
| Interpreter.Cpu.StackTop | src/cpu.cpp:62-69 | Returns the word whose high byte is memory[SP] and whose low byte is memory[SP+1]. |
| Interpreter.Cpu.StackPop | src/cpu.cpp:71-74 | The new state is `CpuSpec.Pop` of the old. |
| Interpreter.Cpu.StackPush | src/cpu.cpp:76-82 | The new state is `CpuSpec.Push` of the old. |
| Interpreter.Cpu.JumpTo | src/cpu.cpp:84-87 | Only PC changes, to the address. |
| Interpreter.Cpu.CallSubroutine | src/cpu.cpp:89-93 | The new state is `CpuSpec.Call` of the old. |
| Interpreter.Cpu.ReturnFromCall | src/cpu.cpp:95-99 | The new state is `CpuSpec.Return` of the old. |
| Interpreter.Cpu.SkipNextOpcode | src/cpu.cpp:101-104 | The new state is `CpuSpec.Skip` of the old. |
| Interpreter.Cpu.Add | src/cpu.cpp:106-112 | Writes the carry to VF alone and returns the sum of `CpuSpec.Add`. |
| Interpreter.Cpu.Subtract | src/cpu.cpp:114-125 | Writes "no borrow" to VF alone and returns the difference of `CpuSpec.Subtract`. |
| Interpreter.Cpu.LShift | src/cpu.cpp:127-132 | Writes bit 7 to VF alone and returns the result of `CpuSpec.ShiftLeft`. |
| Interpreter.Cpu.RShift | src/cpu.cpp:134-139 | Writes bit 0 to VF alone and returns the result of `CpuSpec.ShiftRight`. |
| Interpreter.Cpu.ExecuteArithmetic | src/cpu.cpp:203-217 | The registers become `CpuSpec.Arithmetic` of the old registers. |
| Interpreter.Cpu.Dispatch | src/cpu.cpp:157-254 | The new state is `CpuSpec.Execute` of the old state and the opcode. |
| Interpreter.Cpu.ExecuteOpcode | src/cpu.cpp:151-257 | The new state is `CpuSpec.Step` of the old state. |
| Disassembler.HexChar | src/disassembler.cpp:54-72 | A nibble renders as an upper-case hex digit. |
| Disassembler.HexValue | src/disassembler.cpp:54-72 | The value read back from a character is below 16. |
| Disassembler.HexCharRoundTrip | src/disassembler.cpp:54-72 | Reading back a rendered nibble gives the nibble. |
| Disassembler.HexValueRoundTrip | src/disassembler.cpp:54-72 | Every hex digit is the rendering of its value. |
| Disassembler.Render | src/disassembler.cpp:45-75 | The text has four characters, each a hex digit. |
| Disassembler.ShiftedNibbleIsField | src/disassembler.cpp:50-53 | `uint8_t(opcode >> 4*(3-i)) & 0xF` is the i-th nibble, most significant first. |
| Disassembler.Type | src/disassembler.cpp:45-75 | The loop returns the four-digit rendering, nibble i at character i. |
| Disassembler.RenderInjective | src/disassembler.cpp:45-75 | Opcodes with the same rendering are equal. |
| Disassembler.Comp | src/disassembler.cpp:77-90 | True exactly when each of the four pattern characters is n, x or y or equals the text's character. |
| Disassembler.LiteralPattern | src/disassembler.cpp:77-90 | A pattern without wildcards matches exactly the text equal to it. |
| Disassembler.Matches | src/disassembler.cpp:77-90 | The four-position wildcard test; `Disassembler.Comp` is proved to compute it. |
| Disassembler.HexText | src/disassembler.cpp:97-98 | The hex text of a value has the requested width. |
| Disassembler.OperandText | src/disassembler.cpp:94-100 | The address operand is characters 1-3 (NNN in hex), the byte characters 2-3 (NN), the nibble character 3 (N), Vx and Vy are "V" and the X or Y digit. |
| Disassembler.Classify | src/disassembler.cpp:92-137 | Render the opcode, then run the chain; `Disassembler.ClassifyIsDecode`, `NopExactlyUndefined`, `ZeroFamily` and `FirstNibbleDecides` state what it reports. |
| Disassembler.ClassifyText | src/disassembler.cpp:102-137 | The 35-pattern chain; `Disassembler.FirstMatchWins` and `NopWhenNothingMatches` state it against the `PATTERNS` table. |
| Disassembler.Decode | src/disassembler.cpp:102-137 | The reference table by nibbles; `Disassembler.ClassifyIsDecode` proves the chain equal to it. |
| Disassembler.ClassifyIsDecode | src/disassembler.cpp:102-137 | The first-match chain over the text equals the nibble-level reference table `Decode`. |
| Disassembler.NopWhenNothingMatches | src/disassembler.cpp:102-137 | The chain reports NOP exactly when none of the 35 patterns matches. |
| Disassembler.FirstMatchWins | src/disassembler.cpp:102-136 | The chain reports the first matching pattern, whatever later ones also match. |
| Disassembler.ReportedPatternMatches | src/disassembler.cpp:102-136 | A reported instruction's pattern matches the opcode's text. |
| Disassembler.ZeroFamily | src/disassembler.cpp:102-104 | In family 0: 00E0 is CLS, 00EE is RET (although `0nnn` matches them), every other opcode is SYS. |
| Disassembler.FirstNibbleDecides | src/disassembler.cpp:105-125 | For families 1, 2, 3, 4, 6, 7, A, B, C and D, the pattern and mnemonic depend on the first nibble alone. |
| Disassembler.NopExactlyUndefined | src/disassembler.cpp:109-137 | NOP is printed exactly for the unused forms of families 5, 8, 9, E and F. |
| Keyboard.KeyMap | src/io.cpp:124-141 | A mapped key gives a hex digit below 16. |
| Keyboard.KeyMapOnto | src/io.cpp:124-141 | Every digit 0x0..0xF is the image of some key. |
| Keyboard.KeyForMapped | src/io.cpp:124-141 | A mapped key is the key its digit sits on. |
| Keyboard.KeyMapInjective | src/io.cpp:124-141 | No two keys give the same digit. |
| Keyboard.Apply | src/io.cpp:123-145 | One update on one event; `Keyboard.KeyDownWhenReleased`, `KeyDownWhenHeld`, `KeyUpReleases` and `OtherIgnored` state each case. |
| Keyboard.KeyDownWhenReleased | src/io.cpp:123-143 | A key going down with none held sets `key_pressed`, and records the digit of a mapped key; an unmapped key keeps the old value. |
| Keyboard.KeyDownWhenHeld | src/io.cpp:123 | A key going down while one is held changes neither field. |
| Keyboard.KeyUpReleases | src/io.cpp:144-145 | A key going up clears `key_pressed` and keeps `key_value`. |
| Keyboard.OtherIgnored | src/io.cpp:123-145 | Any other event changes neither field. |
| Keyboard.ApplyIdempotent | src/io.cpp:116-146 | Handling the same event twice is handling it once. |
| Keyboard.ApplyKeepsRange | src/io.cpp:116-146 | `key_value` stays a hex digit or 0xFF. |
| Keyboard.ApplyAgrees | src/io.cpp:123-145 | After a key-down event a key is held. |
| Keyboard.StaleEventHarmless | src/io.cpp:118 | With no key held, re-reading the last event changes nothing. |
| Keyboard.Run | src/io.cpp:105-106 | Repeated updates over a sequence of events; `Keyboard.RunSnoc` and `RunKeepsRange` state it. |
| Keyboard.RunSnoc | src/io.cpp:105-106 | Reading one more event is one more `Apply` on the latch the earlier events left. |
| Keyboard.RunKeepsRange | src/io.cpp:116-146 | Any sequence of updates keeps `key_value` a hex digit or 0xFF. |
| Keyboard.Wait | src/io.cpp:103-109 | The key `wait_key` returns; `Keyboard.WaitIsFirstPress` and `WaitNone` state it. |
| Keyboard.WaitIsFirstPress | src/io.cpp:103-109 | `wait_key` returns the value held after the first prefix of the events at which a key is held. |
| Keyboard.WaitNone | src/io.cpp:103-109 | `wait_key` finds no key exactly when no prefix of the events leaves a key held. |
| Keyboard.IO.constructor | include/CHIP-8/io.h:45-46 | The object starts with no key held, `key_value` = 0xFF and no event read. |
| Keyboard.IO.Update | src/io.cpp:116-146 | Polls the next event, or keeps the stale one when the queue is empty; the latch becomes `Apply` of the old latch and that event. |
| Keyboard.IO.WaitKey | src/io.cpp:103-109 | Returns `Wait` of the old latch and events. It reads a prefix of the queue, stopping at the first event after which a key is held. The latch is `Run` over that prefix and `event` is that prefix's last event. On a key, a key is held and the result is `key_value`; on None the queue is empty and no key is held. |
| Keyboard.IO.LastKey | src/io.cpp:111-114 | Returns `key_value`, a hex digit or 0xFF, and changes nothing. |
| Consistency.UndefinedHasNoEffect | src/disassembler.cpp:137 | Every opcode the classifier reports as NOP is one whose `execute_opcode` arm changes no CPU state. |
| Consistency.StepOverNop | src/cpu.cpp:151-257 | Stepping over an opcode the classifier reports as NOP only advances PC by two. |

## Left out

- ROM loading. The model starts from the state after loading (`CpuSpec.Boot`) and leaves out several details of `open_rom` (src/cpu.cpp:15-31):
  - the `ifstream` reading and the early return when the file does not open;
  - the formatted `>>` extraction, which skips whitespace bytes;
  - the missing bounds check on ROMs longer than 3584 bytes;
  - the infinite `for(;;)` loop.
- Interpreter.Cpu.OpenRom: the read loop at src/cpu.cpp:26 has no body of its own, so `program_counter = 512` runs once per byte read. The model sets PC = 512 unconditionally, which is wrong only for an empty ROM, where the source leaves PC uninitialised.
- The registers and I are never initialised by the source. `OpenRom` and `Boot` take them as parameters.
- The display is not modelled: `display->clear()`, `draw(X,Y,N)` and `draw_sprite` (src/cpu.cpp:141-149, whose body is incomplete). CLS and DRW change no CPU state in the model.
- `srand(time)`/`rand()` in `Cxnn` is not modelled. The random byte is the parameter `rnd`.
- Memory accesses out of range are undefined behaviour in the source, which checks no bounds. The model requires them to be in range (`CanStep`, `StackFits`) rather than giving them a meaning. PC+2 and PC+4 then stay below 2^16, so their 16-bit wrap never arises.
- The header-only declarations of include/CHIP-8/cpu.h are not modelled. That header uses different member names and declares DT, ST, BCD, font and register-dump operations whose bodies are not part of this model. DT and ST are never read or written by src/cpu.cpp.
- `Disassembler::run` and its file reading are not modelled, nor its `reinterpret_cast` byte combination (src/disassembler.cpp:30-43). The `printf`/`cout` output is left out too: the model returns a tagged `Listing` carrying the operand texts instead of printing them.
- The `SDL_QUIT` branch of `IO::update`, which calls `exit()` (src/io.cpp:120-121), is not modelled. Quit events are among `Other`.
- Keyboard.IO.WaitKey: when the queue runs out with no key held, the source spins for ever re-reading the stale event. The model stops after one such re-read, which it proves changes nothing, and returns None.
- Keyboard.IO.constructor: the SDL event buffer starts uninitialised in the source. The model starts it as `Other`.
- The window, renderer and drawing parts of `IO` are not modelled: src/io.cpp:5-101, besides `key_pressed = false`.
- src/timer.cpp, src/display.cpp and src/main.cpp are not part of this model.

# CHIP-8 interpreter core, modelled in Dafny

This project models the interpreter core of `chip8.py`, a CHIP-8 emulator, and
proves facts about the model. The parts modelled are:

- the machine state built by `Chip8.__init__`: memory with the font at 0,
  sixteen 8-bit registers, `I`, `pc`, the 16-entry call stack and `sp`, the
  64x32 screen, the 17-slot key array and the two timers;
- the ROM copy of `load`;
- one `emulate_cycle`, as a fetch, a decode into an `Instr` datatype, an
  execute and the uniform `pc += 2`;
- the 8- and 16-bit masking of the `Byte` and `Short` wrappers;
- the 60 Hz timer decrement of `main`.

One cycle is the pure function `Cpu.Step(s, rnd)`. `rnd` is the byte that
`randint` would return for `Cxkk`.

Modules follow the structure of the interpreter:

- `Word`: the integer widths, `Byte`/`Short` masking, and the bitwise
  operators defined bit by bit.
- `Opcode`: field extraction and the decoding cascade.
- `Alu`: the `8xyN` flag-setting operations.
- `Display`: the screen and the `Dxyn` drawing loop.
- `Machine`: the state, start-up, ROM load and timers.
- `Transfer`: `Fx33`, `Fx55` and `Fx65` on memory.
- `Cpu`: fetch, execute and one cycle.
- Per-instruction lemmas about one whole cycle:
  - `Flow`: program counter and stack;
  - `Registers`: register instructions;
  - `Graphics`: screen instructions;
  - `Storage`: `I`, memory and timer instructions.
- `Quirks`: where this interpreter departs from textbook CHIP-8.
- `Program`: many cycles in a row.
- `Scenarios`: short programs run from start-up.

When the code would index outside memory, the stack or the key array, Python
raises `IndexError` and the interpreter stops. In the model each such access
is a precondition of the instruction (`Cpu.Executable`, and `Cpu.CanStep` for
the whole cycle). A multi-cycle run (`Program.Run`) ends in `Fault` at the
first cycle that could not execute. Three cases come up:

- **ROM size.** The copy loop of `load` stores byte `i` at `memory[i + 0x200]`
  with no bound (chip8.py:83-90). A ROM over 3584 bytes indexes past memory,
  so `Machine.Load` requires the ROM to fit above `0x200`.
- **Stack depth.** `00EE` decrements `sp` and reads `stack[sp]`
  (chip8.py:123-124); `2nnn` writes `stack[sp]` and then increments `sp`
  (chip8.py:139-140). A return with `sp == 0` or a call with `sp == 16`
  indexes outside the stack, so the model requires `sp > 0` and `sp < 16`.
- **Addresses.** `Dxyn`, `Fx33`, `Fx55` and `Fx65` index memory at `I` plus
  an offset with no reduction modulo 4096 (chip8.py:242, 316-318, 324, 330).
  Every address used must be below 4096.

Some of those sums are `Short` values and wrap to 16 bits: `I + y_index` in
`Dxyn` (chip8.py:242), `I + 1` and `I + 2` in `Fx33` (chip8.py:317-318), and
`I + i` in `Fx55` (chip8.py:324). `Fx65` adds `int(I) + i` (chip8.py:330),
which does not wrap. `Transfer.Bcd` and `Transfer.StoreFrom` write at the
wrapped addresses, as the code does. `Cpu.Sprite`, `Transfer.LoadFrom` and the
preconditions use plain sums. The two agree: the offset is below 16 and the
addresses must be below 4096, so the sum never reaches `0x10000`.

Drawing the same sprite twice at one place restores the screen, and the second
draw sets VF exactly when the sprite covers a pixel that was 0 before the
first draw. The first draw inverts the covered pixels, so those are the pixels
that are 1 when the second draw runs (`Display.SecondDrawCollides`,
`Graphics.DrawTwiceStep`).

## Model

| member | source | states |
|---|---|---|
| `Word.Byte` | chip8.py:360-362 | the byte congruent to the argument modulo 256, and the argument itself when it already fits |
| `Word.Short` | chip8.py:425-427 | the 16-bit value congruent to the argument modulo 65536, and the argument itself when it fits |
| `Word.Flag` | chip8.py:185 | a comparison stored in a register is 1 exactly when it holds and 0 exactly when it fails |
| `Word.Shr` | chip8.py:391-392 | a right shift never grows its operand and shifts out everything below `2^k` |
| `Word.ShrIsDiv` | chip8.py:391-392 | `a >> k` is `a` divided by `2^k`, rounding down |
| `Word.ShrPow2` | chip8.py:247 | shifting the single bit `2^m` right by `k <= m` leaves the single bit `2^(m-k)` |
| `Word.AndPow2` | chip8.py:247 | masking with the single bit `2^j` gives a nonzero result exactly when bit `j` is set |
| `Word.AndBits` | chip8.py:394-395 | `a & b` on `w` bits fits in `w` bits and is at most either operand |
| `Word.OrBits` | chip8.py:397-398 | the OR of `a` and `b` on `w` bits fits in `w` bits and is at least each operand that fits |
| `Word.XorBits` | chip8.py:400-401 | `a ^ b` on `w` bits fits in `w` bits |
| `Word.And8` | chip8.py:176-177 | the byte AND of `8xy2` and `Cxkk` is at most either operand |
| `Word.Or8` | chip8.py:172-173 | the byte OR of `8xy1` is at least either operand |
| `Word.AndOneIsLowBit` | chip8.py:195 | `Vx & 1` is the low bit of `Vx` |
| `Word.AndBitsBit` | chip8.py:394-395 | bit `k` of `a & b` is set exactly when bit `k` is set in both |
| `Word.OrBitsBit` | chip8.py:397-398 | bit `k` of the OR of `a` and `b` is set exactly when bit `k` is set in either |
| `Word.XorBitsBit` | chip8.py:400-401 | bit `k` of `a ^ b` is set exactly when the operands' bits `k` differ |
| `Opcode.Split` | chip8.py:97-102 | the nibbles `op x y n` rebuild the word; `kk` is `y n` and `nnn` is `x kk` |
| `Opcode.SplitJoin` | chip8.py:97-102 | splitting the word built from consistent fields gives those fields back |
| `Opcode.JoinSplit` | chip8.py:97-102 | the fields of a word are consistent and rebuild it |
| `Opcode.Decode` | chip8.py:97-342 | a word decodes to `Unknown` exactly when its fields are not a combination the cascade recognises, and `Unknown` carries that word |
| `Opcode.Dispatch` | chip8.py:115-342 | the cascade over `op` yields `Unknown` exactly when the fields are not recognised (families `0`, `8`, `E`, `F` only for their listed codes), carrying the word |
| `Opcode.DecodeSystem` | chip8.py:115-131 | in family `0`, the result is `Unknown` exactly when the low byte is neither `E0` nor `EE`, and carries the word |
| `Opcode.DecodeArith` | chip8.py:166-213 | in family `8`, the result is `Unknown` exactly when the low nibble is outside `0`-`7` and `E`, and carries the word |
| `Opcode.DecodeKeys` | chip8.py:265-283 | in family `E`, the result is `Unknown` exactly when the low byte is neither `9E` nor `A1`, and carries the word |
| `Opcode.DecodeMisc` | chip8.py:285-337 | in family `F`, the result is `Unknown` exactly when the low byte is not one of `07 0A 15 18 1E 29 33 55 65`, and carries the word |
| `Opcode.DecodeEncode` | chip8.py:115-337 | every instruction the cascade recognises decodes back from its canonical word |
| `Opcode.DecodeFamily` | chip8.py:115-342 | a recognised word decodes to an instruction whose canonical word has the same `op` nibble |
| `Opcode.DispatchFamily` | chip8.py:115-342 | the cascade picks the instruction family by `op` alone |
| `Opcode.SystemFields` | chip8.py:115-124 | `00E0` and `00EE` are told apart by the low byte, which their canonical words keep |
| `Opcode.ArithFields` | chip8.py:166-206 | an `8xyN` operation keeps `x` and the selecting nibble `N` in its canonical word, and `y` except in the two shifts |
| `Opcode.KeysFields` | chip8.py:265-276 | the key tests keep `x` and the selecting low byte in their canonical words |
| `Opcode.MiscFields` | chip8.py:285-330 | the `Fx` operations keep `x` and the selecting low byte in their canonical words |
| `Alu.AddCarry` | chip8.py:184-186 | for `x, y != F`, VF and Vx together hold the 9-bit sum; VF is 1 exactly on carry; no other register but VF and Vx changes |
| `Alu.SubBorrow` | chip8.py:189-191 | for `x, y != F`, VF is 1 exactly when Vx > Vy, the new Vx plus Vy is the old Vx modulo 256, and no other register changes |
| `Alu.SubReverse` | chip8.py:199-201 | for `x, y != F`, the difference lands in Vy, VF is 1 exactly when Vy > Vx, Vx is kept when `x != y`, and no other register changes |
| `Alu.ShiftRight` | chip8.py:194-196 | for `x != F`, twice the new Vx plus VF is the old Vx, VF is one bit, and no other register changes |
| `Alu.ShiftLeft` | chip8.py:204-206 | for `x != F`, 256 times VF plus the new Vx is twice the old Vx, and no other register changes |
| `Display.Blank` | chip8.py:118 | every pixel of the cleared screen is 0 |
| `Display.Flip` | chip8.py:250 | `gfx[pos] ^= 1` inverts the lowest bit and keeps the others |
| `Display.FlipFlip` | chip8.py:250 | inverting a pixel twice restores it |
| `Display.FlipLit` | chip8.py:248-250 | an inverted cell is 1 exactly when the cell was 0 |
| `Display.BitSetIsBit` | chip8.py:247 | the mask `0x80 >> col` tests bit `7 - col` of the sprite byte, so columns run from the most significant bit |
| `Display.PixelIndex` | chip8.py:246 | the wrapped position of a sprite bit is always a cell of the screen |
| `Display.IndexInverse` | chip8.py:246 | the sprite row and column are recovered from the cell they land on |
| `Display.IndexOnto` | chip8.py:246 | every cell is where the row and column recovered from it land |
| `Display.DrawRow` | chip8.py:244-250 | a collision flag once set stays set through the rest of the row |
| `Display.DrawRows` | chip8.py:240-250 | a collision flag once set stays set through the remaining rows |
| `Display.DrawRowGfx` | chip8.py:244-250 | after one sprite row, exactly the cells hit by its set bits are inverted |
| `Display.DrawRowHit` | chip8.py:247-249 | after one sprite row, the collision flag is set exactly when it was already set or a set bit met a lit pixel |
| `Display.DrawRowsGfx` | chip8.py:240-250 | after the remaining rows, exactly the cells they cover are inverted |
| `Display.DrawRowsHit` | chip8.py:239-250 | after the remaining rows, the flag is set exactly when it was set or a set bit of some remaining row met a lit pixel |
| `Display.Draw` | chip8.py:234-250 | the sprite inverts exactly the cells it covers, keeps all others, and reports a collision exactly when a set bit met a lit pixel |
| `Display.DrawKeepsBinary` | chip8.py:248-250 | drawing on a 0/1 screen leaves a 0/1 screen |
| `Display.DrawTwiceRestores` | chip8.py:240-250 | drawing the same sprite at the same place twice restores the screen |
| `Display.CollidesCovered` | chip8.py:247-249 | a collision happens exactly when a covered cell is lit |
| `Display.SecondDrawCollides` | chip8.py:239-250 | on any screen the second identical draw collides exactly when a covered cell was 0 before the first draw |
| `Machine.Init` | chip8.py:24-61 | start-up: font at 0 and zeros above it, pc 0x200, sp, I, timers, registers and stack all 0, every pixel 0, no key held, key slot 0x10 at its "no key" value |
| `Machine.CopyRom` | chip8.py:83-90 | the copy loop puts the remaining ROM bytes at `0x200 + k` and keeps every other byte |
| `Machine.Load` | chip8.py:78-90 | the ROM lands at 0x200 in order; the rest of memory and the rest of the state are unchanged |
| `Machine.Boot` | chip8.py:490-492 | after start-up and load: font in place, ROM at 0x200 and every other byte above the font 0, pc 0x200, registers, stack, I, sp and timers 0, every pixel 0, keys at their start-up values |
| `Machine.Tick` | chip8.py:502-508 | each nonzero timer drops by exactly one, a zero timer stays zero, nothing else changes |
| `Machine.Ticks` | chip8.py:502-508 | over `k` ticks the timers never grow and nothing else changes |
| `Machine.TicksSaturate` | chip8.py:502-508 | after `k` ticks each timer is its old value minus `k`, or 0, and nothing else has changed |
| `Transfer.Bcd` | chip8.py:315-318 | three decimal digits at I, I+1, I+2 that spell Vx; no other byte changes |
| `Transfer.StoreFrom` | chip8.py:322-324 | the store loop puts `Vj` at `I + j` for the remaining `j <= x` and keeps every other byte |
| `Transfer.LoadFrom` | chip8.py:328-330 | the load loop sets `Vj` to the byte at `I + j` for the remaining `j <= x` and keeps the other registers |
| `Transfer.StoreThenLoad` | chip8.py:320-330 | loading back what was just stored restores every register |
| `Cpu.Fetch` | chip8.py:93-95 | the fetched word's high byte is `memory[pc]` and its low byte `memory[pc + 1]` |
| `Cpu.Sprite` | chip8.py:240-242 | the sprite is the `n` bytes from `I` on |
| `Cpu.Executable` | chip8.py:121-330 | holds exactly when the instruction's stack, key-array and memory accesses are in range: `sp > 0` for a return, `sp < 16` for a call, the key named by Vx below 17, and the addresses `Dxyn`, `Fx33`, `Fx55` and `Fx65` use below 4096 |
| `Cpu.CanStep` | chip8.py:92-342 | holds exactly when the fetch at `pc` and `pc + 1` and the decoded instruction stay in range |
| `Cpu.Control` | chip8.py:115-295 | `00E0`, `00EE`, `1nnn`, `2nnn`, the skips (`3xkk`, `4xkk`, `5xy0`, `9xy0`, `Ex9E`, `ExA1`), `Bnnn` and `Fx0A` keep the stack pointer within the 16-entry stack |
| `Cpu.Exec` | chip8.py:115-342 | every executable instruction keeps the stack pointer within the stack |
| `Cpu.Step` | chip8.py:92-344 | a cycle keeps the stack pointer within the stack and does not touch the key array |
| `Flow.SkipEqImmStep` | chip8.py:144-146 | `3xkk` advances pc by 4 when `Vx == kk` and by 2 otherwise, changing nothing else |
| `Flow.SkipNeImmStep` | chip8.py:149-151 | `4xkk` advances pc by 4 when `Vx != kk` and by 2 otherwise |
| `Flow.SkipEqRegStep` | chip8.py:154-156 | `5xy0` advances pc by 4 when `Vx == Vy` and by 2 otherwise |
| `Flow.SkipNeRegStep` | chip8.py:216-218 | `9xy0` advances pc by 4 when `Vx != Vy` and by 2 otherwise |
| `Flow.SkipKeyStep` | chip8.py:268-270 | `Ex9E` advances pc by 4 when the key named by Vx is held and by 2 otherwise |
| `Flow.SkipNoKeyStep` | chip8.py:274-276 | `ExA1` advances pc by 4 when the key named by Vx is not held and by 2 otherwise |
| `Flow.JumpStep` | chip8.py:134-135 | `1nnn` leaves pc at `nnn` and changes nothing else |
| `Flow.JumpV0Step` | chip8.py:225-226 | `Bnnn` leaves pc at `(nnn + V0) mod 65536` and changes nothing else |
| `Flow.CallStep` | chip8.py:138-141 | `2nnn` pushes its own address, increments sp and leaves pc at `nnn` |
| `Flow.StepStackFrame` | chip8.py:121-141 | a cycle writes the stack only at slot `sp`; every other slot is kept |
| `Flow.RetStep` | chip8.py:122-124 | `00EE` decrements sp and continues 2 past the popped address |
| `Flow.CallThenReturn` | chip8.py:121-141 | a call at `a` whose target is `00EE` leaves pc at `a + 2` and sp as before, with `a` in the pushed slot |
| `Flow.WaitKeyBlocks` | chip8.py:291-295 | `Fx0A` with no key pressed leaves the whole state, pc included, unchanged |
| `Flow.WaitKeyTakes` | chip8.py:291-293 | `Fx0A` with key `k` pressed sets `Vx = k` and advances pc by 2 |
| `Flow.UnknownStep` | chip8.py:339-344 | an unrecognised word only advances pc by 2 |
| `Registers.LoadImmStep` | chip8.py:159-160 | `6xkk` sets Vx to kk and advances pc; nothing else changes |
| `Registers.AddImmStep` | chip8.py:163-164 | `7xkk` adds kk to Vx modulo 256 and changes no other register, VF included |
| `Registers.MoveStep` | chip8.py:168-169 | `8xy0` copies Vy into Vx |
| `Registers.OrStep` | chip8.py:172-173 | `8xy1` sets each bit of Vx to the OR of the operands' bits; no other register changes |
| `Registers.AndStep` | chip8.py:176-177 | `8xy2` sets each bit of Vx to the AND of the operands' bits; no other register changes |
| `Registers.XorStep` | chip8.py:180-181 | `8xy3` sets each bit of Vx when the operands' bits differ; no other register changes |
| `Registers.AddRegStep` | chip8.py:184-186 | `8xy4` with `x, y != F`: Vx is the sum modulo 256, VF is 1 exactly on carry, only Vx, VF and pc change |
| `Registers.SubRegStep` | chip8.py:189-191 | `8xy5` with `x, y != F`: Vx is the difference modulo 256, VF is 1 exactly when Vx > Vy, only Vx, VF and pc change |
| `Registers.SubRevStep` | chip8.py:199-201 | `8xy7` with `x, y != F`: Vy is `Vy - Vx` modulo 256, VF is 1 exactly when Vy > Vx, Vx is kept when `x != y` |
| `Registers.ShiftRightStep` | chip8.py:194-196 | `8xy6` with `x != F`: Vx is halved and VF holds the bit shifted out |
| `Registers.ShiftLeftStep` | chip8.py:204-206 | `8xyE` with `x != F`: Vx is doubled modulo 256 and VF holds the bit shifted out |
| `Registers.RandomStep` | chip8.py:229-230 | `Cxkk` sets each bit of Vx to the AND of kk and the random byte, so Vx is at most kk |
| `Quirks.SkipEqRegIgnoresN` | chip8.py:154-156 | `5xyn` decodes as the register-equality skip for every low nibble |
| `Quirks.SkipNeRegIgnoresN` | chip8.py:216-218 | `9xyn` decodes as the register-inequality skip for every low nibble |
| `Quirks.SystemIgnoresX` | chip8.py:115-124 | `0xE0` is a clear and `0xEE` a return for every `x` |
| `Quirks.ShiftsIgnoreY` | chip8.py:193-206 | `8xy6` and `8xyE` decode the same for every `y` |
| `Quirks.AddReadsFreshFlag` | chip8.py:184-186 | `8xF4` adds the freshly written carry, not the old VF |
| `Quirks.AddIntoFlagLosesCarry` | chip8.py:184-186 | `8Fy4` overwrites the carry with `carry + Vy` modulo 256 |
| `Quirks.SubReadsFreshFlag` | chip8.py:189-191 | `8xF5` subtracts the freshly written flag, not the old VF |
| `Quirks.SubRevSameRegister` | chip8.py:199-201 | `8xx7` leaves both Vx and VF at 0, for every `x` including `F` |
| `Quirks.ShiftRightFlagRegister` | chip8.py:194-196 | `8F06` always leaves VF at 0 |
| `Quirks.ShiftLeftFlagRegister` | chip8.py:204-206 | `8F0E` leaves VF at twice the bit shifted out |
| `Graphics.ClsStep` | chip8.py:116-118 | `00E0` turns every pixel off and changes nothing but the screen and pc |
| `Graphics.DrawStep` | chip8.py:234-250 | `Dxyn` inverts exactly the covered cells at the old `(Vx, Vy)`, sets VF exactly on collision, changes nothing else |
| `Graphics.DrawTwiceStep` | chip8.py:234-250 | two identical `Dxyn` cycles restore the screen, and the second sets VF exactly when a covered pixel was 0 before the first |
| `Graphics.StepKeepsBinary` | chip8.py:248-250 | every cycle keeps every pixel 0 or 1 |
| `Storage.LoadIStep` | chip8.py:221-222 | `Annn` sets I to nnn |
| `Storage.AddIStep` | chip8.py:306-307 | `Fx1E` sets I to `(I + Vx) mod 65536` and changes nothing else |
| `Storage.FontCharStep` | chip8.py:310-311 | `Fx29` sets I to `5 * Vx`; for a hex digit the five bytes there are its glyph |
| `Storage.GetDelayStep` | chip8.py:287-288 | `Fx07` copies the delay timer into Vx |
| `Storage.SetDelayStep` | chip8.py:298-299 | `Fx15` sets the delay timer from Vx |
| `Storage.SetSoundStep` | chip8.py:302-303 | `Fx18` sets the sound timer from Vx |
| `Storage.BcdStep` | chip8.py:315-318 | `Fx33` writes Vx's hundreds, tens and ones digit at I, I+1, I+2 and changes no other byte |
| `Storage.StoreRegsStep` | chip8.py:322-324 | `Fx55` copies V0..Vx to I..I+x and changes no other byte, nor I |
| `Storage.LoadRegsStep` | chip8.py:328-330 | `Fx65` loads V0..Vx from I..I+x and keeps the other registers and I |
| `Storage.StoreThenLoadStep` | chip8.py:320-330 | `Fx55` then `Fx65` with the same x and I leaves every register as before and memory as the store left it |
| `Program.Run` | chip8.py:495-497 | a run keeps the stack pointer within the stack and the keys as given, and stops with a fault only where the next cycle cannot execute |
| `Program.RunAppend` | chip8.py:495-497 | running two byte sequences in turn is running their concatenation; a fault in the first ends the whole run |
| `Program.RunKeepsBinary` | chip8.py:495-497 | any run keeps every pixel 0 or 1 |
| `Program.FrameKept` | chip8.py:121-141 | a run whose stack pointer stays above `k` at every visited state leaves stack slot `k` as it was |
| `Program.CallBodyReturn` | chip8.py:121-141 | a call at `a`, any subroutine body (nested calls included) that stays above the caller's stack depth, and the matching `00EE` come back to `a + 2` with sp as before and `a` in the pushed slot |
| `Scenarios.AddThree` | chip8.py:158-186 | `6xkk; 6xkk; 8xy4` from 0x200 ends at 0x206 with V0 the 8-bit sum and VF its carry |
| `Scenarios.AddScenario` | chip8.py:158-186 | the program `V0 := 10; V1 := 5; V0 += V1` ends with V0 = 15, V1 = 5, VF = 0 |
| `Scenarios.CarryScenario` | chip8.py:158-186 | the program `V0 := 250; V1 := 10; V0 += V1` ends with V0 = 4 and VF = 1 |
| `Scenarios.CallThree` | chip8.py:121-141 | `call 0x204; 00EE; jump 0x202` from 0x200 with an empty stack ends at 0x202 with sp 0 and 0x200 in the first slot |
| `Scenarios.CallScenario` | chip8.py:121-141 | the same program loaded at start-up runs three cycles to that end state |
| `Scenarios.TimerScenario` | chip8.py:502-508 | delay and sound timers of 5 each read 1 after four ticks and 0 after five and six |

## Left out

- Rendering is left out: the pygame window, the pixel array writes and the colour lookup. The screen is the `gfx` array only.
- Key polling, the event loop and the quit handling are left out, and so is the key map. The key array is plain state that a caller sets between cycles; `Cpu.Step` leaves it as it was.
- The logging and unknown-opcode prints are left out; they do not change state.
- The file opening and reading in `load` is left out. The ROM is a byte sequence.
- The wall-clock scheduling of `main` and the argument parsing are left out. `Machine.Tick` is the decrement applied at each 60 Hz tick; `Program.Run` does not interleave ticks with cycles.
- `randint` is left out. The byte it returns is a parameter of each cycle.
- The `opcode` attribute is not kept in the state. It is overwritten at the start of every cycle (chip8.py:93) and read only within that cycle, to extract the fields (chip8.py:97-102) and for logging, so the model passes the fetched word straight to `Opcode.Decode`.
- The source has no encoder. `Opcode.Encode` is the model's own canonical word for an instruction; a nibble the instruction does not use is 0 there. It serves as the partner of `Opcode.Decode`.
- Registers.AddRegStep: requires `x, y != F`. When an operand is VF, the code reads VF after the carry is written. `Quirks.AddReadsFreshFlag` and `Quirks.AddIntoFlagLosesCarry` state those cases, except `8FF4`.
- Registers.SubRegStep: requires `x, y != F`. `Quirks.SubReadsFreshFlag` states the `y == F` case; `x == F` is not stated.
- Registers.SubRevStep: requires `x, y != F`. The flag-register cases are not stated.
- Registers.ShiftRightStep: requires `x != F`. `Quirks.ShiftRightFlagRegister` states that case.
- Registers.ShiftLeftStep: requires `x != F`. `Quirks.ShiftLeftFlagRegister` states that case.
- Alu.AddCarry: the sum and carry are stated only for `x, y != F`.
- Alu.SubBorrow: the difference and flag are stated only for `x, y != F`.
- Alu.SubReverse: the difference and flag are stated only for `x, y != F`.
- Alu.ShiftRight: the result and flag are stated only for `x != F`.
- Alu.ShiftLeft: the result and flag are stated only for `x != F`.
- Graphics.DrawTwiceStep: requires `x, y != F`. Otherwise the first draw's VF moves the second sprite.
- Word.XorBits: its contract states only the width. The bitwise meaning is `Word.XorBitsBit`.
- Cpu.Exec: its contract states only that the stack pointer stays within the stack. The effect of each instruction is stated by the cycle lemmas in `Flow`, `Registers`, `Graphics` and `Storage`.
- Cpu.Control: its contract states only that the stack pointer stays within the stack. The effect of each control instruction is stated by the cycle lemmas in `Flow`.
- Cpu.Step: its contract states only that the stack pointer stays within the stack and the key array is unchanged. The effect of each instruction over a whole cycle is stated by the cycle lemmas in `Flow`, `Registers`, `Graphics` and `Storage`.
- Program.Run: the key array is held fixed for the whole run. The polling step after each cycle (chip8.py:346-357), which resets slot 0x10 and reads the keyboard, is not applied between cycles. A caller that needs it runs one stretch at a time (`Program.RunAppend`) and sets the keys in between.

# go-chip8 core in Dafny

This project models the CHIP-8 interpreter core of `adrichey/go-chip8`. That core is the `chip8` machine of `emulator/emulator.go`:
- its boot sequence (`newChip8` without SDL);
- the ROM copy loop of `LoadChip8ROM`;
- the fetch–decode–execute–decay `cycle`;
- the 34 instruction handlers `op00E0` … `opFx65`.

It also models the two screen types: `screen` in `emulator/screen.go`, and `Screen`/`Platform` in `platform/platform.go`.

The model has two layers:

- **`Machine`** (`machine.dfy`) is the whole machine as a value. It has one function per Go handler, the nested `switch` of `cycle` as `Execute` and its per-family parts, the fetch, the timer decay, `Boot` and `LoadRom`.
  - Every place where the Go code would index an array out of range, and so panic, gives `Fail(panic)` instead of a state.
  - The randomness of `randomByte` (`rand.IntN(255)`) is a parameter `rnd`. The class methods require `rnd < 255`.
- **`Emulator.Chip8`** (`emulator.dfy`) is the `chip8` struct as a class over arrays. Its methods update the arrays in the order the Go code does, using the same loops.
  - Each method is proved to leave the machine in the state that the `Machine` function gives for the old state: `Snapshot() == Machine.X(old(Snapshot()))`.
  - Methods that can panic are proved to return the same panic (`Reached`).
- **`MachineProperties`** (`properties.dfy`) proves what the functions mean:
  - the boot state;
  - that the nested switch agrees with a flat decode table;
  - the frame of each handler;
  - the fetch;
  - the timer decay;
  - the VF flag of each arithmetic instruction;
  - that RET undoes CALL;
  - the BCD digits;
  - that LD Vx, [I] undoes LD [I], Vx;
  - the DRW semantics and its double-draw round trip;
  - the key wait;
  - the scenario programs.
- **`EmulatorScreen.Screen`** (`screen.dfy`) and **`Platform`** (`platform.dfy`) model the screen types and their `reset`/`draw`.
- **`Words`** (`words.dfy`) holds Go's `byte`/`uint16`/`uint32` as integer subsets, with every wrap-around written out.

Quirks of the Go code that the model keeps as written:

- 8xy5, 8xy6, 8xy7 and 8xyE write VF before Vx. 8xy4 computes the sum first, then writes VF, then Vx.
  - So with x = F the flag is overwritten by the result.
  - With y = F, 8xy5 and 8xy7 read the new flag.
- Cxkk does `Vx += rnd & kk`: it adds, it does not assign.
- Dxyn toggles the single pixel `pixels[y][x]` once per set bit of the sprite. Here x and y are the opcode's register-index nibbles, not the register values, and there are no row or column offsets.
- Fx55 and Fx65 address `byte(I) + i`, a byte sum, so the addresses wrap at 256.
- Fx0A with no key pressed does `PC -= 2`, so the instruction runs again on the next cycle. Otherwise it stores the lowest pressed key.
- In families 0, 8 and E only the low nibble selects the instruction. A sub-code that matches nothing does nothing; the timers still decay.
- SP is a byte:
  - RET with SP = 0 wraps SP to 255, and `stack[255]` panics.
  - RET with SP above 16 panics.
  - CALL with SP ≥ 16 panics.
- The timers decay once per cycle, after the handler.

Where the code departs from its own comments, or from the CHIP-8 instruction set it cites (emulator/emulator.go:405-407), the model follows the code:

- Timers: the comment at emulator/emulator.go:53-57 gives the CHIP-8 rate of 60 Hz and says the code decrements once per clock cycle instead. The model decays once per `Cycle`.
- Cxkk: the comment (683) says "Vx = random byte AND kk". The code adds `rnd & kk` to Vx.
- Dxyn: the comment (694) draws the sprite "at (Vx, Vy)". The code toggles the one pixel `pixels[y][x]`, addressed by the register-index nibbles.
- Fx55 and Fx65: the comments (844, 857) speak of memory "starting at location I". The code addresses `byte(I) + i`, which wraps at 256.
- Fx0A: the comment (763-765) describes waiting for a key as rewinding PC by 2. There is no separate waiting state, and the model does the same.
- Unknown sub-codes: the instruction set defines no other sub-codes in families 0, 8, E and F. The code silently ignores them, and so does the model.

## Model

| member | source | states |
|---|---|---|
| Machine.WithFont | emulator/emulator.go:102-124 | cell 0x50 + k holds glyph byte k for k < 80; every other cell keeps its old value |
| Machine.LoadRom | emulator/emulator.go:186-188 | the copy fails exactly when the ROM is longer than 4096 − 0x200, then with RomTooLarge; otherwise cell 0x200 + i holds ROM byte i, every other cell and every other field is unchanged |
| Machine.FirstPressed | emulator/emulator.go:770-775 | a found key index lies between the start index and the keypad size |
| Emulator.Chip8.constructor | emulator/emulator.go:91-172 | the new machine is exactly `Boot()`: zero registers, stack, timers, I, SP and opcode, the font in zeroed memory, PC = 0x200, a cleared screen |
| Emulator.Chip8.ZeroRegisters | emulator/emulator.go:94-96 | all 16 registers are 0 |
| Emulator.Chip8.ZeroMemory | emulator/emulator.go:98-100 | all 4096 cells are 0 |
| Emulator.Chip8.LoadFont | emulator/emulator.go:122-124 | memory becomes `WithFont` of the old memory |
| Emulator.Chip8.ZeroStack | emulator/emulator.go:126-128 | all 16 stack slots are 0 |
| Emulator.Chip8.LoadRom | emulator/emulator.go:186-188 | the copy loop reaches `Machine.LoadRom` of the old machine, or reports RomTooLarge exactly when that fails |
| Emulator.LoadChip8Rom | emulator/emulator.go:175-191 | building a machine and copying the ROM reports a fault exactly when the ROM exceeds 3584 bytes, and that fault is RomTooLarge |
| Emulator.Chip8.Op00E0 | emulator/emulator.go:414-420 | the nested loops leave the state of `Machine.Op00E0` (every pixel 0, nothing else changed) |
| Emulator.Chip8.Op00EE | emulator/emulator.go:426-429 | reaches `Machine.Op00EE`: SP − 1 (byte), PC from the stack, or StackUnderflow |
| Emulator.Chip8.Op1nnn | emulator/emulator.go:437-441 | reaches `Machine.Op1nnn`: PC = nnn |
| Emulator.Chip8.Op2nnn | emulator/emulator.go:447-452 | reaches `Machine.Op2nnn`: push PC, SP + 1, PC = nnn, or StackOverflow |
| Emulator.Chip8.Op3xkk | emulator/emulator.go:459-466 | reaches `Machine.Op3xkk`: skip when Vx = kk |
| Emulator.Chip8.Op4xkk | emulator/emulator.go:473-480 | reaches `Machine.Op4xkk`: skip when Vx ≠ kk |
| Emulator.Chip8.Op5xy0 | emulator/emulator.go:487-494 | reaches `Machine.Op5xy0`: skip when Vx = Vy |
| Emulator.Chip8.Op6xkk | emulator/emulator.go:500-505 | reaches `Machine.Op6xkk`: Vx = kk |
| Emulator.Chip8.Op7xkk | emulator/emulator.go:511-516 | reaches `Machine.Op7xkk`: Vx += kk mod 256 |
| Emulator.Chip8.Op8xy0 | emulator/emulator.go:522-527 | reaches `Machine.Op8xy0`: Vx = Vy |
| Emulator.Chip8.Op8xy1 | emulator/emulator.go:533-538 | reaches `Machine.Op8xy1`: Vx \|= Vy |
| Emulator.Chip8.Op8xy2 | emulator/emulator.go:544-549 | reaches `Machine.Op8xy2`: Vx &= Vy |
| Emulator.Chip8.Op8xy3 | emulator/emulator.go:555-560 | reaches `Machine.Op8xy3`: Vx ^= Vy |
| Emulator.Chip8.Op8xy4 | emulator/emulator.go:568-580 | reaches `Machine.Op8xy4`: sum first, then VF, then Vx |
| Emulator.Chip8.Op8xy5 | emulator/emulator.go:587-598 | reaches `Machine.Op8xy5`: VF first, then Vx −= Vy |
| Emulator.Chip8.Op8xy6 | emulator/emulator.go:606-614 | reaches `Machine.Op8xy6`: VF = low bit, then Vx >>= 1 |
| Emulator.Chip8.Op8xy7 | emulator/emulator.go:621-632 | reaches `Machine.Op8xy7`: VF first, then Vx = Vy − Vx |
| Emulator.Chip8.Op8xyE | emulator/emulator.go:640-647 | reaches `Machine.Op8xyE`: VF = high bit, then Vx <<= 1 |
| Emulator.Chip8.Op9xy0 | emulator/emulator.go:654-661 | reaches `Machine.Op9xy0`: skip when Vx ≠ Vy |
| Emulator.Chip8.OpAnnn | emulator/emulator.go:667-670 | reaches `Machine.OpAnnn`: I = nnn |
| Emulator.Chip8.OpBnnn | emulator/emulator.go:676-679 | reaches `Machine.OpBnnn`: PC = V0 + nnn (uint16) |
| Emulator.Chip8.OpCxkk | emulator/emulator.go:685-690 | reaches `Machine.OpCxkk`: Vx += rnd & kk |
| Emulator.Chip8.OpDxyn | emulator/emulator.go:700-722 | the row and column loops reach `Machine.OpDxyn`, or SpriteOutOfRange |
| Emulator.Chip8.DrawRows | emulator/emulator.go:707-721 | fails exactly when a sprite row address is past memory; otherwise `pixels[y][x]` is toggled once per set sprite bit, VF records whether a toggle found it on, no other pixel or register changes |
| Emulator.Chip8.XorSpriteByte | emulator/emulator.go:709-720 | one sprite byte toggles `pixels[y][x]` once per set bit and keeps the collision flag up to date |
| Emulator.Chip8.XorSpriteBit | emulator/emulator.go:711-719 | one column: a set bit toggles the pixel, a clear bit changes nothing |
| Emulator.Chip8.TogglePixel | emulator/emulator.go:713-718 | VF = 1 when the pixel was 1, then the pixel flips; nothing else changes |
| Emulator.Chip8.OpEx9E | emulator/emulator.go:729-736 | reaches `Machine.OpEx9E`, or KeyOutOfRange |
| Emulator.Chip8.OpExA1 | emulator/emulator.go:743-750 | reaches `Machine.OpExA1`, or KeyOutOfRange |
| Emulator.Chip8.OpFx07 | emulator/emulator.go:756-759 | reaches `Machine.OpFx07`: Vx = DT |
| Emulator.Chip8.OpFx0A | emulator/emulator.go:767-778 | the keypad scan reaches `Machine.OpFx0A`: lowest pressed key into Vx, or PC −= 2 |
| Emulator.Chip8.OpFx15 | emulator/emulator.go:784-787 | reaches `Machine.OpFx15`: DT = Vx |
| Emulator.Chip8.OpFx18 | emulator/emulator.go:793-796 | reaches `Machine.OpFx18`: ST = Vx |
| Emulator.Chip8.OpFx1E | emulator/emulator.go:802-805 | reaches `Machine.OpFx1E`: I += Vx (uint16) |
| Emulator.Chip8.OpFx29 | emulator/emulator.go:812-817 | reaches `Machine.OpFx29`: I = 0x50 + 5·Vx |
| Emulator.Chip8.OpFx33 | emulator/emulator.go:826-840 | the three writes reach `Machine.OpFx33`, or BcdOutOfRange |
| Emulator.Chip8.OpFx55 | emulator/emulator.go:846-853 | the store loop reaches `Machine.OpFx55` |
| Emulator.Chip8.OpFx65 | emulator/emulator.go:859-866 | the load loop reaches `Machine.OpFx65` |
| Emulator.Chip8.Execute | emulator/emulator.go:266-349 | the nested switch reaches `Machine.Execute` of the old machine, panics included |
| Emulator.Chip8.ExecuteFamily0 | emulator/emulator.go:267-273 | `case 0x0000` reaches `Machine.Execute` |
| Emulator.Chip8.ExecuteFamily8 | emulator/emulator.go:288-308 | `case 0x8000` reaches `Machine.Execute` |
| Emulator.Chip8.ExecuteFamilyE | emulator/emulator.go:319-325 | `case 0xE000` reaches `Machine.Execute` |
| Emulator.Chip8.ExecuteFamilyF | emulator/emulator.go:326-346 | `case 0xF000` reaches `Machine.Execute` |
| Emulator.Chip8.Cycle | emulator/emulator.go:256-360 | fetch, PC += 2, execute and the decay reach `Machine.Cycle` of the old machine, panics included |
| EmulatorScreen.Screen.constructor | emulator/screen.go:8-10 | a fresh 32×64 window with every pixel 0 |
| EmulatorScreen.Screen.Reset | emulator/screen.go:12-18 | every one of the 32×64 pixels is 0 afterwards, whatever it held, so a second reset changes nothing |
| EmulatorScreen.Screen.Draw | emulator/screen.go:20-25 | the window is unchanged |
| Platform.Screen.constructor | platform/platform.go:8-10 | a fresh 32×64 window with every pixel 0 |
| Platform.Screen.Reset | platform/platform.go:12-18 | every one of the 32×64 pixels is 0 afterwards, whatever it held, so a second reset changes nothing |
| Platform.Screen.Draw | platform/platform.go:20-25 | the window is unchanged |
| Platform.Platform.constructor | platform/platform.go:27-30 | no key pressed and a cleared screen |
| Platform.Platform.ResetScreen | platform/platform.go:12-18 | resetting a platform's screen clears it and leaves every key of the keypad as it was |
| MachineProperties.BootState | emulator/emulator.go:91-172 | after `newChip8`, every register, stack slot, key, timer, I, SP and opcode is 0, PC = 0x200, memory is the font at 0x50..0x9F and 0 elsewhere, and every pixel is 0 |
| MachineProperties.LoadRomKeepsFont | emulator/emulator.go:175-191 | a ROM that fits loads into the boot state at 0x200, the font stays intact, and nothing but memory differs from the boot state |
| MachineProperties.DecodeReadsLowNibble | emulator/emulator.go:266-325 | in families 0, 8 and E, two opcodes with the same low nibble decode alike, whatever their middle nibbles |
| MachineProperties.DecodeNoMatch | emulator/emulator.go:266-349 | an opcode matches no handler exactly when its family is 0, 8, E or F and its sub-code is not one the switch lists |
| MachineProperties.ExecuteRuns | emulator/emulator.go:266-349 | the nested switch runs the handler the flat decode table `Run` names, for every opcode |
| MachineProperties.Execute0Runs | emulator/emulator.go:267-273 | family 0 agrees with the decode table |
| MachineProperties.Execute8Runs | emulator/emulator.go:288-308 | family 8 agrees with the decode table |
| MachineProperties.ExecuteERuns | emulator/emulator.go:319-325 | family E agrees with the decode table |
| MachineProperties.ExecuteFRuns | emulator/emulator.go:326-346 | family F agrees with the decode table |
| MachineProperties.ExecuteOneRuns | emulator/emulator.go:274-318 | each single-handler family runs its handler, whatever the low bits |
| MachineProperties.ExecuteConfined | emulator/emulator.go:266-349 | a handler that completes keeps the opcode and keypad; only LD DT/ST set a timer, and to Vx; only CLS/DRW touch pixels; only CALL/RET touch SP and the stack; only LD B/LD [I] write memory |
| MachineProperties.Execute0Confined | emulator/emulator.go:267-273 | the frame above for family 0 |
| MachineProperties.Execute8Confined | emulator/emulator.go:288-308 | the frame above for family 8 |
| MachineProperties.ExecuteEConfined | emulator/emulator.go:319-325 | the frame above for family E |
| MachineProperties.ExecuteFConfined | emulator/emulator.go:326-346 | the frame above for family F |
| MachineProperties.ExecuteOneConfined | emulator/emulator.go:274-318 | the frame above for the single-handler families |
| MachineProperties.ExecuteFaults | emulator/emulator.go:266-349 | execution panics exactly when the instruction is RET, CALL, DRW, SKP, SKNP or LD B and that handler panics |
| MachineProperties.FetchFault | emulator/emulator.go:260 | the fetch is possible exactly when PC < 4095; otherwise the cycle fails with FetchOutOfRange |
| MachineProperties.FetchWord | emulator/emulator.go:259-263 | the opcode is `memory[PC]·256 + memory[PC+1]` (big-endian), its high and low bytes are those cells, PC moves on by 2 and nothing else changes |
| MachineProperties.CycleOk | emulator/emulator.go:256-360 | when the handler ends in t, the cycle ends in t with both timers decayed |
| MachineProperties.CycleCompletes | emulator/emulator.go:256-360 | a cycle that completes had a valid fetch and a handler that completed, and its result is that handler's state with decayed timers |
| MachineProperties.CycleFetchesBigEndian | emulator/emulator.go:259-263 | a completed cycle had PC < 4095, saw the big-endian word at PC as its opcode, and left the keypad alone |
| MachineProperties.CycleNoMatch | emulator/emulator.go:266-360 | an opcode that matches nothing changes only the opcode, PC (+2) and the timers (decayed) |
| MachineProperties.CycleTimers | emulator/emulator.go:351-359 | after the handler each timer goes down by one if non-zero and stays at zero otherwise, counted from Vx for LD DT/ST and from the old value otherwise |
| MachineProperties.AddByteKeepsFlag | emulator/emulator.go:511-516 | 7xkk wraps mod 256, never touches VF or any other register, and changes nothing else |
| MachineProperties.AddRegCarry | emulator/emulator.go:568-580 | 8xy4 (x ≠ F): VF = 1 iff the sum exceeds 255, and VF:Vx is the 9-bit sum; other registers unchanged |
| MachineProperties.SubFlag | emulator/emulator.go:587-598 | 8xy5: VF = 1 iff Vx > Vy (0 when equal), Vx = Vx − Vy mod 256; others unchanged |
| MachineProperties.SubnFlag | emulator/emulator.go:621-632 | 8xy7: VF = 1 iff Vy > Vx, Vx = Vy − Vx mod 256; others unchanged |
| MachineProperties.ShrFlag | emulator/emulator.go:606-614 | 8xy6: VF is the bit shifted out, 2·Vx' + VF = Vx |
| MachineProperties.ShlFlag | emulator/emulator.go:640-647 | 8xyE: VF is the bit shifted out, Vx' + 256·VF = 2·Vx |
| MachineProperties.FlagRegisterAsDestination | emulator/emulator.go:568-647 | with x = F the result overwrites the flag (8xy4, 8xy6), or is computed from the flag just written (8xy5, 8xy7, 8xyE) |
| MachineProperties.FlagRegisterAsSource | emulator/emulator.go:587-632 | with y = F, 8xy5 and 8xy7 still set VF = 1 iff Vx > old VF (resp. old VF > Vx), but subtract using the flag just written |
| MachineProperties.StackFaults | emulator/emulator.go:426-452 | CALL panics exactly when SP ≥ 16; RET exactly when SP = 0 or SP > 16 |
| MachineProperties.CallThenReturn | emulator/emulator.go:426-452 | CALL pushes PC and jumps to nnn, touching no other stack slot, and RET after it restores PC and SP |
| MachineProperties.ExecuteCall | emulator/emulator.go:447-452 | an opcode decoding to CALL, below a full stack, pushes PC, bumps SP and jumps to nnn |
| MachineProperties.ExecuteRet | emulator/emulator.go:426-429 | an opcode decoding to RET on a non-empty stack pops PC and lowers SP |
| MachineProperties.CycleCall | emulator/emulator.go:447-452 | a CALL cycle pushes the PC after the fetch, bumps SP, jumps to nnn and decays the timers |
| MachineProperties.CycleRet | emulator/emulator.go:426-429 | a RET cycle on a non-empty stack pops PC, lowers SP and decays the timers |
| MachineProperties.CycleCallThenReturn | emulator/emulator.go:426-452 | a CALL cycle followed by a RET cycle continues at the instruction after the CALL, with SP and the registers as before |
| MachineProperties.CycleKeepsStackBound | emulator/emulator.go:426-452 | SP stays within 0..16 over every cycle that completes |
| MachineProperties.BcdDigits | emulator/emulator.go:826-840 | Fx33 fails exactly when I + 2 is past memory; otherwise I, I+1, I+2 hold digits ≤ 9 whose decimal value is Vx, and nothing else changes |
| MachineProperties.DecimalDigits | emulator/emulator.go:830-839 | a byte equals its hundreds, tens and ones digits recombined |
| MachineProperties.WrappedOffset | emulator/emulator.go:851 | cell a is `byte(I) + i` exactly when a < 256 and a − byte(I) ≡ i mod 256 |
| MachineProperties.StoredCells | emulator/emulator.go:850-852 | after k steps of the store loop, each cell holds its register if it is one of the k wrapped targets and its old value otherwise |
| MachineProperties.StoredFrame | emulator/emulator.go:850-852 | the store loop writes `v[i]` at `base + i` (byte sum) and leaves every other cell alone |
| MachineProperties.LoadedRegisters | emulator/emulator.go:863-865 | after k steps of the load loop, V0..V(k−1) hold the wrapped cells and the others are unchanged |
| MachineProperties.StoreRegsFrame | emulator/emulator.go:846-853 | Fx55 writes V0..Vx at `byte(I) + i`, touches no other cell and changes nothing but memory |
| MachineProperties.LoadRegsFrame | emulator/emulator.go:859-866 | Fx65 reads `byte(I) + i` into V0..Vx, keeps the higher registers and changes nothing else |
| MachineProperties.StoreThenLoad | emulator/emulator.go:846-866 | Fx65 after Fx55 with the same x and I gives back all 16 registers |
| MachineProperties.CycleStoreThenLoad | emulator/emulator.go:846-866 | over two cycles, LD [I], Vx then LD Vx, [I] with the same x leaves every register as it was |
| MachineProperties.ToggledParity | emulator/emulator.go:718 | k toggles leave a pixel as it was for even k and flipped for odd k |
| MachineProperties.HitCases | emulator/emulator.go:711-718 | some toggle finds the pixel on exactly when the first finds it on, or the second finds it on after the first flip |
| MachineProperties.DrawFault | emulator/emulator.go:707-708 | DRW panics exactly when n > 0 and I + n passes the end of memory |
| MachineProperties.SetPixelBack | emulator/emulator.go:718 | writing a pixel back restores the grid |
| MachineProperties.DrawFrame | emulator/emulator.go:700-722 | DRW changes only VF and `pixels[y][x]`; the pixel is toggled once per set sprite bit; VF = 1 exactly when a toggle found it on |
| MachineProperties.DrawTwiceRestores | emulator/emulator.go:700-722 | for a pixel that holds 0 or 1, drawing the same sprite twice restores the screen; the second draw reports a collision unless the sprite has no set bit, or exactly one and the pixel started on |
| MachineProperties.CycleKeepsPixelsBinary | emulator/emulator.go:256-360 | a cycle keeps every pixel in {0, 1} |
| MachineProperties.FontGlyph | emulator/emulator.go:812-817 | with the font loaded and Vx < 16, Fx29 points I at the five bytes of glyph Vx |
| MachineProperties.FirstPressedIsLowest | emulator/emulator.go:770-775 | the scan finds a pressed key with none pressed before it, and finds nothing only when no key is pressed |
| MachineProperties.CycleWaitsForKey | emulator/emulator.go:767-778 | an Fx0A cycle with no key pressed stays on the same instruction with the registers unchanged; otherwise Vx gets the lowest pressed key and PC moves on; the timers decay either way |
| MachineProperties.KeySkips | emulator/emulator.go:729-750 | SKP/SKNP panic exactly when Vx ≥ 16, and otherwise skip exactly when key Vx is pressed / not pressed |
| MachineProperties.ArithmeticExamples | emulator/emulator.go:568-647 | 0xFF + 0x01 gives 0 with VF = 1; 5 − 10 gives 0xFB with VF = 0; 0x81 shifted right gives 0x40 and shifted left gives 0x02, both with VF = 1 |
| MachineProperties.BcdExample | emulator/emulator.go:826-840 | Vx = 234 writes 2, 3, 4 |
| MachineProperties.CycleLdByte | emulator/emulator.go:500-505 | one cycle of `6xkk` sets Vx = kk, moves PC by 2, records the opcode and decays the timers, and nothing else changes |
| MachineProperties.CycleAddReg | emulator/emulator.go:568-580 | one cycle of `8014` sets V0 to the wrapped sum and VF to the carry, moves PC by 2 and decays the timers |
| MachineProperties.AddProgramLoads | emulator/emulator.go:500-505 | `60 05 61 03` run for two cycles sets V0 = 5, V1 = 3 and PC + 4, without writing memory |
| MachineProperties.AddProgramAdds | emulator/emulator.go:568-580 | `80 14` with V0 = 5 and V1 = 3 gives V0 = 8, V1 = 3, VF = 0 and PC + 2 |
| MachineProperties.AddProgram | emulator/emulator.go:256-360 | `60 05 61 03 80 14` at PC, run for three cycles, gives V0 = 8, V1 = 3, VF = 0 and PC + 6 |
| MachineProperties.AddProgramFromBoot | emulator/emulator.go:175-191 | the same program loaded as a ROM into the boot state gives V0 = 8, V1 = 3, VF = 0 and PC = 0x206 after three cycles |
| MachineProperties.CycleLdIndex | emulator/emulator.go:667-670 | one cycle of `Annn` sets I = nnn, moves PC by 2, records the opcode and decays the timers, and nothing else changes |
| MachineProperties.BitsBeforeZero | emulator/emulator.go:711 | a zero sprite byte has no set column bit |
| MachineProperties.SetBitsZero | emulator/emulator.go:707-711 | sprite rows that are all zero have no set bit |
| MachineProperties.DrawBlankSprite | emulator/emulator.go:700-722 | `D015` over five zero bytes at I leaves the screen exactly as it was and only clears VF |
| MachineProperties.CycleDrawBlankSprite | emulator/emulator.go:700-722 | one cycle of `D015` over five zero bytes at I toggles no pixel, sets VF = 0 and moves PC by 2, with nothing else changed but the opcode and the timers |
| MachineProperties.DrawProgramLoads | emulator/emulator.go:256-360 | `A2 50 60 00 61 00` run for three cycles sets I = 0x250 and PC + 6, without writing memory or pixels |
| MachineProperties.DrawProgram | emulator/emulator.go:256-360 | `A2 50 60 00 61 00 D0 15` at PC, with zeros at 0x250..0x254, leaves the screen as it was, VF = 0 and PC + 8 after four cycles |
| MachineProperties.DrawProgramFromBoot | emulator/emulator.go:175-191 | the same program loaded as a ROM into the boot state leaves the screen blank and VF = 0 after four cycles, because I = 0x250 is past the font and the ROM |

## Left out

- SDL set-up and teardown in `newChip8` (emulator/emulator.go:138-168) and `update` (363-371): these are foreign calls into the display library.
- `processInput` (193-248): it polls SDL keyboard events. The keypad is an array the core only reads; its contents are whatever the host wrote.
- `Run` (382-399): it is the host loop, paced by the wall clock. The model is one `Cycle` at a time.
- The memory dump `fmt.Println` at the top of `cycle` (257), the printing in `draw`, and the unreachable `log.Fatal` default case (348): output only, and every top nibble has a case.
- `os.ReadFile` in `LoadChip8ROM` (176) and its error path: file I/O. The ROM is a byte-sequence parameter.
- `randomByte` (868-870): `math/rand` is replaced by the parameter `rnd`, which is required to be below 255.
- main.go is not part of this model.
- The state after a Go panic: the process ends, so a `Fail` result carries no state. The class methods make the same writes Go makes up to the faulting access:
  - the ROM bytes that fit, in `Chip8.LoadRom`;
  - the Fx33 digits at the addresses in range;
  - the earlier rows' toggles in `DrawRows`;
  - the lowered SP in `Op00EE`.
  Their `Reached(Fail(_), _)` contract says nothing about the arrays and fields after such a fault.

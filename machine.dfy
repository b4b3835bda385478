/** The CHIP-8 interpreter of emulator/emulator.go as functions on a value
    of the whole machine state.  One function per instruction handler, the
    dispatch of `cycle`, the fetch, the timer decay, boot and the ROM copy.
    The class in module Emulator is proved to do exactly what these
    functions say; module MachineProperties proves what they mean.

    The places where the Go code indexes an array out of range (and so
    panics and ends the process) give `Fail(...)` here. */
module Machine {
  import opened Words

  const StartAddress: u16 := 0x200
  const FontsetStartAddress: u16 := 0x50
  const MemorySize := 4096
  const VideoHeight := 32
  const VideoWidth := 64

  /** Register VF, the flag register. */
  const VF: nibble := 0xF

  type Registers = s: seq<byte> | |s| == 16 witness seq(16, _ => 0)
  type Memory = s: seq<byte> | |s| == MemorySize witness seq(MemorySize, _ => 0)
  type Stack = s: seq<u16> | |s| == 16 witness seq(16, _ => 0)
  type Keypad = s: seq<byte> | |s| == 16 witness seq(16, _ => 0)

  /** One row of the pixel grid. */
  type Row = r: seq<u32> | |r| == VideoWidth witness seq(VideoWidth, _ => 0)
  /** The pixel grid, indexed [row][column]. */
  type Grid = g: seq<Row> | |g| == VideoHeight
    witness seq<Row>(VideoHeight, _ => seq(VideoWidth, _ => 0))

  /** The cleared screen: every pixel 0. */
  function Blank(): Grid { seq(VideoHeight, _ => seq(VideoWidth, _ => 0)) }

  /** The fields of the Go `chip8` struct, without the SDL handles. */
  datatype State = State(
    registers: Registers,
    memory: Memory,
    index: u16,
    pc: u16,
    stack: Stack,
    sp: byte,
    delayTimer: byte,
    soundTimer: byte,
    opcode: u16,
    keypad: Keypad,
    pixels: Grid)

  /** The array access at which the Go code would panic. */
  datatype Panic =
    | FetchOutOfRange    // memory[pc] or memory[pc+1]
    | StackUnderflow     // stack[sp-1] in RET
    | StackOverflow      // stack[sp] in CALL
    | SpriteOutOfRange   // memory[I+row] in DRW
    | KeyOutOfRange      // keypad[Vx] in SKP / SKNP
    | BcdOutOfRange      // memory[I], memory[I+1], memory[I+2] in LD B, Vx
    | RomTooLarge        // memory[0x200+i] in the ROM copy

  datatype Result = Ok(state: State) | Fail(panic: Panic)

  /** The 16 glyphs 0..F, five bytes each. */
  const Font: seq<byte> := [
    0xF0, 0x90, 0x90, 0x90, 0xF0, // 0
    0x20, 0x60, 0x20, 0x20, 0x70, // 1
    0xF0, 0x10, 0xF0, 0x80, 0xF0, // 2
    0xF0, 0x10, 0xF0, 0x10, 0xF0, // 3
    0x90, 0x90, 0xF0, 0x10, 0x10, // 4
    0xF0, 0x80, 0xF0, 0x10, 0xF0, // 5
    0xF0, 0x80, 0xF0, 0x90, 0xF0, // 6
    0xF0, 0x10, 0x20, 0x40, 0x40, // 7
    0xF0, 0x90, 0xF0, 0x90, 0xF0, // 8
    0xF0, 0x90, 0xF0, 0x10, 0xF0, // 9
    0xF0, 0x90, 0xF0, 0x90, 0x90, // A
    0xE0, 0x90, 0xE0, 0x90, 0xE0, // B
    0xF0, 0x80, 0x80, 0x80, 0xF0, // C
    0xE0, 0x90, 0x90, 0x90, 0xE0, // D
    0xF0, 0x80, 0xF0, 0x80, 0xF0, // E
    0xF0, 0x80, 0xF0, 0x80, 0x80  // F
  ]


  // ---------------------------------------------------------------- operands

  /** `(opcode & 0xF000) >> 12` */
  function Family(op: u16): nibble { op / 0x1000 }
  /** `(opcode & 0x0F00) >> 8` */
  function X(op: u16): nibble { (op / 0x100) % 0x10 }
  /** `(opcode & 0x00F0) >> 4` */
  function Y(op: u16): nibble { (op / 0x10) % 0x10 }
  /** `opcode & 0x000F` */
  function N(op: u16): nibble { op % 0x10 }
  /** `opcode & 0x00FF` */
  function KK(op: u16): byte { op % 0x100 }
  /** `opcode & 0x0FFF` */
  function NNN(op: u16): u16 { op % 0x1000 }

  // -------------------------------------------------------------------- boot

  /** `memory` with the font copied to 0x50..0x9F. */
  function WithFont(memory: Memory): (m: Memory)
    ensures forall a :: 0 <= a < MemorySize ==>
      m[a] == if FontsetStartAddress <= a < FontsetStartAddress + |Font| then Font[a - FontsetStartAddress] else memory[a]
  {
    memory[..FontsetStartAddress] + Font + memory[FontsetStartAddress + |Font|..]
  }

  /** The state `newChip8` builds: everything zero, the font at 0x50, PC at
      0x200 and the screen cleared by `op00E0`. */
  function Boot(): State {
    State(
      registers := seq(16, _ => 0),
      memory := WithFont(seq(MemorySize, _ => 0)),
      index := 0,
      pc := StartAddress,
      stack := seq(16, _ => 0),
      sp := 0,
      delayTimer := 0,
      soundTimer := 0,
      opcode := 0,
      keypad := seq(16, _ => 0),
      pixels := Blank())
  }

  /** The copy loop of `LoadChip8ROM`: byte `i` of the ROM goes to
      0x200 + i; the first index past the end of memory panics. */
  function LoadRom(s: State, rom: seq<byte>): (r: Result)
    ensures r.Fail? <==> |rom| > MemorySize - StartAddress
    ensures r.Fail? ==> r.panic == RomTooLarge
    ensures r.Ok? ==> r.state == s.(memory := r.state.memory)
    ensures r.Ok? ==> forall a :: 0 <= a < MemorySize ==>
      r.state.memory[a] == if StartAddress <= a < StartAddress + |rom| then rom[a - StartAddress] else s.memory[a]
  {
    if |rom| > MemorySize - StartAddress then Fail(RomTooLarge)
    else Ok(s.(memory := s.memory[..StartAddress] + rom + s.memory[StartAddress + |rom|..]))
  }

  // ---------------------------------------------------------------- handlers

  /** 00E0 CLS */
  function Op00E0(s: State): State {
    s.(pixels := Blank())
  }

  /** 00EE RET: the byte stack pointer is lowered first (0 wraps to 255). */
  function Op00EE(s: State): Result {
    var top := Sub8(s.sp, 1);
    if top >= 16 then Fail(StackUnderflow)
    else Ok(s.(sp := top, pc := s.stack[top]))
  }

  /** 1nnn JP addr */
  function Op1nnn(s: State): State {
    s.(pc := NNN(s.opcode))
  }

  /** 2nnn CALL addr */
  function Op2nnn(s: State): Result {
    if s.sp >= 16 then Fail(StackOverflow)
    else Ok(s.(stack := s.stack[s.sp := s.pc], sp := Add8(s.sp, 1), pc := NNN(s.opcode)))
  }

  /** PC += 2 when `cond` holds. */
  function SkipIf(s: State, cond: bool): State {
    if cond then s.(pc := Add16(s.pc, 2)) else s
  }

  /** 3xkk SE Vx, byte */
  function Op3xkk(s: State): State {
    SkipIf(s, s.registers[X(s.opcode)] == KK(s.opcode))
  }

  /** 4xkk SNE Vx, byte */
  function Op4xkk(s: State): State {
    SkipIf(s, s.registers[X(s.opcode)] != KK(s.opcode))
  }

  /** 5xy0 SE Vx, Vy (the low nibble is not checked) */
  function Op5xy0(s: State): State {
    SkipIf(s, s.registers[X(s.opcode)] == s.registers[Y(s.opcode)])
  }

  /** 6xkk LD Vx, byte */
  function Op6xkk(s: State): State {
    s.(registers := s.registers[X(s.opcode) := KK(s.opcode)])
  }

  /** 7xkk ADD Vx, byte */
  function Op7xkk(s: State): State {
    var x := X(s.opcode);
    s.(registers := s.registers[x := Add8(s.registers[x], KK(s.opcode))])
  }

  /** 8xy0 LD Vx, Vy */
  function Op8xy0(s: State): State {
    s.(registers := s.registers[X(s.opcode) := s.registers[Y(s.opcode)]])
  }

  /** 8xy1 OR Vx, Vy */
  function Op8xy1(s: State): State {
    var x, y := X(s.opcode), Y(s.opcode);
    s.(registers := s.registers[x := Or8(s.registers[x], s.registers[y])])
  }

  /** 8xy2 AND Vx, Vy */
  function Op8xy2(s: State): State {
    var x, y := X(s.opcode), Y(s.opcode);
    s.(registers := s.registers[x := And8(s.registers[x], s.registers[y])])
  }

  /** 8xy3 XOR Vx, Vy */
  function Op8xy3(s: State): State {
    var x, y := X(s.opcode), Y(s.opcode);
    s.(registers := s.registers[x := Xor8(s.registers[x], s.registers[y])])
  }

  /** 8xy4 ADD Vx, Vy: the 16-bit sum is taken first, then VF is written,
      then Vx. */
  function Op8xy4(s: State): State {
    var x, y := X(s.opcode), Y(s.opcode);
    var sum: int := s.registers[x] as int + s.registers[y] as int;
    var v := s.registers[VF := if sum > 255 then 1 else 0];
    s.(registers := v[x := sum % 0x100])
  }

  /** 8xy5 SUB Vx, Vy: VF is written first, and the subtraction reads the
      registers after that write. */
  function Op8xy5(s: State): State {
    var x, y := X(s.opcode), Y(s.opcode);
    var v := s.registers[VF := if s.registers[x] > s.registers[y] then 1 else 0];
    s.(registers := v[x := Sub8(v[x], v[y])])
  }

  /** 8xy6 SHR Vx: VF := Vx & 1, then Vx >>= 1 on the updated registers. */
  function Op8xy6(s: State): State {
    var x := X(s.opcode);
    var v := s.registers[VF := s.registers[x] % 2];
    s.(registers := v[x := v[x] / 2])
  }

  /** 8xy7 SUBN Vx, Vy: VF is written first, and the subtraction reads the
      registers after that write. */
  function Op8xy7(s: State): State {
    var x, y := X(s.opcode), Y(s.opcode);
    var v := s.registers[VF := if s.registers[y] > s.registers[x] then 1 else 0];
    s.(registers := v[x := Sub8(v[y], v[x])])
  }

  /** 8xyE SHL Vx: VF := (Vx & 0x80) >> 7, then Vx <<= 1 on the updated
      registers. */
  function Op8xyE(s: State): State {
    var x := X(s.opcode);
    var v := s.registers[VF := s.registers[x] / 0x80];
    s.(registers := v[x := (v[x] as int * 2) % 0x100])
  }

  /** 9xy0 SNE Vx, Vy (the low nibble is not checked) */
  function Op9xy0(s: State): State {
    SkipIf(s, s.registers[X(s.opcode)] != s.registers[Y(s.opcode)])
  }

  /** Annn LD I, addr */
  function OpAnnn(s: State): State {
    s.(index := NNN(s.opcode))
  }

  /** Bnnn JP V0, addr */
  function OpBnnn(s: State): State {
    s.(pc := Add16(s.registers[0], NNN(s.opcode)))
  }

  /** Cxkk RND Vx, byte: `Vx += rnd & kk`, with `rnd` the random byte. */
  function OpCxkk(s: State, rnd: byte): State {
    var x := X(s.opcode);
    s.(registers := s.registers[x := Add8(s.registers[x], And8(rnd, KK(s.opcode)))])
  }

  /** Every sprite row `memory[I+row]`, row < n, lies inside memory. */
  predicate SpriteInRange(memory: Memory, index: u16, n: nibble) {
    forall row :: 0 <= row < n ==> Add16(index, row) < MemorySize
  }

  /** The n sprite bytes `memory[I+row]`. */
  function Sprite(memory: Memory, index: u16, n: nibble): (rows: seq<byte>)
    requires SpriteInRange(memory, index, n)
  {
    seq(n, row requires 0 <= row < n => memory[Add16(index, row)])
  }

  /** How many of the first `col` bits of `b` (most significant first) are set. */
  function BitsBefore(b: byte, col: nat): nat
    requires col <= 8
  {
    if col == 0 then 0 else BitsBefore(b, col - 1) + if BitSet(b, col - 1) then 1 else 0
  }

  /** How many bits are set in the sprite rows. */
  function SetBits(rows: seq<byte>): nat {
    if rows == [] then 0 else SetBits(rows[..|rows| - 1]) + BitsBefore(rows[|rows| - 1], 8)
  }

  /** A pixel value after `k` toggles `^= 1`. */
  function Toggled(p: u32, k: nat): u32 {
    if k == 0 then p else Flip(Toggled(p, k - 1))
  }

  /** Whether one of the first `k` toggles of a pixel that starts at `p`
      found it equal to 1. */
  predicate Hit(p: u32, k: nat) {
    k > 0 && (Hit(p, k - 1) || Toggled(p, k - 1) == 1)
  }

  /** `g` with the pixel in row `y`, column `x` set to `p`. */
  function SetPixel(g: Grid, y: nat, x: nat, p: u32): Grid
    requires y < VideoHeight && x < VideoWidth
  {
    var row: Row := g[y][x := p];
    g[y := row]
  }

  /** Dxyn DRW Vx, Vy, n.  The Go code indexes `pixels[vy][vx]` with the
      register indices x and y of the opcode, so every set sprite bit toggles
      that one pixel; VF starts at 0 and becomes 1 when a toggle finds the
      pixel equal to 1. */
  function OpDxyn(s: State): Result {
    var x, y, n := X(s.opcode), Y(s.opcode), N(s.opcode);
    if !SpriteInRange(s.memory, s.index, n) then Fail(SpriteOutOfRange)
    else
      var k := SetBits(Sprite(s.memory, s.index, n));
      var p := s.pixels[y][x];
      Ok(s.(registers := s.registers[VF := if Hit(p, k) then 1 else 0], pixels := SetPixel(s.pixels, y, x, Toggled(p, k))))
  }

  /** Ex9E SKP Vx */
  function OpEx9E(s: State): Result {
    var key := s.registers[X(s.opcode)];
    if key >= 16 then Fail(KeyOutOfRange)
    else Ok(SkipIf(s, s.keypad[key] != 0))
  }

  /** ExA1 SKNP Vx */
  function OpExA1(s: State): Result {
    var key := s.registers[X(s.opcode)];
    if key >= 16 then Fail(KeyOutOfRange)
    else Ok(SkipIf(s, s.keypad[key] == 0))
  }

  /** Fx07 LD Vx, DT */
  function OpFx07(s: State): State {
    s.(registers := s.registers[X(s.opcode) := s.delayTimer])
  }

  /** The first index at or after `from` whose key is pressed. */
  function FirstPressed(keys: seq<byte>, from: nat): (r: Option<nat>)
    requires from <= |keys|
    ensures r.Some? ==> from <= r.value < |keys|
    decreases |keys| - from
  {
    if from == |keys| then None
    else if keys[from] != 0 then Some(from)
    else FirstPressed(keys, from + 1)
  }

  /** Fx0A LD Vx, K: stores the lowest pressed key, or moves PC back onto
      this instruction so that it runs again next cycle. */
  function OpFx0A(s: State): State {
    match FirstPressed(s.keypad, 0)
    case Some(k) => s.(registers := s.registers[X(s.opcode) := k])
    case None => s.(pc := Sub16(s.pc, 2))
  }

  /** Fx15 LD DT, Vx */
  function OpFx15(s: State): State {
    s.(delayTimer := s.registers[X(s.opcode)])
  }

  /** Fx18 LD ST, Vx */
  function OpFx18(s: State): State {
    s.(soundTimer := s.registers[X(s.opcode)])
  }

  /** Fx1E ADD I, Vx */
  function OpFx1E(s: State): State {
    s.(index := Add16(s.index, s.registers[X(s.opcode)]))
  }

  /** Fx29 LD F, Vx (at most 0x50 + 5 * 255, so no uint16 wrap) */
  function OpFx29(s: State): State {
    s.(index := FontsetStartAddress as int + 5 * s.registers[X(s.opcode)] as int)
  }

  /** Fx33 LD B, Vx: ones to I+2, tens to I+1, hundreds to I, in that order,
      each address a uint16 sum. */
  function OpFx33(s: State): Result {
    var value := s.registers[X(s.opcode)];
    var ones, tens, hundreds := Add16(s.index, 2), Add16(s.index, 1), s.index;
    if ones >= MemorySize || tens >= MemorySize || hundreds >= MemorySize then Fail(BcdOutOfRange)
    else
      Ok(s.(memory := s.memory[ones := value % 10][tens := (value / 10) % 10][hundreds := (value / 100) % 10]))
  }

  /** The first `k` iterations of the Fx55 loop: `memory[byte(I)+i] = V[i]`,
      the address a byte sum. */
  function Stored(memory: Memory, v: Registers, base: byte, k: nat): Memory
    requires k <= 16
  {
    if k == 0 then memory
    else Stored(memory, v, base, k - 1)[Add8(base, k - 1) := v[k - 1]]
  }

  /** The first `k` iterations of the Fx65 loop: `V[i] = memory[byte(I)+i]`. */
  function Loaded(v: Registers, memory: Memory, base: byte, k: nat): Registers
    requires k <= 16
  {
    if k == 0 then v
    else Loaded(v, memory, base, k - 1)[k - 1 := memory[Add8(base, k - 1)]]
  }

  /** Fx55 LD [I], Vx */
  function OpFx55(s: State): State {
    s.(memory := Stored(s.memory, s.registers, s.index % 0x100, X(s.opcode) + 1))
  }

  /** Fx65 LD Vx, [I] */
  function OpFx65(s: State): State {
    s.(registers := Loaded(s.registers, s.memory, s.index % 0x100, X(s.opcode) + 1))
  }

  // ---------------------------------------------------------------- dispatch

  /** The instruction an opcode selects: one of the 34 handlers, or none
      for a sub-code that nothing matches. */
  datatype Instr =
    | Cls | Ret | Jp | Call | SeByte | SneByte | SeReg | LdByte | AddByte
    | LdReg | Or | And | Xor | AddReg | Sub | Shr | Subn | Shl | SneReg
    | LdI | JpV0 | Rnd | Drw | Skp | Sknp | LdVxDt | LdVxK | LdDtVx | LdStVx
    | AddI | LdF | LdB | StoreRegs | LoadRegs
    | NoMatch

  /** The nested `switch` of `cycle`: the family is the top nibble; family 0,
      8 and E select on the low nibble, family F on the low byte. */
  function Decode(op: u16): Instr {
    match Family(op)
    case 0x0 => (match N(op) case 0x0 => Cls case 0xE => Ret case _ => NoMatch)
    case 0x1 => Jp
    case 0x2 => Call
    case 0x3 => SeByte
    case 0x4 => SneByte
    case 0x5 => SeReg
    case 0x6 => LdByte
    case 0x7 => AddByte
    case 0x8 =>
      (match N(op)
       case 0x0 => LdReg case 0x1 => Or case 0x2 => And case 0x3 => Xor
       case 0x4 => AddReg case 0x5 => Sub case 0x6 => Shr case 0x7 => Subn
       case 0xE => Shl case _ => NoMatch)
    case 0x9 => SneReg
    case 0xA => LdI
    case 0xB => JpV0
    case 0xC => Rnd
    case 0xD => Drw
    case 0xE => (match N(op) case 0x1 => Sknp case 0xE => Skp case _ => NoMatch)
    case 0xF =>
      (match KK(op)
       case 0x07 => LdVxDt case 0x0A => LdVxK case 0x15 => LdDtVx
       case 0x18 => LdStVx case 0x1E => AddI case 0x29 => LdF
       case 0x33 => LdB case 0x55 => StoreRegs case 0x65 => LoadRegs
       case _ => NoMatch)
  }

  /** `case 0x0000` of `cycle`: the low nibble selects CLS or RET. */
  function Execute0(s: State): Result {
    match N(s.opcode)
    case 0x0 => Ok(Op00E0(s))
    case 0xE => Op00EE(s)
    case _ => Ok(s)
  }

  /** `case 0x8000` of `cycle`: the low nibble selects the register
      operation. */
  function Execute8(s: State): State {
    match N(s.opcode)
    case 0x0 => Op8xy0(s)
    case 0x1 => Op8xy1(s)
    case 0x2 => Op8xy2(s)
    case 0x3 => Op8xy3(s)
    case 0x4 => Op8xy4(s)
    case 0x5 => Op8xy5(s)
    case 0x6 => Op8xy6(s)
    case 0x7 => Op8xy7(s)
    case 0xE => Op8xyE(s)
    case _ => s
  }

  /** `case 0xE000` of `cycle`: low nibble 1 is SKNP, E is SKP. */
  function ExecuteE(s: State): Result {
    match N(s.opcode)
    case 0x1 => OpExA1(s)
    case 0xE => OpEx9E(s)
    case _ => Ok(s)
  }

  /** `case 0xF000` of `cycle`: the low byte selects the operation. */
  function ExecuteF(s: State): Result {
    match KK(s.opcode)
    case 0x07 => Ok(OpFx07(s))
    case 0x0A => Ok(OpFx0A(s))
    case 0x15 => Ok(OpFx15(s))
    case 0x18 => Ok(OpFx18(s))
    case 0x1E => Ok(OpFx1E(s))
    case 0x29 => Ok(OpFx29(s))
    case 0x33 => OpFx33(s)
    case 0x55 => Ok(OpFx55(s))
    case 0x65 => Ok(OpFx65(s))
    case _ => Ok(s)
  }

  /** The `switch` of `cycle` on the top nibble. */
  function Execute(s: State, rnd: byte): Result {
    match Family(s.opcode)
    case 0x0 => Execute0(s)
    case 0x1 => Ok(Op1nnn(s))
    case 0x2 => Op2nnn(s)
    case 0x3 => Ok(Op3xkk(s))
    case 0x4 => Ok(Op4xkk(s))
    case 0x5 => Ok(Op5xy0(s))
    case 0x6 => Ok(Op6xkk(s))
    case 0x7 => Ok(Op7xkk(s))
    case 0x8 => Ok(Execute8(s))
    case 0x9 => Ok(Op9xy0(s))
    case 0xA => Ok(OpAnnn(s))
    case 0xB => Ok(OpBnnn(s))
    case 0xC => Ok(OpCxkk(s, rnd))
    case 0xD => OpDxyn(s)
    case 0xE => ExecuteE(s)
    case 0xF => ExecuteF(s)
  }

  /** A timer at the end of a cycle: lowered by one unless it is zero. */
  function Decay(t: byte): byte { if t > 0 then t - 1 else 0 }

  /** The big-endian word `memory[pc] << 8 | memory[pc+1]`. */
  function Word(hi: byte, lo: byte): u16 { hi * 0x100 + lo }

  /** Whether both fetch reads `memory[pc]` and `memory[pc+1]` are in range. */
  predicate CanFetch(s: State) {
    s.pc < MemorySize && Add16(s.pc, 1) < MemorySize
  }

  /** The state after the fetch: the opcode stored and PC moved past it. */
  function Fetched(s: State): State
    requires CanFetch(s)
  {
    s.(opcode := Word(s.memory[s.pc], s.memory[Add16(s.pc, 1)]), pc := Add16(s.pc, 2))
  }

  /** `cycle`: fetch, PC += 2, execute, then decay both timers. `rnd` is the
      byte `randomByte` would return, which is below 255. */
  function Cycle(s: State, rnd: byte): Result {
    if !CanFetch(s) then Fail(FetchOutOfRange)
    else
      match Execute(Fetched(s), rnd)
      case Fail(p) => Fail(p)
      case Ok(t) => Ok(t.(delayTimer := Decay(t.delayTimer), soundTimer := Decay(t.soundTimer)))
  }
}

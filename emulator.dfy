/** The `chip8` struct of emulator/emulator.go as a class whose methods
    update its arrays and fields in place, in the order the Go code does.
    Every method is proved to leave the machine in the state that the
    function of the same name in module Machine gives for the old state.

    A method that reaches an array access the Go code would panic on
    returns `Some(panic)` at that point; the Go process ends there, so the
    contract says nothing about the state after a panic. */
module Emulator {
  import opened Words
  import opened Machine

  class Chip8 {
    const registers: array<byte>
    const memory: array<byte>
    var index: u16
    var pc: u16
    const stack: array<u16>
    var sp: byte
    var delayTimer: byte
    var soundTimer: byte
    var opcode: u16
    /** Written by the host's input handling; the core only reads it. */
    const keypad: array<byte>
    /** Indexed [row, column]. */
    const pixels: array2<u32>

    /** The Go array sizes, and no two arrays are one object. */
    ghost predicate Valid() {
      registers.Length == 16 && memory.Length == MemorySize && stack.Length == 16 &&
      keypad.Length == 16 && pixels.Length0 == VideoHeight && pixels.Length1 == VideoWidth &&
      registers != memory && registers != keypad && memory != keypad
    }

    ghost function Pixels(): Grid
      requires Valid()
      reads pixels
    {
      seq<Row>(VideoHeight, r requires 0 <= r < VideoHeight reads pixels =>
        seq(VideoWidth, c requires 0 <= c < VideoWidth reads pixels => pixels[r, c]))
    }

    /** The whole machine as a value. */
    ghost function Snapshot(): State
      requires Valid()
      reads this, registers, memory, stack, keypad, pixels
    {
      State(registers[..], memory[..], index, pc, stack[..], sp, delayTimer, soundTimer,
            opcode, keypad[..], Pixels())
    }

    /** The machine is in the state `r` describes when it is `Ok`, and the
        method reported the same panic when it is `Fail`. */
    ghost predicate Reached(r: Result, fault: Option<Panic>)
      requires Valid()
      reads this, registers, memory, stack, keypad, pixels
    {
      match r
      case Ok(t) => fault == None && Snapshot() == t
      case Fail(p) => fault == Some(p)
    }

    /** `newChip8` without the SDL set-up. */
    constructor ()
      ensures Valid() && Snapshot() == Boot()
      ensures fresh(registers) && fresh(memory) && fresh(stack) && fresh(keypad) && fresh(pixels)
    {
      registers := new byte[16];
      memory := new byte[MemorySize];
      stack := new u16[16];
      keypad := new byte[16](_ => 0);
      pixels := new u32[VideoHeight, VideoWidth];
      new;
      assert keypad[..] == seq(16, _ => 0);
      ZeroRegisters();
      ZeroMemory();
      LoadFont();
      ZeroStack();
      index := 0;
      sp := 0;
      delayTimer := 0;
      soundTimer := 0;
      opcode := 0;
      pc := StartAddress;
      Op00E0();
    }

    /** The register loop of `newChip8`. */
    method ZeroRegisters()
      requires Valid()
      modifies registers
      ensures registers[..] == seq(16, _ => 0)
    {
      for k := 0 to 16
        invariant forall j :: 0 <= j < k ==> registers[j] == 0
      {
        registers[k] := 0;
      }
    }

    /** The stack loop of `newChip8`. */
    method ZeroStack()
      requires Valid()
      modifies stack
      ensures stack[..] == seq(16, _ => 0)
    {
      for k := 0 to 16
        invariant forall j :: 0 <= j < k ==> stack[j] == 0
      {
        stack[k] := 0;
      }
    }

    /** The memory loop of `newChip8`. */
    method ZeroMemory()
      requires Valid()
      modifies memory
      ensures memory[..] == seq(MemorySize, _ => 0)
    {
      for k := 0 to MemorySize
        invariant forall j :: 0 <= j < k ==> memory[j] == 0
      {
        memory[k] := 0;
      }
    }

    /** The font loop of `newChip8`: glyph byte k goes to 0x50 + k. */
    method LoadFont()
      requires Valid()
      modifies memory
      ensures memory[..] == WithFont(old(memory[..]))
    {
      ghost var m0 := memory[..];
      for k := 0 to |Font|
        invariant memory[..] == m0[..FontsetStartAddress] + Font[..k] + m0[FontsetStartAddress + k..]
      {
        memory[FontsetStartAddress + k] := Font[k];
        assert Font[..k + 1] == Font[..k] + [Font[k]];
      }
      assert Font[..|Font|] == Font;
    }

    /** The copy loop of `LoadChip8ROM`. */
    method LoadRom(rom: seq<byte>) returns (fault: Option<Panic>)
      requires Valid()
      modifies memory
      ensures Reached(Machine.LoadRom(old(Snapshot()), rom), fault)
    {
      ghost var m0 := memory[..];
      for i := 0 to |rom|
        invariant StartAddress + i <= MemorySize
        invariant forall a :: 0 <= a < MemorySize ==>
          memory[a] == if StartAddress <= a < StartAddress + i then rom[a - StartAddress] else m0[a]
      {
        if StartAddress + i >= MemorySize {
          return Some(RomTooLarge);
        }
        memory[StartAddress + i] := rom[i];
      }
      assert memory[..] == Machine.LoadRom(old(Snapshot()), rom).state.memory;
      return None;
    }

    // ------------------------------------------------------------ handlers

    /** 00E0 CLS */
    method Op00E0()
      requires Valid()
      modifies pixels
      ensures Snapshot() == Machine.Op00E0(old(Snapshot()))
    {
      for k := 0 to VideoHeight
        invariant forall r, c :: 0 <= r < k && 0 <= c < VideoWidth ==> pixels[r, c] == 0
      {
        for i := 0 to VideoWidth
          invariant forall r, c :: 0 <= r < k && 0 <= c < VideoWidth ==> pixels[r, c] == 0
          invariant forall c :: 0 <= c < i ==> pixels[k, c] == 0
        {
          pixels[k, i] := 0;
        }
      }
      PixelsAre(Blank());
    }

    /** 00EE RET */
    method Op00EE() returns (fault: Option<Panic>)
      requires Valid()
      modifies this
      ensures Reached(Machine.Op00EE(old(Snapshot())), fault)
    {
      sp := Sub8(sp, 1);
      if sp >= 16 {
        return Some(StackUnderflow);
      }
      pc := stack[sp];
      return None;
    }

    /** 1nnn JP addr */
    method Op1nnn()
      requires Valid()
      modifies this
      ensures Snapshot() == Machine.Op1nnn(old(Snapshot()))
    {
      pc := NNN(opcode);
    }

    /** 2nnn CALL addr */
    method Op2nnn() returns (fault: Option<Panic>)
      requires Valid()
      modifies this, stack
      ensures Reached(Machine.Op2nnn(old(Snapshot())), fault)
    {
      var address := NNN(opcode);
      if sp >= 16 {
        return Some(StackOverflow);
      }
      stack[sp] := pc;
      sp := Add8(sp, 1);
      pc := address;
      return None;
    }

    /** 3xkk SE Vx, byte */
    method Op3xkk()
      requires Valid()
      modifies this
      ensures Snapshot() == Machine.Op3xkk(old(Snapshot()))
    {
      var vx, b := X(opcode), KK(opcode);
      if registers[vx] == b {
        pc := Add16(pc, 2);
      }
    }

    /** 4xkk SNE Vx, byte */
    method Op4xkk()
      requires Valid()
      modifies this
      ensures Snapshot() == Machine.Op4xkk(old(Snapshot()))
    {
      var vx, b := X(opcode), KK(opcode);
      if registers[vx] != b {
        pc := Add16(pc, 2);
      }
    }

    /** 5xy0 SE Vx, Vy */
    method Op5xy0()
      requires Valid()
      modifies this
      ensures Snapshot() == Machine.Op5xy0(old(Snapshot()))
    {
      var vx, vy := X(opcode), Y(opcode);
      if registers[vx] == registers[vy] {
        pc := Add16(pc, 2);
      }
    }

    /** 6xkk LD Vx, byte */
    method Op6xkk()
      requires Valid()
      modifies registers
      ensures Snapshot() == Machine.Op6xkk(old(Snapshot()))
    {
      registers[X(opcode)] := KK(opcode);
    }

    /** 7xkk ADD Vx, byte */
    method Op7xkk()
      requires Valid()
      modifies registers
      ensures Snapshot() == Machine.Op7xkk(old(Snapshot()))
    {
      var vx := X(opcode);
      registers[vx] := Add8(registers[vx], KK(opcode));
    }

    /** 8xy0 LD Vx, Vy */
    method Op8xy0()
      requires Valid()
      modifies registers
      ensures Snapshot() == Machine.Op8xy0(old(Snapshot()))
    {
      registers[X(opcode)] := registers[Y(opcode)];
    }

    /** 8xy1 OR Vx, Vy */
    method Op8xy1()
      requires Valid()
      modifies registers
      ensures Snapshot() == Machine.Op8xy1(old(Snapshot()))
    {
      var vx, vy := X(opcode), Y(opcode);
      registers[vx] := Or8(registers[vx], registers[vy]);
    }

    /** 8xy2 AND Vx, Vy */
    method Op8xy2()
      requires Valid()
      modifies registers
      ensures Snapshot() == Machine.Op8xy2(old(Snapshot()))
    {
      var vx, vy := X(opcode), Y(opcode);
      registers[vx] := And8(registers[vx], registers[vy]);
    }

    /** 8xy3 XOR Vx, Vy */
    method Op8xy3()
      requires Valid()
      modifies registers
      ensures Snapshot() == Machine.Op8xy3(old(Snapshot()))
    {
      var vx, vy := X(opcode), Y(opcode);
      registers[vx] := Xor8(registers[vx], registers[vy]);
    }

    /** 8xy4 ADD Vx, Vy */
    method Op8xy4()
      requires Valid()
      modifies registers
      ensures Snapshot() == Machine.Op8xy4(old(Snapshot()))
    {
      var vx, vy := X(opcode), Y(opcode);
      var sum := registers[vx] as int + registers[vy] as int;
      if sum > 255 {
        registers[VF] := 1;
      } else {
        registers[VF] := 0;
      }
      registers[vx] := sum % 0x100;
    }

    /** 8xy5 SUB Vx, Vy */
    method Op8xy5()
      requires Valid()
      modifies registers
      ensures Snapshot() == Machine.Op8xy5(old(Snapshot()))
    {
      var vx, vy := X(opcode), Y(opcode);
      if registers[vx] > registers[vy] {
        registers[VF] := 1;
      } else {
        registers[VF] := 0;
      }
      registers[vx] := Sub8(registers[vx], registers[vy]);
    }

    /** 8xy6 SHR Vx */
    method Op8xy6()
      requires Valid()
      modifies registers
      ensures Snapshot() == Machine.Op8xy6(old(Snapshot()))
    {
      var vx := X(opcode);
      registers[VF] := registers[vx] % 2;
      registers[vx] := registers[vx] / 2;
    }

    /** 8xy7 SUBN Vx, Vy */
    method Op8xy7()
      requires Valid()
      modifies registers
      ensures Snapshot() == Machine.Op8xy7(old(Snapshot()))
    {
      var vx, vy := X(opcode), Y(opcode);
      if registers[vy] > registers[vx] {
        registers[VF] := 1;
      } else {
        registers[VF] := 0;
      }
      registers[vx] := Sub8(registers[vy], registers[vx]);
    }

    /** 8xyE SHL Vx */
    method Op8xyE()
      requires Valid()
      modifies registers
      ensures Snapshot() == Machine.Op8xyE(old(Snapshot()))
    {
      var vx := X(opcode);
      registers[VF] := registers[vx] / 0x80;
      registers[vx] := (registers[vx] as int * 2) % 0x100;
    }

    /** 9xy0 SNE Vx, Vy */
    method Op9xy0()
      requires Valid()
      modifies this
      ensures Snapshot() == Machine.Op9xy0(old(Snapshot()))
    {
      var vx, vy := X(opcode), Y(opcode);
      if registers[vx] != registers[vy] {
        pc := Add16(pc, 2);
      }
    }

    /** Annn LD I, addr */
    method OpAnnn()
      requires Valid()
      modifies this
      ensures Snapshot() == Machine.OpAnnn(old(Snapshot()))
    {
      index := NNN(opcode);
    }

    /** Bnnn JP V0, addr */
    method OpBnnn()
      requires Valid()
      modifies this
      ensures Snapshot() == Machine.OpBnnn(old(Snapshot()))
    {
      pc := Add16(registers[0], NNN(opcode));
    }

    /** Cxkk RND Vx, byte, with `rnd` the byte `randomByte` returned. */
    method OpCxkk(rnd: byte)
      requires Valid() && rnd < 255
      modifies registers
      ensures Snapshot() == Machine.OpCxkk(old(Snapshot()), rnd)
    {
      var vx := X(opcode);
      registers[vx] := Add8(registers[vx], And8(rnd, KK(opcode)));
    }

    /** Dxyn DRW Vx, Vy, nibble */
    method OpDxyn() returns (fault: Option<Panic>)
      requires Valid()
      modifies registers, pixels
      ensures Reached(Machine.OpDxyn(old(Snapshot())), fault)
    {
      var vx, vy, height := X(opcode), Y(opcode), N(opcode);
      registers[VF] := 0;
      fault := DrawRows(vx, vy, height);
      if fault.None? {
        PixelsAre(SetPixel(old(Pixels()), vy, vx, pixels[vy, vx]));
      }
    }

    /** The row loop of `opDxyn`: every set bit of the sprite rows
        `memory[I+row]` toggles `pixels[vy][vx]`; the first row address past
        memory panics. */
    method DrawRows(vx: nibble, vy: nibble, height: nibble) returns (fault: Option<Panic>)
      requires Valid() && registers[VF] == 0
      modifies registers, pixels
      ensures fault.None? <==> SpriteInRange(memory[..], index, height)
      ensures fault.Some? ==> fault.value == SpriteOutOfRange
      ensures fault.None? ==>
        var k := SetBits(Sprite(memory[..], index, height));
        pixels[vy, vx] == Toggled(old(pixels[vy, vx]), k) &&
        registers[..] == old(registers[..])[VF := if Hit(old(pixels[vy, vx]), k) then 1 else 0]
      ensures forall r, c :: 0 <= r < VideoHeight && 0 <= c < VideoWidth && (r != vy || c != vx) ==>
        pixels[r, c] == old(pixels[r, c])
    {
      ghost var p0 := pixels[vy, vx];
      ghost var v0 := registers[..];
      ghost var mem := memory[..];
      ghost var count := 0;
      var row := 0;
      while row < height
        invariant 0 <= row <= height
        invariant SpriteInRange(mem, index, row)
        invariant count == SetBits(Sprite(mem, index, row))
        invariant pixels[vy, vx] == Toggled(p0, count)
        invariant registers[VF] == if Hit(p0, count) then 1 else 0
        invariant forall j :: 0 <= j < VF ==> registers[j] == v0[j]
        invariant forall r, c :: 0 <= r < VideoHeight && 0 <= c < VideoWidth && (r != vy || c != vx) ==>
          pixels[r, c] == old(pixels[r, c])
      {
        var address := Add16(index, row);
        if address >= MemorySize {
          return Some(SpriteOutOfRange);
        }
        SpriteGrows(mem, index, row);
        count := XorSpriteByte(vx, vy, memory[address], p0, count);
        row := row + 1;
      }
      assert registers[..] == v0[VF := registers[VF]];
      return None;
    }

    /** The column loop of `opDxyn` for one sprite byte: each set bit
        toggles `pixels[vy][vx]` and raises VF when the pixel was 1. */
    method XorSpriteByte(vx: nibble, vy: nibble, pixel: byte, ghost p0: u32, ghost before: nat)
      returns (ghost after: nat)
      requires Valid()
      requires pixels[vy, vx] == Toggled(p0, before)
      requires registers[VF] == if Hit(p0, before) then 1 else 0
      modifies registers, pixels
      ensures after == before + BitsBefore(pixel, 8)
      ensures pixels[vy, vx] == Toggled(p0, after)
      ensures registers[VF] == if Hit(p0, after) then 1 else 0
      ensures forall j :: 0 <= j < VF ==> registers[j] == old(registers[j])
      ensures forall r, c :: 0 <= r < VideoHeight && 0 <= c < VideoWidth && (r != vy || c != vx) ==>
        pixels[r, c] == old(pixels[r, c])
    {
      for col := 0 to 8
        invariant pixels[vy, vx] == Toggled(p0, before + BitsBefore(pixel, col))
        invariant registers[VF] == if Hit(p0, before + BitsBefore(pixel, col)) then 1 else 0
        invariant forall j :: 0 <= j < VF ==> registers[j] == old(registers[j])
        invariant forall r, c :: 0 <= r < VideoHeight && 0 <= c < VideoWidth && (r != vy || c != vx) ==>
          pixels[r, c] == old(pixels[r, c])
      {
        XorSpriteBit(vx, vy, pixel, col, p0, before);
      }
      after := before + BitsBefore(pixel, 8);
    }

    /** One column of the loop above: bit `col` of the sprite byte, when set,
        toggles `pixels[vy][vx]`. */
    method XorSpriteBit(vx: nibble, vy: nibble, pixel: byte, col: nat, ghost p0: u32, ghost before: nat)
      requires Valid() && col < 8
      requires pixels[vy, vx] == Toggled(p0, before + BitsBefore(pixel, col))
      requires registers[VF] == if Hit(p0, before + BitsBefore(pixel, col)) then 1 else 0
      modifies registers, pixels
      ensures pixels[vy, vx] == Toggled(p0, before + BitsBefore(pixel, col + 1))
      ensures registers[VF] == if Hit(p0, before + BitsBefore(pixel, col + 1)) then 1 else 0
      ensures forall j :: 0 <= j < VF ==> registers[j] == old(registers[j])
      ensures forall r, c :: 0 <= r < VideoHeight && 0 <= c < VideoWidth && (r != vy || c != vx) ==>
        pixels[r, c] == old(pixels[r, c])
    {
      if BitSet(pixel, col) {
        TogglePixel(vx, vy);
      }
    }

    /** One set sprite bit: VF := 1 when `pixels[vy][vx]` is 1, then the
        pixel is flipped. */
    method TogglePixel(vx: nibble, vy: nibble)
      requires Valid()
      modifies registers, pixels
      ensures pixels[vy, vx] == Flip(old(pixels[vy, vx]))
      ensures registers[..] == old(registers[..])[VF := if old(pixels[vy, vx]) == 1 then 1 else old(registers[VF])]
      ensures forall r, c :: 0 <= r < VideoHeight && 0 <= c < VideoWidth && (r != vy || c != vx) ==>
        pixels[r, c] == old(pixels[r, c])
    {
      if pixels[vy, vx] == 1 {
        registers[VF] := 1;
      }
      pixels[vy, vx] := Flip(pixels[vy, vx]);
    }

    /** The pixel array holds the grid `g`. */
    lemma PixelsAre(g: Grid)
      requires Valid()
      requires forall r, c :: 0 <= r < VideoHeight && 0 <= c < VideoWidth ==> pixels[r, c] == g[r][c]
      ensures Pixels() == g
    {
      forall r | 0 <= r < VideoHeight
        ensures Pixels()[r] == g[r]
      {
        assert forall c | 0 <= c < VideoWidth :: Pixels()[r][c] == g[r][c];
      }
    }

    /** Ex9E SKP Vx */
    method OpEx9E() returns (fault: Option<Panic>)
      requires Valid()
      modifies this
      ensures Reached(Machine.OpEx9E(old(Snapshot())), fault)
    {
      var key := registers[X(opcode)];
      if key >= 16 {
        return Some(KeyOutOfRange);
      }
      if keypad[key] != 0 {
        pc := Add16(pc, 2);
      }
      return None;
    }

    /** ExA1 SKNP Vx */
    method OpExA1() returns (fault: Option<Panic>)
      requires Valid()
      modifies this
      ensures Reached(Machine.OpExA1(old(Snapshot())), fault)
    {
      var key := registers[X(opcode)];
      if key >= 16 {
        return Some(KeyOutOfRange);
      }
      if keypad[key] == 0 {
        pc := Add16(pc, 2);
      }
      return None;
    }

    /** Fx07 LD Vx, DT */
    method OpFx07()
      requires Valid()
      modifies registers
      ensures Snapshot() == Machine.OpFx07(old(Snapshot()))
    {
      registers[X(opcode)] := delayTimer;
    }

    /** Fx0A LD Vx, K */
    method OpFx0A()
      requires Valid()
      modifies this, registers
      ensures Snapshot() == Machine.OpFx0A(old(Snapshot()))
    {
      var vx := X(opcode);
      for k := 0 to 16
        invariant FirstPressed(keypad[..], 0) == FirstPressed(keypad[..], k)
      {
        if keypad[k] != 0 {
          registers[vx] := k;
          return;
        }
      }
      pc := Sub16(pc, 2);
    }

    /** Fx15 LD DT, Vx */
    method OpFx15()
      requires Valid()
      modifies this
      ensures Snapshot() == Machine.OpFx15(old(Snapshot()))
    {
      delayTimer := registers[X(opcode)];
    }

    /** Fx18 LD ST, Vx */
    method OpFx18()
      requires Valid()
      modifies this
      ensures Snapshot() == Machine.OpFx18(old(Snapshot()))
    {
      soundTimer := registers[X(opcode)];
    }

    /** Fx1E ADD I, Vx */
    method OpFx1E()
      requires Valid()
      modifies this
      ensures Snapshot() == Machine.OpFx1E(old(Snapshot()))
    {
      index := Add16(index, registers[X(opcode)]);
    }

    /** Fx29 LD F, Vx */
    method OpFx29()
      requires Valid()
      modifies this
      ensures Snapshot() == Machine.OpFx29(old(Snapshot()))
    {
      var digit := registers[X(opcode)];
      index := FontsetStartAddress as int + 5 * digit as int;
    }

    /** Fx33 LD B, Vx */
    method OpFx33() returns (fault: Option<Panic>)
      requires Valid()
      modifies memory
      ensures Reached(Machine.OpFx33(old(Snapshot())), fault)
    {
      var value := registers[X(opcode)];
      if Add16(index, 2) >= MemorySize {
        return Some(BcdOutOfRange);
      }
      memory[Add16(index, 2)] := value % 10;
      value := value / 10;
      if Add16(index, 1) >= MemorySize {
        return Some(BcdOutOfRange);
      }
      memory[Add16(index, 1)] := value % 10;
      value := value / 10;
      if index >= MemorySize {
        return Some(BcdOutOfRange);
      }
      memory[index] := value % 10;
      return None;
    }

    /** Fx55 LD [I], Vx */
    method OpFx55()
      requires Valid()
      modifies memory
      ensures Snapshot() == Machine.OpFx55(old(Snapshot()))
    {
      var vx := X(opcode);
      var i := 0;
      while i <= vx
        invariant 0 <= i <= vx + 1
        invariant memory[..] == Stored(old(memory[..]), registers[..], index % 0x100, i)
      {
        memory[Add8(index % 0x100, i)] := registers[i];
        i := i + 1;
      }
    }

    /** Fx65 LD Vx, [I] */
    method OpFx65()
      requires Valid()
      modifies registers
      ensures Snapshot() == Machine.OpFx65(old(Snapshot()))
    {
      var vx := X(opcode);
      var i := 0;
      while i <= vx
        invariant 0 <= i <= vx + 1
        invariant registers[..] == Loaded(old(registers[..]), memory[..], index % 0x100, i)
      {
        registers[i] := memory[Add8(index % 0x100, i)];
        i := i + 1;
      }
    }

    // ------------------------------------------------------------- the cycle

    /** The decode-and-execute `switch` of `cycle`. */
    method Execute(rnd: byte) returns (fault: Option<Panic>)
      requires Valid() && rnd < 255
      modifies this, registers, memory, stack, pixels
      ensures Reached(Machine.Execute(old(Snapshot()), rnd), fault)
    {
      fault := None;
      match opcode / 0x1000
      case 0x0 => fault := ExecuteFamily0();
      case 0x1 =>
        assert Decode(opcode) == Jp;
        Op1nnn();
      case 0x2 =>
        assert Decode(opcode) == Call;
        fault := Op2nnn();
      case 0x3 =>
        assert Decode(opcode) == SeByte;
        Op3xkk();
      case 0x4 =>
        assert Decode(opcode) == SneByte;
        Op4xkk();
      case 0x5 =>
        assert Decode(opcode) == SeReg;
        Op5xy0();
      case 0x6 =>
        assert Decode(opcode) == LdByte;
        Op6xkk();
      case 0x7 =>
        assert Decode(opcode) == AddByte;
        Op7xkk();
      case 0x8 => ExecuteFamily8();
      case 0x9 =>
        assert Decode(opcode) == SneReg;
        Op9xy0();
      case 0xA =>
        assert Decode(opcode) == LdI;
        OpAnnn();
      case 0xB =>
        assert Decode(opcode) == JpV0;
        OpBnnn();
      case 0xC =>
        assert Decode(opcode) == Rnd;
        OpCxkk(rnd);
      case 0xD =>
        assert Decode(opcode) == Drw;
        fault := OpDxyn();
      case 0xE => fault := ExecuteFamilyE();
      case 0xF => fault := ExecuteFamilyF();
      case _ =>
        // the `log.Fatal` default: every family is listed above
        assert false;
    }

    /** `case 0x0000` of `cycle`: the low nibble selects CLS or RET. */
    method ExecuteFamily0() returns (fault: Option<Panic>)
      requires Valid() && Family(opcode) == 0x0
      modifies this, pixels
      ensures Reached(Machine.Execute(old(Snapshot()), 0), fault)
    {
      fault := None;
      var sub := opcode % 0x10;
      if sub == 0x0 {
        assert Decode(opcode) == Cls;
        Op00E0();
      } else if sub == 0xE {
        assert Decode(opcode) == Ret;
        fault := Op00EE();
      }
    }

    /** `case 0x8000` of `cycle`: the low nibble selects the register
        operation. */
    method ExecuteFamily8()
      requires Valid() && Family(opcode) == 0x8
      modifies registers
      ensures Snapshot() == Machine.Execute(old(Snapshot()), 0).state
    {
      var sub := opcode % 0x10;
      if sub == 0x0 {
        assert Decode(opcode) == LdReg;
        Op8xy0();
      } else if sub == 0x1 {
        assert Decode(opcode) == Or;
        Op8xy1();
      } else if sub == 0x2 {
        assert Decode(opcode) == And;
        Op8xy2();
      } else if sub == 0x3 {
        assert Decode(opcode) == Xor;
        Op8xy3();
      } else if sub == 0x4 {
        assert Decode(opcode) == AddReg;
        Op8xy4();
      } else if sub == 0x5 {
        assert Decode(opcode) == Sub;
        Op8xy5();
      } else if sub == 0x6 {
        assert Decode(opcode) == Shr;
        Op8xy6();
      } else if sub == 0x7 {
        assert Decode(opcode) == Subn;
        Op8xy7();
      } else if sub == 0xE {
        assert Decode(opcode) == Shl;
        Op8xyE();
      }
    }

    /** `case 0xE000` of `cycle`: low nibble 1 is SKNP, E is SKP. */
    method ExecuteFamilyE() returns (fault: Option<Panic>)
      requires Valid() && Family(opcode) == 0xE
      modifies this
      ensures Reached(Machine.Execute(old(Snapshot()), 0), fault)
    {
      fault := None;
      var sub := opcode % 0x10;
      if sub == 0x1 {
        assert Decode(opcode) == Sknp;
        fault := OpExA1();
      } else if sub == 0xE {
        assert Decode(opcode) == Skp;
        fault := OpEx9E();
      }
    }

    /** `case 0xF000` of `cycle`: the low byte selects the operation. */
    method ExecuteFamilyF() returns (fault: Option<Panic>)
      requires Valid() && Family(opcode) == 0xF
      modifies this, registers, memory
      ensures Reached(Machine.Execute(old(Snapshot()), 0), fault)
    {
      fault := None;
      var sub := opcode % 0x100;
      if sub == 0x07 {
        assert Decode(opcode) == LdVxDt;
        OpFx07();
      } else if sub == 0x0A {
        assert Decode(opcode) == LdVxK;
        OpFx0A();
      } else if sub == 0x15 {
        assert Decode(opcode) == LdDtVx;
        OpFx15();
      } else if sub == 0x18 {
        assert Decode(opcode) == LdStVx;
        OpFx18();
      } else if sub == 0x1E {
        assert Decode(opcode) == AddI;
        OpFx1E();
      } else if sub == 0x29 {
        assert Decode(opcode) == LdF;
        OpFx29();
      } else if sub == 0x33 {
        assert Decode(opcode) == LdB;
        fault := OpFx33();
      } else if sub == 0x55 {
        assert Decode(opcode) == StoreRegs;
        OpFx55();
      } else if sub == 0x65 {
        assert Decode(opcode) == LoadRegs;
        OpFx65();
      }
    }

    /** `cycle` without the memory dump: fetch, PC += 2, execute, decay the
        timers.  `rnd` is the byte `randomByte` returns (`rand.IntN(255)`). */
    method Cycle(rnd: byte) returns (fault: Option<Panic>)
      requires Valid() && rnd < 255
      modifies this, registers, memory, stack, pixels
      ensures Reached(Machine.Cycle(old(Snapshot()), rnd), fault)
    {
      if pc >= MemorySize || Add16(pc, 1) >= MemorySize {
        return Some(FetchOutOfRange);
      }
      opcode := Word(memory[pc], memory[Add16(pc, 1)]);
      pc := Add16(pc, 2);
      fault := Execute(rnd);
      if fault.Some? {
        return;
      }
      if delayTimer > 0 {
        delayTimer := delayTimer - 1;
      }
      if soundTimer > 0 {
        soundTimer := soundTimer - 1;
      }
    }
  }

  /** `LoadChip8ROM` after the file read: it builds a fresh machine, copies
      the ROM into it and returns only whether the copy panicked; the
      machine itself is not returned. */
  method LoadChip8Rom(rom: seq<byte>) returns (fault: Option<Panic>)
    ensures fault.Some? <==> |rom| > MemorySize - StartAddress
    ensures fault.Some? ==> fault.value == RomTooLarge
  {
    var c8 := new Chip8();
    fault := c8.LoadRom(rom);
  }

  /** The sprite of `row + 1` rows is that of `row` rows and one byte more. */
  lemma SpriteGrows(memory: Memory, index: u16, row: nibble)
    requires row < 15 && SpriteInRange(memory, index, row + 1)
    ensures SpriteInRange(memory, index, row)
    ensures SetBits(Sprite(memory, index, row + 1)) ==
      SetBits(Sprite(memory, index, row)) + BitsBefore(memory[Add16(index, row)], 8)
  {
    var longer := Sprite(memory, index, row + 1);
    assert longer[..row] == Sprite(memory, index, row);
  }
}

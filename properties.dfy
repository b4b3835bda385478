/** What the handlers of module Machine mean: flag semantics, round trips,
    frames, and properties of whole cycles. */
module MachineProperties {
  import opened Words
  import opened Machine

  // ------------------------------------------------------------- boot, ROM

  /** `newChip8`: registers, stack, timers, I, SP, opcode, keypad and screen
      are zero, PC is 0x200, and memory holds the font at 0x50..0x9F and
      zeros elsewhere. */
  lemma BootState()
    ensures var s := Boot();
      s.pc == StartAddress && s.index == 0 && s.sp == 0 && s.opcode == 0 &&
      s.delayTimer == 0 && s.soundTimer == 0 &&
      (forall j :: 0 <= j < 16 ==> s.registers[j] == 0 && s.stack[j] == 0 && s.keypad[j] == 0) &&
      (forall a :: 0 <= a < MemorySize ==> s.memory[a] == if 0x50 <= a < 0xA0 then Font[a - 0x50] else 0) &&
      (forall r, c :: 0 <= r < VideoHeight && 0 <= c < VideoWidth ==> s.pixels[r][c] == 0)
  {
  }

  /** A ROM of up to 3584 bytes loaded into the boot state sits at 0x200
      without disturbing the font, and the machine is otherwise the boot
      state. */
  lemma LoadRomKeepsFont(rom: seq<byte>)
    requires |rom| <= MemorySize - StartAddress
    ensures LoadRom(Boot(), rom).Ok?
    ensures var s := LoadRom(Boot(), rom).state;
      s.memory[FontsetStartAddress..FontsetStartAddress + |Font|] == Font &&
      s.memory[StartAddress..StartAddress + |rom|] == rom &&
      s == Boot().(memory := s.memory)
  {
    var s := LoadRom(Boot(), rom).state;
    assert forall a :: FontsetStartAddress <= a < FontsetStartAddress + |Font| ==> s.memory[a] == Boot().memory[a];
  }

  // -------------------------------------------------------------- decoding

  /** The sub-opcode match is loose: in families 0, 8 and E only the low
      nibble selects the instruction, whatever the middle nibbles hold. */
  lemma DecodeReadsLowNibble(a: u16, b: u16)
    requires Family(a) == Family(b) && N(a) == N(b)
    requires Family(a) == 0 || Family(a) == 8 || Family(a) == 0xE
    ensures Decode(a) == Decode(b)
  {
  }

  /** Exactly these opcodes match no handler. */
  lemma DecodeNoMatch(op: u16)
    ensures Decode(op) == NoMatch <==>
      (Family(op) == 0 && N(op) != 0 && N(op) != 0xE) ||
      (Family(op) == 8 && 8 <= N(op) && N(op) != 0xE) ||
      (Family(op) == 0xE && N(op) != 1 && N(op) != 0xE) ||
      (Family(op) == 0xF && KK(op) !in {0x07, 0x0A, 0x15, 0x18, 0x1E, 0x29, 0x33, 0x55, 0x65})
  {
  }

  // ------------------------------------------------------------- dispatch

  /** The decode table read flat: the handler each instruction runs. */
  function Run(i: Instr, s: State, rnd: byte): Result {
    match i
    case Cls => Ok(Op00E0(s))
    case Ret => Op00EE(s)
    case Jp => Ok(Op1nnn(s))
    case Call => Op2nnn(s)
    case SeByte => Ok(Op3xkk(s))
    case SneByte => Ok(Op4xkk(s))
    case SeReg => Ok(Op5xy0(s))
    case LdByte => Ok(Op6xkk(s))
    case AddByte => Ok(Op7xkk(s))
    case LdReg => Ok(Op8xy0(s))
    case Or => Ok(Op8xy1(s))
    case And => Ok(Op8xy2(s))
    case Xor => Ok(Op8xy3(s))
    case AddReg => Ok(Op8xy4(s))
    case Sub => Ok(Op8xy5(s))
    case Shr => Ok(Op8xy6(s))
    case Subn => Ok(Op8xy7(s))
    case Shl => Ok(Op8xyE(s))
    case SneReg => Ok(Op9xy0(s))
    case LdI => Ok(OpAnnn(s))
    case JpV0 => Ok(OpBnnn(s))
    case Rnd => Ok(OpCxkk(s, rnd))
    case Drw => OpDxyn(s)
    case Skp => OpEx9E(s)
    case Sknp => OpExA1(s)
    case LdVxDt => Ok(OpFx07(s))
    case LdVxK => Ok(OpFx0A(s))
    case LdDtVx => Ok(OpFx15(s))
    case LdStVx => Ok(OpFx18(s))
    case AddI => Ok(OpFx1E(s))
    case LdF => Ok(OpFx29(s))
    case LdB => OpFx33(s)
    case StoreRegs => Ok(OpFx55(s))
    case LoadRegs => Ok(OpFx65(s))
    case NoMatch => Ok(s)
  }

  lemma Execute0Runs(s: State)
    requires Family(s.opcode) == 0
    ensures Execute0(s) == Run(Decode(s.opcode), s, 0)
  {
  }

  lemma Execute8Runs(s: State)
    requires Family(s.opcode) == 8
    ensures Ok(Execute8(s)) == Run(Decode(s.opcode), s, 0)
  {
  }

  lemma ExecuteERuns(s: State)
    requires Family(s.opcode) == 0xE
    ensures ExecuteE(s) == Run(Decode(s.opcode), s, 0)
  {
  }

  lemma ExecuteFRuns(s: State)
    requires Family(s.opcode) == 0xF
    ensures ExecuteF(s) == Run(Decode(s.opcode), s, 0)
  {
  }

  /** The nested switch of `cycle` runs the handler the decode table names,
      and leaves the state alone for an opcode that names none. */
  lemma ExecuteRuns(s: State, rnd: byte)
    ensures Execute(s, rnd) == Run(Decode(s.opcode), s, rnd)
  {
    match Family(s.opcode)
    case 0x0 => Execute0Runs(s);
    case 0x8 => Execute8Runs(s);
    case 0xE => ExecuteERuns(s);
    case 0xF => ExecuteFRuns(s);
    case _ => ExecuteOneRuns(s, rnd);
  }

  /** The twelve families with a single handler run it whatever the low
      bits are. */
  lemma ExecuteOneRuns(s: State, rnd: byte)
    requires Family(s.opcode) !in {0x0, 0x8, 0xE, 0xF}
    ensures Execute(s, rnd) == Run(Decode(s.opcode), s, rnd)
  {
    match Family(s.opcode)
    case 0x1 => assert Decode(s.opcode) == Jp;
    case 0x2 => assert Decode(s.opcode) == Call;
    case 0x3 => assert Decode(s.opcode) == SeByte;
    case 0x4 => assert Decode(s.opcode) == SneByte;
    case 0x5 => assert Decode(s.opcode) == SeReg;
    case 0x6 => assert Decode(s.opcode) == LdByte;
    case 0x7 => assert Decode(s.opcode) == AddByte;
    case 0x9 => assert Decode(s.opcode) == SneReg;
    case 0xA => assert Decode(s.opcode) == LdI;
    case 0xB => assert Decode(s.opcode) == JpV0;
    case 0xC => assert Decode(s.opcode) == Rnd;
    case 0xD => assert Decode(s.opcode) == Drw;
  }

  /** What a handler may change, given the instruction `i` it implements:
      no handler changes the opcode or the keypad; only LD DT, Vx and
      LD ST, Vx set a timer, to Vx; only CLS and DRW touch the screen; only
      CALL and RET the stack and SP; only LD B, Vx and LD [I], Vx write
      memory. */
  ghost predicate Confined(s: State, t: State) {
    var i, x := Decode(s.opcode), X(s.opcode);
    t.opcode == s.opcode && t.keypad == s.keypad &&
    t.delayTimer == (if i == LdDtVx then s.registers[x] else s.delayTimer) &&
    t.soundTimer == (if i == LdStVx then s.registers[x] else s.soundTimer) &&
    (i != Cls && i != Drw ==> t.pixels == s.pixels) &&
    (i != Call && i != Ret ==> t.sp == s.sp && t.stack == s.stack) &&
    (i != LdB && i != StoreRegs ==> t.memory == s.memory)
  }

  lemma Execute0Confined(s: State)
    requires Family(s.opcode) == 0 && Execute0(s).Ok?
    ensures Confined(s, Execute0(s).state)
  {
    match N(s.opcode)
    case 0x0 => assert Decode(s.opcode) == Cls;
    case 0xE => assert Decode(s.opcode) == Ret;
    case _ => assert Decode(s.opcode) == NoMatch;
  }

  lemma Execute8Confined(s: State)
    requires Family(s.opcode) == 8
    ensures Confined(s, Execute8(s))
  {
    match N(s.opcode)
    case 0x0 => assert Decode(s.opcode) == LdReg;
    case 0x1 => assert Decode(s.opcode) == Or;
    case 0x2 => assert Decode(s.opcode) == And;
    case 0x3 => assert Decode(s.opcode) == Xor;
    case 0x4 => assert Decode(s.opcode) == AddReg;
    case 0x5 => assert Decode(s.opcode) == Sub;
    case 0x6 => assert Decode(s.opcode) == Shr;
    case 0x7 => assert Decode(s.opcode) == Subn;
    case 0xE => assert Decode(s.opcode) == Shl;
    case _ => assert Decode(s.opcode) == NoMatch;
  }

  lemma ExecuteEConfined(s: State)
    requires Family(s.opcode) == 0xE && ExecuteE(s).Ok?
    ensures Confined(s, ExecuteE(s).state)
  {
    match N(s.opcode)
    case 0x1 => assert Decode(s.opcode) == Sknp;
    case 0xE => assert Decode(s.opcode) == Skp;
    case _ => assert Decode(s.opcode) == NoMatch;
  }

  lemma ExecuteFConfined(s: State)
    requires Family(s.opcode) == 0xF && ExecuteF(s).Ok?
    ensures Confined(s, ExecuteF(s).state)
  {
    match KK(s.opcode)
    case 0x07 => assert Decode(s.opcode) == LdVxDt;
    case 0x0A => assert Decode(s.opcode) == LdVxK;
    case 0x15 => assert Decode(s.opcode) == LdDtVx;
    case 0x18 => assert Decode(s.opcode) == LdStVx;
    case 0x1E => assert Decode(s.opcode) == AddI;
    case 0x29 => assert Decode(s.opcode) == LdF;
    case 0x33 => assert Decode(s.opcode) == LdB;
    case 0x55 => assert Decode(s.opcode) == StoreRegs;
    case 0x65 => assert Decode(s.opcode) == LoadRegs;
    case _ => assert Decode(s.opcode) == NoMatch;
  }

  /** Every handler that completes stays inside its frame. */
  lemma ExecuteConfined(s: State, rnd: byte)
    requires Execute(s, rnd).Ok?
    ensures Confined(s, Execute(s, rnd).state)
  {
    match Family(s.opcode)
    case 0x0 => Execute0Confined(s);
    case 0x8 => Execute8Confined(s);
    case 0xE => ExecuteEConfined(s);
    case 0xF => ExecuteFConfined(s);
    case _ => ExecuteOneConfined(s, rnd);
  }

  lemma ExecuteOneConfined(s: State, rnd: byte)
    requires Family(s.opcode) !in {0x0, 0x8, 0xE, 0xF} && Execute(s, rnd).Ok?
    ensures Confined(s, Execute(s, rnd).state)
  {
    match Family(s.opcode)
    case 0x1 => assert Decode(s.opcode) == Jp;
    case 0x2 => assert Decode(s.opcode) == Call;
    case 0x3 => assert Decode(s.opcode) == SeByte;
    case 0x4 => assert Decode(s.opcode) == SneByte;
    case 0x5 => assert Decode(s.opcode) == SeReg;
    case 0x6 => assert Decode(s.opcode) == LdByte;
    case 0x7 => assert Decode(s.opcode) == AddByte;
    case 0x9 => assert Decode(s.opcode) == SneReg;
    case 0xA => assert Decode(s.opcode) == LdI;
    case 0xB => assert Decode(s.opcode) == JpV0;
    case 0xC => assert Decode(s.opcode) == Rnd;
    case 0xD => assert Decode(s.opcode) == Drw;
  }

  /** Only RET, CALL, DRW, SKP, SKNP and LD B, Vx can panic, and each
      exactly when its own handler does. */
  lemma ExecuteFaults(s: State, rnd: byte)
    ensures Execute(s, rnd).Fail? <==> match Decode(s.opcode)
      case Ret => Op00EE(s).Fail?
      case Call => Op2nnn(s).Fail?
      case Drw => OpDxyn(s).Fail?
      case Skp => OpEx9E(s).Fail?
      case Sknp => OpExA1(s).Fail?
      case LdB => OpFx33(s).Fail?
      case _ => false
  {
    ExecuteRuns(s, rnd);
  }

  // ----------------------------------------------------------------- fetch

  /** The fetch panics exactly when PC or PC+1 is past the end of memory. */
  lemma FetchFault(s: State, rnd: byte)
    ensures CanFetch(s) <==> s.pc < MemorySize - 1
    ensures !CanFetch(s) ==> Cycle(s, rnd) == Fail(FetchOutOfRange)
  {
  }

  /** The fetch stores the big-endian word at PC as the opcode and moves PC
      two bytes on; nothing else changes. */
  lemma FetchWord(s: State)
    requires CanFetch(s)
    ensures var f := Fetched(s);
      f.opcode == s.memory[s.pc] as int * 256 + s.memory[s.pc + 1] as int &&
      f.opcode / 0x100 == s.memory[s.pc] && f.opcode % 0x100 == s.memory[s.pc + 1] &&
      f == s.(opcode := f.opcode, pc := s.pc + 2)
  {
  }

  /** A cycle whose handler ends in `t` ends in `t` with both timers
      decayed. */
  lemma CycleOk(s: State, rnd: byte, t: State)
    requires CanFetch(s) && Execute(Fetched(s), rnd) == Ok(t)
    ensures Cycle(s, rnd) == Ok(t.(delayTimer := Decay(t.delayTimer), soundTimer := Decay(t.soundTimer)))
  {
  }

  /** A cycle completes only when the fetch and the handler do. */
  lemma CycleCompletes(s: State, rnd: byte) returns (t: State)
    requires Cycle(s, rnd).Ok?
    ensures CanFetch(s) && Execute(Fetched(s), rnd) == Ok(t)
    ensures Cycle(s, rnd).state == t.(delayTimer := Decay(t.delayTimer), soundTimer := Decay(t.soundTimer))
  {
    t := Execute(Fetched(s), rnd).state;
  }

  /** A cycle that completes has fetched the big-endian word at PC, and the
      opcode it leaves is that word. */
  lemma CycleFetchesBigEndian(s: State, rnd: byte)
    requires Cycle(s, rnd).Ok?
    ensures s.pc < MemorySize - 1
    ensures Cycle(s, rnd).state.opcode == s.memory[s.pc] as int * 256 + s.memory[s.pc + 1] as int
    ensures Cycle(s, rnd).state.keypad == s.keypad
  {
    var t := CycleCompletes(s, rnd);
    FetchWord(s);
    ExecuteConfined(Fetched(s), rnd);
  }

  /** An opcode that matches no handler changes only PC (by two), the
      opcode and the timers. */
  lemma CycleNoMatch(s: State, rnd: byte)
    requires CanFetch(s) && Decode(Fetched(s).opcode) == NoMatch
    ensures Cycle(s, rnd) == Ok(s.(opcode := Fetched(s).opcode, pc := s.pc + 2,
      delayTimer := Decay(s.delayTimer), soundTimer := Decay(s.soundTimer)))
  {
    ExecuteRuns(Fetched(s), rnd);
    FetchWord(s);
    CycleOk(s, rnd, Fetched(s));
  }

  // ---------------------------------------------------------------- timers

  /** The timers decay after the handler: a value loaded by LD DT, Vx or
      LD ST, Vx is already one lower when the cycle ends, every other cycle
      lowers the timer by one, and a timer at zero stays there. */
  lemma CycleTimers(s: State, rnd: byte)
    requires Cycle(s, rnd).Ok?
    ensures var t := Cycle(s, rnd).state; var op := Fetched(s).opcode;
      var dt := if Decode(op) == LdDtVx then s.registers[X(op)] else s.delayTimer;
      var st := if Decode(op) == LdStVx then s.registers[X(op)] else s.soundTimer;
      (dt == 0 ==> t.delayTimer == 0) && (dt > 0 ==> t.delayTimer == dt - 1) &&
      (st == 0 ==> t.soundTimer == 0) && (st > 0 ==> t.soundTimer == st - 1)
  {
    var t := CycleCompletes(s, rnd);
    FetchWord(s);
    ExecuteConfined(Fetched(s), rnd);
  }

  // ----------------------------------------------------------------- flags

  /** 7xkk ADD Vx, byte wraps and never touches VF. */
  lemma AddByteKeepsFlag(s: State)
    requires X(s.opcode) != VF
    ensures var t := Op7xkk(s); var x := X(s.opcode); var sum := s.registers[x] as int + KK(s.opcode) as int;
      t.registers[x] == (if sum > 255 then sum - 256 else sum) &&
      (forall j :: 0 <= j < 16 && j != x ==> t.registers[j] == s.registers[j]) &&
      t == s.(registers := t.registers)
  {
  }

  /** 8xy4 ADD Vx, Vy: VF is the carry, so VF:Vx is the 9-bit sum. */
  lemma AddRegCarry(s: State)
    requires X(s.opcode) != VF
    ensures var t := Op8xy4(s); var x, y := X(s.opcode), Y(s.opcode);
      var sum := s.registers[x] as int + s.registers[y] as int;
      (t.registers[VF] == 1 <==> sum > 255) && t.registers[VF] <= 1 &&
      t.registers[x] as int + 256 * t.registers[VF] as int == sum &&
      (forall j :: 0 <= j < 16 && j != x && j != VF ==> t.registers[j] == s.registers[j]) &&
      t == s.(registers := t.registers)
  {
  }

  /** 8xy5 SUB Vx, Vy: VF is 1 exactly when Vx > Vy (so 0 when they are
      equal) and Vx becomes Vx - Vy mod 256. */
  lemma SubFlag(s: State)
    requires X(s.opcode) != VF && Y(s.opcode) != VF
    ensures var t := Op8xy5(s); var x, y := X(s.opcode), Y(s.opcode);
      var a: int, b: int := s.registers[x], s.registers[y];
      (t.registers[VF] == 1 <==> a > b) && t.registers[VF] <= 1 &&
      t.registers[x] == (if a >= b then a - b else a - b + 256) &&
      (forall j :: 0 <= j < 16 && j != x && j != VF ==> t.registers[j] == s.registers[j]) &&
      t == s.(registers := t.registers)
  {
  }

  /** 8xy7 SUBN Vx, Vy: VF is 1 exactly when Vy > Vx and Vx becomes
      Vy - Vx mod 256. */
  lemma SubnFlag(s: State)
    requires X(s.opcode) != VF && Y(s.opcode) != VF
    ensures var t := Op8xy7(s); var x, y := X(s.opcode), Y(s.opcode);
      var a: int, b: int := s.registers[x], s.registers[y];
      (t.registers[VF] == 1 <==> b > a) && t.registers[VF] <= 1 &&
      t.registers[x] == (if b >= a then b - a else b - a + 256) &&
      (forall j :: 0 <= j < 16 && j != x && j != VF ==> t.registers[j] == s.registers[j]) &&
      t == s.(registers := t.registers)
  {
  }

  /** 8xy6 SHR Vx: VF is the bit shifted out, so 2 * Vx + VF is the old Vx. */
  lemma ShrFlag(s: State)
    requires X(s.opcode) != VF
    ensures var t := Op8xy6(s); var x := X(s.opcode);
      t.registers[VF] <= 1 && 2 * t.registers[x] as int + t.registers[VF] as int == s.registers[x] as int &&
      (forall j :: 0 <= j < 16 && j != x && j != VF ==> t.registers[j] == s.registers[j]) &&
      t == s.(registers := t.registers)
  {
  }

  /** 8xyE SHL Vx: VF is the bit shifted out, so VF:Vx is twice the old Vx. */
  lemma ShlFlag(s: State)
    requires X(s.opcode) != VF
    ensures var t := Op8xyE(s); var x := X(s.opcode);
      t.registers[VF] <= 1 && t.registers[x] as int + 256 * t.registers[VF] as int == 2 * s.registers[x] as int &&
      (forall j :: 0 <= j < 16 && j != x && j != VF ==> t.registers[j] == s.registers[j]) &&
      t == s.(registers := t.registers)
  {
  }

  /** With VF as the destination the order of the writes decides: 8xy4 keeps
      the sum and loses the carry, while 8xy5, 8xy6, 8xy7 and 8xyE compute
      their result from the flag they have just written. */
  lemma FlagRegisterAsDestination(s: State)
    requires X(s.opcode) == VF && Y(s.opcode) != VF
    ensures var a: int, b: int := s.registers[VF], s.registers[Y(s.opcode)];
      Op8xy4(s).registers[VF] == (a + b) % 256 &&
      Op8xy5(s).registers[VF] == Sub8(if a > b then 1 else 0, b) &&
      Op8xy6(s).registers[VF] == 0 &&
      Op8xy7(s).registers[VF] == Sub8(b, if b > a then 1 else 0) &&
      Op8xyE(s).registers[VF] == 2 * (a / 128)
  {
  }

  /** With VF as the source Vy of 8xy5 or 8xy7, the flag still compares Vx
      with the old VF, but the subtraction reads the flag just written. */
  lemma FlagRegisterAsSource(s: State)
    requires X(s.opcode) != VF && Y(s.opcode) == VF
    ensures var x := X(s.opcode); var a, f := s.registers[x], s.registers[VF];
      Op8xy5(s).registers[VF] == (if a > f then 1 else 0) &&
      Op8xy7(s).registers[VF] == (if f > a then 1 else 0) &&
      Op8xy5(s).registers[x] == Sub8(a, if a > f then 1 else 0) &&
      Op8xy7(s).registers[x] == Sub8(if f > a then 1 else 0, a)
  {
  }

  // ---------------------------------------------------------- CALL and RET

  /** CALL panics exactly on a full stack; RET exactly when SP is zero
      (the byte SP - 1 wraps to 255) or above 16. */
  lemma StackFaults(s: State)
    ensures Op2nnn(s).Fail? <==> s.sp >= 16
    ensures Op00EE(s).Fail? <==> s.sp == 0 || s.sp > 16
  {
  }

  /** RET undoes CALL: PC and SP come back, and the return address is the
      PC the CALL saw. */
  lemma CallThenReturn(s: State)
    requires s.sp < 16
    ensures Op2nnn(s).Ok?
    ensures var t := Op2nnn(s).state;
      t.pc == NNN(s.opcode) && t.sp == s.sp + 1 && t.stack[s.sp] == s.pc &&
      (forall j :: 0 <= j < 16 && j != s.sp ==> t.stack[j] == s.stack[j]) &&
      Op00EE(t).Ok? && Op00EE(t).state == s.(stack := t.stack)
  {
  }

  /** An opcode that decodes to CALL, below a full stack, runs Op2nnn. */
  lemma ExecuteCall(f: State, rnd: byte)
    requires Decode(f.opcode) == Call && f.sp < 16
    ensures Execute(f, rnd) == Ok(f.(stack := f.stack[f.sp := f.pc], sp := f.sp + 1, pc := NNN(f.opcode)))
  {
    ExecuteRuns(f, rnd);
  }

  /** An opcode that decodes to RET, on a non-empty stack, runs Op00EE. */
  lemma ExecuteRet(f: State, rnd: byte)
    requires Decode(f.opcode) == Ret && 0 < f.sp <= 16
    ensures Execute(f, rnd) == Ok(f.(sp := f.sp - 1, pc := f.stack[f.sp - 1]))
  {
    ExecuteRuns(f, rnd);
    assert Sub8(f.sp, 1) == f.sp - 1;
  }

  /** One cycle of CALL: the return address is the PC after the fetch. */
  lemma CycleCall(s: State, rnd: byte)
    requires CanFetch(s) && Decode(Fetched(s).opcode) == Call && s.sp < 16
    ensures var f := Fetched(s);
      Cycle(s, rnd) == Ok(f.(stack := s.stack[s.sp := f.pc], sp := s.sp + 1, pc := NNN(f.opcode),
        delayTimer := Decay(s.delayTimer), soundTimer := Decay(s.soundTimer)))
  {
    var f := Fetched(s);
    FetchWord(s);
    ExecuteCall(f, rnd);
    CycleOk(s, rnd, f.(stack := f.stack[f.sp := f.pc], sp := f.sp + 1, pc := NNN(f.opcode)));
  }

  /** One cycle of RET on a non-empty stack. */
  lemma CycleRet(s: State, rnd: byte)
    requires CanFetch(s) && Decode(Fetched(s).opcode) == Ret && 0 < s.sp <= 16
    ensures var f := Fetched(s);
      Cycle(s, rnd) == Ok(f.(sp := s.sp - 1, pc := s.stack[s.sp - 1],
        delayTimer := Decay(s.delayTimer), soundTimer := Decay(s.soundTimer)))
  {
    var f := Fetched(s);
    FetchWord(s);
    ExecuteRet(f, rnd);
    CycleOk(s, rnd, f.(sp := f.sp - 1, pc := f.stack[f.sp - 1]));
  }

  /** Over two cycles: a CALL, then the RET it jumped to, continue right
      after the CALL with SP and the registers as before. */
  lemma CycleCallThenReturn(s: State, t: State, rnd1: byte, rnd2: byte)
    requires CanFetch(s) && Decode(Fetched(s).opcode) == Call && s.sp < 16
    requires Cycle(s, rnd1) == Ok(t)
    requires CanFetch(t) && Decode(Fetched(t).opcode) == Ret
    ensures t.pc == NNN(Fetched(s).opcode) && t.sp == s.sp + 1 && t.stack[s.sp] == s.pc + 2
    ensures Cycle(t, rnd2).Ok?
    ensures Cycle(t, rnd2).state.pc == s.pc + 2 && Cycle(t, rnd2).state.sp == s.sp
    ensures Cycle(t, rnd2).state.registers == s.registers
  {
    CycleCall(s, rnd1);
    FetchWord(s);
    CycleRet(t, rnd2);
    FetchWord(t);
  }

  /** SP never leaves 0..16 over a cycle that completes. */
  lemma CycleKeepsStackBound(s: State, rnd: byte)
    requires s.sp <= 16 && Cycle(s, rnd).Ok?
    ensures Cycle(s, rnd).state.sp <= 16
  {
    var t := CycleCompletes(s, rnd);
    var f := Fetched(s);
    FetchWord(s);
    ExecuteConfined(f, rnd);
    ExecuteRuns(f, rnd);
  }

  // ------------------------------------------------------------------- BCD

  /** Fx33 LD B, Vx writes the three decimal digits of Vx to I, I+1 and
      I+2 and nothing else, and panics exactly when I+2 is past memory. */
  lemma BcdDigits(s: State)
    ensures OpFx33(s).Fail? <==> s.index + 2 >= MemorySize
    ensures OpFx33(s).Fail? ==> OpFx33(s).panic == BcdOutOfRange
    ensures OpFx33(s).Ok? ==>
      var t, v, i := OpFx33(s).state, s.registers[X(s.opcode)], s.index;
      t.memory[i] <= 9 && t.memory[i + 1] <= 9 && t.memory[i + 2] <= 9 &&
      100 * t.memory[i] + 10 * t.memory[i + 1] + t.memory[i + 2] == v &&
      (forall a :: 0 <= a < MemorySize && a != i && a != i + 1 && a != i + 2 ==> t.memory[a] == s.memory[a]) &&
      t == s.(memory := t.memory)
  {
    var i := s.index;
    if i + 2 < MemorySize {
      assert Add16(i, 2) == i + 2 && Add16(i, 1) == i + 1;
      DecimalDigits(s.registers[X(s.opcode)]);
    } else if i + 1 < MemorySize {
      assert Add16(i, 2) == i + 2;
    }
  }

  /** A byte is its hundreds, tens and ones digit recombined. */
  lemma DecimalDigits(v: byte)
    ensures (v / 100) % 10 == v / 100
    ensures v == 100 * ((v / 100) % 10) + 10 * ((v / 10) % 10) + v % 10
  {
  }

  // --------------------------------------------------- Fx55 and Fx65 loops

  /** The byte sum `base + i` is the address whose distance from `base`,
      counted mod 256, is `i`. */
  lemma WrappedOffset(base: byte, i: nat, a: nat)
    requires i < 256 && a < MemorySize
    ensures a == Add8(base, i) <==> a < 256 && (a - base) % 256 == i
  {
    if base + i < 256 {
      assert Add8(base, i) == base + i;
    } else {
      assert Add8(base, i) == base + i - 256;
    }
  }

  /** After `k` steps of the Fx55 loop, cell `base + i` (a byte sum) holds
      `v[i]` for every i < k and every other cell is unchanged. */
  lemma {:induction false} StoredCells(memory: Memory, v: Registers, base: byte, k: nat)
    requires k <= 16
    ensures forall a :: 0 <= a < MemorySize ==>
      Stored(memory, v, base, k)[a] == if a < 256 && (a - base) % 256 < k then v[(a - base) % 256] else memory[a]
  {
    if k > 0 {
      StoredCells(memory, v, base, k - 1);
      forall a | 0 <= a < MemorySize
        ensures Stored(memory, v, base, k)[a] == if a < 256 && (a - base) % 256 < k then v[(a - base) % 256] else memory[a]
      {
        WrappedOffset(base, k - 1, a);
      }
    }
  }

  /** After `k` steps of the Fx65 loop, `V[i]` holds cell `base + i` for
      every i < k and the other registers are unchanged. */
  lemma {:induction false} LoadedRegisters(v: Registers, memory: Memory, base: byte, k: nat)
    requires k <= 16
    ensures forall j :: 0 <= j < 16 ==>
      Loaded(v, memory, base, k)[j] == if j < k then memory[Add8(base, j)] else v[j]
  {
    if k > 0 {
      LoadedRegisters(v, memory, base, k - 1);
    }
  }

  /** The first `k` steps of the Fx55 loop put `v[i]` at `base + i` (a byte
      sum) for each i < k and leave every cell outside those alone. */
  lemma StoredFrame(memory: Memory, v: Registers, base: byte, k: nat)
    requires k <= 16
    ensures forall i :: 0 <= i < k ==> Stored(memory, v, base, k)[Add8(base, i)] == v[i]
    ensures forall a :: 0 <= a < MemorySize && !(a < 256 && (a - base) % 256 < k) ==>
      Stored(memory, v, base, k)[a] == memory[a]
  {
    StoredCells(memory, v, base, k);
    forall i | 0 <= i < k
      ensures Stored(memory, v, base, k)[Add8(base, i)] == v[i]
    {
      WrappedOffset(base, i, Add8(base, i));
    }
  }

  /** Fx55 writes V0..Vx to the cells `byte(I) + i` and nothing else, and
      changes nothing but memory. */
  lemma StoreRegsFrame(s: State)
    ensures var t, x, base := OpFx55(s), X(s.opcode), s.index % 256;
      t == s.(memory := t.memory) &&
      (forall i :: 0 <= i <= x ==> t.memory[Add8(base, i)] == s.registers[i]) &&
      (forall a :: 0 <= a < MemorySize && !(a < 256 && (a - base) % 256 <= x) ==> t.memory[a] == s.memory[a])
  {
    StoredFrame(s.memory, s.registers, s.index % 256, X(s.opcode) + 1);
  }

  /** Fx65 reads the cells `byte(I) + i` into V0..Vx, leaves the other
      registers alone and changes nothing but registers. */
  lemma LoadRegsFrame(s: State)
    ensures var t, x, base := OpFx65(s), X(s.opcode), s.index % 256;
      t == s.(registers := t.registers) &&
      (forall i :: 0 <= i <= x ==> t.registers[i] == s.memory[Add8(base, i)]) &&
      (forall j :: x < j < 16 ==> t.registers[j] == s.registers[j])
  {
    LoadedRegisters(s.registers, s.memory, s.index % 256, X(s.opcode) + 1);
  }

  /** Fx65 after Fx55 with the same x and the same I restores V0..VF. */
  lemma StoreThenLoad(s: State, op: u16)
    requires X(op) == X(s.opcode)
    ensures OpFx65(OpFx55(s).(opcode := op)).registers == s.registers
  {
    var x, base := X(s.opcode), s.index % 256;
    var t := OpFx55(s).(opcode := op);
    StoreRegsFrame(s);
    LoadRegsFrame(t);
    assert OpFx65(t).registers == s.registers by {
      forall j | 0 <= j < 16
        ensures OpFx65(t).registers[j] == s.registers[j]
      {
      }
    }
  }

  /** Over two cycles: LD [I], Vx followed by LD Vx, [I] with the same x
      leaves every register as it was. */
  lemma CycleStoreThenLoad(s: State, rnd1: byte, rnd2: byte)
    requires CanFetch(s) && Decode(Fetched(s).opcode) == StoreRegs
    requires Cycle(s, rnd1).Ok? && CanFetch(Cycle(s, rnd1).state)
    requires var t := Cycle(s, rnd1).state;
      Decode(Fetched(t).opcode) == LoadRegs && X(Fetched(t).opcode) == X(Fetched(s).opcode)
    ensures Cycle(Cycle(s, rnd1).state, rnd2).Ok?
    ensures Cycle(Cycle(s, rnd1).state, rnd2).state.registers == s.registers
  {
    var f := Fetched(s);
    ExecuteRuns(f, rnd1);
    FetchWord(s);
    CycleOk(s, rnd1, OpFx55(f));
    var t := Cycle(s, rnd1).state;
    var g := Fetched(t);
    ExecuteRuns(g, rnd2);
    FetchWord(t);
    CycleOk(t, rnd2, OpFx65(g));
    StoreThenLoad(f, g.opcode);
    assert g == OpFx55(f).(opcode := g.opcode, pc := g.pc, delayTimer := g.delayTimer, soundTimer := g.soundTimer);
  }

  // ------------------------------------------------------------------ draw

  /** A pixel toggled an even number of times is back where it started. */
  lemma {:induction false} ToggledParity(p: u32, k: nat)
    ensures Toggled(p, k) == if k % 2 == 0 then p else Flip(p)
  {
    if k > 0 {
      ToggledParity(p, k - 1);
    }
  }

  /** A collision happens exactly when the first toggle finds the pixel on,
      or a second toggle finds it on after the first. */
  lemma {:induction false} HitCases(p: u32, k: nat)
    ensures Hit(p, k) <==> (k >= 1 && p == 1) || (k >= 2 && Flip(p) == 1)
  {
    if k > 0 {
      HitCases(p, k - 1);
      ToggledParity(p, k - 1);
    }
  }

  /** The sprite sits in memory exactly when I + n does not pass its end. */
  lemma DrawFault(s: State)
    ensures OpDxyn(s).Fail? <==> N(s.opcode) > 0 && s.index + N(s.opcode) > MemorySize
  {
    var n := N(s.opcode);
    if n > 0 && s.index + n > MemorySize {
      var row := if s.index >= MemorySize then 0 else n - 1;
      assert Add16(s.index, row) >= MemorySize;
    }
  }

  /** DRW changes VF and the one pixel `pixels[y][x]` (x, y the register
      indices of the opcode), which is toggled once per set bit of the
      sprite; VF is 1 exactly when one of those toggles found the pixel on. */
  lemma DrawFrame(s: State)
    requires OpDxyn(s).Ok?
    ensures var t, x, y := OpDxyn(s).state, X(s.opcode), Y(s.opcode);
      var k, p := SetBits(Sprite(s.memory, s.index, N(s.opcode))), s.pixels[y][x];
      t == s.(registers := t.registers, pixels := t.pixels) &&
      (forall j :: 0 <= j < 16 && j != VF ==> t.registers[j] == s.registers[j]) &&
      (t.registers[VF] == 1 <==> (k >= 1 && p == 1) || (k >= 2 && p == 0)) && t.registers[VF] <= 1 &&
      t.pixels[y][x] == (if k % 2 == 0 then p else Flip(p)) &&
      (forall r, c :: 0 <= r < VideoHeight && 0 <= c < VideoWidth && (r, c) != (y, x) ==> t.pixels[r][c] == s.pixels[r][c])
  {
    var k, p := SetBits(Sprite(s.memory, s.index, N(s.opcode))), s.pixels[Y(s.opcode)][X(s.opcode)];
    HitCases(p, k);
    ToggledParity(p, k);
  }

  lemma SetPixelBack(g: Grid, y: nat, x: nat, p: u32)
    requires y < VideoHeight && x < VideoWidth
    ensures SetPixel(SetPixel(g, y, x, p), y, x, g[y][x]) == g
  {
    var h := SetPixel(SetPixel(g, y, x, p), y, x, g[y][x]);
    assert h[y] == g[y];
    assert forall r :: 0 <= r < VideoHeight ==> h[r] == g[r];
  }

  /** Drawing the same sprite twice at the same place restores the screen;
      the second draw reports a collision unless the sprite has no set bit,
      or exactly one and the pixel started on. */
  lemma DrawTwiceRestores(s: State)
    requires OpDxyn(s).Ok?
    requires s.pixels[Y(s.opcode)][X(s.opcode)] <= 1
    ensures OpDxyn(OpDxyn(s).state).Ok?
    ensures OpDxyn(OpDxyn(s).state).state.pixels == s.pixels
    ensures var k, p := SetBits(Sprite(s.memory, s.index, N(s.opcode))), s.pixels[Y(s.opcode)][X(s.opcode)];
      OpDxyn(OpDxyn(s).state).state.registers[VF] == 1 <==> k >= 2 || (k == 1 && p == 0)
  {
    var x, y := X(s.opcode), Y(s.opcode);
    var k, p := SetBits(Sprite(s.memory, s.index, N(s.opcode))), s.pixels[y][x];
    var t := OpDxyn(s).state;
    assert t.memory == s.memory && t.index == s.index && t.opcode == s.opcode;
    ToggledParity(p, k);
    ToggledParity(Toggled(p, k), k);
    HitCases(Toggled(p, k), k);
    SetPixelBack(s.pixels, y, x, Toggled(p, k));
  }

  /** Every pixel is 0 or 1. */
  ghost predicate Binary(g: Grid) {
    forall r, c :: 0 <= r < VideoHeight && 0 <= c < VideoWidth ==> g[r][c] <= 1
  }

  /** A cycle keeps the screen binary. */
  lemma CycleKeepsPixelsBinary(s: State, rnd: byte)
    requires Binary(s.pixels) && Cycle(s, rnd).Ok?
    ensures Binary(Cycle(s, rnd).state.pixels)
  {
    var t := CycleCompletes(s, rnd);
    var f := Fetched(s);
    FetchWord(s);
    ExecuteConfined(f, rnd);
    ExecuteRuns(f, rnd);
    if Decode(f.opcode) == Drw {
      DrawFrame(f);
    }
  }

  /** LD F, Vx points I at the five-byte glyph of digit Vx (for Vx < 16)
      when the font is in place. */
  lemma FontGlyph(s: State)
    requires s.memory[FontsetStartAddress..FontsetStartAddress + |Font|] == Font
    requires s.registers[X(s.opcode)] < 16
    ensures var t, d := OpFx29(s), s.registers[X(s.opcode)];
      t.index == FontsetStartAddress + 5 * d && SpriteInRange(t.memory, t.index, 5) &&
      Sprite(t.memory, t.index, 5) == Font[5 * d..5 * d + 5]
  {
    var t, d := OpFx29(s), s.registers[X(s.opcode)];
    assert forall row :: 0 <= row < 5 ==> Add16(t.index, row) == FontsetStartAddress + (5 * d + row);
  }

  // ----------------------------------------------------------------- keys

  /** `FirstPressed` finds the lowest pressed key at or after `from`, and
      finds none only when no key there is pressed. */
  lemma {:induction false} FirstPressedIsLowest(keys: seq<byte>, from: nat)
    requires from <= |keys|
    ensures match FirstPressed(keys, from)
      case Some(k) => keys[k] != 0 && forall j :: from <= j < k ==> keys[j] == 0
      case None => forall j :: from <= j < |keys| ==> keys[j] == 0
    decreases |keys| - from
  {
    if from < |keys| && keys[from] == 0 {
      FirstPressedIsLowest(keys, from + 1);
    }
  }

  /** Fx0A over a whole cycle: with no key pressed the machine stays on the
      instruction and only the timers move; otherwise Vx receives the lowest
      pressed key and execution continues. */
  lemma CycleWaitsForKey(s: State, rnd: byte)
    requires CanFetch(s) && Decode(Fetched(s).opcode) == LdVxK
    ensures Cycle(s, rnd).Ok?
    ensures var t, x := Cycle(s, rnd).state, X(Fetched(s).opcode);
      t.delayTimer == Decay(s.delayTimer) && t.soundTimer == Decay(s.soundTimer) &&
      ((forall j :: 0 <= j < 16 ==> s.keypad[j] == 0) ==>
        t.pc == s.pc && t.registers == s.registers) &&
      (forall k :: 0 <= k < 16 && s.keypad[k] != 0 && (forall j :: 0 <= j < k ==> s.keypad[j] == 0) ==>
        t.pc == s.pc + 2 && t.registers == s.registers[x := k])
  {
    var f := Fetched(s);
    ExecuteRuns(f, rnd);
    FetchWord(s);
    CycleOk(s, rnd, OpFx0A(f));
    FirstPressedIsLowest(s.keypad, 0);
  }

  /** SKP / SKNP skip the next instruction exactly when key Vx is pressed /
      not pressed, and panic exactly when Vx is not a key. */
  lemma KeySkips(s: State)
    ensures var key := s.registers[X(s.opcode)];
      (OpEx9E(s).Fail? <==> key >= 16) && (OpExA1(s).Fail? <==> key >= 16) &&
      (key < 16 ==>
        OpEx9E(s).state == s.(pc := if s.keypad[key] != 0 then Add16(s.pc, 2) else s.pc) &&
        OpExA1(s).state == s.(pc := if s.keypad[key] == 0 then Add16(s.pc, 2) else s.pc))
  {
  }

  // ------------------------------------------------------------- scenarios

  /** The arithmetic examples: 0xFF + 0x01 wraps to 0 with carry, 5 - 10
      wraps to 0xFB with VF = 0, and 0b10000001 shifted either way sets VF. */
  lemma ArithmeticExamples(s: State)
    requires X(s.opcode) == 0 && Y(s.opcode) == 1
    ensures s.registers[0] == 0xFF && s.registers[1] == 0x01 ==>
      Op8xy4(s).registers[0] == 0 && Op8xy4(s).registers[VF] == 1
    ensures s.registers[0] == 0x05 && s.registers[1] == 0x0A ==>
      Op8xy5(s).registers[0] == 0xFB && Op8xy5(s).registers[VF] == 0
    ensures s.registers[0] == 0x81 ==>
      Op8xy6(s).registers[0] == 0x40 && Op8xy6(s).registers[VF] == 1 &&
      Op8xyE(s).registers[0] == 0x02 && Op8xyE(s).registers[VF] == 1
  {
  }

  /** LD B, Vx with Vx = 234 writes 2, 3, 4. */
  lemma BcdExample(s: State)
    requires s.registers[X(s.opcode)] == 234 && s.index + 2 < MemorySize
    ensures OpFx33(s).Ok?
    ensures var m := OpFx33(s).state.memory;
      m[s.index] == 2 && m[s.index + 1] == 3 && m[s.index + 2] == 4
  {
  }

  /** One cycle of LD Vx, byte at PC: Vx, PC, the opcode and the timers
      change, nothing else. */
  lemma CycleLdByte(s: State, rnd: byte, x: nibble, kk: byte)
    requires s.pc + 2 < MemorySize && s.memory[s.pc] == 0x60 + x && s.memory[s.pc + 1] == kk
    ensures Cycle(s, rnd) == Ok(s.(registers := s.registers[x := kk], pc := s.pc + 2,
      opcode := 0x6000 + 0x100 * x + kk, delayTimer := Decay(s.delayTimer), soundTimer := Decay(s.soundTimer)))
  {
    var f := Fetched(s);
    FetchWord(s);
    assert f.opcode == 0x6000 + 0x100 * x + kk && X(f.opcode) == x && KK(f.opcode) == kk;
    assert Decode(f.opcode) == LdByte;
    ExecuteRuns(f, rnd);
    CycleOk(s, rnd, Op6xkk(f));
  }

  /** One cycle of ADD V0, V1 at PC: V0 takes the byte sum, VF the carry. */
  lemma CycleAddReg(s: State, rnd: byte)
    requires s.pc + 2 < MemorySize && s.memory[s.pc] == 0x80 && s.memory[s.pc + 1] == 0x14
    ensures var sum := s.registers[0] as int + s.registers[1] as int;
      Cycle(s, rnd) == Ok(s.(registers := s.registers[VF := if sum > 255 then 1 else 0][0 := sum % 256],
        pc := s.pc + 2, opcode := 0x8014, delayTimer := Decay(s.delayTimer), soundTimer := Decay(s.soundTimer)))
  {
    var f := Fetched(s);
    FetchWord(s);
    assert f.opcode == 0x8014 && Decode(f.opcode) == AddReg;
    ExecuteRuns(f, rnd);
    CycleOk(s, rnd, Op8xy4(f));
  }

  /** The first two cycles of the program below: V0 = 5, V1 = 3. */
  lemma AddProgramLoads(s: State, r1: byte, r2: byte)
    requires s.pc + 6 < MemorySize
    requires s.memory[s.pc] == 0x60 && s.memory[s.pc + 1] == 0x05
    requires s.memory[s.pc + 2] == 0x61 && s.memory[s.pc + 3] == 0x03
    ensures Cycle(s, r1).Ok? && Cycle(Cycle(s, r1).state, r2).Ok?
    ensures var u := Cycle(Cycle(s, r1).state, r2).state;
      u.registers[0] == 5 && u.registers[1] == 3 && u.pc == s.pc + 4 && u.memory == s.memory
  {
    CycleLdByte(s, r1, 0, 5);
    CycleLdByte(Cycle(s, r1).state, r2, 1, 3);
  }

  /** The last cycle of the program below: 5 + 3 without carry. */
  lemma AddProgramAdds(s: State, r3: byte)
    requires s.pc + 2 < MemorySize
    requires s.memory[s.pc] == 0x80 && s.memory[s.pc + 1] == 0x14
    requires s.registers[0] == 5 && s.registers[1] == 3
    ensures Cycle(s, r3).Ok?
    ensures var u := Cycle(s, r3).state;
      u.registers[0] == 8 && u.registers[1] == 3 && u.registers[VF] == 0 && u.pc == s.pc + 2
  {
    CycleAddReg(s, r3);
  }

  /** The program `LD V0, 5; LD V1, 3; ADD V0, V1` at PC, run for three
      cycles, leaves V0 = 8, V1 = 3, VF = 0 and PC six bytes further on. */
  lemma AddProgram(s: State, r1: byte, r2: byte, r3: byte)
    requires s.pc + 6 < MemorySize
    requires s.memory[s.pc] == 0x60 && s.memory[s.pc + 1] == 0x05
    requires s.memory[s.pc + 2] == 0x61 && s.memory[s.pc + 3] == 0x03
    requires s.memory[s.pc + 4] == 0x80 && s.memory[s.pc + 5] == 0x14
    ensures Cycle(s, r1).Ok? && Cycle(Cycle(s, r1).state, r2).Ok? &&
      Cycle(Cycle(Cycle(s, r1).state, r2).state, r3).Ok?
    ensures var u := Cycle(Cycle(Cycle(s, r1).state, r2).state, r3).state;
      u.registers[0] == 8 && u.registers[1] == 3 && u.registers[VF] == 0 && u.pc == s.pc + 6
  {
    AddProgramLoads(s, r1, r2);
    AddProgramAdds(Cycle(Cycle(s, r1).state, r2).state, r3);
  }

  /** One cycle of LD I, addr at PC: I, PC, the opcode and the timers
      change, nothing else. */
  lemma CycleLdIndex(s: State, rnd: byte, hi: nibble, lo: byte)
    requires s.pc + 2 < MemorySize && s.memory[s.pc] == 0xA0 + hi && s.memory[s.pc + 1] == lo
    ensures Cycle(s, rnd) == Ok(s.(index := 0x100 * hi + lo, pc := s.pc + 2,
      opcode := 0xA000 + 0x100 * hi + lo, delayTimer := Decay(s.delayTimer), soundTimer := Decay(s.soundTimer)))
  {
    var f := Fetched(s);
    FetchWord(s);
    assert f.opcode == 0xA000 + 0x100 * hi + lo && NNN(f.opcode) == 0x100 * hi + lo;
    assert Decode(f.opcode) == LdI;
    ExecuteRuns(f, rnd);
    CycleOk(s, rnd, OpAnnn(f));
  }

  /** A zero byte has no set bit. */
  lemma {:induction false} BitsBeforeZero(col: nat)
    requires col <= 8
    ensures BitsBefore(0, col) == 0
  {
    if col > 0 {
      BitsBeforeZero(col - 1);
    }
  }

  /** Zero sprite rows have no set bit. */
  lemma {:induction false} SetBitsZero(rows: seq<byte>)
    requires forall i :: 0 <= i < |rows| ==> rows[i] == 0
    ensures SetBits(rows) == 0
  {
    if rows != [] {
      SetBitsZero(rows[..|rows| - 1]);
      BitsBeforeZero(8);
    }
  }

  /** DRW V0, V1, 5 over five zero sprite bytes at I toggles nothing and
      clears VF. */
  lemma DrawBlankSprite(f: State)
    requires f.opcode == 0xD015 && f.index + 5 <= MemorySize
    requires forall a :: f.index <= a < f.index + 5 ==> f.memory[a] == 0
    ensures OpDxyn(f) == Ok(f.(registers := f.registers[VF := 0]))
  {
    assert X(f.opcode) == 0 && Y(f.opcode) == 1 && N(f.opcode) == 5;
    assert SpriteInRange(f.memory, f.index, 5);
    var rows := Sprite(f.memory, f.index, 5);
    assert forall i :: 0 <= i < |rows| ==> rows[i] == f.memory[Add16(f.index, i)];
    SetBitsZero(rows);
    var p := f.pixels[1][0];
    assert SetPixel(f.pixels, 1, 0, p) == f.pixels by {
      assert SetPixel(f.pixels, 1, 0, p)[1] == f.pixels[1];
    }
  }

  /** One cycle of DRW V0, V1, 5 over five zero sprite bytes at I: nothing
      is toggled, VF is cleared and PC moves on. */
  lemma CycleDrawBlankSprite(s: State, rnd: byte)
    requires s.pc + 2 < MemorySize && s.memory[s.pc] == 0xD0 && s.memory[s.pc + 1] == 0x15
    requires s.index + 5 <= MemorySize
    requires forall a :: s.index <= a < s.index + 5 ==> s.memory[a] == 0
    ensures Cycle(s, rnd) == Ok(s.(registers := s.registers[VF := 0], pc := s.pc + 2,
      opcode := 0xD015, delayTimer := Decay(s.delayTimer), soundTimer := Decay(s.soundTimer)))
  {
    var f := Fetched(s);
    FetchWord(s);
    assert f.opcode == 0xD015 && Decode(f.opcode) == Drw;
    DrawBlankSprite(f);
    ExecuteRuns(f, rnd);
    CycleOk(s, rnd, f.(registers := f.registers[VF := 0]));
  }

  /** The first three cycles of the program below: I = 0x250, V0 = V1 = 0. */
  lemma DrawProgramLoads(s: State, r1: byte, r2: byte, r3: byte)
    requires s.pc + 8 < MemorySize
    requires s.memory[s.pc] == 0xA2 && s.memory[s.pc + 1] == 0x50
    requires s.memory[s.pc + 2] == 0x60 && s.memory[s.pc + 3] == 0x00
    requires s.memory[s.pc + 4] == 0x61 && s.memory[s.pc + 5] == 0x00
    ensures Cycle(s, r1).Ok? && Cycle(Cycle(s, r1).state, r2).Ok? &&
      Cycle(Cycle(Cycle(s, r1).state, r2).state, r3).Ok?
    ensures var u := Cycle(Cycle(Cycle(s, r1).state, r2).state, r3).state;
      u.index == 0x250 && u.pc == s.pc + 6 && u.memory == s.memory && u.pixels == s.pixels
  {
    CycleLdIndex(s, r1, 2, 0x50);
    var t := Cycle(s, r1).state;
    CycleLdByte(t, r2, 0, 0);
    CycleLdByte(Cycle(t, r2).state, r3, 1, 0);
  }

  /** The program `LD I, 0x250; LD V0, 0; LD V1, 0; DRW V0, V1, 5` at PC,
      with zeros at 0x250..0x254, leaves the screen as it was and VF = 0:
      I points past the font, so the sprite has no set bit. */
  lemma DrawProgram(s: State, r1: byte, r2: byte, r3: byte, r4: byte)
    requires s.pc + 8 < MemorySize
    requires s.memory[s.pc] == 0xA2 && s.memory[s.pc + 1] == 0x50
    requires s.memory[s.pc + 2] == 0x60 && s.memory[s.pc + 3] == 0x00
    requires s.memory[s.pc + 4] == 0x61 && s.memory[s.pc + 5] == 0x00
    requires s.memory[s.pc + 6] == 0xD0 && s.memory[s.pc + 7] == 0x15
    requires forall a :: 0x250 <= a < 0x255 ==> s.memory[a] == 0
    ensures Cycle(s, r1).Ok? && Cycle(Cycle(s, r1).state, r2).Ok? &&
      Cycle(Cycle(Cycle(s, r1).state, r2).state, r3).Ok?
    ensures var u := Cycle(Cycle(Cycle(s, r1).state, r2).state, r3).state;
      Cycle(u, r4).Ok? && Cycle(u, r4).state.pixels == s.pixels &&
      Cycle(u, r4).state.registers[VF] == 0 && Cycle(u, r4).state.pc == s.pc + 8
  {
    DrawProgramLoads(s, r1, r2, r3);
    var u := Cycle(Cycle(Cycle(s, r1).state, r2).state, r3).state;
    CycleDrawBlankSprite(u, r4);
  }

  /** The same program loaded from a ROM into the boot state: the screen
      stays blank and VF is 0 after four cycles. */
  lemma DrawProgramFromBoot(r1: byte, r2: byte, r3: byte, r4: byte)
    ensures LoadRom(Boot(), [0xA2, 0x50, 0x60, 0x00, 0x61, 0x00, 0xD0, 0x15]).Ok?
    ensures var s := LoadRom(Boot(), [0xA2, 0x50, 0x60, 0x00, 0x61, 0x00, 0xD0, 0x15]).state;
      Cycle(s, r1).Ok? && Cycle(Cycle(s, r1).state, r2).Ok? &&
      Cycle(Cycle(Cycle(s, r1).state, r2).state, r3).Ok?
    ensures var s := LoadRom(Boot(), [0xA2, 0x50, 0x60, 0x00, 0x61, 0x00, 0xD0, 0x15]).state;
      var u := Cycle(Cycle(Cycle(s, r1).state, r2).state, r3).state;
      Cycle(u, r4).Ok? && Cycle(u, r4).state.pixels == Blank() &&
      Cycle(u, r4).state.registers[VF] == 0 && Cycle(u, r4).state.pc == StartAddress + 8
  {
    var rom: seq<byte> := [0xA2, 0x50, 0x60, 0x00, 0x61, 0x00, 0xD0, 0x15];
    var s := LoadRom(Boot(), rom).state;
    BootState();
    assert forall a :: 0x250 <= a < 0x255 ==> s.memory[a] == 0;
    assert s.pixels == Blank();
    DrawProgram(s, r1, r2, r3, r4);
  }

  /** The same program loaded from a ROM into the boot state. */
  lemma AddProgramFromBoot(r1: byte, r2: byte, r3: byte)
    ensures LoadRom(Boot(), [0x60, 0x05, 0x61, 0x03, 0x80, 0x14]).Ok?
    ensures var s := LoadRom(Boot(), [0x60, 0x05, 0x61, 0x03, 0x80, 0x14]).state;
      Cycle(s, r1).Ok? && Cycle(Cycle(s, r1).state, r2).Ok? &&
      Cycle(Cycle(Cycle(s, r1).state, r2).state, r3).Ok?
    ensures var s := LoadRom(Boot(), [0x60, 0x05, 0x61, 0x03, 0x80, 0x14]).state;
      var u := Cycle(Cycle(Cycle(s, r1).state, r2).state, r3).state;
      u.registers[0] == 8 && u.registers[1] == 3 && u.registers[VF] == 0 && u.pc == StartAddress + 6
  {
    var rom: seq<byte> := [0x60, 0x05, 0x61, 0x03, 0x80, 0x14];
    AddProgram(LoadRom(Boot(), rom).state, r1, r2, r3);
  }
}

/** The instruction handlers of 6502Emu/InstructionSet.cs. Each handler takes the
    processor and an addressing mode and returns the status register; here a handler is
    a tag, `Step` says what it does to the machine as a value, and one method per handler
    does it to a `Cpu` in the code's order of steps. */
module Handlers {
  import opened Types
  import opened AddressingModes
  import opened FlagMasks
  import opened StatusRegister
  import opened MemoryBus
  import opened Processor

  datatype Handler =
    | Nop | Brk | Sei | Sed | Sec | Tsx | Txs | Sta | Stx | Sty
    | Inx | Iny | Jmp | Tya | Txa | Tay | Tax

  /** The registers a handler can copy between. */
  datatype Register = RegA | RegX | RegY | RegS

  function Get(regs: Registers, reg: Register): Byte
  {
    match reg
    case RegA => regs.A
    case RegX => regs.X
    case RegY => regs.Y
    case RegS => regs.SP
  }

  function Set(regs: Registers, reg: Register, value: Byte): (r: Registers)
    ensures Get(r, reg) == value
    ensures forall other :: other != reg ==> Get(r, other) == Get(regs, other)
    ensures r.PC == regs.PC && r.P == regs.P
  {
    match reg
    case RegA => regs.(A := value)
    case RegX => regs.(X := value)
    case RegY => regs.(Y := value)
    case RegS => regs.(SP := value)
  }

  /** Source and destination of the six transfer instructions. */
  function Route(h: Handler): (r: (Register, Register))
    requires h in {Tax, Tay, Txa, Tya, Tsx, Txs}
    ensures r.0 != r.1
    ensures r.0 == RegS <==> h == Tsx
    ensures r.1 == RegS <==> h == Txs
    ensures (r.0 == RegA || r.1 == RegA) <==> h in {Tax, Tay, Txa, Tya}
  {
    match h
    case Tax => (RegA, RegX)
    case Tay => (RegA, RegY)
    case Txa => (RegX, RegA)
    case Tya => (RegY, RegA)
    case Tsx => (RegS, RegX)
    case Txs => (RegX, RegS)
  }

  /** The register a store instruction loads. */
  function Loaded(h: Handler): (r: Register)
    requires h in {Sta, Stx, Sty}
    ensures r != RegS
  {
    match h
    case Sta => RegA
    case Stx => RegX
    case Sty => RegY
  }

  /** The flag each of SEC, SED and SEI sets. */
  function FlagOf(h: Handler): (r: Flag)
    requires h in {Sec, Sed, Sei}
    ensures r !in {Zero, Negative, BreakCommand, Overflow}
  {
    match h
    case Sec => Carry
    case Sed => Decimal
    case Sei => InterruptDisable
  }

  /** CheckAndSetZero followed by CheckAndSetNegative on the same value: Zero and
      Negative come from the value and every other flag keeps its state. */
  function ZeroNegative(flags: bv8, value: Byte): (r: bv8)
    ensures HasFlag(r, Zero) <==> value == 0
    ensures HasFlag(r, Negative) <==> value >= 0x80
    ensures forall f :: f != Zero && f != Negative ==> (HasFlag(r, f) <==> HasFlag(flags, f))
  {
    OtherFlagsKept(flags, value);
    NegativeFrom(ZeroFrom(flags, value), value)
  }

  /** The two checks in turn leave every flag but Zero and Negative as it was. */
  lemma OtherFlagsKept(flags: bv8, value: Byte)
    ensures forall f :: f != Zero && f != Negative ==>
      (HasFlag(NegativeFrom(ZeroFrom(flags, value), value), f) <==> HasFlag(flags, f))
  {
    var z := ZeroFrom(flags, value);
    forall f | f != Zero && f != Negative
      ensures HasFlag(NegativeFrom(z, value), f) <==> HasFlag(flags, f)
    {
      KeptFlag(flags, z, Zero, f);
      KeptFlag(z, NegativeFrom(z, value), Negative, f);
    }
  }

  /** A flag outside the mask that changed keeps its state. */
  lemma KeptFlag(before: bv8, after: bv8, changed: Flag, f: Flag)
    requires after & !Mask(changed) == before & !Mask(changed) && f != changed
    ensures HasFlag(after, f) <==> HasFlag(before, f)
  {
    MasksDisjoint(f, changed);
    assert Mask(f) & !Mask(changed) == Mask(f);
    calc {
      after & Mask(f);
      after & (Mask(f) & !Mask(changed));
      (after & !Mask(changed)) & Mask(f);
      (before & !Mask(changed)) & Mask(f);
      before & (Mask(f) & !Mask(changed));
      before & Mask(f);
    }
  }

  /** CmdBrk: push the program counter, push the status byte as it is, load the program
      counter from the word at 0xFFFE, then set BreakCommand. */
  function Break(m: Machine): (r: Machine)
    requires m.Valid()
    ensures r.Valid() && r.bus.subscribers == m.bus.subscribers
  {
    var pushed := Push8(Push16(m, m.regs.PC), m.regs.P as int);
    pushed.WithPC(pushed.bus.Read16(0xFFFE)).WithFlags(WithFlag(pushed.regs.P, BreakCommand, true))
  }

  /** What each handler does, or the error the code throws before changing anything. */
  function Step(h: Handler, mode: AddressingMode, m: Machine): (r: Result<Machine>)
    requires m.Valid()
    ensures r.Ok? ==> r.value.Valid() && r.value.bus.subscribers == m.bus.subscribers
  {
    var regs := m.regs;
    match h
    case Nop => Ok(m)
    case Brk => Ok(Break(m))
    case Sei => Ok(m.WithFlags(WithFlag(regs.P, InterruptDisable, true)))
    case Sed => Ok(m.WithFlags(WithFlag(regs.P, Decimal, true)))
    case Sec => Ok(m.WithFlags(WithFlag(regs.P, Carry, true)))
    case Tsx => Ok(m.(regs := regs.(X := regs.SP, P := ZeroNegative(regs.P, regs.SP))))
    case Txs => Ok(m.(regs := regs.(SP := regs.X)))
    case Sta =>
      (match ByteOperand(mode, m)
       case Err(e) => Err(e)
       case Ok(f) => Ok(f.next.(regs := f.next.regs.(A := f.value))))
    case Stx =>
      (match ByteOperand(mode, m)
       case Err(e) => Err(e)
       case Ok(f) => Ok(f.next.(regs := f.next.regs.(X := f.value))))
    case Sty =>
      (match ByteOperand(mode, m)
       case Err(e) => Err(e)
       case Ok(f) => Ok(f.next.(regs := f.next.regs.(Y := f.value))))
    case Inx =>
      var x := ByteSum(regs.X, 1);
      Ok(m.(regs := regs.(X := x, P := ZeroNegative(regs.P, x))))
    case Iny =>
      var y := ByteSum(regs.Y, 1);
      Ok(m.(regs := regs.(Y := y, P := ZeroNegative(regs.P, y))))
    case Jmp =>
      (match AddressOperand(mode, m)
       case Err(e) => Err(e)
       case Ok(f) => Ok(f.next.WithPC(f.value)))
    case Tya => Ok(m.(regs := regs.(A := regs.Y, P := ZeroNegative(regs.P, regs.Y))))
    case Txa => Ok(m.(regs := regs.(A := regs.X, P := ZeroNegative(regs.P, regs.X))))
    case Tay => Ok(m.(regs := regs.(Y := regs.A, P := ZeroNegative(regs.P, regs.A))))
    case Tax => Ok(m.(regs := regs.(X := regs.A, P := ZeroNegative(regs.P, regs.A))))
  }

  /** Only the handlers that resolve an operand can fail, and they fail exactly when
      their resolver rejects the mode. */
  lemma StepFails(h: Handler, mode: AddressingMode, m: Machine)
    requires m.Valid()
    ensures Step(h, mode, m).Err? <==>
      (h in {Sta, Stx, Sty} && mode in {Implied, Relative}) ||
      (h == Jmp && mode in {Implied, Immediate, AddressingMode.Accumulator, Relative})
    ensures Step(h, mode, m).Err? ==> Step(h, mode, m).error == UnsupportedAddressingMode(mode)
  {
  }

  /** BRK's registers: the new program counter is the word that was at 0xFFFE (the
      pushes never reach it), the stack pointer moves up three, BreakCommand is set and
      no other status bit moves; A, X and Y stay. */
  lemma BreakRegisters(m: Machine)
    requires m.Valid()
    ensures Break(m).regs == m.regs.(PC := m.bus.Read16(0xFFFE), SP := (m.regs.SP + 3) % 0x100,
                                        P := WithFlag(m.regs.P, BreakCommand, true))
  {
    var m1 := Push16(m, m.regs.PC);
    var m2 := Push8(m1, m.regs.P as int);
    Write16Elsewhere(m.bus, StackAddress(m.regs.SP), m.regs.PC, 0xFFFE);
    Write8Elsewhere(m1.bus, StackAddress(m1.regs.SP), m.regs.P as int, 0xFFFE);
    assert m2.bus.Read16(0xFFFE) == m.bus.Read16(0xFFFE);
  }

  /** A word push followed by a byte push unwinds in reverse: the byte pops first, and
      the byte push never lands on the cell it pops from. */
  lemma PushPairTop(m: Machine, w: Word, b: Byte)
    requires m.Valid()
    ensures var top := Pop8(Push8(Push16(m, w), b));
      m.bus.Owned(StackAddress((m.regs.SP + 2) % 0x100)) ==> top.value == b
    ensures Pop8(Push8(Push16(m, w), b)).next == Push8(Push16(m, w), b).(regs := Push16(m, w).regs)
  {
    var m1 := Push16(m, w);
    assert m1.regs.SP == (m.regs.SP as int + 2) % 0x100;
    Push8ThenPop8(m1, b);
  }

  /** After the byte pops, the word pops: it is the pushed word, and the stack pointer is
      back where it started. The byte push never lands on the word's two cells. */
  lemma PushPairPops(m: Machine, w: Word, b: Byte)
    requires m.Valid()
    ensures var top := Pop8(Push8(Push16(m, w), b));
      m.bus.Owned(StackAddress((m.regs.SP + 2) % 0x100)) ==> top.value == b
    ensures var ret := Pop16(Pop8(Push8(Push16(m, w), b)).next);
      (m.bus.Owned(StackAddress(m.regs.SP)) ==> ret.value == w) && ret.next.regs.SP == m.regs.SP
  {
    var sp := m.regs.SP;
    var m1 := Push16(m, w);
    var m2 := Push8(m1, b);
    PushPairTop(m, w, b);
    assert (m1.regs.SP as int - 2) % 0x100 == sp;
    Write8Elsewhere(m1.bus, StackAddress(m1.regs.SP), b, StackAddress(sp));
    Push16ThenPop16(m, w);
    assert Pop16(m2.(regs := m1.regs)).value == m1.bus.Read16(StackAddress(sp));
  }

  /** BRK's return frame: popping a byte and then a word gives back the status byte as it
      was before BRK and the old program counter, and restores the stack pointer, whenever
      the stack cells have an owner. */
  lemma BreakReturnFrame(m: Machine)
    requires m.Valid()
    ensures var status := Pop8(Break(m));
      m.bus.Owned(StackAddress((m.regs.SP + 2) % 0x100)) ==> status.value == m.regs.P as int
    ensures var ret := Pop16(Pop8(Break(m)).next);
      (m.bus.Owned(StackAddress(m.regs.SP)) ==> ret.value == m.regs.PC) &&
      ret.next.regs.SP == m.regs.SP
  {
    var pushed := Push8(Push16(m, m.regs.PC), m.regs.P as int);
    var pc := pushed.bus.Read16(0xFFFE);
    var p := WithFlag(pushed.regs.P, BreakCommand, true);
    assert Break(m) == pushed.WithPC(pc).WithFlags(p);
    PushPairPops(m, m.regs.PC, m.regs.P as int);
    PopsIgnoreCounterAndStatus(pushed, pc, p);
  }

  /** Popping reads only the stack pointer and memory, so the program counter and the
      status register play no part in what a byte pop and a word pop return. */
  lemma PopsIgnoreCounterAndStatus(m: Machine, pc: Word, p: bv8)
    requires m.Valid()
    ensures Pop8(m.WithPC(pc).WithFlags(p)).value == Pop8(m).value
    ensures var after := Pop8(m.WithPC(pc).WithFlags(p)).next;
      var ret := Pop16(Pop8(m).next);
      Pop16(after).value == ret.value && Pop16(after).next.regs.SP == ret.next.regs.SP
  {
    var moved := m.WithPC(pc).WithFlags(p);
    assert moved.bus == m.bus && moved.regs.SP == m.regs.SP;
    var a, b := Pop8(moved).next, Pop8(m).next;
    assert a.bus == b.bus && a.regs.SP == b.regs.SP;
  }

  /** INX: X goes up by one modulo 0x100; Zero is set exactly when X was 0xFF and
      Negative exactly when the new X has bit 7 set (old X from 0x7F to 0xFE). Nothing
      else changes but those two flags. */
  lemma InxIncrements(mode: AddressingMode, m: Machine)
    requires m.Valid()
    ensures Step(Inx, mode, m).Ok?
    ensures var r := Step(Inx, mode, m).value;
      r.bus == m.bus && r.regs == m.regs.(X := (m.regs.X + 1) % 0x100, P := r.regs.P) &&
      (HasFlag(r.regs.P, Zero) <==> m.regs.X == 0xFF) &&
      (HasFlag(r.regs.P, Negative) <==> 0x7F <= m.regs.X < 0xFF) &&
      forall f :: f != Zero && f != Negative ==> (HasFlag(r.regs.P, f) <==> HasFlag(m.regs.P, f))
  {
  }

  /** INY: the same as INX, on Y. */
  lemma InyIncrements(mode: AddressingMode, m: Machine)
    requires m.Valid()
    ensures Step(Iny, mode, m).Ok?
    ensures var r := Step(Iny, mode, m).value;
      r.bus == m.bus && r.regs == m.regs.(Y := (m.regs.Y + 1) % 0x100, P := r.regs.P) &&
      (HasFlag(r.regs.P, Zero) <==> m.regs.Y == 0xFF) &&
      (HasFlag(r.regs.P, Negative) <==> 0x7F <= m.regs.Y < 0xFF) &&
      forall f :: f != Zero && f != Negative ==> (HasFlag(r.regs.P, f) <==> HasFlag(m.regs.P, f))
  {
  }

  /** The transfers copy their source register into their destination and change no
      other register and no memory. All but TXS then set Zero and Negative from the
      copied value and keep the other flags; TXS leaves the status alone. */
  lemma TransferCopies(h: Handler, mode: AddressingMode, m: Machine)
    requires m.Valid() && h in {Tax, Tay, Txa, Tya, Tsx, Txs}
    ensures Step(h, mode, m).Ok?
    ensures var (src, dst) := Route(h);
      var r := Step(h, mode, m).value;
      var v := Get(m.regs, src);
      r.bus == m.bus && r.regs.PC == m.regs.PC && Get(r.regs, dst) == v &&
      (forall reg :: reg != dst ==> Get(r.regs, reg) == Get(m.regs, reg)) &&
      (h == Txs ==> r.regs.P == m.regs.P) &&
      (h != Txs ==> r.regs.P == ZeroNegative(m.regs.P, v) &&
                    (HasFlag(r.regs.P, Zero) <==> v == 0) &&
                    (HasFlag(r.regs.P, Negative) <==> v >= 0x80))
  {
    var (src, dst) := Route(h);
  }

  /** SEC, SED and SEI set their one flag and keep every other bit and register. */
  lemma SetFlagInstructions(h: Handler, mode: AddressingMode, m: Machine)
    requires m.Valid() && h in {Sec, Sed, Sei}
    ensures Step(h, mode, m).Ok?
    ensures var r := Step(h, mode, m).value;
      r.bus == m.bus && r.regs == m.regs.(P := r.regs.P) &&
      HasFlag(r.regs.P, FlagOf(h)) &&
      r.regs.P & !Mask(FlagOf(h)) == m.regs.P & !Mask(FlagOf(h))
  {
    SetFlagStep(h, mode, m);
  }

  /** Running SEC, SED or SEI a second time changes nothing more. */
  lemma SetFlagTwice(h: Handler, mode: AddressingMode, m: Machine)
    requires m.Valid() && h in {Sec, Sed, Sei}
    ensures Step(h, mode, m).Ok? && Step(h, mode, Step(h, mode, m).value) == Step(h, mode, m)
  {
    var p := WithFlag(m.regs.P, FlagOf(h), true);
    SetFlagStep(h, mode, m);
    SetFlagStep(h, mode, m.WithFlags(p));
    WithFlagIdempotent(m.regs.P, FlagOf(h), true);
    assert m.WithFlags(p).WithFlags(p) == m.WithFlags(p);
  }

  /** Unfolding helper: the Step case of SEC, SED and SEI, written with FlagOf. What
      the three do is stated by SetFlagInstructions. */
  lemma SetFlagStep(h: Handler, mode: AddressingMode, m: Machine)
    requires m.Valid() && h in {Sec, Sed, Sei}
    ensures Step(h, mode, m) == Ok(m.WithFlags(WithFlag(m.regs.P, FlagOf(h), true)))
  {
  }

  /** Every handler but JMP and BRK leaves the program counter just past the operand:
      a store past its mode's operand bytes, an implied instruction where it was. */
  lemma StepAdvances(h: Handler, mode: AddressingMode, m: Machine)
    requires m.Valid() && h !in {Jmp, Brk}
    requires h in {Sta, Stx, Sty} ==> mode !in {Implied, Relative}
    requires h !in {Sta, Stx, Sty} ==> mode == Implied
    ensures Step(h, mode, m).Ok?
    ensures Step(h, mode, m).value.regs.PC == Advance(m.regs.PC, OperandSize(mode))
  {
    if h in {Sta, Stx, Sty} {
      StoreLoads(h, mode, m);
    }
  }

  /** STA, STX and STY load their register with the operand value and move the program
      counter past the operand; memory, the stack pointer, the status and the other
      registers stay as they were. For a memory mode the value is the byte at the address
      ReadAddrFromMemory resolves ((zp,X) only while base + X stays below 0xFF). */
  lemma StoreLoads(h: Handler, mode: AddressingMode, m: Machine)
    requires m.Valid() && h in {Sta, Stx, Sty} && mode !in {Implied, Relative}
    ensures Step(h, mode, m).Ok?
    ensures var r := Step(h, mode, m).value;
      var reg := Loaded(h);
      r.bus == m.bus && r.regs.P == m.regs.P &&
      r.regs.PC == Advance(m.regs.PC, OperandSize(mode)) &&
      Get(r.regs, reg) == ByteOperand(mode, m).value.value &&
      (forall other :: other != reg ==> Get(r.regs, other) == Get(m.regs, other))
    ensures AddressOperand(mode, m).Ok? &&
            (mode == IndexedIndirect ==> m.bus.Read8(m.regs.PC) + m.regs.X < 0xFF) ==>
      Get(Step(h, mode, m).value.regs, Loaded(h)) == m.bus.Read8(AddressOperand(mode, m).value.value)
  {
    StoreStep(h, mode, m);
    if AddressOperand(mode, m).Ok? &&
       (mode == IndexedIndirect ==> m.bus.Read8(m.regs.PC) + m.regs.X < 0xFF) {
      ResolversAgree(mode, m);
    }
  }

  /** Unfolding helper: the Step case of STA, STX and STY, written with Loaded. What a
      store does is stated by StoreLoads. */
  lemma StoreStep(h: Handler, mode: AddressingMode, m: Machine)
    requires m.Valid() && h in {Sta, Stx, Sty} && ByteOperand(mode, m).Ok?
    ensures var f := ByteOperand(mode, m).value;
      Step(h, mode, m) == Ok(f.next.(regs := Set(f.next.regs, Loaded(h), f.value)))
  {
  }

  /** JMP loads the program counter with ReadAddrFromMemory's address: Absolute lands on
      the operand word, Indirect on the word it points to. Nothing else changes. */
  lemma JumpTargets(mode: AddressingMode, m: Machine)
    requires m.Valid()
    ensures Step(Jmp, mode, m).Ok? <==> AddressOperand(mode, m).Ok?
    ensures Step(Jmp, mode, m).Ok? ==>
      Step(Jmp, mode, m) == Ok(m.WithPC(AddressOperand(mode, m).value.value))
    ensures mode == Absolute ==> Step(Jmp, mode, m) == Ok(m.WithPC(m.bus.Read16(m.regs.PC)))
    ensures mode == Indirect ==>
      Step(Jmp, mode, m) == Ok(m.WithPC(m.bus.Read16(m.bus.Read16(m.regs.PC))))
  {
  }

  /** The handler ran: on success its result is the processor's status register and the
      processor is in the state `Step` gives; on failure nothing changed. */
  twostate predicate Performs(h: Handler, mode: AddressingMode, cpu: Cpu, new r: Result<FlagSet>)
    requires old(cpu.Valid()) && cpu.Valid()
    reads cpu, cpu.Status, cpu.Bus, cpu.Bus.Cells.Keys
  {
    match Step(h, mode, old(cpu.State()))
    case Ok(next) => r == Ok(cpu.Status) && cpu.State() == next
    case Err(e) => r == Err(e) && cpu.State() == old(cpu.State())
  }

  method CmdNop(cpu: Cpu, mode: AddressingMode) returns (r: Result<FlagSet>)
    requires cpu.Valid()
    ensures cpu.Valid() && Performs(Nop, mode, cpu, r)
  {
    r := Ok(cpu.Status);
  }

  method CmdBrk(cpu: Cpu, mode: AddressingMode) returns (r: Result<FlagSet>)
    requires cpu.Valid()
    modifies cpu`StackPointer, cpu`ProgramCounter, cpu.Bus`Cells, cpu.Bus.Arrays(), cpu.Status
    ensures cpu.Valid() && Performs(Brk, mode, cpu, r)
  {
    cpu.PushStack16(cpu.ProgramCounter);
    cpu.PushStack8(cpu.Status.AsByte());
    cpu.ProgramCounter := cpu.Bus.Read16(0xFFFE);
    var _ := cpu.Status.SetFlag(BreakCommand, true);
    r := Ok(cpu.Status);
  }

  method CmdSei(cpu: Cpu, mode: AddressingMode) returns (r: Result<FlagSet>)
    requires cpu.Valid()
    modifies cpu.Status
    ensures cpu.Valid() && Performs(Sei, mode, cpu, r)
  {
    var _ := cpu.Status.SetFlag(InterruptDisable, true);
    r := Ok(cpu.Status);
  }

  method CmdSed(cpu: Cpu, mode: AddressingMode) returns (r: Result<FlagSet>)
    requires cpu.Valid()
    modifies cpu.Status
    ensures cpu.Valid() && Performs(Sed, mode, cpu, r)
  {
    var _ := cpu.Status.SetFlag(Decimal, true);
    r := Ok(cpu.Status);
  }

  method CmdSec(cpu: Cpu, mode: AddressingMode) returns (r: Result<FlagSet>)
    requires cpu.Valid()
    modifies cpu.Status
    ensures cpu.Valid() && Performs(Sec, mode, cpu, r)
  {
    var _ := cpu.Status.SetFlag(Carry, true);
    r := Ok(cpu.Status);
  }

  method CmdTsx(cpu: Cpu, mode: AddressingMode) returns (r: Result<FlagSet>)
    requires cpu.Valid()
    modifies cpu`X, cpu.Status
    ensures cpu.Valid() && Performs(Tsx, mode, cpu, r)
  {
    ghost var m := cpu.State();
    cpu.X := cpu.StackPointer;
    assert cpu.State() == m.(regs := m.regs.(X := m.regs.SP));
    cpu.CheckAndSetZero(cpu.X);
    cpu.CheckAndSetNegative(cpu.X);
    assert cpu.State() == m.(regs := m.regs.(X := m.regs.SP, P := ZeroNegative(m.regs.P, m.regs.SP)));
    r := Ok(cpu.Status);
  }

  method CmdTxs(cpu: Cpu, mode: AddressingMode) returns (r: Result<FlagSet>)
    requires cpu.Valid()
    modifies cpu`StackPointer
    ensures cpu.Valid() && Performs(Txs, mode, cpu, r)
  {
    cpu.StackPointer := cpu.X;
    r := Ok(cpu.Status);
  }

  method CmdSta(cpu: Cpu, mode: AddressingMode) returns (r: Result<FlagSet>)
    requires cpu.Valid()
    modifies cpu`Accumulator, cpu`ProgramCounter
    ensures cpu.Valid() && Performs(Sta, mode, cpu, r)
  {
    var data := cpu.ReadByteFromMemory(mode);
    if data.Err? {
      return Err(data.error);
    }
    cpu.Accumulator := data.value;
    r := Ok(cpu.Status);
  }

  method CmdStx(cpu: Cpu, mode: AddressingMode) returns (r: Result<FlagSet>)
    requires cpu.Valid()
    modifies cpu`X, cpu`ProgramCounter
    ensures cpu.Valid() && Performs(Stx, mode, cpu, r)
  {
    var data := cpu.ReadByteFromMemory(mode);
    if data.Err? {
      return Err(data.error);
    }
    cpu.X := data.value;
    r := Ok(cpu.Status);
  }

  method CmdSty(cpu: Cpu, mode: AddressingMode) returns (r: Result<FlagSet>)
    requires cpu.Valid()
    modifies cpu`Y, cpu`ProgramCounter
    ensures cpu.Valid() && Performs(Sty, mode, cpu, r)
  {
    var data := cpu.ReadByteFromMemory(mode);
    if data.Err? {
      return Err(data.error);
    }
    cpu.Y := data.value;
    r := Ok(cpu.Status);
  }

  method CmdInx(cpu: Cpu, mode: AddressingMode) returns (r: Result<FlagSet>)
    requires cpu.Valid()
    modifies cpu`X, cpu.Status
    ensures cpu.Valid() && Performs(Inx, mode, cpu, r)
  {
    ghost var m := cpu.State();
    ghost var v := ByteSum(m.regs.X, 1);
    cpu.X := ByteSum(cpu.X, 1);
    assert cpu.State() == m.(regs := m.regs.(X := v));
    cpu.CheckAndSetZero(cpu.X);
    cpu.CheckAndSetNegative(cpu.X);
    assert cpu.State() == m.(regs := m.regs.(X := v, P := ZeroNegative(m.regs.P, v)));
    r := Ok(cpu.Status);
  }

  method CmdIny(cpu: Cpu, mode: AddressingMode) returns (r: Result<FlagSet>)
    requires cpu.Valid()
    modifies cpu`Y, cpu.Status
    ensures cpu.Valid() && Performs(Iny, mode, cpu, r)
  {
    ghost var m := cpu.State();
    ghost var v := ByteSum(m.regs.Y, 1);
    cpu.Y := ByteSum(cpu.Y, 1);
    assert cpu.State() == m.(regs := m.regs.(Y := v));
    cpu.CheckAndSetZero(cpu.Y);
    cpu.CheckAndSetNegative(cpu.Y);
    assert cpu.State() == m.(regs := m.regs.(Y := v, P := ZeroNegative(m.regs.P, v)));
    r := Ok(cpu.Status);
  }

  method CmdJmp(cpu: Cpu, mode: AddressingMode) returns (r: Result<FlagSet>)
    requires cpu.Valid()
    modifies cpu`ProgramCounter
    ensures cpu.Valid() && Performs(Jmp, mode, cpu, r)
  {
    var targetAddr := cpu.ReadAddrFromMemory(mode);
    if targetAddr.Err? {
      return Err(targetAddr.error);
    }
    cpu.ProgramCounter := targetAddr.value;
    r := Ok(cpu.Status);
  }

  method CmdTya(cpu: Cpu, mode: AddressingMode) returns (r: Result<FlagSet>)
    requires cpu.Valid()
    modifies cpu`Accumulator, cpu.Status
    ensures cpu.Valid() && Performs(Tya, mode, cpu, r)
  {
    ghost var m := cpu.State();
    cpu.Accumulator := cpu.Y;
    assert cpu.State() == m.(regs := m.regs.(A := m.regs.Y));
    cpu.CheckAndSetZero(cpu.Y);
    cpu.CheckAndSetNegative(cpu.Y);
    assert cpu.State() == m.(regs := m.regs.(A := m.regs.Y, P := ZeroNegative(m.regs.P, m.regs.Y)));
    r := Ok(cpu.Status);
  }

  method CmdTxa(cpu: Cpu, mode: AddressingMode) returns (r: Result<FlagSet>)
    requires cpu.Valid()
    modifies cpu`Accumulator, cpu.Status
    ensures cpu.Valid() && Performs(Txa, mode, cpu, r)
  {
    ghost var m := cpu.State();
    cpu.Accumulator := cpu.X;
    assert cpu.State() == m.(regs := m.regs.(A := m.regs.X));
    cpu.CheckAndSetZero(cpu.X);
    cpu.CheckAndSetNegative(cpu.X);
    assert cpu.State() == m.(regs := m.regs.(A := m.regs.X, P := ZeroNegative(m.regs.P, m.regs.X)));
    r := Ok(cpu.Status);
  }

  method CmdTay(cpu: Cpu, mode: AddressingMode) returns (r: Result<FlagSet>)
    requires cpu.Valid()
    modifies cpu`Y, cpu.Status
    ensures cpu.Valid() && Performs(Tay, mode, cpu, r)
  {
    ghost var m := cpu.State();
    cpu.Y := cpu.Accumulator;
    assert cpu.State() == m.(regs := m.regs.(Y := m.regs.A));
    cpu.CheckAndSetZero(cpu.Accumulator);
    cpu.CheckAndSetNegative(cpu.Accumulator);
    assert cpu.State() == m.(regs := m.regs.(Y := m.regs.A, P := ZeroNegative(m.regs.P, m.regs.A)));
    r := Ok(cpu.Status);
  }

  method CmdTax(cpu: Cpu, mode: AddressingMode) returns (r: Result<FlagSet>)
    requires cpu.Valid()
    modifies cpu`X, cpu.Status
    ensures cpu.Valid() && Performs(Tax, mode, cpu, r)
  {
    ghost var m := cpu.State();
    cpu.X := cpu.Accumulator;
    assert cpu.State() == m.(regs := m.regs.(X := m.regs.A));
    cpu.CheckAndSetZero(cpu.Accumulator);
    cpu.CheckAndSetNegative(cpu.Accumulator);
    assert cpu.State() == m.(regs := m.regs.(X := m.regs.A, P := ZeroNegative(m.regs.P, m.regs.A)));
    r := Ok(cpu.Status);
  }

  /** Calls the handler's method, as invoking the command delegate does. */
  method Invoke(h: Handler, cpu: Cpu, mode: AddressingMode) returns (r: Result<FlagSet>)
    requires cpu.Valid()
    modifies cpu, cpu.Bus`Cells, cpu.Bus.Arrays(), cpu.Status
    ensures cpu.Valid() && Performs(h, mode, cpu, r)
  {
    match h
    case Nop => r := CmdNop(cpu, mode);
    case Brk => r := CmdBrk(cpu, mode);
    case Sei => r := CmdSei(cpu, mode);
    case Sed => r := CmdSed(cpu, mode);
    case Sec => r := CmdSec(cpu, mode);
    case Tsx => r := CmdTsx(cpu, mode);
    case Txs => r := CmdTxs(cpu, mode);
    case Sta => r := CmdSta(cpu, mode);
    case Stx => r := CmdStx(cpu, mode);
    case Sty => r := CmdSty(cpu, mode);
    case Inx => r := CmdInx(cpu, mode);
    case Iny => r := CmdIny(cpu, mode);
    case Jmp => r := CmdJmp(cpu, mode);
    case Tya => r := CmdTya(cpu, mode);
    case Txa => r := CmdTxa(cpu, mode);
    case Tay => r := CmdTay(cpu, mode);
    case Tax => r := CmdTax(cpu, mode);
  }
}

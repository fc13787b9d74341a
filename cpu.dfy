/** Processor state (6502Emu/Cpu.cs): the registers, the page-one stack and the two
    operand resolvers, which consume operand bytes by advancing the program counter. */
module Processor {
  import opened Types
  import opened AddressingModes
  import opened FlagMasks
  import opened StatusRegister
  import opened MemoryBus

  /** The register file as a value; P is the status byte. */
  datatype Registers = Registers(PC: Word, A: Byte, X: Byte, Y: Byte, SP: Byte, P: bv8)

  /** A new processor: every register zero, status 0x20. */
  const InitialRegisters: Registers := Registers(0, 0, 0, 0, 0, InitialFlags)

  /** Registers plus the bus they are wired to. */
  datatype Machine = Machine(regs: Registers, bus: BusState)
  {
    ghost predicate Valid()
    {
      bus.Valid()
    }

    function WithPC(pc: Word): Machine
    {
      this.(regs := regs.(PC := pc))
    }

    function WithFlags(p: bv8): Machine
    {
      this.(regs := regs.(P := p))
    }
  }

  /** A value obtained from the machine together with the machine after obtaining it. */
  datatype Fetched<T> = Fetched(value: T, next: Machine)

  /** The program counter after consuming n operand bytes (16-bit wraparound). */
  function Advance(pc: Word, n: nat): Word
  {
    (pc + n) % 0x10000
  }

  /** Byte addition as `byte += byte` computes it: modulo 0x100. */
  function ByteSum(a: Byte, b: Byte): Byte
  {
    (a + b) % 0x100
  }

  /** Word addition as `ushort += byte` computes it: modulo 0x10000. */
  function WordSum(a: Word, b: Byte): Word
  {
    (a + b) % 0x10000
  }

  /** The code's zero-page indexing: base plus index reduced modulo 0xFF. */
  function ZeroPageSum(base: Byte, index: Byte): (r: Byte)
    ensures r < 0xFF
  {
    (base + index) % 0xFF
  }

  /** The code's absolute indexing: base plus index reduced modulo 0xFFFF. */
  function AbsoluteSum(base: Word, index: Byte): (r: Word)
    ensures r < 0xFFFF
  {
    (base + index) % 0xFFFF
  }

  /** `(ushort)(0x01 << 8 | StackPointer)`: the stack lives in page 0x01. */
  function StackAddress(sp: Byte): (a: Word)
    ensures 0x0100 <= a <= 0x01FF && a % 0x100 == sp
  {
    0x0100 + sp
  }

  /** PushStack8: write at the current slot, then move the pointer up one. */
  function Push8(m: Machine, data: Byte): (r: Machine)
    requires m.Valid()
    ensures r.Valid() && r.bus.subscribers == m.bus.subscribers
  {
    m.(bus := m.bus.Write8(StackAddress(m.regs.SP), data),
       regs := m.regs.(SP := (m.regs.SP + 1) % 0x100))
  }

  /** PopStack8: move the pointer down one, then read that slot. */
  function Pop8(m: Machine): (r: Fetched<Byte>)
    requires m.Valid()
    ensures r.next.bus == m.bus && r.next.regs == m.regs.(SP := r.next.regs.SP)
    ensures (r.next.regs.SP + 1) % 0x100 == m.regs.SP   // undoes a byte push's move
    ensures r.value == m.bus.Read8(StackAddress(r.next.regs.SP))
  {
    var sp := (m.regs.SP - 1) % 0x100;
    Fetched(m.bus.Read8(StackAddress(sp)), m.(regs := m.regs.(SP := sp)))
  }

  /** PushStack16: a word write at the current slot, then the pointer moves up two. */
  function Push16(m: Machine, data: Word): (r: Machine)
    requires m.Valid()
    ensures r.Valid() && r.bus.subscribers == m.bus.subscribers
  {
    m.(bus := m.bus.Write16(StackAddress(m.regs.SP), data),
       regs := m.regs.(SP := (m.regs.SP + 2) % 0x100))
  }

  /** PopStack16: the pointer moves down two, then a word read at that slot. */
  function Pop16(m: Machine): (r: Fetched<Word>)
    requires m.Valid()
    ensures r.next.bus == m.bus && r.next.regs == m.regs.(SP := r.next.regs.SP)
    ensures (r.next.regs.SP + 2) % 0x100 == m.regs.SP   // undoes a word push's move
    ensures r.value == m.bus.Read16(StackAddress(r.next.regs.SP))
  {
    var sp := (m.regs.SP - 2) % 0x100;
    Fetched(m.bus.Read16(StackAddress(sp)), m.(regs := m.regs.(SP := sp)))
  }

  /** A byte pushed and popped again comes back, for any stack pointer, and every
      register (the stack pointer included) is as before. Without a subscriber for the
      slot the push is dropped and the pop reads 0. */
  lemma Push8ThenPop8(m: Machine, data: Byte)
    requires m.Valid()
    ensures Pop8(Push8(m, data)).next == Push8(m, data).(regs := m.regs)
    ensures Pop8(Push8(m, data)).value ==
      if m.bus.Owned(StackAddress(m.regs.SP)) then data else 0x00
  {
    Read8AfterWrite8(m.bus, StackAddress(m.regs.SP), data);
  }

  /** A word pushed and popped again comes back and the stack pointer is restored,
      for any stack pointer; at 0xFF the high byte goes to cell 0x0200. */
  lemma Push16ThenPop16(m: Machine, data: Word)
    requires m.Valid()
    ensures Pop16(Push16(m, data)).next == Push16(m, data).(regs := m.regs)
    ensures Pop16(Push16(m, data)).value ==
      if m.bus.Owned(StackAddress(m.regs.SP)) then data else 0x0000
  {
    Read16AfterWrite16(m.bus, StackAddress(m.regs.SP), data);
  }

  /** At stack pointer 0xFF the word push leaves page 0x01: its high byte lands in the
      owner's cell 0x0200. */
  lemma Push16AtTopOfPage(m: Machine, data: Word)
    requires m.Valid() && m.regs.SP == 0xFF && m.bus.Owned(0x01FF)
    ensures var k := FirstOwner(m.bus.subscribers, 0x01FF).value;
      Push16(m, data).bus.cells[m.bus.subscribers[k].Device.Memory][0x0200] == HighByte(data)
  {
    Write16Placement(m.bus, 0x01FF, data);
  }

  /** ReadAddrFromMemory: the address an operand names, with the program counter past
      the operand bytes. Zero-page indexing reduces modulo 0xFF, absolute indexing
      modulo 0xFFFF, (zp,X) wraps its pointer modulo 0x100 and (zp),Y adds Y modulo
      0x10000. Implied, Immediate, Accumulator and Relative have no address case. */
  function AddressOperand(mode: AddressingMode, m: Machine): (r: Result<Fetched<Word>>)
    requires m.Valid()
    ensures r.Err? <==> mode in {Implied, Immediate, Accumulator, Relative}
    ensures r.Err? ==> r.error == UnsupportedAddressingMode(mode)
    ensures r.Ok? ==> r.value.next == m.WithPC(Advance(m.regs.PC, OperandSize(mode)))
    ensures r.Ok? && mode == ZeroPage ==> r.value.value < 0x100
    ensures r.Ok? && mode in {ZeroPageX, ZeroPageY} ==> r.value.value < 0xFF
    ensures r.Ok? && mode in {AbsoluteX, AbsoluteY} ==> r.value.value < 0xFFFF
  {
    var pc := m.regs.PC;
    var bus := m.bus;
    match mode
    case Absolute => Ok(Fetched(bus.Read16(pc), m.WithPC(Advance(pc, 2))))
    case AbsoluteX => Ok(Fetched(AbsoluteSum(bus.Read16(pc), m.regs.X), m.WithPC(Advance(pc, 2))))
    case AbsoluteY => Ok(Fetched(AbsoluteSum(bus.Read16(pc), m.regs.Y), m.WithPC(Advance(pc, 2))))
    case Indirect => Ok(Fetched(bus.Read16(bus.Read16(pc)), m.WithPC(Advance(pc, 2))))
    case IndexedIndirect =>
      Ok(Fetched(bus.Read16(ByteSum(bus.Read8(pc), m.regs.X)), m.WithPC(Advance(pc, 1))))
    case IndirectIndexed =>
      Ok(Fetched(WordSum(bus.Read16(bus.Read8(pc)), m.regs.Y), m.WithPC(Advance(pc, 1))))
    case ZeroPage => Ok(Fetched(bus.Read8(pc), m.WithPC(Advance(pc, 1))))
    case ZeroPageX => Ok(Fetched(ZeroPageSum(bus.Read8(pc), m.regs.X), m.WithPC(Advance(pc, 1))))
    case ZeroPageY => Ok(Fetched(ZeroPageSum(bus.Read8(pc), m.regs.Y), m.WithPC(Advance(pc, 1))))
    case _ => Err(UnsupportedAddressingMode(mode))
  }

  /** ReadByteFromMemory: the operand value. Accumulator gives A without consuming
      anything, Immediate the next byte; the memory modes read the byte at their
      address, except that (zp,X) here reduces its pointer modulo 0xFF. Implied and
      Relative have no value case. */
  function ByteOperand(mode: AddressingMode, m: Machine): (r: Result<Fetched<Byte>>)
    requires m.Valid()
    ensures r.Err? <==> mode in {Implied, Relative}
    ensures r.Err? ==> r.error == UnsupportedAddressingMode(mode)
    ensures r.Ok? ==> r.value.next == m.WithPC(Advance(m.regs.PC, OperandSize(mode)))
    ensures r.Ok? && mode == Accumulator ==> r.value.value == m.regs.A
  {
    var pc := m.regs.PC;
    var bus := m.bus;
    match mode
    case Accumulator => Ok(Fetched(m.regs.A, m.WithPC(Advance(pc, 0))))
    case Immediate => Ok(Fetched(bus.Read8(pc), m.WithPC(Advance(pc, 1))))
    case Absolute => Ok(Fetched(bus.Read8(bus.Read16(pc)), m.WithPC(Advance(pc, 2))))
    case AbsoluteX =>
      Ok(Fetched(bus.Read8(AbsoluteSum(bus.Read16(pc), m.regs.X)), m.WithPC(Advance(pc, 2))))
    case AbsoluteY =>
      Ok(Fetched(bus.Read8(AbsoluteSum(bus.Read16(pc), m.regs.Y)), m.WithPC(Advance(pc, 2))))
    case ZeroPage => Ok(Fetched(bus.Read8(bus.Read8(pc)), m.WithPC(Advance(pc, 1))))
    case ZeroPageX =>
      Ok(Fetched(bus.Read8(ZeroPageSum(bus.Read8(pc), m.regs.X)), m.WithPC(Advance(pc, 1))))
    case ZeroPageY =>
      Ok(Fetched(bus.Read8(ZeroPageSum(bus.Read8(pc), m.regs.Y)), m.WithPC(Advance(pc, 1))))
    case Indirect =>
      Ok(Fetched(bus.Read8(bus.Read16(bus.Read16(pc))), m.WithPC(Advance(pc, 2))))
    case IndexedIndirect =>
      Ok(Fetched(bus.Read8(bus.Read16(ZeroPageSum(bus.Read8(pc), m.regs.X))), m.WithPC(Advance(pc, 1))))
    case IndirectIndexed =>
      Ok(Fetched(bus.Read8(WordSum(bus.Read16(bus.Read8(pc)), m.regs.Y)), m.WithPC(Advance(pc, 1))))
    case _ => Err(UnsupportedAddressingMode(mode))
  }

  /** Wherever both resolvers have a case, the value resolver reads the byte at the
      address the address resolver returns and leaves the same program counter; for
      (zp,X) this holds only while zero-page base + X stays below 0xFF. */
  lemma ResolversAgree(mode: AddressingMode, m: Machine)
    requires m.Valid() && AddressOperand(mode, m).Ok?
    requires mode == IndexedIndirect ==> m.bus.Read8(m.regs.PC) + m.regs.X < 0xFF
    ensures ByteOperand(mode, m) ==
      Ok(Fetched(m.bus.Read8(AddressOperand(mode, m).value.value), AddressOperand(mode, m).value.next))
  {
    if mode in {ZeroPage, ZeroPageX, ZeroPageY, IndexedIndirect, IndirectIndexed} {
      PageResolversAgree(mode, m);
    }
  }

  /** ResolversAgree for the modes with a one-byte operand. */
  lemma PageResolversAgree(mode: AddressingMode, m: Machine)
    requires m.Valid() && mode in {ZeroPage, ZeroPageX, ZeroPageY, IndexedIndirect, IndirectIndexed}
    requires mode == IndexedIndirect ==> m.bus.Read8(m.regs.PC) + m.regs.X < 0xFF
    ensures ByteOperand(mode, m) ==
      Ok(Fetched(m.bus.Read8(AddressOperand(mode, m).value.value), AddressOperand(mode, m).value.next))
  {
    if mode == IndexedIndirect {
      assert ZeroPageSum(m.bus.Read8(m.regs.PC), m.regs.X) == ByteSum(m.bus.Read8(m.regs.PC), m.regs.X);
    }
  }

  /** The (zp,X) pointer cell differs between the two resolvers exactly when
      base + X reaches 0xFF: the address resolver wraps at 0x100, the value resolver
      at 0xFF. */
  lemma IndexedIndirectPointers(m: Machine)
    requires m.Valid()
    ensures var base := m.bus.Read8(m.regs.PC);
      AddressOperand(IndexedIndirect, m).value.value == m.bus.Read16(ByteSum(base, m.regs.X)) &&
      ByteOperand(IndexedIndirect, m).value.value == m.bus.Read8(m.bus.Read16(ZeroPageSum(base, m.regs.X))) &&
      (ByteSum(base, m.regs.X) == ZeroPageSum(base, m.regs.X) <==> base + m.regs.X < 0xFF)
  {
    var base := m.bus.Read8(m.regs.PC);
    var s := base + m.regs.X;
    assert ByteSum(base, m.regs.X) == s % 0x100 && ZeroPageSum(base, m.regs.X) == s % 0xFF;
  }

  /** The code's zero-page indexing reduces modulo 0xFF, so base 0xFE with index 0x05
      resolves to 0x04 (a modulo-0x100 wrap would give 0x03), and base + index = 0xFF
      resolves to 0x00. */
  lemma ZeroPageIndexedWrap(m: Machine)
    requires m.Valid() && m.bus.Read8(m.regs.PC) == 0xFE
    ensures m.regs.X == 0x05 ==> AddressOperand(ZeroPageX, m).value.value == 0x04
    ensures m.regs.X == 0x01 ==> AddressOperand(ZeroPageX, m).value.value == 0x00
  {
  }

  /** Bit 7 of a byte: `(value & 0x1 << 7) == 0x1 << 7`. */
  predicate SignBit(value: Byte)
  {
    value >= 0x80
  }

  lemma SignBitIsBitSeven(value: Byte)
    ensures SignBit(value) <==> (value as bv8) & 0x80 == 0x80
  {
  }

  /** CheckAndSetZero: Zero set exactly when the value is 0. */
  function ZeroFrom(flags: bv8, value: Byte): (r: bv8)
    ensures HasFlag(r, Zero) <==> value == 0
    ensures r & !Mask(Zero) == flags & !Mask(Zero)
  {
    WithFlag(flags, Zero, value == 0)
  }

  /** CheckAndSetNegative: Negative set exactly when bit 7 of the value is set. */
  function NegativeFrom(flags: bv8, value: Byte): (r: bv8)
    ensures HasFlag(r, Negative) <==> value >= 0x80
    ensures r & !Mask(Negative) == flags & !Mask(Negative)
  {
    WithFlag(flags, Negative, SignBit(value))
  }

  class Cpu {
    const Status: FlagSet
    const Bus: Bus
    var ProgramCounter: Word
    var Accumulator: Byte
    var X: Byte
    var Y: Byte
    /** Offset into page 0x01; holds the low 8 bits of the stack address. */
    var StackPointer: Byte

    ghost predicate Valid()
      reads Status, Bus, Bus.Cells.Keys
    {
      Status.Valid() && Bus.Valid()
    }

    ghost function Regs(): Registers
      reads this, Status
    {
      Registers(ProgramCounter, Accumulator, X, Y, StackPointer, Status.Flags)
    }

    /** The whole machine as a value. */
    ghost function State(): (m: Machine)
      requires Valid()
      reads this, Status, Bus, Bus.Cells.Keys
      ensures m.Valid() && m.regs == Regs() && m.bus.subscribers == Bus.Subscribers
    {
      Machine(Regs(), Bus.State())
    }

    constructor ()
      ensures Valid() && fresh(Status) && fresh(Bus)
      ensures Regs() == InitialRegisters && Bus.Subscribers == []
    {
      Status := new FlagSet();
      Bus := new Bus();
      ProgramCounter, Accumulator, X, Y, StackPointer := 0, 0, 0, 0, 0;
    }

    method PushStack16(data: Word)
      requires Valid()
      modifies this`StackPointer, Bus`Cells, Bus.Arrays()
      ensures Valid() && State() == Push16(old(State()), data)
    {
      Bus.Write16(StackAddress(StackPointer), data);
      StackPointer := (StackPointer + 2) % 0x100;
    }

    method PopStack16() returns (data: Word)
      requires Valid()
      modifies this`StackPointer
      ensures Valid() && Pop16(old(State())) == Fetched(data, State())
    {
      StackPointer := (StackPointer - 2) % 0x100;
      data := Bus.Read16(StackAddress(StackPointer));
    }

    method PushStack8(data: Byte)
      requires Valid()
      modifies this`StackPointer, Bus`Cells, Bus.Arrays()
      ensures Valid() && State() == Push8(old(State()), data)
    {
      Bus.Write8(StackAddress(StackPointer), data);
      StackPointer := (StackPointer + 1) % 0x100;
    }

    method PopStack8() returns (data: Byte)
      requires Valid()
      modifies this`StackPointer
      ensures Valid() && Pop8(old(State())) == Fetched(data, State())
    {
      StackPointer := (StackPointer - 1) % 0x100;
      data := Bus.Read8(StackAddress(StackPointer));
    }

    /** ReadAddrFromMemory: the switch on the mode, with the cases grouped by the width
        of their operand. */
    method ReadAddrFromMemory(mode: AddressingMode) returns (r: Result<Word>)
      requires Valid()
      modifies this`ProgramCounter
      ensures Valid()
      ensures AddressOperand(mode, old(State())) == Observed(r, State())
      ensures r.Err? ==> ProgramCounter == old(ProgramCounter)
    {
      if mode in {Absolute, AbsoluteX, AbsoluteY, Indirect} {
        r := ReadWideAddr(mode);
      } else if mode in {ZeroPage, ZeroPageX, ZeroPageY, IndexedIndirect, IndirectIndexed} {
        r := ReadPageAddr(mode);
      } else {
        r := Err(UnsupportedAddressingMode(mode));
      }
    }

    /** The address cases with a two-byte operand. */
    method ReadWideAddr(mode: AddressingMode) returns (r: Result<Word>)
      requires Valid() && mode in {Absolute, AbsoluteX, AbsoluteY, Indirect}
      modifies this`ProgramCounter
      ensures Valid()
      ensures AddressOperand(mode, old(State())) == Observed(r, State())
    {
      var addr := Bus.Read16(ProgramCounter);
      ProgramCounter := Advance(ProgramCounter, 2);
      if mode == Absolute {
        r := Ok(addr);
      } else if mode == AbsoluteX {
        r := Ok(AbsoluteSum(addr, X));
      } else if mode == AbsoluteY {
        r := Ok(AbsoluteSum(addr, Y));
      } else {
        var target := Bus.Read16(addr);
        r := Ok(target);
      }
    }

    /** The address cases with a one-byte operand. */
    method ReadPageAddr(mode: AddressingMode) returns (r: Result<Word>)
      requires Valid() && mode in {ZeroPage, ZeroPageX, ZeroPageY, IndexedIndirect, IndirectIndexed}
      modifies this`ProgramCounter
      ensures Valid()
      ensures AddressOperand(mode, old(State())) == Observed(r, State())
    {
      var baseAddr := Bus.Read8(ProgramCounter);
      ProgramCounter := Advance(ProgramCounter, 1);
      if mode == ZeroPage {
        r := Ok(baseAddr);
      } else if mode == ZeroPageX {
        r := Ok(ZeroPageSum(baseAddr, X));
      } else if mode == ZeroPageY {
        r := Ok(ZeroPageSum(baseAddr, Y));
      } else if mode == IndexedIndirect {
        var target := Bus.Read16(ByteSum(baseAddr, X));
        r := Ok(target);
      } else {
        var target := Bus.Read16(baseAddr);
        r := Ok(WordSum(target, Y));
      }
    }

    /** ReadByteFromMemory: the switch on the mode, grouped like ReadAddrFromMemory. */
    method ReadByteFromMemory(mode: AddressingMode) returns (r: Result<Byte>)
      requires Valid()
      modifies this`ProgramCounter
      ensures Valid()
      ensures ByteOperand(mode, old(State())) == Observed(r, State())
      ensures r.Err? ==> ProgramCounter == old(ProgramCounter)
    {
      if mode == AddressingMode.Accumulator {
        r := Ok(Accumulator);
      } else if mode == Immediate {
        var data := Bus.Read8(ProgramCounter);
        ProgramCounter := Advance(ProgramCounter, 1);
        r := Ok(data);
      } else if mode in {Absolute, AbsoluteX, AbsoluteY, Indirect} {
        r := ReadWideByte(mode);
      } else if mode in {ZeroPage, ZeroPageX, ZeroPageY, IndexedIndirect, IndirectIndexed} {
        r := ReadPageByte(mode);
      } else {
        r := Err(UnsupportedAddressingMode(mode));
      }
    }

    /** The value cases with a two-byte operand. */
    method ReadWideByte(mode: AddressingMode) returns (r: Result<Byte>)
      requires Valid() && mode in {Absolute, AbsoluteX, AbsoluteY, Indirect}
      modifies this`ProgramCounter
      ensures Valid()
      ensures ByteOperand(mode, old(State())) == Observed(r, State())
    {
      var baseAddr := Bus.Read16(ProgramCounter);
      var addr := baseAddr;
      if mode == AbsoluteX {
        addr := AbsoluteSum(baseAddr, X);
      } else if mode == AbsoluteY {
        addr := AbsoluteSum(baseAddr, Y);
      }
      ProgramCounter := Advance(ProgramCounter, 2);
      if mode == Indirect {
        addr := Bus.Read16(baseAddr);
      }
      var data := Bus.Read8(addr);
      r := Ok(data);
    }

    /** The value cases with a one-byte operand; (zp,X) reduces its pointer modulo 0xFF. */
    method ReadPageByte(mode: AddressingMode) returns (r: Result<Byte>)
      requires Valid() && mode in {ZeroPage, ZeroPageX, ZeroPageY, IndexedIndirect, IndirectIndexed}
      modifies this`ProgramCounter
      ensures Valid()
      ensures ByteOperand(mode, old(State())) == Observed(r, State())
    {
      var baseAddr := Bus.Read8(ProgramCounter);
      ProgramCounter := Advance(ProgramCounter, 1);
      var addr: Word;
      if mode == ZeroPage {
        addr := baseAddr;
      } else if mode == ZeroPageX {
        addr := ZeroPageSum(baseAddr, X);
      } else if mode == ZeroPageY {
        addr := ZeroPageSum(baseAddr, Y);
      } else if mode == IndexedIndirect {
        addr := Bus.Read16(ZeroPageSum(baseAddr, X));
      } else {
        var target := Bus.Read16(baseAddr);
        addr := WordSum(target, Y);
      }
      var data := Bus.Read8(addr);
      r := Ok(data);
    }

    method CheckAndSetNegative(value: Byte)
      requires Valid()
      modifies Status
      ensures Valid() && State() == old(State()).WithFlags(NegativeFrom(old(Status.Flags), value))
    {
      var _ := Status.SetFlag(Negative, SignBit(value));
    }

    method CheckAndSetZero(value: Byte)
      requires Valid()
      modifies Status
      ensures Valid() && State() == old(State()).WithFlags(ZeroFrom(old(Status.Flags), value))
    {
      var _ := Status.SetFlag(Zero, value == 0);
    }
  }

  /** A resolver's outcome as the specification states it: the value with the machine
      after resolution, or the error. */
  function Observed<T>(r: Result<T>, m: Machine): Result<Fetched<T>>
  {
    match r
    case Ok(v) => Ok(Fetched(v, m))
    case Err(e) => Err(e)
  }
}

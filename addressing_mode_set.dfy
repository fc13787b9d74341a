/** The standalone resolvers of 6502Emu/AddressingModeSet.cs: extension methods on the
    processor that fetch an operand and advance the program counter past it. */
module AddressingModeSet {
  import opened Types
  import opened AddressingModes
  import opened FlagMasks
  import opened StatusRegister
  import opened MemoryBus
  import opened Processor

  /** GetCurrentModeAddress as a value. ZeroPage and Absolute read the operand as an
      address. Relative reads an offset byte, sets Negative from its bit 7 and adds it,
      unsigned, to the program counter that already points past it. Every other mode
      is rejected. */
  function ModeAddress(mode: AddressingMode, m: Machine): (r: Result<Fetched<Word>>)
    requires m.Valid()
    ensures r.Err? <==> mode !in {ZeroPage, Absolute, Relative}
    ensures r.Err? ==> r.error == UnsupportedAddressingMode(mode)
    ensures r.Ok? ==> r.value.next.bus == m.bus
    ensures r.Ok? ==> r.value.next.regs == m.regs.(PC := Advance(m.regs.PC, OperandSize(mode)),
                                                    P := r.value.next.regs.P)
  {
    var pc := m.regs.PC;
    match mode
    case ZeroPage => Ok(Fetched(m.bus.Read8(pc), m.WithPC(Advance(pc, 1))))
    case Absolute => Ok(Fetched(m.bus.Read16(pc), m.WithPC(Advance(pc, 2))))
    case Relative =>
      var offset := m.bus.Read8(pc);
      var next := Advance(pc, 1);
      Ok(Fetched(WordSum(next, offset), m.WithPC(next).WithFlags(NegativeFrom(m.regs.P, offset))))
    case _ => Err(UnsupportedAddressingMode(mode))
  }

  /** For the two address modes it shares with ReadAddrFromMemory, GetCurrentModeAddress
      computes the same address and program counter. */
  lemma ModeAddressAgrees(mode: AddressingMode, m: Machine)
    requires m.Valid() && mode in {ZeroPage, Absolute}
    ensures ModeAddress(mode, m) == AddressOperand(mode, m)
  {
  }

  /** Relative adds the offset byte without sign extension: the target lies the offset's
      unsigned value ahead of the advanced program counter (modulo 0x10000), so an offset
      of 0x80 or more jumps forward, not back. Negative mirrors bit 7 of the offset and no
      other status bit moves. */
  lemma RelativeIsUnsigned(m: Machine)
    requires m.Valid()
    ensures var offset := m.bus.Read8(m.regs.PC);
      var r := ModeAddress(Relative, m).value;
      (r.value - Advance(m.regs.PC, 1)) % 0x10000 == offset &&
      (HasFlag(r.next.regs.P, Negative) <==> offset >= 0x80) &&
      r.next.regs.P & !Mask(Negative) == m.regs.P & !Mask(Negative)
  {
  }

  /** Relative is the only mode here that touches the status register. */
  lemma OnlyRelativeSetsFlags(mode: AddressingMode, m: Machine)
    requires m.Valid() && ModeAddress(mode, m).Ok? && mode != Relative
    ensures ModeAddress(mode, m).value.next.regs.P == m.regs.P
  {
  }

  method GetCurrentModeAddress(cpu: Cpu, mode: AddressingMode) returns (r: Result<Word>)
    requires cpu.Valid()
    modifies cpu`ProgramCounter, cpu.Status
    ensures cpu.Valid()
    ensures ModeAddress(mode, old(cpu.State())) == Observed(r, cpu.State())
    ensures r.Err? ==> cpu.ProgramCounter == old(cpu.ProgramCounter) &&
                       cpu.Status.Flags == old(cpu.Status.Flags)
  {
    match mode
    case ZeroPage =>
      var addr := cpu.Bus.Read8(cpu.ProgramCounter);
      cpu.ProgramCounter := Advance(cpu.ProgramCounter, 1);
      r := Ok(addr);
    case Absolute =>
      var addr := cpu.Bus.Read16(cpu.ProgramCounter);
      cpu.ProgramCounter := Advance(cpu.ProgramCounter, 2);
      r := Ok(addr);
    case Relative =>
      var offset := cpu.Bus.Read8(cpu.ProgramCounter);
      cpu.ProgramCounter := Advance(cpu.ProgramCounter, 1);
      var _ := cpu.Status.SetFlag(Negative, SignBit(offset));
      r := Ok(WordSum(cpu.ProgramCounter, offset));
    case _ =>
      r := Err(UnsupportedAddressingMode(mode));
  }

  /** AccumulatorMode: the accumulator, widened to a word; nothing changes. */
  method AccumulatorMode(cpu: Cpu) returns (data: Word)
    requires cpu.Valid()
    ensures var f := ByteOperand(AddressingMode.Accumulator, cpu.State());
      f.Ok? && f.value.value == data && f.value.next == cpu.State()
  {
    data := cpu.Accumulator;
  }

  /** ImmediateMode: the byte after the opcode, with the program counter moved past it. */
  method ImmediateMode(cpu: Cpu) returns (data: Word)
    requires cpu.Valid()
    modifies cpu`ProgramCounter
    ensures cpu.Valid()
    ensures var f := ByteOperand(Immediate, old(cpu.State()));
      f.Ok? && f.value.value == data && f.value.next == cpu.State()
  {
    data := cpu.Bus.Read8(cpu.ProgramCounter);
    cpu.ProgramCounter := Advance(cpu.ProgramCounter, 1);
  }

  /** AbsoluteMode: the word after the opcode, with the program counter moved past it. */
  method AbsoluteMode(cpu: Cpu) returns (data: Word)
    requires cpu.Valid()
    modifies cpu`ProgramCounter
    ensures cpu.Valid()
    ensures AddressOperand(Absolute, old(cpu.State())) == Ok(Fetched(data, cpu.State()))
  {
    data := cpu.Bus.Read16(cpu.ProgramCounter);
    cpu.ProgramCounter := Advance(cpu.ProgramCounter, 2);
  }
}

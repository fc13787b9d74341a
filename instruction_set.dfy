/** The opcode table of 6502Emu/InstructionSet.cs: 28 opcodes, each bound to a handler
    and the addressing mode the handler runs with. */
module InstructionSet {
  import opened Types
  import opened FlagMasks
  import opened AddressingModes
  import opened MemoryBus
  import opened Processor
  import opened Handlers
  import opened InstructionEntry

  /** The table's entry for an opcode, in the order the table lists them. */
  function Entry(opcode: Byte): (r: Option<Instruction>)
    ensures r.Some? <==> opcode in Opcodes
    ensures r.Some? ==> r.value.Name == Mnemonic(r.value.Command)
  {
    match opcode
    case 0x00 => Some(Instruction(Brk, "BRK", Implied))
    case 0xBA => Some(Instruction(Tsx, "TSX", Implied))
    case 0x85 => Some(Instruction(Sta, "STA", ZeroPage))
    case 0x95 => Some(Instruction(Sta, "STA", ZeroPageX))
    case 0x8D => Some(Instruction(Sta, "STA", Absolute))
    case 0x9D => Some(Instruction(Sta, "STA", AbsoluteX))
    case 0x99 => Some(Instruction(Sta, "STA", AbsoluteY))
    case 0x81 => Some(Instruction(Sta, "STA", IndexedIndirect))
    case 0x91 => Some(Instruction(Sta, "STA", IndirectIndexed))
    case 0x86 => Some(Instruction(Stx, "STX", ZeroPage))
    case 0x96 => Some(Instruction(Stx, "STX", ZeroPageX))
    case 0x8E => Some(Instruction(Stx, "STX", Absolute))
    case 0x84 => Some(Instruction(Sty, "STY", ZeroPage))
    case 0x94 => Some(Instruction(Sty, "STY", ZeroPageX))
    case 0x8C => Some(Instruction(Sty, "STY", Absolute))
    case 0x78 => Some(Instruction(Sei, "SEI", Implied))
    case 0xF8 => Some(Instruction(Sed, "SED", Implied))
    case 0x38 => Some(Instruction(Sec, "SEC", Implied))
    case 0xEB => Some(Instruction(Inx, "INX", Implied))
    case 0xC8 => Some(Instruction(Iny, "INY", Implied))
    case 0x4C => Some(Instruction(Jmp, "JMP", Absolute))
    case 0x6C => Some(Instruction(Jmp, "JMP", Indirect))
    case 0x98 => Some(Instruction(Tya, "TYA", Implied))
    case 0x8A => Some(Instruction(Txa, "TXA", Implied))
    case 0x9A => Some(Instruction(Txs, "TXS", Implied))
    case 0xA8 => Some(Instruction(Tay, "TAY", Implied))
    case 0xAA => Some(Instruction(Tax, "TAX", Implied))
    case 0xEA => Some(Instruction(Nop, "NOP", Implied))
    case _ => None
  }

  /** The Instructions dictionary: every opcode with an entry. */
  const Instructions: map<Byte, Instruction> :=
    map opcode: Byte | Entry(opcode).Some? :: Entry(opcode).value

  /** The opcodes the table defines. */
  const Opcodes: set<Byte> := {
    0x00, 0xBA, 0x85, 0x95, 0x8D, 0x9D, 0x99, 0x81, 0x91, 0x86, 0x96, 0x8E, 0x84, 0x94,
    0x8C, 0x78, 0xF8, 0x38, 0xEB, 0xC8, 0x4C, 0x6C, 0x98, 0x8A, 0x9A, 0xA8, 0xAA, 0xEA}

  /** The mnemonic each handler is registered under. */
  function Mnemonic(h: Handler): string
  {
    match h
    case Nop => "NOP"
    case Brk => "BRK"
    case Sei => "SEI"
    case Sed => "SED"
    case Sec => "SEC"
    case Tsx => "TSX"
    case Txs => "TXS"
    case Sta => "STA"
    case Stx => "STX"
    case Sty => "STY"
    case Inx => "INX"
    case Iny => "INY"
    case Jmp => "JMP"
    case Tya => "TYA"
    case Txa => "TXA"
    case Tay => "TAY"
    case Tax => "TAX"
  }

  /** Looking an opcode up in the table; an opcode it does not define is an error (the
      dictionary's missing-key failure). */
  function Decode(opcode: Byte): (r: Result<Instruction>)
    ensures r.Ok? <==> opcode in Opcodes
    ensures r.Err? ==> r.error == UnimplementedOpcode(opcode)
    ensures r.Ok? ==> r.value.Name == Mnemonic(r.value.Command)
    ensures r.Ok? ==> Entry(opcode) == Some(r.value)
  {
    TableDomain();
    if opcode in Instructions then
      NamesMatchHandlers(opcode);
      Ok(Instructions[opcode])
    else
      Err(UnimplementedOpcode(opcode))
  }

  /** The table defines exactly the 28 listed opcodes and no other. */
  lemma TableDomain()
    ensures Instructions.Keys == Opcodes
  {
  }

  /** The listed opcodes in increasing order. */
  const SortedOpcodes: seq<Byte> := [
    0x00, 0x38, 0x4C, 0x6C, 0x78, 0x81, 0x84, 0x85, 0x86, 0x8A, 0x8C, 0x8D, 0x8E, 0x91,
    0x94, 0x95, 0x96, 0x98, 0x99, 0x9A, 0x9D, 0xA8, 0xAA, 0xBA, 0xC8, 0xEA, 0xEB, 0xF8]

  /** There are 28 of them: sorted, the listed opcodes increase strictly. */
  lemma OpcodeCount()
    ensures |Opcodes| == 28
  {
    SortedOpcodesIncrease();
    IncreasingCard(SortedOpcodes);
    SortedOpcodesListed();
  }

  lemma SortedOpcodesIncrease()
    ensures Increasing(SortedOpcodes)
  {
  }

  lemma SortedOpcodesListed()
    ensures Elements(SortedOpcodes) == Opcodes
  {
  }

  /** The values a sequence holds. */
  function Elements(s: seq<Byte>): set<Byte>
  {
    set x | x in s
  }

  predicate Increasing(s: seq<Byte>)
  {
    forall i, j :: 0 <= i < j < |s| ==> s[i] < s[j]
  }

  /** A strictly increasing sequence holds as many values as it has positions. */
  lemma {:induction false} IncreasingCard(s: seq<Byte>)
    requires Increasing(s)
    ensures |Elements(s)| == |s|
  {
    if s != [] {
      var rest := s[1..];
      assert Increasing(rest) by {
        forall i, j | 0 <= i < j < |rest| ensures rest[i] < rest[j] {
          assert rest[i] == s[i + 1] && rest[j] == s[j + 1];
        }
      }
      IncreasingCard(rest);
      assert s == [s[0]] + rest;
      assert Elements(s) == {s[0]} + Elements(rest);
      assert s[0] !in Elements(rest) by {
        forall i | 0 <= i < |rest| ensures rest[i] != s[0] {
          assert rest[i] == s[i + 1];
        }
      }
    }
  }

  /** The letter a mnemonic uses for a register. */
  function Letter(reg: Register): char
  {
    match reg
    case RegA => 'A'
    case RegX => 'X'
    case RegY => 'Y'
    case RegS => 'S'
  }

  /** The letter a mnemonic uses for a flag. */
  function FlagLetter(f: Flag): char
  {
    match f
    case Carry => 'C'
    case Zero => 'Z'
    case InterruptDisable => 'I'
    case Decimal => 'D'
    case BreakCommand => 'B'
    case Overflow => 'V'
    case Negative => 'N'
  }

  /** Each handler moves what its mnemonic names: T<src><dst> copies src into dst,
      ST<r> writes r, SE<f> sets f. */
  lemma BehaviourFollowsMnemonic(h: Handler)
    ensures h in {Tax, Tay, Txa, Tya, Tsx, Txs} ==>
      Mnemonic(h) == ['T', Letter(Route(h).0), Letter(Route(h).1)]
    ensures h in {Sta, Stx, Sty} ==> Mnemonic(h) == ['S', 'T', Letter(Loaded(h))]
    ensures h in {Sec, Sed, Sei} ==> Mnemonic(h) == ['S', 'E', FlagLetter(FlagOf(h))]
  {
  }

  /** Every entry carries the mnemonic of its handler. */
  lemma NamesMatchHandlers(opcode: Byte)
    requires opcode in Instructions
    ensures Instructions[opcode].Name == Mnemonic(Instructions[opcode].Command)
  {
  }

  /** No entry pairs a handler with a mode its resolver rejects: executing any table
      entry never takes the unsupported-mode path. */
  lemma TableModesAccepted(opcode: Byte, m: Machine)
    requires opcode in Instructions && m.Valid()
    ensures Step(Instructions[opcode].Command, Instructions[opcode].Mode, m).Ok?
  {
    var i := Instructions[opcode];
    StepFails(i.Command, i.Mode, m);
  }

  /** No entry fetches its own opcode: apart from JMP and BRK, which load it, the program
      counter moves exactly past the operand bytes of the entry's mode, and not at all
      for an implied instruction. */
  lemma TableProgramCounter(opcode: Byte, m: Machine)
    requires opcode in Instructions && m.Valid()
    requires Instructions[opcode].Command !in {Jmp, Brk}
    ensures var i := Instructions[opcode];
      Step(i.Command, i.Mode, m).Ok? &&
      Step(i.Command, i.Mode, m).value.regs.PC == Advance(m.regs.PC, OperandSize(i.Mode))
  {
    var i := Instructions[opcode];
    TableModes(opcode);
    StepAdvances(i.Command, i.Mode, m);
  }

  /** The stores are bound to memory or immediate modes, every other handler but JMP to
      Implied. */
  lemma TableModes(opcode: Byte)
    requires opcode in Instructions
    ensures var i := Instructions[opcode];
      (i.Command in {Sta, Stx, Sty} ==> i.Mode !in {Implied, Relative}) &&
      (i.Command !in {Sta, Stx, Sty, Jmp} ==> i.Mode == Implied)
  {
  }

  /** Some bindings as written: INX sits at 0xEB (the usual 6502 INX opcode 0xE8 is not in
      the table), STX 0x96 uses ZeroPageX, JMP 0x6C is indirect and BRK is 0x00. */
  lemma TableBindings()
    ensures Instructions[0xEB] == Instruction(Inx, "INX", Implied) && 0xE8 !in Instructions
    ensures Instructions[0x96] == Instruction(Stx, "STX", ZeroPageX)
    ensures Instructions[0x6C] == Instruction(Jmp, "JMP", Indirect)
    ensures Instructions[0x00] == Instruction(Brk, "BRK", Implied)
  {
  }
}

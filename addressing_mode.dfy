/** The addressing modes an instruction can be bound to (6502Emu/AddressingMode.cs).
    The names follow the ones the processor switches on: ZeroPageY, IndexedIndirect
    ("(zp,X)") and IndirectIndexed ("(zp),Y"). */
module AddressingModes {

  datatype AddressingMode =
    | Implied
    | Immediate
    | Accumulator
    | Relative
    | ZeroPage
    | ZeroPageX
    | ZeroPageY
    | Absolute
    | AbsoluteY
    | AbsoluteX
    | Indirect
    | IndexedIndirect
    | IndirectIndexed

  /** Number of operand bytes that follow the opcode in this mode, as the 6502
      instruction format lays them out. The resolvers are proved to advance the
      program counter by exactly this much. */
  function OperandSize(mode: AddressingMode): (n: nat)
    ensures n <= 2
    ensures n == 0 <==> mode == Implied || mode == Accumulator
  {
    match mode
    case Implied | Accumulator => 0
    case Immediate | Relative | ZeroPage | ZeroPageX | ZeroPageY
       | IndexedIndirect | IndirectIndexed => 1
    case Absolute | AbsoluteX | AbsoluteY | Indirect => 2
  }
}

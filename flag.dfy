/** The seven status flags and their bit masks (6502Emu/Flag.cs). */
module FlagMasks {

  datatype Flag = Carry | Zero | InterruptDisable | Decimal | BreakCommand | Overflow | Negative

  /** Bit 5 of the status byte: no flag is assigned to it. */
  const ReservedBit: bv8 := 0x20

  /** The mask each enum member stands for. */
  function Mask(f: Flag): (m: bv8)
    ensures m != 0 && m & (m - 1) == 0   // exactly one bit is set
    ensures m & ReservedBit == 0
  {
    match f
    case Carry => 0x1
    case Zero => 0x1 << 1
    case InterruptDisable => 0x1 << 2
    case Decimal => 0x1 << 3
    case BreakCommand => 0x1 << 4
    case Overflow => 0x1 << 6
    case Negative => 0x1 << 7
  }

  /** Distinct flags never share a bit, so the mask identifies the flag. */
  lemma MasksDisjoint(f: Flag, g: Flag)
    ensures f != g <==> Mask(f) & Mask(g) == 0
  {
  }

  /** Together the seven masks cover every bit except the reserved bit 5. */
  lemma MasksCoverAllButReserved()
    ensures Mask(Carry) | Mask(Zero) | Mask(InterruptDisable) | Mask(Decimal)
            | Mask(BreakCommand) | Mask(Overflow) | Mask(Negative) == 0xDF
    ensures 0xDF | ReservedBit == 0xFF
  {
  }
}

/** The 8-bit status register (6502Emu/FlagSet.cs): a byte whose bits are set and
    cleared one flag mask at a time. */
module StatusRegister {
  import opened Types
  import opened FlagMasks

  /** A fresh register holds only the reserved bit 5 (0x1 << 5). */
  const InitialFlags: bv8 := 0x1 << 5

  /** The bit test of IsSet: every bit of the flag's mask is set. */
  predicate HasFlag(flags: bv8, f: Flag)
    ensures HasFlag(flags, f) <==> flags & Mask(f) != 0   // the mask is a single bit
  {
    flags & Mask(f) == Mask(f)
  }

  /** The byte SetFlag stores: the mask ORed in when `state` holds, its complement
      ANDed in otherwise. */
  function WithFlag(flags: bv8, f: Flag, state: bool): (r: bv8)
    ensures HasFlag(r, f) == state
    ensures r & !Mask(f) == flags & !Mask(f)    // no bit outside the mask moves
  {
    if state then flags | Mask(f) else flags & !Mask(f)
  }

  /** Setting a flag to the state it already has changes nothing, and repeating a
      SetFlag call has no further effect. */
  lemma WithFlagIdempotent(flags: bv8, f: Flag, state: bool)
    ensures WithFlag(WithFlag(flags, f, state), f, state) == WithFlag(flags, f, state)
    ensures HasFlag(flags, f) == state ==> WithFlag(flags, f, state) == flags
  {
  }

  /** No flag mask covers bit 5, so once set it stays set. */
  lemma ReservedBitPreserved(flags: bv8, f: Flag, state: bool)
    ensures WithFlag(flags, f, state) & ReservedBit == flags & ReservedBit
  {
    assert Mask(f) & ReservedBit == 0;
  }

  /** Two updates of different flags commute. */
  lemma WithFlagCommutes(flags: bv8, f: Flag, s: bool, g: Flag, t: bool)
    requires f != g
    ensures WithFlag(WithFlag(flags, f, s), g, t) == WithFlag(WithFlag(flags, g, t), f, s)
  {
    MasksDisjoint(f, g);
  }

  /** Setting all seven flags on a fresh register, in the order the flag test uses,
      gives 0xFF. */
  lemma SetAllFlagsFromInitial()
    ensures WithFlag(WithFlag(WithFlag(WithFlag(WithFlag(WithFlag(WithFlag(InitialFlags,
              Carry, true), Decimal, true), Negative, true), Overflow, true),
              BreakCommand, true), Zero, true), InterruptDisable, true) == 0xFF
  {
  }

  class FlagSet {
    /** The status byte; only SetFlag writes it. */
    var Flags: bv8

    /** Bit 5 is always set. */
    ghost predicate Valid()
      reads this
    {
      Flags & ReservedBit == ReservedBit
    }

    constructor ()
      ensures Valid() && Flags == InitialFlags
    {
      Flags := InitialFlags;
    }

    /** Sets or clears one flag and returns this same register, so calls chain. */
    method SetFlag(flag: Flag, state: bool) returns (self: FlagSet)
      requires Valid()
      modifies this
      ensures Valid() && self == this
      ensures Flags == WithFlag(old(Flags), flag, state)
      ensures IsSet(flag) == state
    {
      ReservedBitPreserved(Flags, flag, state);
      Flags := if state then Flags | Mask(flag) else Flags & !Mask(flag);
      self := this;
    }

    /** The flag's bit is set in the stored byte. */
    predicate IsSet(flag: Flag)
      reads this
      ensures IsSet(flag) <==> Flags & Mask(flag) != 0
    {
      HasFlag(Flags, flag)
    }

    /** The implicit conversion to byte: the stored bits as a number. */
    function AsByte(): (b: Byte)
      reads this
      ensures b as bv8 == Flags
      ensures Valid() ==> b >= 0x20
    {
      Flags as int
    }
  }
}

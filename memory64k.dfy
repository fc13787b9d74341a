/** The flat memory device (6502Emu/Subscribers/Memory64k.cs): one byte cell for every
    16-bit address. */
module MemoryDevice {
  import opened Types

  /** 0xFFFF + 1 cells. */
  const MemorySize: nat := 0xFFFF + 1

  class Memory64k {
    const Memory: array<Byte>

    /** The device claims the whole address space. */
    const StartAddress: Word := 0x0000
    const EndAddress: Word := 0xFFFF

    ghost predicate Valid()
    {
      Memory.Length == MemorySize
    }

    constructor ()
      ensures Valid() && fresh(Memory)
      ensures forall a :: 0 <= a < MemorySize ==> Memory[a] == 0
    {
      Memory := new Byte[MemorySize](_ => 0);
    }

    method Write(address: Word, data: Byte)
      requires Valid()
      modifies Memory
      ensures Memory[..] == old(Memory[..])[address := data]
      ensures Memory[address] == data
      ensures forall a :: 0 <= a < MemorySize && a != address ==> Memory[a] == old(Memory[a])
    {
      Memory[address] := data;
    }

    method Read(address: Word) returns (data: Byte)
      requires Valid()
      ensures data == Memory[address]
    {
      data := Memory[address];
    }
  }
}

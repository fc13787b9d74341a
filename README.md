# 6502Emu core, modelled in Dafny

This project models the instruction-level core of 6502Emu, a small 6502-style emulator written in C#. The core has these parts:

- **Status register.** An 8-bit byte driven by seven single-bit flag masks. Bit 5 is set from the start and no mask touches it.
- **Memory bus.** It routes every byte and word access to the first registered subscriber whose inclusive range holds the address. A missing owner reads as 0 and drops writes. Both bytes of a word go to the owner of the first address, and the second address wraps from 0xFFFF to 0x0000.
- **Memory device.** A flat 64 KiB device that claims the whole address space.
- **Processor.** Its registers are PC, A, X, Y, SP and the status register. The stack lives in page 0x01 and grows upward: PushStack8 writes and then increments, PopStack8 decrements and then reads; the 16-bit versions move by two.
- **Operand resolvers.** `ReadAddrFromMemory` and `ReadByteFromMemory` in the processor, and `GetCurrentModeAddress` with three mode helpers beside them. Each one consumes its operand bytes by advancing the program counter.
- **Opcode table.** 28 opcodes, each bound to a handler and a fixed addressing mode. The handlers are NOP, BRK, SEI, SED, SEC, TSX, TXS, STA, STX, STY, INX, INY, JMP, TYA, TXA, TAY and TAX.

Each component appears twice:

- **Value layer.** Datatypes and functions that say what an operation does: `BusState`, `Registers`, `Machine`, `AddressOperand`, `ByteOperand`, `ModeAddress`, `Push8`/`Pop8`/`Push16`/`Pop16`, `Step`.
- **Imperative layer.** The source's classes, with their fields updated in place: `FlagSet`, `Memory64k` over an `array<Byte>`, `Bus` over a `seq` of subscribers, and `Cpu`. Every method states its new state as a value-layer function of the old one. For example, `State() == Push16(old(State()), data)` holds, and a handler ensures `Performs(h, mode, cpu, r)`, which ties it to `Step`.

The properties are lemmas about the value layer: round trips, wrap-around, bounds, which registers change and which stay.

Arithmetic follows the code literally:

- Bytes and words are integer subset types, and every wrap is written out: `% 0x100`, `% 0x10000`, and the code's own `% 0xFF` and `% 0xFFFF`.
- Zero-page indexing reduces modulo 0xFF, and absolute indexing modulo 0xFFFF.
- (zp,X) wraps its pointer modulo 0x100 in `ReadAddrFromMemory` but modulo 0xFF in `ReadByteFromMemory`.
- The Relative offset is added unsigned.
- STA, STX and STY load the register from memory; they do not store it.
- INX is bound to 0xEB.

Several of these differ from the 6502 as documented (where, for example, a branch offset is signed and 0xE8 is INX); the model follows the code.

Addressing-mode names follow the names `Cpu.cs` switches on (ZeroPageY, IndexedIndirect, IndirectIndexed). The enum file declares IndirectX and IndirectY instead.

Where the C# throws, the model returns an error value and changes nothing, because every throw comes before any update. This covers a resolver meeting a mode it has no case for, and the dictionary meeting a missing opcode.

## Model

| member | source | states |
|---|---|---|
| AddressingModes.OperandSize | 6502Emu/Cpu.cs:41-176 | at most two operand bytes; none exactly for Implied and Accumulator |
| FlagMasks.Mask | 6502Emu/Flag.cs:3-12 | every flag's mask has exactly one bit set and never bit 5 |
| FlagMasks.MasksDisjoint | 6502Emu/Flag.cs:5-11 | two flags share a bit if and only if they are the same flag |
| FlagMasks.MasksCoverAllButReserved | 6502Emu/Flag.cs:5-11 | the OR of the seven masks is 0xDF, so only bit 5 is unassigned |
| StatusRegister.WithFlag | 6502Emu/FlagSet.cs:7-11 | after SetFlag's update the flag reads back as the requested state, and no bit outside its mask moves |
| StatusRegister.HasFlag | 6502Emu/FlagSet.cs:13-16 | the full-mask test holds if and only if the flag's bit is set, since the mask is a single bit |
| StatusRegister.WithFlagIdempotent | 6502Emu/FlagSet.cs:9 | a repeated SetFlag changes nothing more; setting a flag to its current state is the identity |
| StatusRegister.ReservedBitPreserved | 6502Emu/FlagSet.cs:5-9 | no SetFlag changes bit 5 |
| StatusRegister.WithFlagCommutes | 6502Emu/FlagSet.cs:9 | updates of two different flags commute |
| StatusRegister.SetAllFlagsFromInitial | 6502Emu.Tests/FlagSetTests.cs:12-27 | setting all seven flags on a fresh register gives 0xFF |
| StatusRegister.FlagSet.constructor | 6502Emu/FlagSet.cs:5 | a new register holds 0x20 |
| StatusRegister.FlagSet.SetFlag | 6502Emu/FlagSet.cs:7-11 | the new byte is the old one with only this flag set or cleared; IsSet then answers the state; the same object is returned, so calls chain |
| StatusRegister.FlagSet.IsSet | 6502Emu/FlagSet.cs:13-16 | answers whether the flag's bit is set in the stored byte |
| StatusRegister.FlagSet.AsByte | 6502Emu/FlagSet.cs:18 | the byte conversion gives the stored bits, always at least 0x20 |
| MemoryDevice.Memory64k.constructor | 6502Emu/Subscribers/Memory64k.cs:5 | 65536 fresh cells, all 0 |
| MemoryDevice.Memory64k.Write | 6502Emu/Subscribers/Memory64k.cs:9-12 | the cells become the old cells with only `address` replaced |
| MemoryDevice.Memory64k.Read | 6502Emu/Subscribers/Memory64k.cs:14-17 | returns the cell and changes nothing |
| MemoryBus.Subscription | 6502Emu/Subscribers/Memory64k.cs:7-8 | a device registered with its own range owns every address |
| MemoryBus.LowByte | 6502Emu/Bus.cs:33 | the low byte is what remains of the word above its high byte's multiple of 0x100 |
| MemoryBus.HighByte | 6502Emu/Bus.cs:34 | the high byte names the 256-byte page that holds the word |
| MemoryBus.ComposeWord | 6502Emu/Bus.cs:41 | the composed word has the low byte as remainder and the high byte as quotient modulo 0x100 |
| MemoryBus.WordRoundTrip | 6502Emu/Bus.cs:29-42 | splitting a word into `data & 0xFF` and `data >> 8` and composing little-endian gives the word |
| MemoryBus.BytesRoundTrip | 6502Emu/Bus.cs:29-42 | composing two bytes and splitting again gives both bytes back |
| MemoryBus.NextAddress | 6502Emu/Bus.cs:34 | `++address` on a ushort: one more below 0xFFFF, and 0x0000 after 0xFFFF |
| MemoryBus.FirstOwner | 6502Emu/Bus.cs:44-47 | the result owns the address and no earlier subscriber does; there is none if and only if no subscriber owns it |
| MemoryBus.FirstOwnerAppend | 6502Emu/Bus.cs:8-13 | appending a subscriber keeps every address's earlier owner; the new one serves only addresses no one owned |
| MemoryBus.ReadsUnowned | 6502Emu/Bus.cs:22-42 | with no subscriber owning the address, a byte read gives 0x00 and a word read 0x0000 |
| MemoryBus.ReadsFromFirstOwner | 6502Emu/Bus.cs:22-47 | the first owner in registration order serves the read: the byte is its cell, the word composes its cell and its next cell (the next address wrapping) |
| MemoryBus.BusState.Write8 | 6502Emu/Bus.cs:15-20 | a byte write keeps the subscriber list and leaves every device's cells 64 KiB long |
| MemoryBus.BusState.Write16 | 6502Emu/Bus.cs:29-35 | a word write keeps the subscriber list and leaves every device's cells 64 KiB long |
| MemoryBus.Read8AfterWrite8 | 6502Emu/Bus.cs:15-27 | a byte written at an owned address (0x0000 and 0xFFFF included) reads back; unowned, the write is dropped and the read is 0 |
| MemoryBus.Write8Elsewhere | 6502Emu/Bus.cs:15-20 | a byte write leaves every other address's byte read unchanged, and every word read that does not overlap it |
| MemoryBus.Write16Placement | 6502Emu/Bus.cs:29-35 | the owner of `address` takes the low byte there and the high byte at (address+1) mod 0x10000, even past its range; no other cell of any device changes; unowned, nothing is written |
| MemoryBus.Read16AfterWrite16 | 6502Emu/Bus.cs:29-42 | a word written through the bus reads back, 0xFFFF included; unowned, the read is 0 |
| MemoryBus.Write16Elsewhere | 6502Emu/Bus.cs:29-35 | a word write leaves the byte and word reads of every address that does not overlap it unchanged |
| MemoryBus.Read16IsTwoReads | 6502Emu/Bus.cs:37-42 | when one subscriber owns both addresses first, a word read is the little-endian composition of two byte reads |
| MemoryBus.WordWriteWrapsAtTop | 6502Emu/Bus.cs:29-35 | on flat memory a word written at 0xFFFF puts its low byte at 0xFFFF and its high byte at 0x0000 |
| MemoryBus.FlatMemoryWordWrap | 6502Emu/Bus.cs:29-42 | on a fresh bus with one fresh Memory64k registered as `Program.cs` does, a word written at 0xFFFF reads back as its low byte at 0xFFFF, its high byte at 0x0000 and the whole word at 0xFFFF |
| MemoryBus.Bus.constructor | 6502Emu/Bus.cs:5 | a new bus has no subscribers |
| MemoryBus.Bus.AddSubscriber | 6502Emu/Bus.cs:8-13 | the subscriber is appended after the earlier ones without any range check, and every address owned before reads as before |
| MemoryBus.Bus.GetSubscriber | 6502Emu/Bus.cs:44-47 | finds a subscriber if and only if one owns the address, and then the first one in registration order |
| MemoryBus.Bus.Write8 | 6502Emu/Bus.cs:15-20 | the bus's new state is `BusState.Write8` of the old one |
| MemoryBus.Bus.Read8 | 6502Emu/Bus.cs:22-27 | returns `BusState.Read8` of the current state: the owner's cell, or 0 (what `BusState.Read8` gives is stated by `ReadsFromFirstOwner` and `ReadsUnowned`) |
| MemoryBus.Bus.Write16 | 6502Emu/Bus.cs:29-35 | the bus's new state is `BusState.Write16` of the old one |
| MemoryBus.Bus.Read16 | 6502Emu/Bus.cs:37-42 | returns `BusState.Read16` of the current state: both bytes from the owner of `address`, or 0 (stated by `ReadsFromFirstOwner` and `ReadsUnowned`) |
| Processor.ZeroPageSum | 6502Emu/Cpu.cs:88-97 | zero-page indexing as written, `% 0xFF`, always below 0xFF |
| Processor.AbsoluteSum | 6502Emu/Cpu.cs:51-62 | absolute indexing as written, `% 0xFFFF`, always below 0xFFFF |
| Processor.StackAddress | 6502Emu/Cpu.cs:17 | a stack slot lies in page 0x01 and its low byte is the stack pointer |
| Processor.Push8 | 6502Emu/Cpu.cs:28-32 | a byte push keeps the bus valid and its subscriber list |
| Processor.Pop8 | 6502Emu/Cpu.cs:34-39 | a byte pop moves SP down by one modulo 0x100, reads the byte at the new stack slot, and changes nothing else |
| Processor.Push16 | 6502Emu/Cpu.cs:15-19 | a word push keeps the bus valid and its subscriber list |
| Processor.Pop16 | 6502Emu/Cpu.cs:21-26 | a word pop moves SP down by two modulo 0x100 (undoing a word push's move), reads the word at the new stack slot, and changes nothing else |
| Processor.Push8ThenPop8 | 6502Emu/Cpu.cs:28-39 | PopStack8 after PushStack8 returns the byte and restores every register, for any stack pointer (0 when no one owns the slot) |
| Processor.Push16ThenPop16 | 6502Emu/Cpu.cs:15-26 | PopStack16 after PushStack16 returns the word and restores every register, for any stack pointer |
| Processor.Push16AtTopOfPage | 6502Emu/Cpu.cs:15-19 | at stack pointer 0xFF the pushed word's high byte lands in cell 0x0200, outside page 0x01 |
| Processor.AddressOperand | 6502Emu/Cpu.cs:41-101 | an error (unsupported mode) exactly for Implied, Immediate, Accumulator and Relative; otherwise PC advances by the operand size and nothing else changes; ZeroPage gives addresses below 0x100, ZeroPageX/Y below 0xFF, AbsoluteX/Y below 0xFFFF |
| Processor.ByteOperand | 6502Emu/Cpu.cs:103-176 | an error exactly for Implied and Relative; otherwise PC advances by the operand size (not at all for Accumulator, which gives A) and nothing else changes |
| Processor.ResolversAgree | 6502Emu/Cpu.cs:41-176 | where both resolvers accept a mode, the value resolver reads the byte at the address resolver's address and leaves the same state; for (zp,X) only while base + X < 0xFF |
| Processor.PageResolversAgree | 6502Emu/Cpu.cs:69-97 | the one-byte-operand part of ResolversAgree |
| Processor.IndexedIndirectPointers | 6502Emu/Cpu.cs:69-164 | (zp,X) reads its pointer at (base+X) mod 0x100 for the address and mod 0xFF for the value; the two cells coincide if and only if base + X < 0xFF |
| Processor.ZeroPageIndexedWrap | 6502Emu/Cpu.cs:88-92 | base 0xFE with X = 5 resolves to 0x04 (not 0x03), and with X = 1 to 0x00 |
| Processor.SignBitIsBitSeven | 6502Emu/Cpu.cs:180 | the negative test `(v & 0x1 << 7) == 0x1 << 7` holds if and only if v >= 0x80 |
| Processor.NegativeFrom | 6502Emu/Cpu.cs:178-181 | Negative is set if and only if bit 7 of the value is set; no other bit moves |
| Processor.ZeroFrom | 6502Emu/Cpu.cs:183-186 | Zero is set if and only if the value is 0; no other bit moves |
| Processor.Cpu.constructor | 6502Emu/Cpu.cs:7-13 | PC, A, X, Y and SP are 0, the status is 0x20, and the bus is empty |
| Processor.Cpu.PushStack16 | 6502Emu/Cpu.cs:15-19 | the new machine state is `Push16` of the old one |
| Processor.Cpu.PopStack16 | 6502Emu/Cpu.cs:21-26 | the returned word and the new state are `Pop16` of the old state |
| Processor.Cpu.PushStack8 | 6502Emu/Cpu.cs:28-32 | the new machine state is `Push8` of the old one |
| Processor.Cpu.PopStack8 | 6502Emu/Cpu.cs:34-39 | the returned byte and the new state are `Pop8` of the old state |
| Processor.Cpu.ReadAddrFromMemory | 6502Emu/Cpu.cs:41-101 | the result and new state are `AddressOperand` of the old state; on error the program counter is unchanged |
| Processor.Cpu.ReadWideAddr | 6502Emu/Cpu.cs:45-68 | the two-byte-operand cases agree with `AddressOperand` |
| Processor.Cpu.ReadPageAddr | 6502Emu/Cpu.cs:69-97 | the one-byte-operand cases agree with `AddressOperand` |
| Processor.Cpu.ReadByteFromMemory | 6502Emu/Cpu.cs:103-176 | the result and new state are `ByteOperand` of the old state; on error the program counter is unchanged |
| Processor.Cpu.ReadWideByte | 6502Emu/Cpu.cs:115-157 | the two-byte-operand cases agree with `ByteOperand` |
| Processor.Cpu.ReadPageByte | 6502Emu/Cpu.cs:135-172 | the one-byte-operand cases agree with `ByteOperand` |
| Processor.Cpu.CheckAndSetNegative | 6502Emu/Cpu.cs:178-181 | only the status changes, to `NegativeFrom` of the old status |
| Processor.Cpu.CheckAndSetZero | 6502Emu/Cpu.cs:183-186 | only the status changes, to `ZeroFrom` of the old status |
| AddressingModeSet.ModeAddress | 6502Emu/AddressingModeSet.cs:6-30 | an error (unsupported mode) exactly for modes other than ZeroPage, Absolute and Relative; otherwise memory is unchanged and PC advances by the operand size |
| AddressingModeSet.ModeAddressAgrees | 6502Emu/AddressingModeSet.cs:11-20 | for ZeroPage and Absolute, GetCurrentModeAddress gives the same address and state as ReadAddrFromMemory |
| AddressingModeSet.RelativeIsUnsigned | 6502Emu/AddressingModeSet.cs:21-25 | the Relative target minus the advanced PC is the offset byte, unsigned, modulo 0x10000; Negative mirrors bit 7 of the offset and no other bit moves |
| AddressingModeSet.OnlyRelativeSetsFlags | 6502Emu/AddressingModeSet.cs:6-30 | no mode but Relative changes the status |
| AddressingModeSet.GetCurrentModeAddress | 6502Emu/AddressingModeSet.cs:6-30 | the result and new state are `ModeAddress` of the old state; on error PC and status are unchanged |
| AddressingModeSet.AccumulatorMode | 6502Emu/AddressingModeSet.cs:32-35 | returns A and changes nothing |
| AddressingModeSet.ImmediateMode | 6502Emu/AddressingModeSet.cs:37-40 | returns the byte at PC and advances PC by one, as the Immediate value case does |
| AddressingModeSet.AbsoluteMode | 6502Emu/AddressingModeSet.cs:43-48 | returns the word at PC and advances PC by two, as the Absolute address case does |
| Handlers.Break | 6502Emu/InstructionSet.cs:81-88 | BRK keeps the bus valid and its subscriber list |
| Handlers.Step | 6502Emu/InstructionSet.cs:72-253 | every handler that succeeds keeps the bus valid and its subscriber list |
| Handlers.StepFails | 6502Emu/InstructionSet.cs:146-205 | a handler fails if and only if it is a store given Implied or Relative, or JMP given Implied, Immediate, Accumulator or Relative; the error names the mode |
| Handlers.ZeroNegative | 6502Emu/Cpu.cs:178-186 | after both checks, Zero is set if and only if v = 0, Negative if and only if v >= 0x80, and every other flag is kept |
| Handlers.OtherFlagsKept | 6502Emu/Cpu.cs:178-186 | the two checks in turn keep every flag but Zero and Negative |
| Handlers.Route | 6502Emu/InstructionSet.cs:124-253 | each transfer has distinct source and destination; only TSX reads the stack pointer and only TXS writes it; exactly TAX, TAY, TXA and TYA involve A |
| Handlers.Loaded | 6502Emu/InstructionSet.cs:146-170 | a store loads A, X or Y, never the stack pointer |
| Handlers.FlagOf | 6502Emu/InstructionSet.cs:94-118 | SEC, SED and SEI never name Zero, Negative, BreakCommand or Overflow |
| Handlers.BreakRegisters | 6502Emu/InstructionSet.cs:81-88 | after BRK, PC is the word that was at 0xFFFE, SP is up 3 mod 0x100, BreakCommand is set with no other status bit changed, and A, X and Y are kept |
| Handlers.PushPairTop | 6502Emu/Cpu.cs:15-39 | after a word push and then a byte push, the byte pops first and comes back |
| Handlers.PushPairPops | 6502Emu/Cpu.cs:15-39 | after that byte pops, the word pops back and SP returns to its start |
| Handlers.BreakReturnFrame | 6502Emu/InstructionSet.cs:81-88 | after BRK, PopStack8 gives the pre-BRK status byte, PopStack16 then gives the old PC, and SP is restored |
| Handlers.PopsIgnoreCounterAndStatus | 6502Emu/Cpu.cs:21-39 | pops read only SP and memory, whatever PC and the status hold |
| Handlers.InxIncrements | 6502Emu/InstructionSet.cs:176-182 | X becomes (X+1) mod 0x100; Zero is set if and only if X was 0xFF, Negative if and only if 0x7F <= X < 0xFF; every other register, flag and cell is kept |
| Handlers.InyIncrements | 6502Emu/InstructionSet.cs:188-194 | the same for Y |
| Handlers.TransferCopies | 6502Emu/InstructionSet.cs:124-253 | each transfer copies its source into its destination and keeps every other register and memory; all but TXS set Zero and Negative from the copied value, and TXS keeps the status |
| Handlers.SetFlagInstructions | 6502Emu/InstructionSet.cs:94-118 | SEC, SED and SEI set their own flag, move no other status bit and change no register or memory |
| Handlers.SetFlagTwice | 6502Emu/InstructionSet.cs:94-118 | a second SEC, SED or SEI gives the same machine as the first |
| Handlers.SetFlagStep | 6502Emu/InstructionSet.cs:94-118 | unfolding helper: the SEC, SED and SEI case of `Step`, with the flag given by `FlagOf` |
| Handlers.StoreLoads | 6502Emu/InstructionSet.cs:146-170 | STA/STX/STY load their register with ReadByteFromMemory's value and advance PC by the operand size; memory, status and the other registers are kept; for a memory mode the value is the byte at ReadAddrFromMemory's address ((zp,X) only while base + X < 0xFF) |
| Handlers.StoreStep | 6502Emu/InstructionSet.cs:146-170 | unfolding helper: the STA, STX and STY case of `Step`, with the register given by `Loaded` |
| Handlers.StepAdvances | 6502Emu/InstructionSet.cs:72-194 | every handler but JMP and BRK succeeds and leaves PC just past the operand bytes of its mode: a store past its memory or immediate operand, an implied instruction unmoved |
| Handlers.JumpTargets | 6502Emu/InstructionSet.cs:200-205 | JMP succeeds exactly when ReadAddrFromMemory does, then only PC changes, to that address: the operand word for Absolute, the word it points to for Indirect |
| Handlers.CmdNop | 6502Emu/InstructionSet.cs:72-75 | changes nothing and returns the status register |
| Handlers.CmdBrk | 6502Emu/InstructionSet.cs:81-88 | the new state is `Step(Brk)` of the old one and the status register is returned |
| Handlers.CmdSei | 6502Emu/InstructionSet.cs:94-98 | the new state is `Step(Sei)` of the old one |
| Handlers.CmdSed | 6502Emu/InstructionSet.cs:104-108 | the new state is `Step(Sed)` of the old one |
| Handlers.CmdSec | 6502Emu/InstructionSet.cs:114-118 | the new state is `Step(Sec)` of the old one |
| Handlers.CmdTsx | 6502Emu/InstructionSet.cs:124-130 | the new state is `Step(Tsx)` of the old one |
| Handlers.CmdTxs | 6502Emu/InstructionSet.cs:136-140 | the new state is `Step(Txs)` of the old one |
| Handlers.CmdSta | 6502Emu/InstructionSet.cs:146-150 | the new state is `Step(Sta)` of the old one; on an unsupported mode, an error and no change |
| Handlers.CmdStx | 6502Emu/InstructionSet.cs:156-160 | the same for STX |
| Handlers.CmdSty | 6502Emu/InstructionSet.cs:166-170 | the same for STY |
| Handlers.CmdInx | 6502Emu/InstructionSet.cs:176-182 | the new state is `Step(Inx)` of the old one |
| Handlers.CmdIny | 6502Emu/InstructionSet.cs:188-194 | the new state is `Step(Iny)` of the old one |
| Handlers.CmdJmp | 6502Emu/InstructionSet.cs:200-205 | the new state is `Step(Jmp)` of the old one; on an unsupported mode, an error and no change |
| Handlers.CmdTya | 6502Emu/InstructionSet.cs:211-217 | the new state is `Step(Tya)` of the old one |
| Handlers.CmdTxa | 6502Emu/InstructionSet.cs:223-229 | the new state is `Step(Txa)` of the old one |
| Handlers.CmdTay | 6502Emu/InstructionSet.cs:235-241 | the new state is `Step(Tay)` of the old one |
| Handlers.CmdTax | 6502Emu/InstructionSet.cs:247-253 | the new state is `Step(Tax)` of the old one |
| Handlers.Invoke | 6502Emu/Instruction.cs:18 | calling a handler's command performs `Step` for that handler and returns what it returns |
| InstructionEntry.Instruction.Execute | 6502Emu/Instruction.cs:16-19 | executing an entry performs its handler with the entry's own fixed mode; the name plays no part |
| InstructionSet.Entry | 6502Emu/InstructionSet.cs:8-66 | the table's entry (the constant map `Instructions` collects them): present if and only if the opcode is in the listed set `Opcodes`, and then named with its handler's mnemonic |
| InstructionSet.Decode | 6502Emu/InstructionSet.cs:5-66 | a lookup succeeds if and only if the opcode is one of the listed ones, and then gives that opcode's `Entry`; otherwise it fails with that opcode; a found entry's name is its handler's mnemonic |
| InstructionSet.TableDomain | 6502Emu/InstructionSet.cs:5-66 | the keys of `Instructions` are exactly the listed opcodes |
| InstructionSet.OpcodeCount | 6502Emu/InstructionSet.cs:8-66 | the table lists 28 distinct opcodes |
| InstructionSet.IncreasingCard | 6502Emu/InstructionSet.cs:8-66 | a strictly increasing sequence has as many distinct values as positions (used to count the opcodes) |
| InstructionSet.BehaviourFollowsMnemonic | 6502Emu/InstructionSet.cs:8-66 | each transfer's mnemonic is T, its source letter and its destination letter; each store's is ST and its register's letter; each flag setter's is SE and its flag's letter |
| InstructionSet.NamesMatchHandlers | 6502Emu/InstructionSet.cs:5-66 | every entry's name is its handler's mnemonic |
| InstructionSet.TableModesAccepted | 6502Emu/InstructionSet.cs:5-66 | no entry pairs a handler with a mode its resolver rejects |
| InstructionSet.TableProgramCounter | 6502Emu/InstructionSet.cs:5-66 | apart from JMP and BRK, every entry moves PC exactly past its mode's operand bytes |
| InstructionSet.TableModes | 6502Emu/InstructionSet.cs:8-66 | stores are bound to modes other than Implied and Relative, and every handler but the stores and JMP to Implied |
| InstructionSet.TableBindings | 6502Emu/InstructionSet.cs:8-47 | 0xEB is INX and 0xE8 is absent, 0x96 is STX ZeroPageX, 0x6C is JMP Indirect, and 0x00 is BRK |

## Left out

- `Program.cs` is not part of this model. It only wires up a processor and runs one BRK.
- `CmdSbc` is not modelled. It is unfinished (it only sets Zero and Negative from A), and the table does not bind it, so no opcode reaches it.
- The `Name` strings are kept as data, but they are diagnostic only and have no behaviour.
- Subscribers are records of a range and a `Memory64k`. Other implementations of the subscriber interface are not modelled, and neither is a range changed after registration.
- The C# `Func` delegates become a `Handler` datatype dispatched by `Invoke`. The settable static dictionary becomes a constant map, so replacing the whole table is not modelled.
- Exceptions are modelled as `Err` values with no state change:
  - the mode-mismatch `Exception` and `ArgumentException` both become `UnsupportedAddressingMode`;
  - the missing-key lookup becomes `UnimplementedOpcode`.
- The tests draw random registers and addresses. The model states those facts for all values instead.
- There is no fetch-decode-execute loop: the core has none, and the opcode byte is never read through the program counter.
- The enum names in `AddressingMode.cs` (IndirectX, IndirectY, no ZeroPageY) differ from the names the processor switches on. The model uses the processor's names.
- `ReadAddrFromMemory` and `ReadByteFromMemory` are each split into two helper methods by operand width. The case arithmetic and the order of the bus reads are the same.
- Processor.Push8: its own contract states only that the bus stays well formed with the same subscribers. What the push does is stated by `Push8ThenPop8` and by `Cpu.PushStack8`.
- Processor.Push16: the same. What the push does is stated by `Push16ThenPop16`, `Push16AtTopOfPage` and `Cpu.PushStack16`.
- Handlers.Break: the same. What BRK does is stated by `BreakRegisters` and `BreakReturnFrame`.
- Handlers.Step: its own contract states only that a successful handler keeps the bus well formed. What each handler does is stated by `StepFails`, `InxIncrements`, `InyIncrements`, `TransferCopies`, `SetFlagInstructions`, `StoreLoads`, `JumpTargets` and the BRK lemmas.
- MemoryBus.BusState.Write8: the same. Its effect is stated by `Read8AfterWrite8` and `Write8Elsewhere`.
- MemoryBus.BusState.Read8: no contract of its own, since one on this function, used by nearly every proof, makes the others much costlier. What it returns is stated by `ReadsFromFirstOwner` and `ReadsUnowned`.
- MemoryBus.BusState.Read16: the same, with the same two lemmas.
- MemoryBus.BusState.Write16: the same as Write8. Its effect is stated by `Write16Placement`, `Read16AfterWrite16` and `Write16Elsewhere`.

/** One entry of the opcode table (6502Emu/Instruction.cs): the handler, its mnemonic and
    the fixed addressing mode the handler is called with. */
module InstructionEntry {
  import opened Types
  import opened AddressingModes
  import opened StatusRegister
  import opened MemoryBus
  import opened Processor
  import opened Handlers

  datatype Instruction = Instruction(Command: Handler, Name: string, Mode: AddressingMode)
  {
    /** Execute: invoke the command with the instruction's own mode and return what it
        returns. The mnemonic plays no part. */
    method Execute(cpu: Cpu) returns (r: Result<FlagSet>)
      requires cpu.Valid()
      modifies cpu, cpu.Bus`Cells, cpu.Bus.Arrays(), cpu.Status
      ensures cpu.Valid() && Performs(Command, Mode, cpu, r)
    {
      r := Invoke(Command, cpu, Mode);
    }
  }
}

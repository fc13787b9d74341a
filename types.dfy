/** Machine integer types and the failure values the core reports. */
module Types {
  import opened AddressingModes

  /** An unsigned 8-bit value (C# `byte`). */
  type Byte = b: int | 0 <= b < 0x100

  /** An unsigned 16-bit value (C# `ushort`): addresses and the program counter. */
  type Word = w: int | 0 <= w < 0x10000

  datatype Option<T> = None | Some(value: T)

  /** What the core throws, as values: a resolver called with a mode it has no case
      for, and a dispatch on an opcode the table does not contain. */
  datatype Error =
    | UnsupportedAddressingMode(mode: AddressingMode)
    | UnimplementedOpcode(opcode: Byte)

  datatype Result<T> = Ok(value: T) | Err(error: Error)
}

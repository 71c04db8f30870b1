// Constants and the instruction record shared by the whole machine (machine.h).
module Defs {
  /** Number of integer slots in the stack store. */
  const MAX_STACK_HEIGHT: int := 2048
  /** Number of slots in the instruction table. */
  const MAX_CODE_LENGTH: int := 512
  /** Opcodes run from 1 to NUM_OPCODES; the mnemonic table has this many entries. */
  const NUM_OPCODES: int := 27

  /** One loaded instruction: an opcode and its operand M. */
  datatype Instruction = Instruction(op: int, m: int)
}

// A small Option type for lookups that can fail.
module Wrappers {
  datatype Option<+T> = None | Some(value: T)
}

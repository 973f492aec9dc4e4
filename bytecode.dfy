/** Values, literals and the instruction encoding of the bytecode engine. */
module Bytecode {

  /** One byte of the instruction stream (the source's `byte`, unsigned). */
  newtype byte = x: int | 0 <= x < 256

  /** Capacity of the operand stack (`STACK_MAX`), of the locals and of `argv`. */
  const StackMax: nat := 10
  const LocalCount: nat := 10
  const ArgvMax: nat := 10

  /** An object reference as the engine sees it.  `Self` is the one receiver
      created at frame entry; `Absent` is the null reference a local holds
      until it is first set. */
  datatype Value =
    | Num(n: int)
    | Str(s: string)
    | True
    | False
    | Nil
    | Self
    | Absent

  /** A slot of the literal pool, tagged with the kind its use site expects. */
  datatype Literal = NumLit(n: int) | StrLit(s: string)

  /** The opcodes of the switch in `run`; any other byte value matches no case. */
  datatype Opcode =
    | Call
    | PushNumber
    | PushString
    | PushSelf
    | PushNil
    | PushBool
    | GetLocal
    | SetLocal
    | Add
    | JumpUnless
    | Return
    | Unknown(b: byte)

  /** The (assumed) byte value of each named opcode. */
  function Encode(op: Opcode): (b: byte)
    requires !op.Unknown?
    ensures b <= 10
  {
    match op
    case Call => 0
    case PushNumber => 1
    case PushString => 2
    case PushSelf => 3
    case PushNil => 4
    case PushBool => 5
    case GetLocal => 6
    case SetLocal => 7
    case Add => 8
    case JumpUnless => 9
    case Return => 10
  }

  /** The case label a byte selects; a byte no case names is `Unknown`. */
  function Decode(b: byte): (op: Opcode)
    ensures op.Unknown? <==> b > 10
    ensures op.Unknown? ==> op.b == b
    ensures !op.Unknown? ==> Encode(op) == b
  {
    if b == 0 then Call
    else if b == 1 then PushNumber
    else if b == 2 then PushString
    else if b == 3 then PushSelf
    else if b == 4 then PushNil
    else if b == 5 then PushBool
    else if b == 6 then GetLocal
    else if b == 7 then SetLocal
    else if b == 8 then Add
    else if b == 9 then JumpUnless
    else if b == 10 then Return
    else Unknown(b)
  }

  /** Encoding a named opcode and decoding the byte gives the opcode back. */
  lemma DecodeEncode(op: Opcode)
    requires !op.Unknown?
    ensures Decode(Encode(op)) == op
  {
  }

  /** How many operand bytes each case consumes inline. */
  function OperandCount(op: Opcode): (k: nat)
    ensures k <= 2
    ensures k == 2 <==> op == Call
    ensures k == 0 <==> op in {PushSelf, PushNil, Add, Return} || op.Unknown?
  {
    match op
    case Call => 2
    case PushNumber => 1
    case PushString => 1
    case PushBool => 1
    case GetLocal => 1
    case SetLocal => 1
    case JumpUnless => 1
    case _ => 0
  }

  /** Bytes taken by one instruction: the opcode byte and its operands. */
  function Width(op: Opcode): (w: nat)
    ensures 1 <= w <= 3
  {
    1 + OperandCount(op)
  }
}

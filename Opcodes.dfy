/**
 The LS-8 instruction bytes and the dispatcher's view of them: which handler of
 the run loop an instruction byte selects, and how many bytes the instruction
 occupies.
 */
module Opcodes {
  import opened PyInt

  const NOP: int := 0x00

  const LD: int := 0x83
  const LDI: int := 0x82
  const PRN: int := 0x47
  const HLT: int := 0x01

  const AND: int := 0xA8
  const NOT: int := 0x69
  const OR: int := 0xAA
  const XOR: int := 0xAB

  const POP: int := 0x46
  const PUSH: int := 0x45
  const PRA: int := 0x48
  const CALL: int := 0x50
  const CMP: int := 0xA7
  const DEC: int := 0x66
  const INC: int := 0x65
  const INT: int := 0x52
  const IRET: int := 0x13
  const JEQ: int := 0x55
  const JGE: int := 0x5A
  const JGT: int := 0x57
  const JLE: int := 0x59
  const JLT: int := 0x58
  const JMP: int := 0x54
  const JNE: int := 0x56
  const RET: int := 0x11
  const SHL: int := 0xAC
  const SHR: int := 0xAD
  const ST: int := 0x84

  const ADD: int := 0xA0
  const SUB: int := 0xA1
  const MUL: int := 0xA2
  const DIV: int := 0xA3
  const MOD: int := 0xA4

  /**
   The branches of the run loop's dispatch chain, in the chain's order.
   `NoBranch` is what every other byte falls through to: the defined opcodes
   the chain does not test and every undefined byte.
   */
  datatype Branch =
    | Ldi | Prn | Pra | Mul | Push | Pop | Call | Ret | St | Jmp | Cmp
    | Jeq | Jne | And | Or | Xor | Not | Shl | Shr | Mod | Hlt
    | NoBranch

  /** The opcode that the chain compares against to select a branch. */
  function OpcodeOf(b: Branch): int
    requires !b.NoBranch?
  {
    match b
    case Ldi => LDI
    case Prn => PRN
    case Pra => PRA
    case Mul => MUL
    case Push => PUSH
    case Pop => POP
    case Call => CALL
    case Ret => RET
    case St => ST
    case Jmp => JMP
    case Cmp => CMP
    case Jeq => JEQ
    case Jne => JNE
    case And => AND
    case Or => OR
    case Xor => XOR
    case Not => NOT
    case Shl => SHL
    case Shr => SHR
    case Mod => MOD
    case Hlt => HLT
  }

  /** The opcodes the dispatch chain tests for. */
  const Handled: set<int> :=
    {LDI, PRN, PRA, MUL, PUSH, POP, CALL, RET, ST, JMP, CMP, JEQ, JNE,
     AND, OR, XOR, NOT, SHL, SHR, MOD, HLT}

  /**
   The opcodes that are defined but that the dispatch chain never tests for;
   executing one of them only advances the program counter.
   */
  const Unhandled: set<int> :=
    {ADD, SUB, DIV, LD, INC, DEC, NOP, INT, IRET, JGE, JGT, JLE, JLT}

  /** The branch the dispatch chain takes for instruction byte `ir`. */
  function Decode(ir: int): (b: Branch)
    ensures b.NoBranch? <==> ir !in Handled
    ensures !b.NoBranch? ==> OpcodeOf(b) == ir
  {
    if ir == LDI then Ldi
    else if ir == PRN then Prn
    else if ir == PRA then Pra
    else if ir == MUL then Mul
    else if ir == PUSH then Push
    else if ir == POP then Pop
    else if ir == CALL then Call
    else if ir == RET then Ret
    else if ir == ST then St
    else if ir == JMP then Jmp
    else if ir == CMP then Cmp
    else if ir == JEQ then Jeq
    else if ir == JNE then Jne
    else if ir == AND then And
    else if ir == OR then Or
    else if ir == XOR then Xor
    else if ir == NOT then Not
    else if ir == SHL then Shl
    else if ir == SHR then Shr
    else if ir == MOD then Mod
    else if ir == HLT then Hlt
    else NoBranch
  }

  /** Every handled branch is selected by its own opcode and by no other. */
  lemma DecodeOpcodeOf(b: Branch)
    requires !b.NoBranch?
    ensures Decode(OpcodeOf(b)) == b
  {
  }

  /** The defined opcodes without a branch fall through like undefined bytes. */
  lemma UnhandledFallThrough(ir: int)
    requires ir in Unhandled
    ensures Decode(ir) == NoBranch
  {
  }

  /**
   The total size in bytes of the instruction whose first byte is `ir`:
   `(ir >> 6) + 1`. For a byte this is its top two bits plus one.
   */
  function Width(ir: int): (w: int)
    ensures 0 <= ir < 256 ==> 1 <= w <= 4 && w == ir / 64 + 1
  {
    assert Pow2(6) == 64;
    ShiftRight(ir, 6) + 1
  }
}

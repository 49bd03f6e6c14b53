/**
 The arithmetic and logic unit: a closed set of named operations, each of which
 updates the destination register `a` from itself and source register `b`, or
 (CMP) the flags register. The operations that take no second register (INC and
 DEC) ignore `b`.
 */
module AluSpec {
  import opened PyInt
  import opened MachineState

  datatype Op = Add | Sub | Mul | Inc | Dec | Cmp | And | Or | Xor | Not | Shl | Shr | Mod

  /** Whether the operation reads a second register. */
  predicate UsesB(op: Op) {
    !(op.Inc? || op.Dec?)
  }

  /**
   The operands with which the operation completes without a Python exception:
   both register indices exist, a shift count is not negative (`ValueError`),
   and a modulo divisor is not zero (`ZeroDivisionError`).
   */
  predicate Defined(op: Op, a: int, b: int, s: State)
    requires WellFormed(s)
  {
    && IsReg(a)
    && (UsesB(op) ==> IsReg(b))
    && ((op.Shl? || op.Shr?) ==> s.reg[b] >= 0)
    && (op.Mod? ==> s.reg[b] != 0)
  }

  /** The flags CMP sets: exactly one of Equal, Less-than and Greater-than. */
  function CompareFlags(x: int, y: int): (f: int)
    ensures f in {FL_EQUAL, FL_LESS, FL_GREATER}
    ensures f == FL_EQUAL <==> x == y
    ensures f == FL_LESS <==> x < y
    ensures f == FL_GREATER <==> x > y
  {
    // `alu`'s final `else` (flags 0) cannot be reached by integers.
    if x == y then FL_EQUAL
    else if x < y then FL_LESS
    else FL_GREATER
  }

  /** The value the operation leaves in register `a`, for every operation but CMP. */
  function Result(op: Op, x: int, y: int): (r: int)
    requires !op.Cmp?
    requires (op.Shl? || op.Shr?) ==> y >= 0
    requires op.Mod? ==> y != 0
    ensures op.Not? ==> r == -y - 1
    ensures op.Shl? ==> r == x * Pow2(y)
    ensures op.Shr? ==> r * Pow2(y) <= x < r * Pow2(y) + Pow2(y)
    ensures op.Mod? && y > 0 ==> 0 <= r < y && r == x % y
    ensures op.Mod? && y < 0 ==> y < r <= 0
  {
    match op
    case Add => x + y
    case Sub => x - y
    case Mul => x * y
    case Inc => x + 1
    case Dec => x - 1
    case And => BitAnd(x, y)
    case Or => BitOr(x, y)
    case Xor => BitXor(x, y)
    case Not => Invert(y)
    case Shl => ShiftLeft(x, y)
    case Shr => ShiftRight(x, y)
    case Mod => FloorMod(x, y)
  }

  /** The state after the ALU performs `op` on registers `a` and `b`. */
  function Apply(op: Op, a: int, b: int, s: State): (t: State)
    requires WellFormed(s) && Defined(op, a, b, s)
    ensures WellFormed(t)
    ensures t.ram == s.ram && t.pc == s.pc && t.running == s.running && t.out == s.out
    ensures op.Cmp? ==> t.reg == s.reg && t.fl == CompareFlags(s.reg[a], s.reg[b])
    ensures !op.Cmp? ==> t.fl == s.fl
    ensures !op.Cmp? ==> forall i :: 0 <= i < REG_COUNT && i != a ==> t.reg[i] == s.reg[i]
  {
    var y := if UsesB(op) then s.reg[b] else 0;
    if op.Cmp? then s.(fl := CompareFlags(s.reg[a], y))
    else s.(reg := s.reg[a := Result(op, s.reg[a], y)])
  }
}

/**
 What one step of the run loop does, instruction by instruction, and what
 pairs of instructions do together (PUSH/POP, CALL/RET, CMP/JEQ, CMP/JNE).
 */
module StepLaws {
  import opened PyInt
  import opened Opcodes
  import opened MachineState
  import AluSpec
  import opened Execute

  /** The instruction at the program counter is `op` with first operand byte `a`. */
  predicate At(s: State, op: int, a: int)
    requires WellFormed(s)
  {
    0 <= s.pc && s.pc + 2 < RAM_SIZE && s.ram[s.pc] == op && s.ram[s.pc + 1] == a
  }

  /** The instruction at the program counter jumps, calls or returns. */
  predicate IsJump(s: State)
    requires WellFormed(s) && 0 <= s.pc < RAM_SIZE
  {
    var br := Decode(Fetch(s));
    br.Call? || br.Ret? || br.Jmp? || (br.Jeq? && s.fl == FL_EQUAL) || (br.Jne? && s.fl != FL_EQUAL)
  }

  /**
   An instruction that takes no jump, call or return advances the program
   counter by `(IR >> 6) + 1`, between 1 and 4 for a byte; a jump, call or
   return does not add the width.
   */
  lemma StepAdvancesByWidth(s: State)
    requires WellFormed(s) && CanStep(s)
    ensures !IsJump(s) ==> Step(s).pc == s.pc + Width(Fetch(s))
    ensures !IsJump(s) && 0 <= Fetch(s) < 256 ==> 1 <= Step(s).pc - s.pc <= 4
  {
  }

  /** A byte without a branch, defined opcode or not, changes nothing but the program counter. */
  lemma NoBranchOnlyAdvances(s: State)
    requires WellFormed(s) && CanStep(s) && Fetch(s) !in Handled
    ensures Step(s) == s.(pc := s.pc + Width(Fetch(s)))
  {
  }

  /** HLT stops the machine and still advances the program counter by 1. */
  lemma HltEffect(s: State)
    requires WellFormed(s) && CanStep(s) && Fetch(s) == HLT
    ensures Step(s) == s.(running := false, pc := s.pc + 1)
  {
  }

  /** LDI r, v loads the immediate byte v into register r. */
  lemma LdiEffect(s: State, r: int)
    requires WellFormed(s) && CanStep(s) && At(s, LDI, r)
    ensures Step(s) == s.(reg := s.reg[r := s.ram[s.pc + 2]], pc := s.pc + 3)
  {
  }

  /** PRN r and PRA r emit register r's value and change nothing else but the program counter. */
  lemma PrintEffect(s: State, r: int)
    requires WellFormed(s) && CanStep(s) && (At(s, PRN, r) || At(s, PRA, r))
    ensures Step(s) == s.(out := s.out + [if Fetch(s) == PRN then Number(s.reg[r]) else Character(s.reg[r])],
                          pc := s.pc + 2)
  {
  }

  /** ST a, b writes register b's value at the address in register a and changes no other cell. */
  lemma StEffect(s: State, a: int)
    requires WellFormed(s) && CanStep(s) && At(s, ST, a)
    ensures Step(s) == s.(ram := s.ram[s.reg[a] := s.reg[s.ram[s.pc + 2]]], pc := s.pc + 3)
  {
  }

  /**
   PUSH r moves the stack pointer down by one and writes only the new top
   cell, with register r's value read after the decrement.
   */
  lemma PushEffect(s: State, r: int)
    requires WellFormed(s) && CanStep(s) && At(s, PUSH, r)
    ensures var sp := s.reg[SP] - 1;
      Step(s) == s.(reg := s.reg[SP := sp],
                    ram := s.ram[sp := if r == SP then sp else s.reg[r]],
                    pc := s.pc + 2)
  {
  }

  /** POP r loads the top cell into register r, then moves the stack pointer up by one. */
  lemma PopEffect(s: State, r: int)
    requires WellFormed(s) && CanStep(s) && At(s, POP, r)
    ensures var value := s.ram[s.reg[SP]];
      Step(s) == s.(reg := s.reg[r := value][SP := (if r == SP then value else s.reg[SP]) + 1],
                    pc := s.pc + 2)
  {
  }

  /**
   A PUSH r directly followed by a POP r gives back the whole register file,
   stack pointer included, when the pushed cell is not the POP instruction.
   */
  lemma PushPopRoundTrip(s: State, r: int)
    requires WellFormed(s) && 0 <= s.pc && s.pc + 4 < RAM_SIZE
    requires At(s, PUSH, r) && s.ram[s.pc + 2] == POP && s.ram[s.pc + 3] == r && IsReg(r)
    requires IsAddr(s.reg[SP] - 1) && s.reg[SP] - 1 != s.pc + 2 && s.reg[SP] - 1 != s.pc + 3
    ensures CanStep(s) && CanStep(Step(s))
    ensures var t := Step(Step(s));
      t.reg == s.reg && t.pc == s.pc + 4 && t.fl == s.fl && t.out == s.out
  {
    PushEffect(s, r);
    var t := Step(s);
    assert At(t, POP, r);
    PopEffect(t, r);
  }

  /**
   CALL r at address A moves the stack pointer down by one, stores A + 2 in
   the new top cell and jumps to register r, read after the decrement.
   */
  lemma CallEffect(s: State, r: int)
    requires WellFormed(s) && CanStep(s) && At(s, CALL, r)
    ensures var sp := s.reg[SP] - 1;
      Step(s) == s.(reg := s.reg[SP := sp],
                    ram := s.ram[sp := s.pc + 2],
                    pc := if r == SP then sp else s.reg[r])
  {
  }

  /** RET jumps to the address in the top cell and moves the stack pointer up by one. */
  lemma RetEffect(s: State)
    requires WellFormed(s) && CanStep(s) && Fetch(s) == RET
    ensures Step(s) == s.(pc := s.ram[s.reg[SP]], reg := s.reg[SP := s.reg[SP] + 1])
  {
  }

  /**
   A RET that finds the stack pointer and top cell a CALL at address A left
   behind returns to A + 2 and gives back the stack pointer from before the
   CALL, whatever ran in between.
   */
  lemma RetAfterCall(s: State, u: State)
    requires WellFormed(s) && CanStep(s) && Fetch(s) == CALL
    requires WellFormed(u) && 0 <= u.pc && u.pc + 2 < RAM_SIZE && Fetch(u) == RET
    requires u.reg[SP] == Step(s).reg[SP] && u.ram[u.reg[SP]] == Step(s).ram[Step(s).reg[SP]]
    ensures CanStep(u)
    ensures Step(u).pc == s.pc + 2 && Step(u).reg[SP] == s.reg[SP]
  {
    CallEffect(s, s.ram[s.pc + 1]);
  }

  /**
   A CALL r directly answered by a RET at the target gives back the register
   file and resumes right after the CALL.
   */
  lemma CallRetRoundTrip(s: State, r: int)
    requires WellFormed(s) && CanStep(s) && At(s, CALL, r) && r != SP
    requires var target := s.reg[r];
      0 <= target && target + 2 < RAM_SIZE && s.ram[target] == RET && target != s.reg[SP] - 1
    ensures CanStep(Step(s))
    ensures var t := Step(Step(s));
      t.pc == s.pc + 2 && t.reg == s.reg && t.ram == s.ram[s.reg[SP] - 1 := s.pc + 2]
  {
    CallEffect(s, r);
    RetEffect(Step(s));
  }

  /** CMP sets the flags to exactly Equal, Less-than or Greater-than and changes no register. */
  lemma CmpEffect(s: State, a: int)
    requires WellFormed(s) && CanStep(s) && At(s, CMP, a)
    ensures var x, y, t := s.reg[a], s.reg[s.ram[s.pc + 2]], Step(s);
      && t == s.(fl := t.fl, pc := s.pc + 3)
      && (t.fl == FL_EQUAL <==> x == y)
      && (t.fl == FL_LESS <==> x < y)
      && (t.fl == FL_GREATER <==> x > y)
  {
  }

  /** JEQ r jumps to register r exactly when the flags are Equal, and otherwise advances by 2. */
  lemma JeqEffect(s: State, r: int)
    requires WellFormed(s) && CanStep(s) && At(s, JEQ, r)
    ensures Step(s) == s.(pc := if s.fl == FL_EQUAL then s.reg[r] else s.pc + 2)
  {
  }

  /** JNE r jumps to register r exactly when the flags are not Equal, and otherwise advances by 2. */
  lemma JneEffect(s: State, r: int)
    requires WellFormed(s) && CanStep(s) && At(s, JNE, r)
    ensures Step(s) == s.(pc := if s.fl != FL_EQUAL then s.reg[r] else s.pc + 2)
  {
  }

  /** JMP r jumps to register r and changes nothing else. */
  lemma JmpEffect(s: State, r: int)
    requires WellFormed(s) && CanStep(s) && At(s, JMP, r)
    ensures Step(s) == s.(pc := s.reg[r])
  {
  }

  /**
   CMP a, b followed by JEQ c jumps to register c exactly when registers a
   and b hold equal values; followed by JNE c, exactly when they differ.
   */
  lemma CmpThenBranch(s: State, a: int, b: int, c: int, jump: int)
    requires WellFormed(s) && 0 <= s.pc && s.pc + 5 < RAM_SIZE
    requires At(s, CMP, a) && s.ram[s.pc + 2] == b && IsReg(a) && IsReg(b)
    requires jump == JEQ || jump == JNE
    requires s.ram[s.pc + 3] == jump && s.ram[s.pc + 4] == c && IsReg(c)
    ensures CanStep(s) && CanStep(Step(s))
    ensures var equal := s.reg[a] == s.reg[b];
      var taken := if jump == JEQ then equal else !equal;
      Step(Step(s)).pc == if taken then s.reg[c] else s.pc + 5
  {
    CmpEffect(s, a);
    var t := Step(s);
    assert At(t, jump, c);
    if jump == JEQ { JeqEffect(t, c); } else { JneEffect(t, c); }
  }

  /**
   MOD a, b with a zero divisor stops the machine, leaves every register as it
   was and still advances by 3; otherwise register a becomes a - (a // b) * b.
   */
  lemma ModEffect(s: State, a: int)
    requires WellFormed(s) && CanStep(s) && At(s, MOD, a)
    ensures var b := s.ram[s.pc + 2];
      if s.reg[b] == 0 then Step(s) == s.(running := false, pc := s.pc + 3)
      else Step(s) == s.(reg := s.reg[a := s.reg[a] - FloorDiv(s.reg[a], s.reg[b]) * s.reg[b]], pc := s.pc + 3)
  {
  }

  /** MUL a, b multiplies register a by register b, with no truncation to eight bits. */
  lemma MulEffect(s: State, a: int)
    requires WellFormed(s) && CanStep(s) && At(s, MUL, a)
    ensures Step(s) == s.(reg := s.reg[a := s.reg[a] * s.reg[s.ram[s.pc + 2]]], pc := s.pc + 3)
  {
  }

  /** AND, OR and XOR combine registers a and b bit by bit into register a. */
  lemma BitwiseEffect(s: State, a: int, i: nat)
    requires WellFormed(s) && CanStep(s) && 0 <= s.pc && s.pc + 2 < RAM_SIZE
    requires Fetch(s) in {AND, OR, XOR} && s.ram[s.pc + 1] == a
    ensures var b, t := s.ram[s.pc + 2], Step(s);
      && t == s.(reg := t.reg, pc := s.pc + 3)
      && (forall j :: 0 <= j < REG_COUNT && j != a ==> t.reg[j] == s.reg[j])
      && (Fetch(s) == AND ==> Bit(t.reg[a], i) == (Bit(s.reg[a], i) && Bit(s.reg[b], i)))
      && (Fetch(s) == OR ==> Bit(t.reg[a], i) == (Bit(s.reg[a], i) || Bit(s.reg[b], i)))
      && (Fetch(s) == XOR ==> Bit(t.reg[a], i) == (Bit(s.reg[a], i) != Bit(s.reg[b], i)))
  {
    var b := s.ram[s.pc + 2];
    if Fetch(s) == AND { BitAndBits(s.reg[a], s.reg[b], i); }
    else if Fetch(s) == OR { BitOrBits(s.reg[a], s.reg[b], i); }
    else { BitXorBits(s.reg[a], s.reg[b], i); }
  }

  /**
   NOT a is a two-byte instruction, but its branch complements the register
   named by the byte after it, which is the first byte of the next
   instruction, and stores the result, every bit flipped, in register a.
   */
  lemma NotEffect(s: State, a: int, i: nat)
    requires WellFormed(s) && CanStep(s) && At(s, NOT, a)
    ensures var b, t := s.ram[s.pc + 2], Step(s);
      && t == s.(reg := s.reg[a := Invert(s.reg[b])], pc := s.pc + 2)
      && Bit(t.reg[a], i) == !Bit(s.reg[b], i)
  {
    InvertBits(s.reg[s.ram[s.pc + 2]], i);
  }

  /**
   SHL and SHR shift register a by the count in register b: SHL multiplies by
   2^count and SHR is floor division by 2^count.
   */
  lemma ShiftEffect(s: State, a: int)
    requires WellFormed(s) && CanStep(s) && 0 <= s.pc && s.pc + 2 < RAM_SIZE
    requires (Fetch(s) == SHL || Fetch(s) == SHR) && s.ram[s.pc + 1] == a
    ensures var b, t := s.ram[s.pc + 2], Step(s);
      var x, n := s.reg[a], s.reg[b];
      && n >= 0
      && t == s.(reg := t.reg, pc := s.pc + 3)
      && (forall j :: 0 <= j < REG_COUNT && j != a ==> t.reg[j] == s.reg[j])
      && (Fetch(s) == SHL ==> t.reg[a] == x * Pow2(n))
      && (Fetch(s) == SHR ==> t.reg[a] * Pow2(n) <= x < t.reg[a] * Pow2(n) + Pow2(n))
  {
  }

  /**
   How a bounded run ends says what the final state is: halted exactly when
   the machine is no longer running, out of fuel only while it still runs, and
   faulted only before an instruction that cannot take a step.
   */
  lemma {:induction false} RunOutcome(s: State, fuel: nat)
    requires WellFormed(s)
    ensures var (t, status) := Run(s, fuel);
      && (status == Halted <==> !t.running)
      && (status == OutOfFuel ==> t.running)
      && (status == Fault ==> t.running && !CanStep(t))
    decreases fuel
  {
    if s.running && fuel > 0 && CanStep(s) {
      RunOutcome(Step(s), fuel - 1);
    }
  }

  /** A run that ends before its fuel does ends the same way with more fuel. */
  lemma {:induction false} RunMoreFuel(s: State, fuel: nat, extra: nat)
    requires WellFormed(s) && Run(s, fuel).1 != OutOfFuel
    ensures Run(s, fuel + extra) == Run(s, fuel)
    decreases fuel
  {
    if s.running && fuel > 0 && CanStep(s) {
      RunMoreFuel(Step(s), fuel - 1, extra);
    }
  }
}

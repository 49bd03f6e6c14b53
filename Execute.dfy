/**
 The run loop of the emulator as functions on machine states: which states can
 take a step, what one fetch-decode-execute step does, and what running for a
 bounded number of steps does.
 */
module Execute {
  import opened PyInt
  import opened Opcodes
  import opened MachineState
  import AluSpec

  /** The largest code point Python's `chr` accepts. */
  const MAX_CODE_POINT: int := 0x10FFFF

  /** The instruction byte at the program counter. */
  function Fetch(s: State): int
    requires WellFormed(s) && 0 <= s.pc < RAM_SIZE
  {
    s.ram[s.pc]
  }

  /**
   Whether the instruction at the program counter executes without leaving the
   model: every memory cell and register it reads or writes exists, a shift
   count is not negative and a PRA argument is a code point. Outside these,
   Python would raise an exception or (for a negative index) address a list
   from its end; neither is modelled, and the run stops with a fault instead.
   The loop always reads the two bytes after the opcode, so the opcode may not
   sit in either of the last two cells.
   */
  predicate CanStep(s: State)
    requires WellFormed(s)
  {
    && 0 <= s.pc && s.pc + 2 < RAM_SIZE
    && var a, b := s.ram[s.pc + 1], s.ram[s.pc + 2];
    match Decode(Fetch(s))
    case Ldi => IsReg(a)
    case Prn => IsReg(a)
    case Pra => IsReg(a) && 0 <= s.reg[a] <= MAX_CODE_POINT
    case Push => IsReg(a) && IsAddr(s.reg[SP] - 1)
    case Pop => IsReg(a) && IsAddr(s.reg[SP])
    case Call => IsReg(a) && IsAddr(s.reg[SP] - 1)
    case Ret => IsAddr(s.reg[SP])
    case St => IsReg(a) && IsReg(b) && IsAddr(s.reg[a])
    case Jmp => IsReg(a)
    case Jeq => s.fl == FL_EQUAL ==> IsReg(a)
    case Jne => s.fl != FL_EQUAL ==> IsReg(a)
    case Shl => IsReg(a) && IsReg(b) && s.reg[b] >= 0
    case Shr => IsReg(a) && IsReg(b) && s.reg[b] >= 0
    case Mul => IsReg(a) && IsReg(b)
    case Cmp => IsReg(a) && IsReg(b)
    case And => IsReg(a) && IsReg(b)
    case Or => IsReg(a) && IsReg(b)
    case Xor => IsReg(a) && IsReg(b)
    case Not => IsReg(a) && IsReg(b)
    // A zero divisor halts before register a is read.
    case Mod => IsReg(b) && (s.reg[b] != 0 ==> IsReg(a))
    case Hlt => true
    case NoBranch => true
  }

  /**
   The branch of the dispatch chain for instruction byte class `br`, with
   operand bytes `a` and `b`. Returns the machine after the branch and the
   number then added to the program counter: the instruction width, or 0 when
   the branch set the program counter itself.
   */
  function Dispatch(br: Branch, a: int, b: int, width: int, s: State): (r: (State, int))
    requires WellFormed(s) && 0 <= s.pc && s.pc + 2 < RAM_SIZE
    requires br == Decode(Fetch(s)) && a == s.ram[s.pc + 1] && b == s.ram[s.pc + 2]
    requires CanStep(s)
    ensures WellFormed(r.0)
  {
    match br
    case Ldi => (s.(reg := s.reg[a := b]), width)
    case Prn => (s.(out := s.out + [Number(s.reg[a])]), width)
    case Pra => (s.(out := s.out + [Character(s.reg[a])]), width)
    case Mul => (AluSpec.Apply(AluSpec.Mul, a, b, s), width)
    case Push =>
      var t := AluSpec.Apply(AluSpec.Dec, SP, 0, s);
      (t.(ram := t.ram[t.reg[SP] := t.reg[a]]), width)
    case Pop =>
      var t := s.(reg := s.reg[a := s.ram[s.reg[SP]]]);
      (AluSpec.Apply(AluSpec.Inc, SP, 0, t), width)
    case Call =>
      var t := AluSpec.Apply(AluSpec.Dec, SP, 0, s);
      var u := t.(ram := t.ram[t.reg[SP] := s.pc + 2]);
      (u.(pc := u.reg[a]), 0)
    case Ret =>
      var t := s.(pc := s.ram[s.reg[SP]]);
      (AluSpec.Apply(AluSpec.Inc, SP, 0, t), 0)
    case St => (s.(ram := s.ram[s.reg[a] := s.reg[b]]), width)
    case Jmp => (s.(pc := s.reg[a]), 0)
    case Cmp => (AluSpec.Apply(AluSpec.Cmp, a, b, s), width)
    case Jeq => if s.fl == FL_EQUAL then (s.(pc := s.reg[a]), 0) else (s, width)
    case Jne => if s.fl != FL_EQUAL then (s.(pc := s.reg[a]), 0) else (s, width)
    case And => (AluSpec.Apply(AluSpec.And, a, b, s), width)
    case Or => (AluSpec.Apply(AluSpec.Or, a, b, s), width)
    case Xor => (AluSpec.Apply(AluSpec.Xor, a, b, s), width)
    case Not => (AluSpec.Apply(AluSpec.Not, a, b, s), width)
    case Shl => (AluSpec.Apply(AluSpec.Shl, a, b, s), width)
    case Shr => (AluSpec.Apply(AluSpec.Shr, a, b, s), width)
    case Mod =>
      if s.reg[b] == 0 then (s.(running := false), width)
      else (AluSpec.Apply(AluSpec.Mod, a, b, s), width)
    case Hlt => (s.(running := false), width)
    case NoBranch => (s, width)
  }

  /**
   One iteration of the run loop: fetch the instruction byte, compute its width,
   read the two operand bytes, run the selected branch and add what it leaves
   (the width, unless the branch jumped) to the program counter.
   */
  function Step(s: State): (t: State)
    requires WellFormed(s) && CanStep(s)
    ensures WellFormed(t)
  {
    var ir := Fetch(s);
    var r := Dispatch(Decode(ir), s.ram[s.pc + 1], s.ram[s.pc + 2], Width(ir), s);
    r.0.(pc := r.0.pc + r.1)
  }

  /** `Step` in terms of the outcome of the branch it dispatches to. */
  lemma StepByDispatch(s: State, after: (State, int))
    requires WellFormed(s) && CanStep(s)
    requires after == Dispatch(Decode(Fetch(s)), s.ram[s.pc + 1], s.ram[s.pc + 2], Width(Fetch(s)), s)
    ensures Step(s) == after.0.(pc := after.0.pc + after.1)
  {
  }

  /** How a bounded run ends. */
  datatype Status =
    | Halted     // `running` became false: HLT, or MOD by zero
    | OutOfFuel  // still running after the allowed number of steps
    | Fault      // the next instruction cannot take a step (see CanStep)

  /**
   The loop `while running: step`, cut off after `fuel` steps. Returns the
   final state and how the run ended.
   */
  function Run(s: State, fuel: nat): (r: (State, Status))
    requires WellFormed(s)
    ensures WellFormed(r.0)
    decreases fuel
  {
    if !s.running then (s, Halted)
    else if fuel == 0 then (s, OutOfFuel)
    else if !CanStep(s) then (s, Fault)
    else Run(Step(s), fuel - 1)
  }

  /** One more iteration of the loop, for a running machine that can take a step. */
  lemma RunUnfold(s: State, fuel: nat)
    requires WellFormed(s) && s.running && fuel > 0 && CanStep(s)
    ensures Run(s, fuel) == Run(Step(s), fuel - 1)
  {
  }
}

/**
 Whole programs run on a new machine: what they print and how they end.
 */
module Programs {
  import opened Opcodes
  import opened MachineState
  import opened Execute
  import StepLaws

  /** Memory after loading `program` from address 0 into a new machine. */
  function Image(program: seq<int>): (ram: seq<int>)
    requires |program| <= RAM_SIZE
    ensures |ram| == RAM_SIZE && ram[..|program|] == program
    ensures forall i :: |program| <= i < RAM_SIZE ==> ram[i] == 0
  {
    program + seq(RAM_SIZE - |program|, _ => 0)
  }

  /** A new machine with `program` loaded, as `run` starts it. */
  function Boot(program: seq<int>): (s: State)
    requires |program| <= RAM_SIZE
    ensures WellFormed(s)
  {
    Initial().(ram := Image(program), running := true)
  }

  /** LDI r, v as one iteration of the loop, returning the state it reaches. */
  lemma RunLdi(s: State, r: int, fuel: nat) returns (t: State)
    requires WellFormed(s) && s.running && fuel > 0 && StepLaws.At(s, LDI, r) && IsReg(r)
    ensures WellFormed(t) && t.running && t.pc == s.pc + 3
    ensures Run(s, fuel) == Run(t, fuel - 1)
    ensures t.ram == s.ram && t.reg == s.reg[r := s.ram[s.pc + 2]] && t.out == s.out
  {
    t := s.(reg := s.reg[r := s.ram[s.pc + 2]], pc := s.pc + 3);
    StepLaws.LdiEffect(s, r);
    RunUnfold(s, fuel);
  }

  /** PRN R0; HLT at address `at` prints R0 and halts. */
  lemma PrintThenHalt(s: State, at: int, fuel: nat)
    requires WellFormed(s) && s.running && 0 <= at && at + 4 < RAM_SIZE && fuel >= 2
    requires s.pc == at && s.ram[at] == PRN && s.ram[at + 1] == 0 && s.ram[at + 2] == HLT
    ensures var (t, status) := Run(s, fuel);
      status == Halted && t.out == s.out + [Number(s.reg[0])] && t.reg == s.reg && t.pc == at + 3
  {
    StepLaws.PrintEffect(s, 0);
    var t := Step(s);
    StepLaws.HltEffect(t);
    RunUnfold(s, fuel);
    RunUnfold(t, fuel - 1);
  }

  /** A byte without a branch at address 3, then PRN R0; HLT. */
  lemma SkipThenPrint(s: State, fuel: nat)
    requires WellFormed(s) && s.running && s.pc == 3 && fuel >= 3
    requires s.ram[3] !in Handled && s.ram[3] / 64 == 2 && s.ram[6] == PRN && s.ram[7] == 0 && s.ram[8] == HLT
    ensures var (t, status) := Run(s, fuel);
      status == Halted && t.out == s.out + [Number(s.reg[0])] && t.reg == s.reg
  {
    StepLaws.NoBranchOnlyAdvances(s);
    RunUnfold(s, fuel);
    PrintThenHalt(s.(pc := 6), 6, fuel - 1);
  }

  /** MUL R0,R0 at address 3, then PRN R0; HLT. */
  lemma SquareThenPrint(s: State, fuel: nat)
    requires WellFormed(s) && s.running && s.pc == 3 && fuel >= 3
    requires s.ram[3] == MUL && s.ram[4] == 0 && s.ram[5] == 0 && s.ram[6] == PRN && s.ram[7] == 0 && s.ram[8] == HLT
    ensures var (t, status) := Run(s, fuel);
      status == Halted && t.out == s.out + [Number(s.reg[0] * s.reg[0])]
  {
    StepLaws.MulEffect(s, 0);
    RunUnfold(s, fuel);
    PrintThenHalt(s.(reg := s.reg[0 := s.reg[0] * s.reg[0]], pc := 6), 6, fuel - 1);
  }

  /** NOT R0 at address 3, then HLT. */
  lemma NotThenHalt(s: State, fuel: nat)
    requires WellFormed(s) && s.running && s.pc == 3 && fuel >= 2
    requires s.ram[3] == NOT && s.ram[4] == 0 && s.ram[5] == HLT
    ensures var (t, status) := Run(s, fuel);
      status == Halted && t.reg[0] == PyInt.Invert(s.reg[HLT]) && t.pc == 6
  {
    StepLaws.NotEffect(s, 0, 0);
    var t := s.(reg := s.reg[0 := PyInt.Invert(s.reg[HLT])], pc := 5);
    RunUnfold(s, fuel);
    StepLaws.HltEffect(t);
    RunUnfold(t, fuel - 1);
  }

  /** LDI R0,8; ADD R0,R0; PRN R0; HLT */
  const ADD_PROGRAM: seq<int> := [LDI, 0, 8, ADD, 0, 0, PRN, 0, HLT]

  /**
   The run loop has no ADD branch, so ADD R0,R0 only advances the program
   counter: the program prints 8, not 16, and halts after four steps.
   */
  lemma AddProgramPrintsEight()
    ensures var (t, status) := Run(Boot(ADD_PROGRAM), 4);
      status == Halted && t.out == [Number(8)] && t.reg[0] == 8
  {
    var s := Boot(ADD_PROGRAM);
    assert s.ram[..|ADD_PROGRAM|] == ADD_PROGRAM;
    var t := RunLdi(s, 0, 4);
    SkipThenPrint(t, 3);
  }

  /** LDI R0,8; MUL R0,R0; PRN R0; HLT */
  const MUL_PROGRAM: seq<int> := [LDI, 0, 8, MUL, 0, 0, PRN, 0, HLT]

  /** With MUL, which has a branch, the program prints 64 and halts. */
  lemma MulProgramPrintsProduct()
    ensures var (t, status) := Run(Boot(MUL_PROGRAM), 4);
      status == Halted && t.out == [Number(64)]
  {
    var s := Boot(MUL_PROGRAM);
    assert s.ram[..|MUL_PROGRAM|] == MUL_PROGRAM;
    var t := RunLdi(s, 0, 4);
    SquareThenPrint(t, 3);
  }

  /** LDI R0,6; MOD R0,R1; PRN R0; HLT, with R1 zero as on a new machine */
  const MOD_ZERO_PROGRAM: seq<int> := [LDI, 0, 6, MOD, 0, 1, PRN, 0, HLT]

  /**
   MOD by a zero register halts the machine at once: nothing is printed,
   register 0 keeps 6, and the program counter has moved past the MOD.
   */
  lemma ModByZeroHalts()
    ensures var (t, status) := Run(Boot(MOD_ZERO_PROGRAM), 10);
      status == Halted && t.out == [] && t.reg[0] == 6 && t.pc == 6
  {
    var s := Boot(MOD_ZERO_PROGRAM);
    assert s.ram[..|MOD_ZERO_PROGRAM|] == MOD_ZERO_PROGRAM;
    var t := RunLdi(s, 0, 10);
    StepLaws.ModEffect(t, 0);
    RunUnfold(t, 9);
  }

  /** LDI R0,5; NOT R0; HLT */
  const NOT_PROGRAM: seq<int> := [LDI, 0, 5, NOT, 0, HLT]

  /**
   NOT R0 complements the register named by the byte after it, here the HLT
   opcode 1, so R0 becomes ~R1 = -1 rather than ~5 = -6.
   */
  lemma NotReadsFollowingByte()
    ensures var (t, status) := Run(Boot(NOT_PROGRAM), 3);
      status == Halted && t.reg[0] == -1 && t.pc == 6
  {
    var s := Boot(NOT_PROGRAM);
    assert s.ram[..|NOT_PROGRAM|] == NOT_PROGRAM;
    var t := RunLdi(s, 0, 3);
    NotThenHalt(t, 2);
  }

  /** MOD R8,R1 (register 8 does not exist), with R1 zero as on a new machine */
  const MOD_ZERO_BAD_REGISTER: seq<int> := [MOD, 8, 1]

  /**
   With a zero divisor the MOD branch halts without reading register a, so an
   instruction naming a register that does not exist still halts normally,
   with the program counter past it.
   */
  lemma ModByZeroIgnoresFirstOperand()
    ensures var (t, status) := Run(Boot(MOD_ZERO_BAD_REGISTER), 1);
      status == Halted && t.pc == 3 && t.reg == Initial().reg
  {
    var s := Boot(MOD_ZERO_BAD_REGISTER);
    assert s.ram[0] == MOD && s.ram[1] == 8 && s.ram[2] == 1;
    StepLaws.ModEffect(s, 8);
    RunUnfold(s, 1);
  }
}

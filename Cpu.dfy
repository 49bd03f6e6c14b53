/**
 The emulator object: memory and registers are arrays updated in place, and the
 program counter, flags, running flag and printed output are fields. Every
 method is specified against the state functions of modules AluSpec and
 Execute through `Snapshot`.
 */
module Cpu {
  import opened PyInt
  import opened Opcodes
  import opened MachineState
  import AluSpec
  import Execute
  import Loader

  /** How `load` ends: normally, at a line `int(_, 2)` rejects, or past the last cell. */
  datatype LoadStatus = Loaded | ValueError(line: nat) | IndexError

  class CPU {
    const ram: array<int>
    const reg: array<int>
    var pc: int
    var fl: int
    var running: bool
    /** What PRN and PRA have written to standard output, in order. */
    var out: seq<Emit>

    ghost predicate Valid()
      reads this
    {
      ram.Length == RAM_SIZE && reg.Length == REG_COUNT && ram != reg
    }

    /** The machine state held by this object. */
    function Snapshot(): (s: State)
      reads this, ram, reg
      ensures Valid() ==> WellFormed(s)
    {
      State(ram[..], reg[..], pc, fl, running, out)
    }

    constructor ()
      ensures Valid() && fresh(ram) && fresh(reg)
      ensures Snapshot() == Initial()
    {
      pc := 0;
      fl := 0;
      ram := new int[RAM_SIZE](_ => 0);
      reg := new int[REG_COUNT](_ => 0);
      running := false;
      out := [];
      new;
      reg[SP] := INITIAL_SP;
    }

    method RamRead(index: int) returns (value: int)
      requires Valid() && IsAddr(index)
      ensures value == ram[index]
    {
      value := ram[index];
    }

    /** Stores `value` at `addr`; note the value comes first. */
    method RamWrite(value: int, addr: int)
      requires Valid() && IsAddr(addr)
      modifies ram
      ensures Valid()
      ensures ram[..] == old(ram[..])[addr := value]
    {
      ram[addr] := value;
    }

    /**
     Writes the parsed program lines to memory from address 0 on. Python stops
     at the first line `int(_, 2)` rejects, or with an index error at the 257th
     line; the cells written before that keep their new values.
     */
    method Load(lines: seq<string>, parse: string -> Loader.Option<int>) returns (status: LoadStatus)
      requires Valid()
      modifies ram
      ensures Valid()
      ensures
        var program := Loader.Program(lines);
        var k := Loader.ParsedPrefix(program, parse);
        var n := if k < RAM_SIZE then k else RAM_SIZE;
        && (forall i :: 0 <= i < n ==> ram[i] == parse(program[i]).value)
        && (forall i :: n <= i < RAM_SIZE ==> ram[i] == old(ram[i]))
        && status == (if n == |program| then Loaded else if n == k then ValueError(n) else IndexError)
    {
      var program := Loader.Program(lines);
      var address := 0;
      while address < |program|
        invariant 0 <= address <= |program| && address <= RAM_SIZE
        invariant forall i :: 0 <= i < address ==> parse(program[i]).Some? && ram[i] == parse(program[i]).value
        invariant forall i :: address <= i < RAM_SIZE ==> ram[i] == old(ram[i])
      {
        var instruction := parse(program[address]);
        if instruction.None? {
          return ValueError(address);
        }
        if address >= RAM_SIZE {
          return IndexError;
        }
        ram[address] := instruction.value;
        address := address + 1;
      }
      return Loaded;
    }

    /**
     Performs ALU operation `op` on registers `a` and `b`; `b` is not read by
     INC and DEC.
     */
    method Alu(op: AluSpec.Op, a: int, b: int)
      requires Valid() && AluSpec.Defined(op, a, b, Snapshot())
      modifies reg, this`fl
      ensures Valid()
      ensures Snapshot() == AluSpec.Apply(op, a, b, old(Snapshot()))
    {
      match op
      case Add => reg[a] := reg[a] + reg[b];
      case Sub => reg[a] := reg[a] - reg[b];
      case Mul => reg[a] := reg[a] * reg[b];
      case Inc => reg[a] := reg[a] + 1;
      case Dec => reg[a] := reg[a] - 1;
      case Cmp =>
        var x, y := reg[a], reg[b];
        // `alu`'s final `else` (flags 0) cannot be reached by integers.
        if x == y {
          fl := FL_EQUAL;
        } else if x < y {
          fl := FL_LESS;
        } else {
          fl := FL_GREATER;
        }
      case And => reg[a] := BitAnd(reg[a], reg[b]);
      case Or => reg[a] := BitOr(reg[a], reg[b]);
      case Xor => reg[a] := BitXor(reg[a], reg[b]);
      case Not => reg[a] := Invert(reg[b]);
      case Shl => reg[a] := ShiftLeft(reg[a], reg[b]);
      case Shr => reg[a] := ShiftRight(reg[a], reg[b]);
      case Mod => reg[a] := reg[a] - FloorDiv(reg[a], reg[b]) * reg[b];
    }

    /** The precondition of one branch of the dispatch chain, on this machine. */
    ghost predicate BranchReady(branch: Branch, operandA: int, operandB: int)
      reads this, ram, reg
      requires Valid()
    {
      var s := Snapshot();
      && 0 <= s.pc && s.pc + 2 < RAM_SIZE
      && branch == Decode(Execute.Fetch(s))
      && operandA == s.ram[s.pc + 1] && operandB == s.ram[s.pc + 2]
      && Execute.CanStep(s)
    }

    /** One iteration of the run loop. */
    method Step()
      requires Valid() && Execute.CanStep(Snapshot())
      modifies this, ram, reg
      ensures Valid()
      ensures Snapshot() == Execute.Step(old(Snapshot()))
    {
      var ir := RamRead(pc);
      var width := Width(ir);
      var operandA := RamRead(pc + 1);
      var operandB := RamRead(pc + 2);
      var branch := Decode(ir);
      // The if-chain of `run` is split into three methods only to keep each proof small.
      if branch.Push? || branch.Pop? || branch.Call? || branch.Ret? {
        StackBranch(branch, operandA, operandB, width);
      } else if branch.Mul? || branch.Cmp? || branch.And? || branch.Or? || branch.Xor?
             || branch.Not? || branch.Shl? || branch.Shr? || branch.Mod? {
        AluBranch(branch, operandA, operandB, width);
      } else {
        OtherBranch(branch, operandA, operandB, width);
      }
    }

    /** The name a branch of the run loop passes to `alu`. */
    static function AluOpOf(branch: Branch): AluSpec.Op
      requires branch.Mul? || branch.Cmp? || branch.And? || branch.Or? || branch.Xor?
            || branch.Not? || branch.Shl? || branch.Shr? || branch.Mod?
    {
      match branch
      case Mul => AluSpec.Mul
      case Cmp => AluSpec.Cmp
      case And => AluSpec.And
      case Or => AluSpec.Or
      case Xor => AluSpec.Xor
      case Not => AluSpec.Not
      case Shl => AluSpec.Shl
      case Shr => AluSpec.Shr
      case Mod => AluSpec.Mod
    }

    /** The PUSH, POP, CALL and RET branches. */
    method StackBranch(branch: Branch, operandA: int, operandB: int, width: int)
      requires Valid() && BranchReady(branch, operandA, operandB) && width == Width(Execute.Fetch(Snapshot()))
      requires branch.Push? || branch.Pop? || branch.Call? || branch.Ret?
      modifies this, ram, reg
      ensures Valid()
      ensures Snapshot() == Execute.Step(old(Snapshot()))
    {
      ghost var before := Snapshot();
      ghost var after := Execute.Dispatch(branch, operandA, operandB, width, before);
      var advance := width;
      match branch {
      case Push =>
        Alu(AluSpec.Dec, SP, 0);
        RamWrite(reg[operandA], reg[SP]);
      case Pop =>
        var value := RamRead(reg[SP]);
        reg[operandA] := value;
        Alu(AluSpec.Inc, SP, 0);
      case Call =>
        Alu(AluSpec.Dec, SP, 0);
        RamWrite(pc + 2, reg[SP]);
        pc := reg[operandA];
        advance := 0;
      case Ret =>
        pc := RamRead(reg[SP]);
        Alu(AluSpec.Inc, SP, 0);
        advance := 0;
      }
      assert (Snapshot(), advance) == after;
      Execute.StepByDispatch(before, after);
      pc := pc + advance;
    }

    /**
     The branches that hand their operands to the ALU; MOD halts instead on a
     zero divisor. None of them sets the program counter, so the advance is
     always the width.
     */
    method AluBranch(branch: Branch, operandA: int, operandB: int, width: int)
      requires Valid() && BranchReady(branch, operandA, operandB) && width == Width(Execute.Fetch(Snapshot()))
      requires branch.Mul? || branch.Cmp? || branch.And? || branch.Or? || branch.Xor?
            || branch.Not? || branch.Shl? || branch.Shr? || branch.Mod?
      modifies this, reg
      ensures Valid()
      ensures Snapshot() == Execute.Step(old(Snapshot()))
    {
      ghost var before := Snapshot();
      ghost var after := Execute.Dispatch(branch, operandA, operandB, width, before);
      var advance := width;
      if branch.Mod? && reg[operandB] == 0 {
        running := false;
      } else {
        Alu(AluOpOf(branch), operandA, operandB);
      }
      assert (Snapshot(), advance) == after;
      Execute.StepByDispatch(before, after);
      pc := pc + advance;
    }

    /** The remaining branches: LDI, PRN, PRA, ST, the jumps, HLT and the fall-through. */
    method OtherBranch(branch: Branch, operandA: int, operandB: int, width: int)
      requires Valid() && BranchReady(branch, operandA, operandB) && width == Width(Execute.Fetch(Snapshot()))
      requires !(branch.Push? || branch.Pop? || branch.Call? || branch.Ret?)
      requires !(branch.Mul? || branch.Cmp? || branch.And? || branch.Or? || branch.Xor?
                 || branch.Not? || branch.Shl? || branch.Shr? || branch.Mod?)
      modifies this, ram, reg
      ensures Valid()
      ensures Snapshot() == Execute.Step(old(Snapshot()))
    {
      ghost var before := Snapshot();
      ghost var after := Execute.Dispatch(branch, operandA, operandB, width, before);
      var advance := width;
      match branch {
      case Ldi =>
        reg[operandA] := operandB;
      case Prn =>
        out := out + [Number(reg[operandA])];
      case Pra =>
        out := out + [Character(reg[operandA])];
      case St =>
        RamWrite(reg[operandB], reg[operandA]);
      case Jmp =>
        pc := reg[operandA];
        advance := 0;
      case Jeq =>
        if fl == FL_EQUAL {
          pc := reg[operandA];
          advance := 0;
        }
      case Jne =>
        if fl != FL_EQUAL {
          pc := reg[operandA];
          advance := 0;
        }
      case Hlt =>
        running := false;
      case NoBranch =>
      }
      assert (Snapshot(), advance) == after;
      Execute.StepByDispatch(before, after);
      pc := pc + advance;
    }

    /**
     `run`: sets the machine running and steps it until it halts, for at most
     `fuel` steps, or until the next instruction cannot take a step.
     */
    method RunFor(fuel: nat) returns (status: Execute.Status)
      requires Valid()
      modifies this, ram, reg
      ensures Valid()
      ensures (Snapshot(), status) == Execute.Run(old(Snapshot()).(running := true), fuel)
    {
      running := true;
      var remaining := fuel;
      while running && remaining > 0 && Execute.CanStep(Snapshot())
        invariant Valid()
        invariant Execute.Run(Snapshot(), remaining) == Execute.Run(old(Snapshot()).(running := true), fuel)
        decreases remaining
      {
        ghost var before := Snapshot();
        Step();
        Execute.RunUnfold(before, remaining);
        remaining := remaining - 1;
      }
      status := if !running then Execute.Halted else if remaining == 0 then Execute.OutOfFuel else Execute.Fault;
    }
  }
}

# LS-8 emulator core in Dafny

A model of the LS-8 emulator's `CPU` class (`cpu.py`): a machine with 256
memory cells, 8 registers (register 7 is the stack pointer, starting at 0xF4),
a program counter, a flags register and a running flag. The model covers
construction, the memory accessors, loading a program image, the ALU and the
fetch-decode-execute loop of `run`, and proves what each instruction does.

The object itself is `Cpu.CPU`: memory and registers are `array<int>`s updated
in place, the other state is fields. Each method is specified against a pure
function on a `MachineState.State` value, taken of the object by `Snapshot()`:

- `AluSpec.Apply` is the ALU (`alu`), one case per operation name of the
  closed operation set `AluSpec.Op`;
- `Execute.Step` is one iteration of the `while self.running` loop: fetch the
  instruction byte, compute the width `(IR >> 6) + 1`, read the two bytes after
  it, run the branch of the dispatch chain (`Execute.Dispatch`, selected by
  `Opcodes.Decode`) and add what it leaves (the width, or 0 after a jump) to the
  program counter;
- `Execute.Run` is the loop cut off after `fuel` steps.

What the code does, as modelled (not an idealised LS-8):

- Values are unbounded integers. Nothing truncates to eight bits: MUL can grow
  past 255 and NOT (`~x`, that is `-x - 1`) is negative for every byte.
- Python's `//`, `%`-style floor modulo, `<<`, `>>`, `&`, `|`, `^` and `~`
  are written out in module `PyInt` on unbounded integers (two's complement by
  floor halving); lemmas tie each bitwise function to a bit-by-bit reference
  (`Bit`), the shifts to multiplication and floor division by powers of two,
  and floor modulo to its unique quotient/remainder characterisation.
- The dispatch chain tests 21 opcodes. ADD, SUB, DIV, LD, INC, DEC, NOP, INT,
  IRET, JGE, JGT, JLE and JLT are defined but have no branch; they, like every
  undefined byte, only advance the program counter.
- MOD with a zero divisor register stops the machine but the program counter
  still advances by 3.
- PUSH and CALL first decrement register 7; PUSH 7 therefore pushes the
  decremented pointer and CALL 7 jumps to it. POP 7 loads the top cell into
  register 7 and then increments it.
- JEQ/JNE compare the whole flags register with 1; a JEQ or JNE that does not
  jump never reads its register operand.
- NOT is encoded as a two-byte instruction (0x69), but its branch passes
  `operand_b`, the byte after the instruction, as the source register: it
  complements the register named by the next instruction's first byte
  (`StepLaws.NotEffect`, `Programs.NotReadsFollowingByte`).

Nothing in the code wraps values modulo 256, an undefined opcode byte only
advances the program counter, and ADD, SUB and LD have no branch in the run
loop: `LDI R0,8; ADD R0,R0; PRN R0; HLT` prints 8
(`Programs.AddProgramPrintsEight`).

Errors. Python's `IndexError` (memory index outside 0..255, register index
outside 0..7), the `ValueError` of a negative shift count or of `chr` outside
0..0x10FFFF, and Python's negative indexing from the end of a list are all
outside the model: `Execute.CanStep` says when the next instruction stays
inside it, `Cpu.CPU.Step` requires it, and `Cpu.CPU.RunFor` stops with
`Fault` before an instruction that would not. A MOD divisor of zero is not an
error: the run loop tests for it before calling the ALU, and before reading
the first register, which therefore need not exist
(`Programs.ModByZeroIgnoresFirstOperand`). Exceptions that `print` itself can
raise are not covered by `Execute.CanStep` (see "Left out").

Loading takes the lines of the program file as a sequence of strings, and
Python's `int(text, 2)` as a parameter `parse` that returns `None` where
`int` raises `ValueError`. `Cpu.CPU.Load` stops like the Python loop: at the
first rejected line, or with an index error at the 257th kept line, keeping
the cells already written.

Printing is modelled by the field `out`: PRN appends `Number(value)`, PRA
appends `Character(code)`.

## Model

| member | source | states |
|---|---|---|
| `PyInt.FloorDiv` | cpu.py:118 | `a // b` is the quotient rounded toward negative infinity: `q*b <= a < q*b + b` for a positive divisor, `q*b + b < a <= q*b` for a negative one |
| `PyInt.FloorMod` | cpu.py:118 | `a - (a // b) * b` lies in `[0, b)` for a positive divisor and in `(b, 0]` for a negative one, and equals Euclidean `a % b` when the divisor is positive |
| `PyInt.FloorDivModUnique` | cpu.py:118 | any `q`, `r` with `a == q*b + r` and `r` on the divisor's side of zero, smaller than it in magnitude, are exactly the floor quotient and floor modulo |
| `PyInt.ShiftLeft` | cpu.py:114 | `x << n` equals `x * 2^n` |
| `PyInt.ShiftRight` | cpu.py:116 | `x >> n` is the floor of `x / 2^n`: `r * 2^n <= x < r * 2^n + 2^n` |
| `PyInt.ShiftRightShiftLeft` | cpu.py:113-116 | shifting left and then right by the same count gives the value back |
| `PyInt.BitAndBits` | cpu.py:106 | every bit of `x & y` is the conjunction of the same bits of `x` and `y` (negative values included) |
| `PyInt.BitOrBits` | cpu.py:108 | every bit of `x \| y` is the disjunction of the same bits |
| `PyInt.BitXorBits` | cpu.py:110 | every bit of `x ^ y` is set exactly when the same bits of `x` and `y` differ |
| `PyInt.InvertBits` | cpu.py:112 | every bit of `~x` is the negation of the same bit of `x` |
| `PyInt.BitwiseInRange` | cpu.py:105-110 | `&`, `\|` and `^` of two values in `[0, 2^k)` stay in `[0, 2^k)`, so on bytes they need no truncation |
| `PyInt.InvertOfNonNegative` | cpu.py:112 | `~x` of a value in `[0, 2^k)` lies in `[-2^k, 0)`: NOT of a byte always leaves the byte range |
| `Opcodes.Decode` | cpu.py:153-212 | the dispatch chain selects a branch exactly for the 21 opcodes it tests, and the branch selected is the one whose opcode equals the byte |
| `Opcodes.DecodeOpcodeOf` | cpu.py:153-209 | each branch is selected by its own opcode |
| `Opcodes.UnhandledFallThrough` | cpu.py:6-44 | ADD, SUB, DIV, LD, INC, DEC, NOP, INT, IRET, JGE, JGT, JLE and JLT select no branch |
| `Opcodes.Width` | cpu.py:150 | `(IR >> 6) + 1` of a byte is between 1 and 4 and equals the byte's top two bits plus one |
| `MachineState.Initial` | cpu.py:49-57 | a new machine has 256 zero cells, registers all 0 but register 7 = 0xF4, `pc == 0`, `fl == 0`, not running, nothing printed |
| `AluSpec.CompareFlags` | cpu.py:93-104 | CMP sets the flags to exactly one of 1 (equal), 4 (less) and 2 (greater), each exactly when its relation holds |
| `AluSpec.Apply` | cpu.py:80-122 | an ALU operation changes no memory, program counter, running flag or output; CMP changes only the flags; every other operation changes only register `a` |
| `AluSpec.Defined` | cpu.py:83-118 | when `alu` completes on registers `a` and `b`: both registers exist (`b` only where it is read, so not for INC and DEC), a shift count is not negative (Python raises `ValueError`), and a MOD divisor is not zero (Python raises `ZeroDivisionError`) |
| `AluSpec.Result` | cpu.py:83-118 | the value left in register `a`: NOT gives `-y - 1`, SHL `x * 2^y`, SHR the floor of `x / 2^y`, MOD a remainder on the divisor's side of zero that equals Euclidean `x % y` for a positive divisor |
| `Execute.CanStep` | cpu.py:149-207 | when the next iteration of the loop completes without an exception: the opcode and both operand bytes lie in memory, every register the selected branch reads or writes exists, every stack or ST address lies in memory, a shift count is not negative and a PRA argument is a code point; JEQ/JNE need their register only when they jump, and MOD its first register only when the divisor is not zero |
| `Execute.Dispatch` | cpu.py:153-210 | the branches of the dispatch chain as a function of the state (well-formedness is kept; what each branch does is stated by the `StepLaws` lemmas) |
| `Execute.Step` | cpu.py:149-212 | one loop iteration as a function of the state (well-formedness is kept; its effect is stated by the `StepLaws` lemmas) |
| `Execute.Run` | cpu.py:146-147 | the loop as a function of the state and a step bound (well-formedness is kept; see `StepLaws.RunOutcome`) |
| `Loader.StripComment` | cpu.py:72 | `line.split("#")[0]` is the prefix of the line up to, and not including, its first `#` (the whole line when there is none) |
| `Loader.Program` | cpu.py:72 | the kept lines are at most as many as the lines, each non-empty and free of `#` |
| `Loader.ProgramSingle` | cpu.py:72 | a line is kept, stripped, exactly when its text before `#` is not empty |
| `Loader.ProgramAppend` | cpu.py:72 | the kept lines of two stretches of text are the kept lines of each, in order |
| `Loader.ParsedPrefix` | cpu.py:74-75 | the number of leading kept lines `int(_, 2)` accepts: all before it parse, the one at it does not |
| `Cpu.CPU.constructor` | cpu.py:49-57 | a new CPU has fresh memory and registers and its state is `Initial()` |
| `Cpu.CPU.RamRead` | cpu.py:59-60 | returns the cell at the index |
| `Cpu.CPU.RamWrite` | cpu.py:62-63 | takes the value first, then the address; memory afterwards is the old memory with only that cell replaced |
| `Cpu.CPU.Load` | cpu.py:65-76 | cell i holds the parsed i-th kept line for every i before the stopping point, every later cell is unchanged, and the status is `Loaded`, `ValueError` at the first rejected line, or `IndexError` when a 257th line parses |
| `Cpu.CPU.Alu` | cpu.py:80-122 | the object's new state is `AluSpec.Apply` of its old state |
| `Cpu.CPU.Step` | cpu.py:149-212 | the object's new state is `Execute.Step` of its old state |
| `Cpu.CPU.StackBranch` | cpu.py:161-175 | PUSH, POP, CALL and RET as `Execute.Dispatch` says, then the advance (0 after CALL and RET) added to `pc`: the object's new state is `Execute.Step` of its old state |
| `Cpu.CPU.AluBranch` | cpu.py:191-207 | the branches that call the ALU (MUL, CMP, AND, OR, XOR, NOT, SHL, SHR, MOD) as `Execute.Dispatch` says, then `pc` advanced by the width: the object's new state is `Execute.Step` of its old state |
| `Cpu.CPU.OtherBranch` | cpu.py:153-190 | LDI, PRN, PRA, ST, JMP, JEQ, JNE, HLT and the fall-through as `Execute.Dispatch` says, then the advance (0 after a jump taken) added to `pc`: the object's new state is `Execute.Step` of its old state |
| `Cpu.CPU.RunFor` | cpu.py:144-212 | `run` bounded by `fuel`: sets the machine running and ends in the state and status `Execute.Run` gives |
| `StepLaws.StepAdvancesByWidth` | cpu.py:150-212 | an instruction that takes no jump, call or return advances `pc` by exactly `(IR >> 6) + 1`, between 1 and 4 for a byte |
| `StepLaws.NoBranchOnlyAdvances` | cpu.py:153-212 | a byte with no branch changes nothing but `pc`, which advances by its width |
| `StepLaws.HltEffect` | cpu.py:208-212 | HLT clears `running`, advances `pc` by 1 and changes nothing else |
| `StepLaws.LdiEffect` | cpu.py:153-154 | LDI r, v sets register r to v and advances `pc` by 3, nothing else |
| `StepLaws.PrintEffect` | cpu.py:155-158 | PRN and PRA append register r's value to the output and advance `pc` by 2, nothing else |
| `StepLaws.StEffect` | cpu.py:176-177 | ST a, b changes only the cell at the address in register a, setting it to register b's value |
| `StepLaws.PushEffect` | cpu.py:161-163 | PUSH r decrements register 7 and writes only the new top cell, with register r's value read after the decrement |
| `StepLaws.PopEffect` | cpu.py:164-166 | POP r loads the top cell into register r and then increments register 7 |
| `StepLaws.PushPopRoundTrip` | cpu.py:161-166 | PUSH r followed directly by POP r restores the whole register file, stack pointer included, and advances `pc` by 4 |
| `StepLaws.CallEffect` | cpu.py:167-171 | CALL r at A decrements register 7, stores A + 2 at the new top cell and jumps to register r read after the decrement |
| `StepLaws.RetEffect` | cpu.py:172-175 | RET jumps to the top cell's value and increments register 7, nothing else |
| `StepLaws.RetAfterCall` | cpu.py:167-175 | a RET that finds the stack pointer and top cell a CALL at A left behind returns to A + 2 and restores register 7 |
| `StepLaws.CallRetRoundTrip` | cpu.py:167-175 | a CALL answered directly by a RET at its target resumes at A + 2 with the register file unchanged |
| `StepLaws.CmpEffect` | cpu.py:181-182 | CMP changes only the flags and `pc`: flags 1 iff equal, 4 iff less, 2 iff greater |
| `StepLaws.JeqEffect` | cpu.py:183-186 | JEQ r jumps to register r iff the flags are 1, otherwise advances by 2; nothing else changes |
| `StepLaws.JneEffect` | cpu.py:187-190 | JNE r jumps to register r iff the flags are not 1, otherwise advances by 2; nothing else changes |
| `StepLaws.JmpEffect` | cpu.py:178-180 | JMP r sets `pc` to register r and changes nothing else |
| `StepLaws.CmpThenBranch` | cpu.py:181-190 | CMP a, b then JEQ c jumps to register c exactly when registers a and b are equal; with JNE, exactly when they differ |
| `StepLaws.ModEffect` | cpu.py:203-207 | MOD a, b with register b zero clears `running` and changes no register, `pc` still advancing by 3; otherwise register a becomes `a - (a // b) * b` |
| `StepLaws.MulEffect` | cpu.py:159-160 | MUL a, b sets register a to the untruncated product |
| `StepLaws.BitwiseEffect` | cpu.py:191-196 | AND, OR and XOR change only register a, combining its bits with register b's |
| `StepLaws.NotEffect` | cpu.py:197-198 | NOT a advances by 2 and sets register a to the complement of the register named by the byte after the instruction |
| `StepLaws.ShiftEffect` | cpu.py:199-202 | SHL and SHR change only register a: multiplied by 2^n, or floor-divided by 2^n, n being register b |
| `StepLaws.RunOutcome` | cpu.py:146-147 | a bounded run ends `Halted` exactly when the machine is no longer running; `OutOfFuel` and `Fault` leave it running, `Fault` before an instruction that cannot step |
| `StepLaws.RunMoreFuel` | cpu.py:147 | a run that ended before its step bound ends identically with a larger bound |
| `Programs.AddProgramPrintsEight` | cpu.py:153-212 | `LDI R0,8; ADD R0,R0; PRN R0; HLT` prints 8, not 16, and halts, ADD having no branch |
| `Programs.MulProgramPrintsProduct` | cpu.py:153-212 | the same program with MUL prints 64 and halts |
| `Programs.ModByZeroHalts` | cpu.py:203-207 | `LDI R0,6; MOD R0,R1; PRN R0; HLT` on a new machine (R1 zero) halts at the MOD with nothing printed, R0 still 6 and `pc` past the MOD |
| `Programs.ModByZeroIgnoresFirstOperand` | cpu.py:203-205 | `MOD R8,R1` with R1 zero halts with `pc` at 3, though register 8 does not exist: the first register is not read |
| `Programs.NotReadsFollowingByte` | cpu.py:197-198 | in `LDI R0,5; NOT R0; HLT`, R0 becomes `~R1 = -1`, the register named by the HLT byte, not `~5` |

## Left out

- `ls8.py`: argument counting, the usage message and the `FileNotFoundError` message are process plumbing around the CPU.
- `trace` and its call in the loop: formatted printing only. Its three memory reads are the same cells the loop fetches.
- The text formatting of PRN (`print`) and PRA (`print(chr(...))`): the output is recorded as the printed value or code point. This includes the exceptions `print` can raise depending on the Python version and the encoding of standard output: `UnicodeEncodeError` for a lone surrogate code point (0xD800..0xDFFF) under a strict encoding, and the `ValueError` of converting an integer of more than 4300 decimal digits to text (Python 3.11 and later). The model records these outputs and goes on.
- `open(filename)`, `f.read().split("\n")` and Python's `int(text, 2)`: the lines are an input and the parser is a parameter, so signs, underscores, whitespace and the `0b` prefix that `int` accepts are the parameter's business.
- The `ie` field, the `datetime` import and the "Unsupported ALU operation" exception: unused, and the closed `AluSpec.Op` leaves no operation name unhandled.
- Python exceptions inside `run` other than those raised by `print`, and negative list indexing: an instruction that would raise or index from the end is not executed; `RunFor` stops with `Fault` and the state from before it, so the partial effects of a faulting instruction (such as PUSH's decrement before a failing write) are not modelled.
- Python's `MemoryError` for an enormous left shift: unbounded integers have no memory limit.
- The call `alu("INC"/"DEC", 7, None)`: the absent second register is an ignored index argument.
- Unbounded execution of `run`: `RunFor` and `Execute.Run` take a step bound.

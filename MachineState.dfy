/**
 The state of an LS-8 machine as a value: memory, registers, program counter,
 flags, the running flag and what PRN and PRA have emitted so far. The class in
 module Cpu holds the same state in arrays and fields; its `Snapshot` gives this
 value, and every operation of the class is specified against it.

 Cells and registers hold unbounded integers: nothing in the emulator truncates
 a value to eight bits.
 */
module MachineState {

  /** Number of memory cells. */
  const RAM_SIZE: int := 256
  /** Number of registers. */
  const REG_COUNT: int := 8
  /** The register that serves as the stack pointer. */
  const SP: int := 7
  /** The stack pointer of a new machine. */
  const INITIAL_SP: int := 0xF4

  /** The flag values CMP writes (0b00000LGE). */
  const FL_EQUAL: int := 0x01
  const FL_GREATER: int := 0x02
  const FL_LESS: int := 0x04

  /** One item written to standard output: PRN prints a number, PRA a character. */
  datatype Emit = Number(value: int) | Character(code: int)

  datatype State = State(
    ram: seq<int>,
    reg: seq<int>,
    pc: int,
    fl: int,
    running: bool,
    out: seq<Emit>)

  predicate WellFormed(s: State) {
    |s.ram| == RAM_SIZE && |s.reg| == REG_COUNT
  }

  /** A register index the emulator can use without an error. */
  predicate IsReg(i: int) {
    0 <= i < REG_COUNT
  }

  /** A memory address the emulator can use without an error. */
  predicate IsAddr(i: int) {
    0 <= i < RAM_SIZE
  }

  /** The state of a newly constructed machine. */
  function Initial(): (s: State)
    ensures WellFormed(s)
    ensures forall i :: 0 <= i < RAM_SIZE ==> s.ram[i] == 0
    ensures forall i :: 0 <= i < REG_COUNT && i != SP ==> s.reg[i] == 0
    ensures s.reg[SP] == INITIAL_SP
    ensures s.pc == 0 && s.fl == 0 && !s.running && s.out == []
  {
    State(seq(RAM_SIZE, _ => 0), seq(REG_COUNT, _ => 0)[SP := INITIAL_SP], 0, 0, false, [])
  }
}

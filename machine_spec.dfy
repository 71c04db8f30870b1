// The execution engine of machine.c as values: one State holding everything
// the file's statics and the stack store hold, the effect of `execute` for
// each opcode, the traced step of `execute_trace`, the `run_prog` loop (under
// a fuel bound), the loader's stop rule, the program listing and the whole
// `machine` entry sequence.
module MachineSpec {
  import opened Defs
  import opened Wrappers
  import opened Opcodes
  import opened CArith
  import S = StackSpec

  // ----- Mnemonics -----

  /** The op_codes table: entry i names opcode i + 1. */
  const OpNames: seq<string> := ["LIT", "RTN", "CAL", "POP", "PSI",
    "PRM", "STO", "INC", "JMP", "JPC", "CHO", "CHI", "HLT", "NDB", "NEG", "ADD",
    "SUB", "MUL", "DIV", "MOD", "EQL", "NEQ", "LSS", "LEQ", "GTR", "GEQ", "PSP"]

  /** mnemonic: decrements the opcode, validates the result and indexes the
      table. None is the fatal "Illegal Opcode" exit. Raw opcode 28 passes the
      validation and would read one entry past the table: it is excluded. */
  function Mnemonic(opc: int): (r: Option<string>)
    requires opc - 1 != NUM_OPCODES
    ensures r.Some? <==> 1 <= opc <= NUM_OPCODES
    ensures r.Some? ==> r.value == OpNames[opc - 1]
  {
    var i := opc - 1;
    if IllegalOpcode(i) then None else Some(OpNames[i])
  }

  /** The opcode a mnemonic stands for (the first table entry with that name). */
  function OpcodeOf(name: string): (r: Option<int>) {
    FindName(name, 0)
  }

  function FindName(name: string, i: nat): (r: Option<int>)
    requires i <= |OpNames|
    decreases |OpNames| - i
  {
    if i == |OpNames| then None
    else if OpNames[i] == name then Some(i + 1)
    else FindName(name, i + 1)
  }

  // ----- Machine state -----

  /** What the tracer writes: the instruction about to run, with the address it
      was fetched from, and after it the registers and the stack dump. */
  datatype TraceEvent =
    | Fetched(addr: int, name: string, m: int)
    | Status(pc: int, bp: int, sp: int, stack: seq<(int, int)>)

  /** The statics of machine.c and stack.c together. `input` is what getc will
      deliver, `output` the bytes putc has written. */
  datatype State = State(
    mem: S.StackState,
    pc: int,
    halt: bool,
    tracing: bool,
    input: seq<int>,
    output: seq<int>,
    trace: seq<TraceEvent>)

  /** getc's end-of-file value. */
  const EOF: int := -1

  /** Static storage before anything runs: all zero, tracing off. */
  function Static(input: seq<int>): (r: State) {
    State(S.Initial(), 0, false, false, input, [], [])
  }

  /** initialize */
  function Initialize(s: State): (r: State)
    ensures S.WellFormed(r.mem)
  {
    s.(mem := S.Initial(), pc := 0, halt := false, tracing := true)
  }

  // ----- execute -----

  /** The accesses `execute` makes for this instruction stay inside the stack array. */
  predicate CanExecute(m: S.StackState, ins: Instruction)
    requires S.WellFormed(m)
  {
    match ins.op
    case 1 => S.CanPush(m)
    case 2 => S.CanRtn(m)
    case 3 => S.CanCal(m)
    case 4 => S.CanPop(m)
    case 5 => S.CanReadAt(m.sp - 1) && S.CanPush(m)
    case 6 => S.CanReadAt(m.bp - ins.m) && S.CanPush(m)
    case 7 => S.CanSto(m, ins.m)
    case 9 | 10 | 11 | 15 => S.CanPop(m)
    case 12 | 27 => S.CanPush(m)
    case 16 | 17 | 19 | 20 | 21 | 22 | 23 | 24 | 25 | 26 => S.CanPop(m) && S.CanPop(S.Pop(m).0)
    case 18 => S.CanPop(m) && S.CanPop(S.Pop(m).0) && S.CanPop(S.Pop(S.Pop(m).0).0)
    case _ => true
  }

  /** C's boolean results: 1 for true, 0 for false. */
  function Bool(c: bool): (v: int) {
    if c then 1 else 0
  }

  /** The opcodes that pop two values and push one result: ADD, SUB, EQL..GEQ. */
  predicate IsBinary(op: int) {
    op == 16 || op == 17 || 21 <= op <= 26
  }

  /** The result of a binary opcode, with a the former top and b the slot beneath. */
  function BinaryOp(op: int, a: int, b: int): (v: int)
    requires IsBinary(op)
  {
    if op == 16 then a + b
    else if op == 17 then a - b
    else if op == 21 then Bool(a == b)
    else if op == 22 then Bool(a != b)
    else if op == 23 then Bool(a < b)
    else if op == 24 then Bool(a <= b)
    else if op == 25 then Bool(a > b)
    else Bool(a >= b)
  }

  /** Two pops (a, then b) and a push of the result. */
  function Binary(m: S.StackState, op: int): (r: S.StackState)
    requires S.WellFormed(m) && S.CanPop(m) && S.CanPop(S.Pop(m).0) && IsBinary(op)
    ensures S.WellFormed(r)
  {
    var (m1, a) := S.Pop(m);
    var (m2, b) := S.Pop(m1);
    S.Push(m2, BinaryOp(op, a, b))
  }

  /** MUL: pops a and b, pops and discards a third value, pushes a * b. */
  function Mul(m: S.StackState): (r: S.StackState)
    requires S.WellFormed(m) && S.CanPop(m) && S.CanPop(S.Pop(m).0) && S.CanPop(S.Pop(S.Pop(m).0).0)
    ensures S.WellFormed(r)
  {
    var (m1, a) := S.Pop(m);
    var (m2, b) := S.Pop(m1);
    var (m3, _) := S.Pop(m2);
    S.Push(m3, a * b)
  }

  /** DIV (19) and MOD (20): pops a and b; a zero divisor b sets halt and pushes nothing. */
  function DivMod(s: State, op: int): (r: State)
    requires S.WellFormed(s.mem) && S.CanPop(s.mem) && S.CanPop(S.Pop(s.mem).0)
    ensures S.WellFormed(r.mem)
  {
    var (m1, a) := S.Pop(s.mem);
    var (m2, b) := S.Pop(m1);
    if b == 0 then s.(halt := true, mem := m2)
    else s.(mem := S.Push(m2, if op == 19 then CDiv(a, b) else CMod(a, b)))
  }

  /** execute: pc is incremented first, then the opcode is dispatched. */
  function Execute(s: State, ins: Instruction): (r: State)
    requires S.WellFormed(s.mem) && CanExecute(s.mem, ins)
    ensures S.WellFormed(r.mem)
  {
    Dispatch(s.(pc := s.pc + 1), ins)
  }

  /** The switch of execute, on a state whose pc is already incremented. */
  function Dispatch(s: State, ins: Instruction): (r: State)
    requires S.WellFormed(s.mem) && CanExecute(s.mem, ins)
    ensures S.WellFormed(r.mem)
  {
    var m := s.mem;
    match ins.op
    case 1 => // LIT
      s.(mem := S.Push(m, ins.m))
    case 2 => // RTN
      s.(pc := S.Top(m), mem := S.Rtn(m))
    case 3 => // CAL
      s.(mem := S.Cal(m, s.pc), pc := ins.m)
    case 4 => // POP
      s.(mem := S.Pop(m).0)
    case 5 => // PSI
      s.(mem := S.Push(m, S.RetAtX(m, m.sp - 1)))
    case 6 => // PRM
      s.(mem := S.Push(m, S.RetAtX(m, m.bp - ins.m)))
    case 7 => // STO
      s.(mem := S.Sto(m, ins.m))
    case 8 => // INC
      s.(mem := S.AllocateSpace(m, ins.m))
    case 9 => // JMP
      s.(pc := S.Top(m), mem := S.Pop(m).0)
    case 10 => // JPC
      s.(pc := if S.Top(m) != 0 then ins.m else s.pc, mem := S.Pop(m).0)
    case 11 => // CHO
      s.(output := s.output + [UnsignedChar(S.Top(m))], mem := S.Pop(m).0)
    case 12 => // CHI
      if |s.input| == 0 then s.(mem := S.Push(m, EOF))
      else s.(mem := S.Push(m, s.input[0]), input := s.input[1..])
    case 13 => // HLT
      s.(halt := true)
    case 14 => // NDB
      s.(tracing := false)
    case 15 => // NEG
      s.(mem := S.Negate(m))
    case 16 | 17 | 21 | 22 | 23 | 24 | 25 | 26 => // ADD, SUB, EQL, NEQ, LSS, LEQ, GTR, GEQ
      s.(mem := Binary(m, ins.op))
    case 18 => // MUL
      s.(mem := Mul(m))
    case 19 | 20 => // DIV, MOD
      DivMod(s, ins.op)
    case 27 => // PSP
      s.(mem := S.Push(m, m.sp))
    case _ =>
      s
  }

  // ----- The tracer and execute_trace -----

  /** stackify: entries 0 .. stack_size(), each index with ret_at_x of it.
      Reading index MAX_STACK_HEIGHT would leave the array, hence the bound on sp. */
  function Dump(m: S.StackState): (d: seq<(int, int)>)
    requires S.WellFormed(m) && m.sp <= MAX_STACK_HEIGHT
  {
    seq(if m.sp < 0 then 0 else m.sp, i requires 0 <= i < m.sp => (i, S.RetAtX(m, i)))
  }

  /** print_instruction before the step: the address is pc before it is incremented. */
  function Announce(s: State, ins: Instruction): (r: State)
    requires ins.op - 1 != NUM_OPCODES && Mnemonic(ins.op).Some?
  {
    s.(trace := s.trace + [Fetched(s.pc, Mnemonic(ins.op).value, ins.m)])
  }

  /** print_curr_stat: registers and the stack dump. */
  function Report(s: State): (r: State)
    requires S.WellFormed(s.mem) && s.mem.sp <= MAX_STACK_HEIGHT
  {
    s.(trace := s.trace + [Status(s.pc, s.mem.bp, s.mem.sp, Dump(s.mem))])
  }

  datatype StepOutcome = Stepped | MnemonicFailed

  /** The traced step is defined: the mnemonic lookup (when tracing) stays in the
      table, and the step's accesses, the dump's included, stay in the array. */
  predicate CanTraceStep(s: State, ins: Instruction)
    requires S.WellFormed(s.mem)
  {
    if !s.tracing then
      CanExecute(s.mem, ins)
    else
      && ins.op - 1 != NUM_OPCODES
      && (Mnemonic(ins.op).None? ||
          (CanExecute(s.mem, ins) && var t := Execute(Announce(s, ins), ins); t.tracing ==> t.mem.sp <= MAX_STACK_HEIGHT))
  }

  /** execute_trace: when tracing, the instruction is printed first (mnemonic
      may exit there), then executed, then the status is printed if tracing is
      still on. */
  function TraceStep(s: State, ins: Instruction): (r: (StepOutcome, State))
    requires S.WellFormed(s.mem) && CanTraceStep(s, ins)
    ensures S.WellFormed(r.1.mem)
  {
    if s.tracing && Mnemonic(ins.op).None? then
      (MnemonicFailed, s)
    else
      var t := Execute(if s.tracing then Announce(s, ins) else s, ins);
      (Stepped, if t.tracing then Report(t) else t)
  }

  /** One turn of run_prog: instr_list[pc] must exist. */
  predicate CanStep(s: State, code: seq<Instruction>)
    requires S.WellFormed(s.mem)
  {
    0 <= s.pc < |code| && CanTraceStep(s, code[s.pc])
  }

  function Step(s: State, code: seq<Instruction>): (r: (StepOutcome, State))
    requires S.WellFormed(s.mem) && CanStep(s, code)
    ensures S.WellFormed(r.1.mem)
  {
    TraceStep(s, code[s.pc])
  }

  // ----- run_prog -----

  datatype RunOutcome =
    | Halted               // the loop saw halt set (HLT, or DIV/MOD by zero)
    | IllegalOpcodeExit    // mnemonic reported an illegal opcode and exited
    | TooManyInstructions  // the loader filled the whole table and exited
    | Undefined            // the next step would access memory outside its array
    | OutOfFuel            // the bound on steps ran out first

  /** run_prog under a bound of `fuel` steps. */
  function Run(s: State, code: seq<Instruction>, fuel: nat): (r: (RunOutcome, State))
    requires S.WellFormed(s.mem)
    ensures S.WellFormed(r.1.mem)
    decreases fuel
  {
    if s.halt then (Halted, s)
    else if fuel == 0 then (OutOfFuel, s)
    else if !CanStep(s, code) then (Undefined, s)
    else
      var (o, t) := Step(s, code);
      if o == MnemonicFailed then (IllegalOpcodeExit, t) else Run(t, code, fuel - 1)
  }

  // ----- The loader -----

  /** One fscanf of "%d %d": how many integers it converted (EOF, a negative
      number, at the end of input), and the two values. */
  datatype Line = Line(numRead: int, op: int, m: int)

  /** read_single_instruction: the instruction and whether reading stops here. */
  function ReadSingleInstruction(l: Line): (r: (Instruction, bool)) {
    (Instruction(l.op, l.m), IllegalOpcode(l.op) || l.numRead < 2)
  }

  /** Every opcode in the table passes the validator. */
  predicate LegalProgram(code: seq<Instruction>) {
    forall i :: 0 <= i < |code| ==> !IllegalOpcode(code[i].op)
  }

  /** The instructions read before the first line that stops the reading
      (running out of lines counts as such a line). */
  function LegalPrefix(lines: seq<Line>): (p: seq<Instruction>)
    ensures |p| <= |lines| && LegalProgram(p)
    decreases |lines|
  {
    if |lines| == 0 || ReadSingleInstruction(lines[0]).1 then []
    else [ReadSingleInstruction(lines[0]).0] + LegalPrefix(lines[1..])
  }

  /** Where the prefix stops: every line before it is read into it, and the line
      at its end (or the end of input) stops the reading. */
  lemma {:induction false} LegalPrefixAt(lines: seq<Line>, i: nat)
    requires i <= |LegalPrefix(lines)|
    ensures i < |LegalPrefix(lines)| ==>
      i < |lines| && !ReadSingleInstruction(lines[i]).1 && LegalPrefix(lines)[i] == ReadSingleInstruction(lines[i]).0
    ensures i == |LegalPrefix(lines)| ==> i == |lines| || ReadSingleInstruction(lines[i]).1
    decreases i
  {
    if i > 0 {
      LegalPrefixAt(lines[1..], i - 1);
    }
  }

  datatype LoadResult = Loaded(count: nat) | LoadOverflow

  /** read_instruction_file: the number of instructions stored, or the fatal
      "too many instructions" exit when they fill the whole table. */
  function Load(lines: seq<Line>): (r: LoadResult) {
    var n := |LegalPrefix(lines)|;
    if n >= MAX_CODE_LENGTH then LoadOverflow else Loaded(n)
  }

  /** instr_list after a successful load: the program, then zeroed static storage. */
  function CodeTable(prog: seq<Instruction>): (t: seq<Instruction>)
    requires |prog| <= MAX_CODE_LENGTH
  {
    prog + seq(MAX_CODE_LENGTH - |prog|, _ => Instruction(0, 0))
  }

  // ----- The listing and the machine entry point -----

  datatype Row = Row(addr: int, name: string, m: int)

  /** print_program as rows; None when mnemonic exits on one of them. */
  function Listing(prog: seq<Instruction>): (r: Option<seq<Row>>)
    requires LegalProgram(prog)
  {
    if forall i :: 0 <= i < |prog| ==> Mnemonic(prog[i].op).Some? then
      Some(seq(|prog|, i requires 0 <= i < |prog| => Row(i, Mnemonic(prog[i].op).value, prog[i].m)))
    else
      None
  }

  /** machine: initialize, load, list the program, print the initial status, run. */
  function Boot(lines: seq<Line>, input: seq<int>, fuel: nat): (r: (RunOutcome, State))
  {
    var s := Initialize(Static(input));
    var prog := LegalPrefix(lines);
    if |prog| >= MAX_CODE_LENGTH then (TooManyInstructions, s)
    else if Listing(prog).None? then (IllegalOpcodeExit, s)
    else Run(Report(s), CodeTable(prog), fuel)
  }

  // ----- invariant_check -----

  /** The (never called) consistency check of machine.c: true when it would not exit. */
  predicate InvariantCheckPasses(s: State) {
    && !(s.mem.bp <= 0 || s.mem.bp >= s.mem.sp || s.mem.sp > MAX_STACK_HEIGHT)
    && !(s.pc <= 0 || s.pc > MAX_CODE_LENGTH)
  }
}

// The execution engine of machine.c as an object: pc, halt and tracing, the
// instruction table instr_list, the stack store it drives, and the character
// streams of CHO and CHI. Each method is proved against its counterpart in
// MachineSpec through Abs(), the machine's value.
module Engine {
  import opened Defs
  import opened Wrappers
  import opened CArith
  import S = StackSpec
  import StackStore
  import M = MachineSpec

  class Machine {
    const st: StackStore.Stack
    const code: array<Instruction>
    var pc: int
    var halt: bool
    var tracing: bool
    var input: seq<int>
    var output: seq<int>
    var trace: seq<M.TraceEvent>

    ghost predicate Valid()
      reads this, st, code
    {
      st.Valid() && code.Length == MAX_CODE_LENGTH && M.LegalProgram(code[..])
    }

    /** The machine as a value (the instruction table is kept apart, as `code[..]`). */
    function Abs(): (s: M.State)
      reads this, st, st.data
      ensures st.Valid() ==> S.WellFormed(s.mem)
    {
      M.State(st.Abs(), pc, halt, tracing, input, output, trace)
    }

    /** Static storage: a zeroed stack and instruction table, tracing off. */
    constructor (input: seq<int>)
      ensures Valid() && fresh(st) && fresh(st.data) && fresh(code)
      ensures Abs() == M.Static(input)
      ensures forall i :: 0 <= i < MAX_CODE_LENGTH ==> code[i] == Instruction(0, 0)
    {
      st := new StackStore.Stack();
      code := new Instruction[MAX_CODE_LENGTH](_ => Instruction(0, 0));
      pc, halt, tracing := 0, false, false;
      this.input := input;
      output, trace := [], [];
    }

    /** initialize */
    method Initialize()
      requires Valid()
      modifies this, st, st.data
      ensures Valid() && Abs() == M.Initialize(old(Abs()))
    {
      st.Initialize();
      pc := 0;
      halt := false;
      tracing := true;
    }

    /** execute */
    method Execute(ins: Instruction)
      requires Valid() && M.CanExecute(st.Abs(), ins)
      modifies this, st, st.data
      ensures Valid() && Abs() == M.Execute(old(Abs()), ins)
    {
      pc := pc + 1;
      if ins.op <= 8 {
        DispatchLow(ins);
      } else if ins.op <= 15 {
        DispatchMiddle(ins);
      } else {
        DispatchHigh(ins);
      }
    }

    /** The cases of execute for opcodes up to 8 (LIT .. INC). */
    method DispatchLow(ins: Instruction)
      requires Valid() && M.CanExecute(st.Abs(), ins) && ins.op <= 8
      modifies this, st, st.data
      ensures Valid() && Abs() == M.Dispatch(old(Abs()), ins)
    {
      match ins.op
      case 1 => // LIT
        st.Push(ins.m);
      case 2 => // RTN
        pc := st.Top();
        st.Rtn();
      case 3 => // CAL
        st.Cal(pc);
        pc := ins.m;
      case 4 => // POP
        var _ := st.Pop();
      case 5 => // PSI
        st.Push(st.RetAtX(st.sp - 1));
      case 6 => // PRM
        st.Push(st.RetAtX(st.bp - ins.m));
      case 7 => // STO
        st.Sto(ins.m);
      case 8 => // INC
        st.AllocateSpace(ins.m);
      case _ =>
    }

    /** The cases of execute for opcodes 9 .. 15 (JMP .. NEG). */
    method DispatchMiddle(ins: Instruction)
      requires Valid() && M.CanExecute(st.Abs(), ins) && 9 <= ins.op <= 15
      modifies this, st, st.data
      ensures Valid() && Abs() == M.Dispatch(old(Abs()), ins)
    {
      match ins.op
      case 9 => // JMP
        pc := st.Top();
        var _ := st.Pop();
      case 10 => // JPC
        if st.Top() != 0 {
          pc := ins.m;
        }
        var _ := st.Pop();
      case 11 => // CHO
        output := output + [UnsignedChar(st.Top())];
        var _ := st.Pop();
      case 12 => // CHI
        var c := GetC();
        st.Push(c);
      case 13 => // HLT
        halt := true;
      case 14 => // NDB
        tracing := false;
      case 15 => // NEG
        st.Negate();
    }

    /** The cases of execute for opcodes from 16 (ADD .. PSP, and no case beyond 27). */
    method DispatchHigh(ins: Instruction)
      requires Valid() && M.CanExecute(st.Abs(), ins) && ins.op >= 16
      modifies this, st, st.data
      ensures Valid() && Abs() == M.Dispatch(old(Abs()), ins)
    {
      match ins.op
      case 16 | 17 | 21 | 22 | 23 | 24 | 25 | 26 => // ADD, SUB, EQL, NEQ, LSS, LEQ, GTR, GEQ
        Binary(ins.op);
      case 18 => // MUL
        Mul();
      case 19 | 20 => // DIV, MOD
        DivMod(ins.op);
      case 27 => // PSP
        st.Push(st.sp);
      case _ =>
    }

    /** The two pops and the push of ADD, SUB and the comparisons. */
    method Binary(op: int)
      requires Valid() && S.CanPop(st.Abs()) && S.CanPop(S.Pop(st.Abs()).0) && M.IsBinary(op)
      modifies st, st.data
      ensures Valid() && st.Abs() == M.Binary(old(st.Abs()), op)
    {
      var a := st.Pop();
      var b := st.Pop();
      st.Push(M.BinaryOp(op, a, b));
    }

    /** The three pops and the push of MUL. */
    method Mul()
      requires Valid() && S.CanPop(st.Abs()) && S.CanPop(S.Pop(st.Abs()).0) && S.CanPop(S.Pop(S.Pop(st.Abs()).0).0)
      modifies st, st.data
      ensures Valid() && st.Abs() == M.Mul(old(st.Abs()))
    {
      var a := st.Pop();
      var b := st.Pop();
      var _ := st.Pop();
      st.Push(a * b);
    }

    /** DIV and MOD: a zero divisor sets halt instead of pushing. */
    method DivMod(op: int)
      requires Valid() && S.CanPop(st.Abs()) && S.CanPop(S.Pop(st.Abs()).0)
      modifies this, st, st.data
      ensures Valid() && Abs() == M.DivMod(old(Abs()), op)
    {
      var a := st.Pop();
      var b := st.Pop();
      if b == 0 {
        halt := true;
      } else {
        st.Push(if op == 19 then CDiv(a, b) else CMod(a, b));
      }
    }

    /** getc: the next input character, or EOF once the input is used up. */
    method GetC() returns (c: int)
      modifies this
      ensures |old(input)| == 0 ==> c == M.EOF && input == old(input)
      ensures |old(input)| > 0 ==> c == old(input)[0] && input == old(input)[1..]
      ensures pc == old(pc) && halt == old(halt) && tracing == old(tracing)
      ensures output == old(output) && trace == old(trace)
    {
      if |input| == 0 {
        c := M.EOF;
      } else {
        c := input[0];
        input := input[1..];
      }
    }

    /** stackify: the pairs (i, ret_at_x(i)) for i from 0 through stack_size(). */
    method Stackify() returns (entries: seq<(int, int)>)
      requires Valid() && st.sp <= MAX_STACK_HEIGHT
      ensures entries == M.Dump(st.Abs())
      ensures |entries| == if st.sp < 0 then 0 else st.sp
    {
      entries := [];
      var i := 0;
      while i <= st.Size()
        invariant 0 <= i && (i <= st.sp || i == 0)
        invariant |entries| == i
        invariant forall j :: 0 <= j < i ==> entries[j] == (j, st.data[j])
      {
        entries := entries + [(i, st.RetAtX(i))];
        i := i + 1;
      }
      assert entries == M.Dump(st.Abs());
    }

    /** print_curr_stat: record the registers and the stack dump. */
    method PrintCurrStat()
      requires Valid() && st.sp <= MAX_STACK_HEIGHT
      modifies this
      ensures Abs() == M.Report(old(Abs()))
    {
      var dump := Stackify();
      trace := trace + [M.Status(pc, st.bp, st.sp, dump)];
    }

    /** execute_trace: print the instruction (mnemonic may exit), execute it,
        then print the status if tracing is still on. */
    method ExecuteTrace(ins: Instruction) returns (o: M.StepOutcome)
      requires Valid() && M.CanTraceStep(Abs(), ins)
      modifies this, st, st.data
      ensures Valid() && (o, Abs()) == M.TraceStep(old(Abs()), ins)
    {
      if tracing {
        var name := M.Mnemonic(ins.op);
        if name.None? {
          return M.MnemonicFailed;
        }
        trace := trace + [M.Fetched(pc, name.value, ins.m)];
      }
      Execute(ins);
      if tracing {
        PrintCurrStat();
      }
      o := M.Stepped;
    }

    /** run_prog: step until halt is set, here for at most `fuel` steps, and
        stopping where the next step would be undefined. */
    method RunProg(fuel: nat) returns (o: M.RunOutcome)
      requires Valid()
      modifies this, st, st.data
      ensures Valid() && (o, Abs()) == M.Run(old(Abs()), code[..], fuel)
    {
      var f := fuel;
      while !halt
        invariant Valid()
        invariant M.Run(Abs(), code[..], f) == M.Run(old(Abs()), code[..], fuel)
        decreases f
      {
        if f == 0 {
          return M.OutOfFuel;
        }
        if !(0 <= pc < code.Length && M.CanTraceStep(Abs(), code[pc])) {
          return M.Undefined;
        }
        var r := ExecuteTrace(code[pc]);
        if r == M.MnemonicFailed {
          return M.IllegalOpcodeExit;
        }
        f := f - 1;
      }
      o := M.Halted;
    }

    /** read_instruction_file: store instructions until one stops the reading
        or the table is full; a full table is the fatal overflow. */
    method ReadInstructionFile(lines: seq<M.Line>) returns (r: M.LoadResult)
      requires Valid()
      modifies code
      ensures Valid() && r == M.Load(lines)
      ensures r.Loaded? ==> code[..r.count] == M.LegalPrefix(lines) && code[r.count..] == old(code[r.count..])
    {
      ghost var prog := M.LegalPrefix(lines);
      var count := 0;
      while count < MAX_CODE_LENGTH
        invariant Valid()
        invariant 0 <= count <= MAX_CODE_LENGTH && count <= |prog|
        invariant code[..count] == prog[..count]
        invariant code[count..] == old(code[count..])
      {
        var line := if count < |lines| then lines[count] else M.Line(M.EOF, 0, 0);
        var (curr, stop) := M.ReadSingleInstruction(line);
        M.LegalPrefixAt(lines, count);
        if stop {
          break;
        }
        code[count] := curr;
        count := count + 1;
      }
      if count >= MAX_CODE_LENGTH {
        r := M.LoadOverflow;
      } else {
        r := M.Loaded(count);
      }
    }

    /** print_program: one row per instruction, unless mnemonic exits on one. */
    method PrintProgram(size: int) returns (rows: Option<seq<M.Row>>)
      requires Valid() && 0 <= size <= MAX_CODE_LENGTH
      ensures rows == M.Listing(code[..size])
    {
      var acc: seq<M.Row> := [];
      for i := 0 to size
        invariant |acc| == i
        invariant forall j :: 0 <= j < i ==> M.Mnemonic(code[j].op).Some?
        invariant forall j :: 0 <= j < i ==> acc[j] == M.Row(j, M.Mnemonic(code[j].op).value, code[j].m)
      {
        assert code[..size][i] == code[i];
        var name := M.Mnemonic(code[i].op);
        if name.None? {
          assert M.Mnemonic(code[..size][i].op).None?;
          return None;
        }
        acc := acc + [M.Row(i, name.value, code[i].m)];
      }
      assert forall j :: 0 <= j < size ==> code[..size][j] == code[j];
      assert acc == M.Listing(code[..size]).value;
      rows := Some(acc);
    }
  }

  /** machine: the whole run of one program file, given as its parsed lines. */
  method RunMachine(lines: seq<M.Line>, input: seq<int>, fuel: nat) returns (o: M.RunOutcome, s: M.State)
    ensures (o, s) == M.Boot(lines, input, fuel)
  {
    var vm := new Machine(input);
    vm.Initialize();
    var loaded := vm.ReadInstructionFile(lines);
    if loaded.LoadOverflow? {
      return M.TooManyInstructions, vm.Abs();
    }
    var listing := vm.PrintProgram(loaded.count);
    if listing.None? {
      return M.IllegalOpcodeExit, vm.Abs();
    }
    vm.PrintCurrStat();
    assert vm.code[..] == M.CodeTable(M.LegalPrefix(lines));
    o := vm.RunProg(fuel);
    s := vm.Abs();
  }
}

// Properties of the execution engine, stated on MachineSpec: what each family
// of opcodes does to the stack and the registers, the call/return protocol,
// the one-way flags, the tracer, the loader, the listing, and whole runs of
// small programs.
module MachineProps {
  import opened Defs
  import opened Wrappers
  import opened Opcodes
  import opened CArith
  import S = StackSpec
  import opened MachineSpec

  // ----- initialize -----

  /** initialize resets the stack and the registers whatever they held, turns
      tracing on, leaves the streams and the trace alone, and a second call
      changes nothing; the dump of the reset stack is empty. */
  lemma InitializeResets(s: State)
    ensures var r := Initialize(s);
      && r.mem == S.Initial() && r.pc == 0 && !r.halt && r.tracing
      && r.input == s.input && r.output == s.output && r.trace == s.trace
      && Initialize(r) == r
      && Dump(r.mem) == []
  {
  }

  // ----- Dispatch and pc -----

  /** An opcode without a case (0, or anything beyond 27) only increments pc. */
  lemma UndispatchedOpcodeOnlyAdvancesPc(s: State, ins: Instruction)
    requires S.WellFormed(s.mem) && (ins.op < 1 || ins.op > NUM_OPCODES)
    ensures CanExecute(s.mem, ins)
    ensures Execute(s, ins) == s.(pc := s.pc + 1)
  {
  }

  /** Apart from the four control transfers, pc moves to the next instruction. */
  lemma PcIncrementedBeforeDispatch(s: State, ins: Instruction)
    requires S.WellFormed(s.mem) && CanExecute(s.mem, ins)
    requires ins.op != 2 && ins.op != 3 && ins.op != 9 && ins.op != 10
    ensures Execute(s, ins).pc == s.pc + 1
  {
  }

  // ----- The push family -----

  /** LIT m: one more slot, holding m; nothing else on the stack changes. */
  lemma LitPushesOperand(s: State, m: int)
    requires S.WellFormed(s.mem) && CanExecute(s.mem, Instruction(1, m))
    ensures var r := Execute(s, Instruction(1, m));
      && S.Size(r.mem) == S.Size(s.mem) + 1
      && S.Top(r.mem) == m
      && r.mem.bp == s.mem.bp
      && forall i :: 0 <= i < MAX_STACK_HEIGHT && i != s.mem.sp ==> r.mem.cells[i] == s.mem.cells[i]
  {
  }

  /** PSI: one more slot, holding a copy of the former top (it reads index sp - 1). */
  lemma PsiPushesCopyOfTop(s: State, m: int)
    requires S.WellFormed(s.mem) && CanExecute(s.mem, Instruction(5, m))
    ensures var r := Execute(s, Instruction(5, m));
      && r.mem.sp == s.mem.sp + 1
      && S.Top(r.mem) == S.Top(s.mem)
      && r.mem.cells[..s.mem.sp] == s.mem.cells[..s.mem.sp]
  {
  }

  /** PRM m: pushes the slot at bp - m, or -1 when that address is above the capacity. */
  lemma PrmPushesRelativeToBase(s: State, m: int)
    requires S.WellFormed(s.mem) && CanExecute(s.mem, Instruction(6, m))
    ensures var r := Execute(s, Instruction(6, m));
      && r.mem.sp == s.mem.sp + 1
      && S.Top(r.mem) == (if s.mem.bp - m > MAX_STACK_HEIGHT then -1 else s.mem.cells[s.mem.bp - m])
  {
  }

  /** PSP: one more slot, holding sp as it was before the push. */
  lemma PspPushesOldSp(s: State, m: int)
    requires S.WellFormed(s.mem) && CanExecute(s.mem, Instruction(27, m))
    ensures var r := Execute(s, Instruction(27, m));
      && r.mem.sp == s.mem.sp + 1
      && S.Top(r.mem) == s.mem.sp
  {
  }

  // ----- Arithmetic and comparisons -----

  /** ADD, SUB and the comparisons pop a (the top) then b (beneath it), and leave
      `a op b` in b's slot: the stack is one slot lower. */
  lemma BinaryPopsTwoPushesOne(s: State, ins: Instruction)
    requires S.WellFormed(s.mem) && CanExecute(s.mem, ins) && IsBinary(ins.op)
    ensures var r := Execute(s, ins);
      var a, b := s.mem.cells[s.mem.sp - 1], s.mem.cells[s.mem.sp - 2];
      && r.mem.sp == s.mem.sp - 1
      && r.mem.cells[s.mem.sp - 2] == BinaryOp(ins.op, a, b)
      && r.mem.cells == s.mem.cells[s.mem.sp - 2 := BinaryOp(ins.op, a, b)]
      && r.halt == s.halt && r.pc == s.pc + 1
  {
  }

  /** The comparisons leave 1 or 0, and SUB subtracts the lower value from the top. */
  lemma BinaryOpResults(a: int, b: int)
    ensures BinaryOp(17, a, b) == a - b
    ensures forall op :: 21 <= op <= 26 ==> BinaryOp(op, a, b) == 0 || BinaryOp(op, a, b) == 1
    ensures BinaryOp(23, a, b) == 1 <==> a < b
    ensures BinaryOp(26, a, b) == 1 <==> a >= b
  {
  }

  /** MUL removes three slots and pushes one, the product of the top two. */
  lemma MulConsumesThree(s: State, m: int)
    requires S.WellFormed(s.mem) && CanExecute(s.mem, Instruction(18, m))
    ensures var r := Execute(s, Instruction(18, m));
      && r.mem.sp == s.mem.sp - 2
      && S.Top(r.mem) == s.mem.cells[s.mem.sp - 1] * s.mem.cells[s.mem.sp - 2]
      && r.mem.cells[..s.mem.sp - 3] == s.mem.cells[..s.mem.sp - 3]
  {
  }

  /** DIV and MOD with divisor b == 0 (the second value popped): halt is set,
      nothing is pushed, and two slots are gone. */
  lemma DivModByZeroSoftHalt(s: State, ins: Instruction)
    requires S.WellFormed(s.mem) && CanExecute(s.mem, ins) && (ins.op == 19 || ins.op == 20)
    requires s.mem.cells[s.mem.sp - 2] == 0
    ensures var r := Execute(s, ins);
      && r.halt
      && r.mem.sp == s.mem.sp - 2
      && r.mem.cells == s.mem.cells
      && r.pc == s.pc + 1
  {
  }

  /** DIV and MOD with a nonzero divisor push the C quotient / remainder of top by
      beneath: the two results rebuild the dividend, the quotient is truncated
      toward zero and the remainder takes the dividend's sign. halt is untouched. */
  lemma DivModPushesTruncated(s: State, m: int)
    requires S.WellFormed(s.mem) && CanExecute(s.mem, Instruction(19, m))
    requires s.mem.cells[s.mem.sp - 2] != 0
    ensures var a, b := s.mem.cells[s.mem.sp - 1], s.mem.cells[s.mem.sp - 2];
      var q := Execute(s, Instruction(19, m));
      var r := Execute(s, Instruction(20, m));
      && q.mem.sp == s.mem.sp - 1 && r.mem.sp == s.mem.sp - 1
      && q.halt == s.halt && r.halt == s.halt
      && S.Top(q.mem) == CDiv(a, b) && S.Top(r.mem) == CMod(a, b)
      && S.Top(q.mem) * b + S.Top(r.mem) == a
      && Abs(S.Top(r.mem)) < Abs(b)
      && (S.Top(r.mem) == 0 || (S.Top(r.mem) < 0) == (a < 0))
      && Abs(S.Top(q.mem)) * Abs(b) <= Abs(a)
  {
    var a, b := s.mem.cells[s.mem.sp - 1], s.mem.cells[s.mem.sp - 2];
    TruncatedDivision(a, b);
  }

  /** NEG negates the top in place. */
  lemma NegNegatesTop(s: State, m: int)
    requires S.WellFormed(s.mem) && CanExecute(s.mem, Instruction(15, m))
    ensures var r := Execute(s, Instruction(15, m));
      r.mem.sp == s.mem.sp && S.Top(r.mem) == -S.Top(s.mem)
  {
  }

  /** STO m: the second slot goes to address (top + m); two slots are gone. */
  lemma StoStoresIndirect(s: State, m: int)
    requires S.WellFormed(s.mem) && CanExecute(s.mem, Instruction(7, m))
    ensures var r := Execute(s, Instruction(7, m));
      && r.mem.sp == s.mem.sp - 2
      && r.mem.cells[s.mem.cells[s.mem.sp - 1] + m] == s.mem.cells[s.mem.sp - 2]
  {
  }

  /** INC m moves sp by m and changes no slot, whatever sp becomes. */
  lemma IncReservesSlots(s: State, m: int)
    requires S.WellFormed(s.mem)
    ensures CanExecute(s.mem, Instruction(8, m))
    ensures var r := Execute(s, Instruction(8, m));
      r.mem.sp == s.mem.sp + m && r.mem.cells == s.mem.cells && r.mem.bp == s.mem.bp
  {
  }

  // ----- Calls, returns and jumps -----

  /** CAL m: a frame at the old sp holding the caller's bp and the address of
      the instruction after CAL; bp moves to the frame and pc to m. */
  lemma CallSavesFrame(s: State, m: int)
    requires S.WellFormed(s.mem) && CanExecute(s.mem, Instruction(3, m))
    ensures var c := Execute(s, Instruction(3, m));
      && c.pc == m
      && c.mem.bp == s.mem.sp && c.mem.sp == s.mem.sp + 2
      && c.mem.cells[s.mem.sp] == s.mem.bp
      && c.mem.cells[s.mem.sp + 1] == s.pc + 1
  {
  }

  /** RTN after a callee whose body left sp where CAL put it and the frame's two
      slots intact: pc goes back to CAL's address + 1 and bp and sp are restored. */
  lemma ReturnAfterBalancedBody(s: State, m: int, t: State, x: int)
    requires S.WellFormed(s.mem) && CanExecute(s.mem, Instruction(3, m))
    requires var c := Execute(s, Instruction(3, m));
      && S.WellFormed(t.mem)
      && t.mem.sp == c.mem.sp
      && t.mem.cells[c.mem.sp - 2] == c.mem.cells[c.mem.sp - 2]
      && t.mem.cells[c.mem.sp - 1] == c.mem.cells[c.mem.sp - 1]
    ensures CanExecute(t.mem, Instruction(2, x))
    ensures var r := Execute(t, Instruction(2, x));
      r.pc == s.pc + 1 && r.mem.bp == s.mem.bp && r.mem.sp == s.mem.sp
  {
    CallSavesFrame(s, m);
  }

  /** CAL immediately followed by RTN. */
  lemma CallThenReturn(s: State, m: int, x: int)
    requires S.WellFormed(s.mem) && CanExecute(s.mem, Instruction(3, m))
    ensures CanExecute(Execute(s, Instruction(3, m)).mem, Instruction(2, x))
    ensures var r := Execute(Execute(s, Instruction(3, m)), Instruction(2, x));
      && r.pc == s.pc + 1 && r.mem.bp == s.mem.bp && r.mem.sp == s.mem.sp
      && r.mem.cells[..s.mem.sp] == s.mem.cells[..s.mem.sp]
  {
    ReturnAfterBalancedBody(s, m, Execute(s, Instruction(3, m)), x);
  }

  /** JMP jumps to the popped top; JPC pops exactly one slot and jumps to m only
      when that slot is nonzero. */
  lemma JumpSemantics(s: State, m: int)
    requires S.WellFormed(s.mem) && S.CanPop(s.mem)
    ensures var j := Execute(s, Instruction(9, m));
      j.pc == S.Top(s.mem) && j.mem.sp == s.mem.sp - 1 && j.mem.cells == s.mem.cells
    ensures var c := Execute(s, Instruction(10, m));
      && c.mem.sp == s.mem.sp - 1 && c.mem.cells == s.mem.cells
      && (c.pc == m <== S.Top(s.mem) != 0)
      && (S.Top(s.mem) == 0 ==> c.pc == s.pc + 1)
  {
  }

  // ----- Characters -----

  /** CHO pops one slot and writes it, as an unsigned char, to the output. */
  lemma ChoWritesOneByte(s: State, m: int)
    requires S.WellFormed(s.mem) && S.CanPop(s.mem)
    ensures var r := Execute(s, Instruction(11, m));
      && r.mem.sp == s.mem.sp - 1
      && |r.output| == |s.output| + 1 && r.output[..|s.output|] == s.output
      && 0 <= r.output[|s.output|] < 256
      && (0 <= S.Top(s.mem) < 256 ==> r.output[|s.output|] == S.Top(s.mem))
  {
  }

  /** CHI pushes the next input character and consumes it, or EOF when there is none. */
  lemma ChiReadsOneCharacter(s: State, m: int)
    requires S.WellFormed(s.mem) && S.CanPush(s.mem)
    ensures var r := Execute(s, Instruction(12, m));
      && r.mem.sp == s.mem.sp + 1
      && (|s.input| == 0 ==> S.Top(r.mem) == EOF && r.input == [])
      && (|s.input| > 0 ==> S.Top(r.mem) == s.input[0] && [s.input[0]] + r.input == s.input)
  {
  }

  // ----- Flags -----

  /** HLT sets halt, NDB clears tracing; no opcode clears halt or sets tracing,
      and halt is only ever set by HLT, DIV and MOD. */
  lemma FlagsAreOneWay(s: State, ins: Instruction)
    requires S.WellFormed(s.mem) && CanExecute(s.mem, ins)
    ensures ins.op == 13 ==> Execute(s, ins).halt
    ensures ins.op == 14 ==> !Execute(s, ins).tracing
    ensures Execute(s, ins).tracing ==> s.tracing
    ensures s.halt ==> Execute(s, ins).halt
    ensures Execute(s, ins).halt && !s.halt ==> ins.op == 13 || ins.op == 19 || ins.op == 20
  {
  }

  /** The traced step keeps the flags one-way too. */
  lemma TraceStepFlags(s: State, ins: Instruction)
    requires S.WellFormed(s.mem) && CanTraceStep(s, ins)
    ensures TraceStep(s, ins).1.tracing ==> s.tracing
    ensures s.halt ==> TraceStep(s, ins).1.halt
  {
    if !(s.tracing && Mnemonic(ins.op).None?) {
      var s1 := if s.tracing then Announce(s, ins) else s;
      FlagsAreOneWay(s1, ins);
    }
  }

  /** Over a whole run tracing is never switched back on, and the outcome says
      why the run stopped. */
  lemma {:induction false} RunFlags(s: State, code: seq<Instruction>, fuel: nat)
    requires S.WellFormed(s.mem)
    ensures Run(s, code, fuel).1.tracing ==> s.tracing
    ensures Run(s, code, fuel).0 == Halted <==> Run(s, code, fuel).1.halt
    ensures Run(s, code, fuel).0 == Undefined ==> !CanStep(Run(s, code, fuel).1, code)
    ensures s.halt ==> Run(s, code, fuel) == (Halted, s)
    decreases fuel
  {
    if !s.halt && fuel > 0 && CanStep(s, code) {
      var (o, t) := Step(s, code);
      TraceStepFlags(s, code[s.pc]);
      if o == Stepped {
        RunFlags(t, code, fuel - 1);
      } else {
        assert t == s;
      }
    }
  }

  // ----- The tracer -----

  /** stackify lists exactly sp pairs, (i, stack[i]) for i from 0 through stack_size(). */
  lemma DumpListsOccupiedSlots(m: S.StackState)
    requires S.WellFormed(m) && 0 <= m.sp <= MAX_STACK_HEIGHT
    ensures |Dump(m)| == S.Size(m) + 1
    ensures forall i :: 0 <= i < |Dump(m)| ==> Dump(m)[i] == (i, m.cells[i])
    ensures m.sp == 0 ==> Dump(m) == []
  {
  }

  /** A traced step records the instruction with the address it was fetched
      from, then (unless it was NDB) the registers and dump after it. */
  lemma TraceStepRecords(s: State, ins: Instruction)
    requires S.WellFormed(s.mem) && CanTraceStep(s, ins) && s.tracing && 1 <= ins.op <= NUM_OPCODES
    ensures var (o, t) := TraceStep(s, ins);
      && o == Stepped
      && |t.trace| == |s.trace| + (if ins.op == 14 then 1 else 2)
      && t.trace[..|s.trace|] == s.trace
      && t.trace[|s.trace|] == Fetched(s.pc, OpNames[ins.op - 1], ins.m)
      && (ins.op != 14 ==> t.trace[|s.trace| + 1] == Status(t.pc, t.mem.bp, t.mem.sp, Dump(t.mem)))
  {
  }

  /** Without tracing the step is execute alone. */
  lemma UntracedStepIsExecute(s: State, ins: Instruction)
    requires S.WellFormed(s.mem) && CanTraceStep(s, ins) && !s.tracing
    ensures TraceStep(s, ins) == (Stepped, Execute(s, ins))
  {
  }

  /** Past the loaded program the table holds opcode 0: with tracing on,
      mnemonic exits; with tracing off, only pc moves. */
  lemma StepPastLoadedProgram(s: State, prog: seq<Instruction>)
    requires S.WellFormed(s.mem) && |prog| <= s.pc < MAX_CODE_LENGTH
    ensures CodeTable(prog)[s.pc] == Instruction(0, 0)
    ensures CanStep(s, CodeTable(prog))
    ensures s.tracing ==> Step(s, CodeTable(prog)) == (MnemonicFailed, s)
    ensures !s.tracing ==> Step(s, CodeTable(prog)) == (Stepped, s.(pc := s.pc + 1))
  {
  }

  // ----- The loader, the mnemonic table and the listing -----

  /** The loader stores the longest run of lines that each parse two integers
      and carry a legal opcode. */
  lemma {:induction false} LoaderStoresLongestLegalPrefix(lines: seq<Line>)
    ensures var p := LegalPrefix(lines);
      && (forall i :: 0 <= i < |p| ==>
            lines[i].numRead >= 2 && !IllegalOpcode(lines[i].op) && p[i] == Instruction(lines[i].op, lines[i].m))
      && (|p| < |lines| ==> lines[|p|].numRead < 2 || IllegalOpcode(lines[|p|].op))
    ensures Load(lines) == LoadOverflow <==> |LegalPrefix(lines)| >= MAX_CODE_LENGTH
    ensures Load(lines).Loaded? ==> Load(lines).count < MAX_CODE_LENGTH
  {
    var p := LegalPrefix(lines);
    forall i | 0 <= i < |p|
      ensures lines[i].numRead >= 2 && !IllegalOpcode(lines[i].op) && p[i] == Instruction(lines[i].op, lines[i].m)
    {
      LegalPrefixAt(lines, i);
    }
    LegalPrefixAt(lines, |p|);
  }

  /** A first line with opcode 99 loads nothing, and mnemonic rejects 99. */
  lemma IllegalFirstOpcodeLoadsNothing(rest: seq<Line>, m: int)
    ensures LegalPrefix([Line(2, 99, m)] + rest) == []
    ensures Load([Line(2, 99, m)] + rest) == Loaded(0)
    ensures Mnemonic(99) == None
  {
  }

  /** mnemonic validates opc - 1, so raw opcodes 1..28 pass; 28 is one beyond
      the 27-entry table, and the lookup succeeds exactly for 1..27. */
  lemma MnemonicWindow(opc: int)
    ensures !IllegalOpcode(opc - 1) <==> 1 <= opc <= NUM_OPCODES + 1
    ensures |OpNames| == NUM_OPCODES
    ensures opc != NUM_OPCODES + 1 ==> (Mnemonic(opc).Some? <==> 1 <= opc <= NUM_OPCODES)
  {
  }

  /** The table's names are pairwise distinct. */
  lemma NamesDistinct()
    ensures forall i, j :: 0 <= i < j < |OpNames| ==> OpNames[i] != OpNames[j]
  {
  }

  lemma {:induction false} FindNameFinds(name: string, i: nat, k: nat)
    requires i <= k < |OpNames| && OpNames[k] == name
    requires forall j :: i <= j < k ==> OpNames[j] != name
    ensures FindName(name, i) == Some(k + 1)
    decreases k - i
  {
    if i < k {
      FindNameFinds(name, i + 1, k);
    }
  }

  /** A mnemonic names its opcode uniquely: looking the name up gives the opcode back. */
  lemma MnemonicRoundTrip(opc: int)
    requires 1 <= opc <= NUM_OPCODES
    ensures OpcodeOf(Mnemonic(opc).value) == Some(opc)
  {
    var k := opc - 1;
    forall j | 0 <= j < k
      ensures OpNames[j] != OpNames[k]
    {
      NamesDistinct();
    }
    FindNameFinds(OpNames[k], 0, k);
  }

  /** The listing reproduces every loaded instruction: its address, an opcode
      recoverable from the mnemonic, and its operand. */
  lemma ListingRoundTrip(prog: seq<Instruction>)
    requires LegalProgram(prog) && Listing(prog).Some?
    ensures var rows := Listing(prog).value;
      && |rows| == |prog|
      && forall i :: 0 <= i < |prog| ==>
           rows[i].addr == i && OpcodeOf(rows[i].name) == Some(prog[i].op) && rows[i].m == prog[i].m
  {
    var rows := Listing(prog).value;
    forall i | 0 <= i < |prog|
      ensures OpcodeOf(rows[i].name) == Some(prog[i].op)
    {
      MnemonicRoundTrip(prog[i].op);
    }
  }

  /** The loader lets opcode 0 through, and the listing then exits on it: a loaded
      program fails listing exactly when it contains opcode 0. */
  lemma ListingFailsExactlyOnZero(prog: seq<Instruction>)
    requires LegalProgram(prog)
    ensures Listing(prog).None? <==> exists i :: 0 <= i < |prog| && prog[i].op == 0
  {
    if Listing(prog).None? {
      var i :| 0 <= i < |prog| && Mnemonic(prog[i].op).None?;
      assert prog[i].op == 0;
    }
  }

  // ----- Whole runs of small programs -----

  /** execute never reads or writes the trace. */
  lemma ExecuteIgnoresTrace(s: State, ins: Instruction, tr: seq<TraceEvent>)
    requires S.WellFormed(s.mem) && CanExecute(s.mem, ins)
    ensures Execute(s.(trace := tr), ins) == Execute(s, ins).(trace := tr)
  {
    var t := s.(trace := tr);
    assert t.mem == s.mem && t.(trace := s.trace) == s;
    if ins.op <= 4 {
    } else if ins.op <= 8 {
    } else if ins.op <= 12 {
    } else if ins.op <= 16 {
    } else if ins.op <= 20 {
    } else if ins.op <= 24 {
    } else {
    }
  }

  /** One traced turn of run_prog for an opcode with a name: apart from the
      trace, the next state is execute's, and the run goes on from it. */
  lemma TracedTurn(s: State, code: seq<Instruction>, fuel: nat) returns (t: State)
    requires S.WellFormed(s.mem) && s.tracing && !s.halt && fuel > 0 && 0 <= s.pc < |code|
    requires 1 <= code[s.pc].op <= NUM_OPCODES && CanExecute(s.mem, code[s.pc])
    requires Execute(s, code[s.pc]).mem.sp <= MAX_STACK_HEIGHT
    ensures S.WellFormed(t.mem)
    ensures var e := Execute(s, code[s.pc]);
      && t.mem == e.mem && t.pc == e.pc && t.halt == e.halt && t.tracing == e.tracing
      && t.input == e.input && t.output == e.output
    ensures Run(s, code, fuel) == Run(t, code, fuel - 1)
  {
    var ins := code[s.pc];
    var a := Announce(s, ins);
    ExecuteIgnoresTrace(s, ins, a.trace);
    assert a == s.(trace := a.trace);
    t := Step(s, code).1;
  }

  /** A traced LIT turn. */
  lemma LitTurn(s: State, code: seq<Instruction>, fuel: nat) returns (t: State)
    requires S.WellFormed(s.mem) && s.tracing && !s.halt && fuel > 0 && 0 <= s.pc < |code|
    requires code[s.pc].op == 1 && S.CanPush(s.mem)
    ensures S.WellFormed(t.mem) && t.mem == S.Push(s.mem, code[s.pc].m)
    ensures t.pc == s.pc + 1 && !t.halt && t.tracing && t.output == s.output
    ensures Run(s, code, fuel) == Run(t, code, fuel - 1)
  {
    t := TracedTurn(s, code, fuel);
  }

  /** Two traced LIT turns in a row. */
  lemma TwoLitTurns(s: State, code: seq<Instruction>, fuel: nat) returns (t: State)
    requires S.WellFormed(s.mem) && s.tracing && !s.halt && fuel >= 2 && 0 <= s.pc && s.pc + 1 < |code|
    requires code[s.pc].op == 1 && code[s.pc + 1].op == 1 && 0 <= s.mem.sp && s.mem.sp + 2 <= MAX_STACK_HEIGHT
    ensures S.WellFormed(t.mem) && t.mem.sp == s.mem.sp + 2
    ensures t.mem.cells[s.mem.sp] == code[s.pc].m && t.mem.cells[s.mem.sp + 1] == code[s.pc + 1].m
    ensures t.pc == s.pc + 2 && !t.halt && t.tracing && t.output == s.output
    ensures Run(s, code, fuel) == Run(t, code, fuel - 2)
  {
    var f1 := fuel - 1;
    var u := LitTurn(s, code, fuel);
    var r := Run(u, code, f1);
    t := LitTurn(u, code, f1);
    assert Run(s, code, fuel) == r == Run(t, code, f1 - 1);
  }

  /** A traced turn of ADD, SUB or a comparison. */
  lemma BinaryTurn(s: State, code: seq<Instruction>, fuel: nat) returns (t: State)
    requires S.WellFormed(s.mem) && s.tracing && !s.halt && fuel > 0 && 0 <= s.pc < |code|
    requires IsBinary(code[s.pc].op) && 2 <= s.mem.sp <= MAX_STACK_HEIGHT
    ensures S.WellFormed(t.mem) && t.mem.sp == s.mem.sp - 1
    ensures t.mem.cells[s.mem.sp - 2] == BinaryOp(code[s.pc].op, s.mem.cells[s.mem.sp - 1], s.mem.cells[s.mem.sp - 2])
    ensures t.pc == s.pc + 1 && !t.halt && t.tracing && t.output == s.output
    ensures Run(s, code, fuel) == Run(t, code, fuel - 1)
  {
    BinaryPopsTwoPushesOne(s, code[s.pc]);
    t := TracedTurn(s, code, fuel);
  }

  /** A traced DIV turn: soft halt on a zero divisor, the C quotient otherwise. */
  lemma DivTurn(s: State, code: seq<Instruction>, fuel: nat) returns (t: State)
    requires S.WellFormed(s.mem) && s.tracing && !s.halt && fuel > 0 && 0 <= s.pc < |code|
    requires code[s.pc].op == 19 && 2 <= s.mem.sp <= MAX_STACK_HEIGHT
    ensures S.WellFormed(t.mem) && t.pc == s.pc + 1 && t.tracing && t.output == s.output
    ensures var a, b := s.mem.cells[s.mem.sp - 1], s.mem.cells[s.mem.sp - 2];
      if b == 0 then t.halt && t.mem.sp == s.mem.sp - 2
      else !t.halt && t.mem.sp == s.mem.sp - 1 && t.mem.cells[s.mem.sp - 2] == CDiv(a, b)
    ensures Run(s, code, fuel) == Run(t, code, fuel - 1)
  {
    t := TracedTurn(s, code, fuel);
  }

  /** A traced HLT turn: the run stops after it with the stack as it was. */
  lemma HaltTurn(s: State, code: seq<Instruction>, fuel: nat) returns (t: State)
    requires S.WellFormed(s.mem) && s.tracing && !s.halt && fuel > 0 && 0 <= s.pc < |code|
    requires code[s.pc].op == 13 && s.mem.sp <= MAX_STACK_HEIGHT
    ensures t.halt && t.mem == s.mem && t.pc == s.pc + 1 && t.output == s.output
    ensures Run(s, code, fuel) == (Halted, t)
  {
    t := TracedTurn(s, code, fuel);
  }

  /** A traced CHO turn. */
  lemma ChoTurn(s: State, code: seq<Instruction>, fuel: nat) returns (t: State)
    requires S.WellFormed(s.mem) && s.tracing && !s.halt && fuel > 0 && 0 <= s.pc < |code|
    requires code[s.pc].op == 11 && S.CanPop(s.mem)
    ensures S.WellFormed(t.mem) && t.mem.sp == s.mem.sp - 1
    ensures t.output == s.output + [UnsignedChar(S.Top(s.mem))]
    ensures t.pc == s.pc + 1 && !t.halt && t.tracing
    ensures Run(s, code, fuel) == Run(t, code, fuel - 1)
  {
    t := TracedTurn(s, code, fuel);
  }

  /** machine, for a program that loads and lists: the run starts from the
      initialized state with its status printed. */
  lemma BootRunsLoadedProgram(lines: seq<Line>, prog: seq<Instruction>, input: seq<int>, fuel: nat)
    requires LegalPrefix(lines) == prog && |prog| < MAX_CODE_LENGTH && Listing(prog).Some?
    ensures Boot(lines, input, fuel) == Run(Report(Initialize(Static(input))), CodeTable(prog), fuel)
  {
  }

  /** From an empty traced stack at pc 0: "LIT 65; CHO; HLT". */
  lemma WriteCharacterRun(s0: State, code: seq<Instruction>, fuel: nat)
    requires S.WellFormed(s0.mem) && s0.mem.sp == 0 && s0.pc == 0 && s0.tracing && !s0.halt && fuel >= 3
    requires |code| >= 3 && code[0] == Instruction(1, 65) && code[1] == Instruction(11, 0) && code[2] == Instruction(13, 0)
    ensures var r := Run(s0, code, fuel);
      r.0 == Halted && r.1.output == s0.output + [65] && r.1.mem.sp == 0 && r.1.pc == 3
  {
    var f1, f2 := fuel - 1, fuel - 2;
    var s1 := LitTurn(s0, code, fuel);
    var r1 := Run(s1, code, f1);
    var s2 := ChoTurn(s1, code, f1);
    var r2 := Run(s2, code, f2);
    var s3 := HaltTurn(s2, code, f2);
    assert Run(s0, code, fuel) == r1 == r2 == (Halted, s3);
  }

  /** "LIT 65; CHO; HLT" writes the byte 65, empties the stack and halts. */
  lemma RunWritesCharacter(input: seq<int>, fuel: nat)
    requires fuel >= 3
    ensures var r := Boot([Line(2, 1, 65), Line(2, 11, 0), Line(2, 13, 0)], input, fuel);
      r.0 == Halted && r.1.output == [65] && r.1.mem.sp == 0 && r.1.pc == 3
  {
    var lines := [Line(2, 1, 65), Line(2, 11, 0), Line(2, 13, 0)];
    var prog := [Instruction(1, 65), Instruction(11, 0), Instruction(13, 0)];
    LoaderStoresLongestLegalPrefix(lines);
    assert LegalPrefix(lines) == prog;
    assert Listing(prog).Some?;
    BootRunsLoadedProgram(lines, prog, input, fuel);
    WriteCharacterRun(Report(Initialize(Static(input))), CodeTable(prog), fuel);
  }

  /** From an empty traced stack at pc 0: "LIT 10; LIT 0; DIV; HLT". */
  lemma DivideRun(s0: State, code: seq<Instruction>, fuel: nat)
    requires S.WellFormed(s0.mem) && s0.mem.sp == 0 && s0.pc == 0 && s0.tracing && !s0.halt && fuel >= 4
    requires |code| >= 4 && code[0] == Instruction(1, 10) && code[1] == Instruction(1, 0)
    requires code[2] == Instruction(19, 0) && code[3] == Instruction(13, 0)
    ensures var r := Run(s0, code, fuel);
      r.0 == Halted && r.1.pc == 4 && r.1.mem.sp == 1 && S.Top(r.1.mem) == 0
  {
    var f2, f3 := fuel - 2, fuel - 3;
    var s2 := TwoLitTurns(s0, code, fuel);
    var r2 := Run(s2, code, f2);
    var s3 := DivTurn(s2, code, f2);
    var r3 := Run(s3, code, f3);
    var s4 := HaltTurn(s3, code, f3);
    assert Run(s0, code, fuel) == r2 == r3 == (Halted, s4);
  }

  /** "LIT 10; LIT 0; DIV; HLT": the divisor is the value beneath the top (10),
      so DIV computes 0 / 10, does not halt, and HLT ends the run with 0 on top. */
  lemma RunDividesTopByBeneath(input: seq<int>, fuel: nat)
    requires fuel >= 4
    ensures var r := Boot([Line(2, 1, 10), Line(2, 1, 0), Line(2, 19, 0), Line(2, 13, 0)], input, fuel);
      r.0 == Halted && r.1.pc == 4 && r.1.mem.sp == 1 && S.Top(r.1.mem) == 0
  {
    var lines := [Line(2, 1, 10), Line(2, 1, 0), Line(2, 19, 0), Line(2, 13, 0)];
    var prog := [Instruction(1, 10), Instruction(1, 0), Instruction(19, 0), Instruction(13, 0)];
    LoaderStoresLongestLegalPrefix(lines);
    assert LegalPrefix(lines) == prog;
    assert Listing(prog).Some?;
    BootRunsLoadedProgram(lines, prog, input, fuel);
    DivideRun(Report(Initialize(Static(input))), CodeTable(prog), fuel);
  }

  /** From an empty traced stack at pc 0: "LIT 0; LIT 10; DIV". */
  lemma ZeroDivisorRun(s0: State, code: seq<Instruction>, fuel: nat)
    requires S.WellFormed(s0.mem) && s0.mem.sp == 0 && s0.pc == 0 && s0.tracing && !s0.halt && fuel >= 3
    requires |code| >= 3 && code[0] == Instruction(1, 0) && code[1] == Instruction(1, 10) && code[2] == Instruction(19, 0)
    ensures var r := Run(s0, code, fuel);
      r.0 == Halted && r.1.pc == 3 && r.1.mem.sp == 0
  {
    var f2, f3 := fuel - 2, fuel - 3;
    var s2 := TwoLitTurns(s0, code, fuel);
    var r2 := Run(s2, code, f2);
    var s3 := DivTurn(s2, code, f2);
    assert s3.halt;
    assert Run(s0, code, fuel) == r2 == Run(s3, code, f3) == (Halted, s3);
  }

  /** "LIT 0; LIT 10; DIV": the divisor beneath the top is 0, so DIV halts the
      run with both operands popped and nothing pushed. */
  lemma RunSoftHaltsOnZeroDivisor(input: seq<int>, fuel: nat)
    requires fuel >= 3
    ensures var r := Boot([Line(2, 1, 0), Line(2, 1, 10), Line(2, 19, 0)], input, fuel);
      r.0 == Halted && r.1.pc == 3 && r.1.mem.sp == 0
  {
    var lines := [Line(2, 1, 0), Line(2, 1, 10), Line(2, 19, 0)];
    var prog := [Instruction(1, 0), Instruction(1, 10), Instruction(19, 0)];
    LoaderStoresLongestLegalPrefix(lines);
    assert LegalPrefix(lines) == prog;
    assert Listing(prog).Some?;
    BootRunsLoadedProgram(lines, prog, input, fuel);
    ZeroDivisorRun(Report(Initialize(Static(input))), CodeTable(prog), fuel);
  }

  /** From an empty traced stack at pc 0: "LIT 5; LIT 3; SUB; HLT". */
  lemma SubtractRun(s0: State, code: seq<Instruction>, fuel: nat)
    requires S.WellFormed(s0.mem) && s0.mem.sp == 0 && s0.pc == 0 && s0.tracing && !s0.halt && fuel >= 4
    requires |code| >= 4 && code[0] == Instruction(1, 5) && code[1] == Instruction(1, 3)
    requires code[2] == Instruction(17, 0) && code[3] == Instruction(13, 0)
    ensures var r := Run(s0, code, fuel);
      r.0 == Halted && r.1.mem.sp == 1 && S.Top(r.1.mem) == -2
  {
    var f2, f3 := fuel - 2, fuel - 3;
    var s2 := TwoLitTurns(s0, code, fuel);
    var r2 := Run(s2, code, f2);
    var s3 := BinaryTurn(s2, code, f2);
    var r3 := Run(s3, code, f3);
    var s4 := HaltTurn(s3, code, f3);
    assert Run(s0, code, fuel) == r2 == r3 == (Halted, s4);
  }

  /** "LIT 5; LIT 3; SUB; HLT" leaves 3 - 5: SUB subtracts the lower value from the top. */
  lemma RunSubtractsLowerFromTop(input: seq<int>, fuel: nat)
    requires fuel >= 4
    ensures var r := Boot([Line(2, 1, 5), Line(2, 1, 3), Line(2, 17, 0), Line(2, 13, 0)], input, fuel);
      r.0 == Halted && r.1.mem.sp == 1 && S.Top(r.1.mem) == -2
  {
    var lines := [Line(2, 1, 5), Line(2, 1, 3), Line(2, 17, 0), Line(2, 13, 0)];
    var prog := [Instruction(1, 5), Instruction(1, 3), Instruction(17, 0), Instruction(13, 0)];
    LoaderStoresLongestLegalPrefix(lines);
    assert LegalPrefix(lines) == prog;
    assert Listing(prog).Some?;
    BootRunsLoadedProgram(lines, prog, input, fuel);
    SubtractRun(Report(Initialize(Static(input))), CodeTable(prog), fuel);
  }

  /** Whatever the program, a traced run that reaches an address past the
      loaded instructions exits there, in mnemonic, with the state unchanged. */
  lemma RunPastLoadedProgramExits(s: State, prog: seq<Instruction>, fuel: nat)
    requires S.WellFormed(s.mem) && s.tracing && !s.halt && fuel > 0
    requires |prog| <= s.pc < MAX_CODE_LENGTH
    ensures Run(s, CodeTable(prog), fuel) == (IllegalOpcodeExit, s)
  {
    StepPastLoadedProgram(s, prog);
  }

  /** The one-line program "LIT m" has no HLT: under tracing, its run meets the
      zeroed slot after it and mnemonic exits there. */
  lemma RunOffTheEndExits(input: seq<int>, m: int, fuel: nat)
    requires fuel >= 2
    ensures var r := Boot([Line(2, 1, m)], input, fuel);
      r.0 == IllegalOpcodeExit && r.1.pc == 1 && r.1.mem.sp == 1
  {
    var lines := [Line(2, 1, m)];
    var prog := [Instruction(1, m)];
    LoaderStoresLongestLegalPrefix(lines);
    assert LegalPrefix(lines) == prog;
    assert Listing(prog).Some?;
    BootRunsLoadedProgram(lines, prog, input, fuel);
    var code := CodeTable(prog);
    var s0 := Report(Initialize(Static(input)));
    var f1 := fuel - 1;
    var s1 := LitTurn(s0, code, fuel);
    RunPastLoadedProgramExits(s1, prog, f1);
    assert Run(s0, code, fuel) == Run(s1, code, f1) == (IllegalOpcodeExit, s1);
  }

  /** Any program that loads but contains opcode 0 exits while it is being
      listed, before its first step. */
  lemma LoadedZeroOpcodeExitsAtListing(lines: seq<Line>, input: seq<int>, fuel: nat)
    requires |LegalPrefix(lines)| < MAX_CODE_LENGTH
    requires exists i :: 0 <= i < |LegalPrefix(lines)| && LegalPrefix(lines)[i].op == 0
    ensures Boot(lines, input, fuel).0 == IllegalOpcodeExit
  {
    ListingFailsExactlyOnZero(LegalPrefix(lines));
  }

  /** The example "LIT 7; 0 0; HLT": opcode 0 passes the loader, so the table
      holds all three lines, and the listing exits on the second. */
  lemma ZeroOpcodeExample(input: seq<int>, fuel: nat)
    ensures Load([Line(2, 1, 7), Line(2, 0, 0), Line(2, 13, 0)]) == Loaded(3)
    ensures Boot([Line(2, 1, 7), Line(2, 0, 0), Line(2, 13, 0)], input, fuel).0 == IllegalOpcodeExit
  {
    var lines := [Line(2, 1, 7), Line(2, 0, 0), Line(2, 13, 0)];
    var prog := [Instruction(1, 7), Instruction(0, 0), Instruction(13, 0)];
    LoaderStoresLongestLegalPrefix(lines);
    assert LegalPrefix(lines) == prog;
    assert prog[1].op == 0;
    LoadedZeroOpcodeExitsAtListing(lines, input, fuel);
  }

  /** Filling all 512 slots with legal lines triggers the too-many-instructions exit. */
  lemma FullTableExits(lines: seq<Line>, input: seq<int>, fuel: nat)
    requires |lines| >= MAX_CODE_LENGTH
    requires forall i :: 0 <= i < |lines| ==> lines[i].numRead >= 2 && 0 <= lines[i].op <= NUM_OPCODES
    ensures Load(lines) == LoadOverflow
    ensures Boot(lines, input, fuel).0 == TooManyInstructions
  {
    LoaderStoresLongestLegalPrefix(lines);
  }

  // ----- invariant_check -----

  /** The unused consistency check rejects the state initialize produces (bp == 0). */
  lemma InvariantCheckRejectsInitialState(input: seq<int>)
    ensures !InvariantCheckPasses(Initialize(Static(input)))
  {
  }
}

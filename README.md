# PM/0 stack machine — a Dafny model of its execution engine

PM/0 is a small stack virtual machine. It reads a program file of
`opcode M` integer pairs into a 512-slot instruction table. It lists the
program, then fetches and executes one instruction at a time. The operand
stack is a 2048-slot array of `int` with two cursors: `sp` (the next free
slot) and `bp` (the base of the current frame). A run ends when `halt` is
set, either by `HLT` or by `DIV`/`MOD` with a zero divisor. It also ends,
with a fatal exit in `mnemonic`, when a traced run reaches an address past
the loaded program. While
`tracing` is on, every step prints the instruction with its mnemonic,
followed by the registers and the occupied stack slots. `NDB` switches
tracing off for good.

The model has nine modules in eight files; `Defs` and `Wrappers` share
`defs.dfy`:

- `Defs` (`defs.dfy`) holds the capacities and the `Instruction` record,
  and `Wrappers` (also `defs.dfy`) an `Option` type.
- `Opcodes` (`opcodes.dfy`) is `illegal_opcode` from `instructions.c`.
- `CArith` (`c_arith.dfy`) gives C99's truncating `/` and `%`, and the
  conversion to `unsigned char` done by `putc`.
- `StackSpec` (`stack_spec.dfy`) is the stack store of `stack.c` as a value:
  which accesses are defined, what each operation returns, and lemmas on
  them.
- `StackStore` (`stack_store.dfy`) is the same store as a class. It has an
  `array<int>` and the two cursors. Each method is proved to change the
  store exactly as its `StackSpec` function says.
- `MachineSpec` (`machine_spec.dfy`) is `machine.c` as functions on a
  machine state. It covers:
  - the mnemonic table;
  - `execute`, opcode by opcode;
  - the traced step and `run_prog`, bounded by fuel;
  - the loader and the listing;
  - `machine`, as `Boot`.
- `MachineProps` (`machine_props.dfy`) holds the properties of
  `MachineSpec`: each opcode family, call and return, the one-way flags,
  the tracer, the loader and the listing, and whole runs of small programs.
- `Engine` (`engine.dfy`) is `machine.c` as a class with the machine's
  registers, the instruction table as an `array` and the stack object. Its
  methods follow the C functions, and each is proved against its
  `MachineSpec` counterpart. `RunMachine` is the whole `machine` entry
  point, proved equal to `MachineSpec.Boot`.

The C code reads past an array in some cases, for example a pop from an
empty stack or `pc` beyond `instr_list`. That access is undefined behaviour.
In the model it is a precondition of the operation (`CanExecute`,
`CanTraceStep`). The fuel-bounded run stops with the outcome `Undefined`
wherever the next step would make such an access.

Points where the code does not do what its comments and names suggest:

- **DIV and MOD operand order.** `a` is the top and `b` is the value
  beneath it. The result is `a / b`, and the zero test is on `b`. So
  "LIT 10; LIT 0; DIV" computes 0 / 10 = 0 and does not halt. "LIT 0;
  LIT 10; DIV" is the program that halts (`RunDividesTopByBeneath`,
  `RunSoftHaltsOnZeroDivisor`). The same order makes SUB push top − beneath.
- **Opcode 0 is legal for the loader.** `illegal_opcode` accepts 0..27, and
  the "0 is also invalid" remark beside it does not match the code. Opcode
  0 loads, but `mnemonic` rejects it. So `print_program` exits on it before
  the run starts (`ListingFailsExactlyOnZero`).
- **`mnemonic` checks `opc - 1`.** It therefore accepts 1..28. Raw 28 would
  read one past the 27-entry name table, so `Mnemonic` requires that 28
  never reaches it. The loader cannot produce 28, and with tracing on the
  step is undefined for it (`MnemonicWindow`).
- **The instruction table is static storage.** Past the loaded program it
  holds `(0, 0)`. Running off the end while tracing meets `mnemonic(0)`,
  which exits. Without tracing the step only advances `pc`
  (`StepPastLoadedProgram`, `RunPastLoadedProgramExits`). A program may
  still stop without `HLT`: a zero divisor soft-halts it.

## Model

| member | source | states |
|---|---|---|
| Opcodes.IllegalOpcode | instructions.c:10-13 | computes the validator: true exactly when the opcode is below 0 or above 27 (stated by the lemmas below) |
| Opcodes.NegativeIsIllegal | instructions.c:10-13 | every negative opcode is illegal |
| Opcodes.AboveRangeIsIllegal | instructions.c:10-13 | every opcode above 27 is illegal |
| Opcodes.ZeroIsLegal | instructions.c:10-13 | opcode 0 passes the check, despite the remark beside it |
| Opcodes.LegalSetIsZeroToTwentySeven | instructions.c:10-13 | the legal opcodes form exactly the 28-element set 0..27 |
| Opcodes.IntervalFacts | instructions.c:10-13 | membership in, and size of, the integer range used for the legal set |
| CArith.UnsignedChar | machine.c:149-152 | putc's conversion gives a byte 0..255 that is congruent to the value modulo 256 |
| CArith.CDiv | machine.c:191-208 | C's quotient: Dafny's quotient on a natural dividend and positive divisor; zero, or negative exactly when the operand signs differ |
| CArith.CMod | machine.c:210-227 | C's remainder: Dafny's remainder on a natural dividend and positive divisor |
| CArith.TruncatedDivision | machine.c:191-227 | C division and remainder rebuild the dividend; the remainder is smaller than the divisor and has the dividend's sign |
| CArith.EuclideanOnNaturals | machine.c:191-227 | the quotient and remainder on naturals that the truncating operators are built from |
| CArith.TruncatesTowardZero | machine.c:191-227 | -7 / 2 is -3 with remainder -1 in C, whereas Euclidean division gives -4 and 1 |
| StackSpec.Initial | stack.c:24-33 | computes the store after initialize_stack: sp = bp = 0 and 2048 zero slots (see InitialIsZeroed) |
| StackSpec.IsEmpty | stack.c:42-45 | computes stack_is_empty: sp is 0 (see SizeIsOffByOne) |
| StackSpec.IsFull | stack.c:51-54 | computes stack_is_full: sp is 2048 (see SizeIsOffByOne) |
| StackSpec.ReplaceTop | stack.c:19-22 | computes replace_top: slot sp - 1 overwritten (see TopUpdatesTouchOnlyTop) |
| StackSpec.Size | stack.c:36-39 | computes stack_size, sp - 1 (see SizeIsOffByOne) |
| StackSpec.Push | stack.c:57-68 | computes push_stack: slot sp written, sp raised (see PushWritesOneSlot) |
| StackSpec.Pop | stack.c:82-90 | computes pop_stack: sp lowered, the old top returned (see PopReadsTop) |
| StackSpec.Negate | stack.c:102-105 | computes negate: slot sp - 1 negated (see TopUpdatesTouchOnlyTop) |
| StackSpec.Top | stack.c:108-111 | computes top: slot sp - 1, defined only when sp is 1..2048 |
| StackSpec.AllocateSpace | stack.c:116-128 | computes allocate_space: sp moved by m, also past the capacity (see AllocateKeepsCells) |
| StackSpec.RetAtX | stack.c:142-150 | computes ret_at_x: -1 above the capacity, the slot otherwise (see RetAtXCases) |
| StackSpec.Sto | stack.c:152-157 | computes sto: the store at top + o, two slots dropped (see StoEffect) |
| StackSpec.Rtn | stack.c:159-162 | computes rtn: bp from the frame's first slot, sp lowered by two (see CalRtnRoundTrip) |
| StackSpec.Cal | stack.c:164-169 | computes cal: a two-slot frame of bp and the address (see CalRtnRoundTrip) |
| StackSpec.InitialIsZeroed | stack.c:24-33 | initialize_stack leaves sp = bp = 0 and all 2048 slots 0, empty and not full |
| StackSpec.PushWritesOneSlot | stack.c:57-68 | a push writes slot sp only, raises sp by one, keeps bp, and the new top is the value |
| StackSpec.PopReadsTop | stack.c:82-90 | a pop returns slot sp - 1, lowers sp by one and changes no slot |
| StackSpec.PushPopRoundTrip | stack.c:57-90 | the value pushed is the value popped; sp and the slots below it are restored |
| StackSpec.TopUpdatesTouchOnlyTop | stack.c:19-105 | replace_top and negate change slot sp - 1 only and keep sp |
| StackSpec.AllocateKeepsCells | stack.c:116-128 | allocate_space moves sp by m and keeps every slot and bp |
| StackSpec.RetAtXCases | stack.c:142-150 | ret_at_x gives -1 above the capacity and the slot's value inside it |
| StackSpec.RetAtXAfterPush | stack.c:57-150 | after a push, ret_at_x of the pushed slot is the value and of every other slot what it was |
| StackSpec.RetAtXAfterSto | stack.c:142-157 | after sto, ret_at_x of the target slot is the stored value and of every other slot what it was |
| StackSpec.StoEffect | stack.c:152-157 | sto stores the second slot at top + o, changes no other slot, and drops two slots |
| StackSpec.CalRtnRoundTrip | stack.c:159-169 | cal saves bp and the return address in a new frame; rtn restores bp and sp and leaves the slots below intact |
| StackSpec.SizeIsOffByOne | stack.c:36-54 | stack_size is sp - 1; empty means size -1 and full means size 2047 |
| StackStore.Stack.constructor | stack.c:11-17 | the static stack starts zeroed, with both cursors 0 |
| StackStore.Stack.Initialize | stack.c:24-33 | the zeroing loop leaves exactly the initial store |
| StackStore.Stack.ReplaceTop | stack.c:19-22 | the array and cursors change exactly as StackSpec.ReplaceTop says |
| StackStore.Stack.Size | stack.c:36-39 | equals StackSpec.Size of the store |
| StackStore.Stack.IsEmpty | stack.c:42-45 | agrees with StackSpec.IsEmpty of the store |
| StackStore.Stack.IsFull | stack.c:51-54 | agrees with StackSpec.IsFull of the store |
| StackStore.Stack.Push | stack.c:57-68 | the array and cursors change exactly as StackSpec.Push says |
| StackStore.Stack.Pop | stack.c:82-90 | returns and changes exactly what StackSpec.Pop says |
| StackStore.Stack.Negate | stack.c:102-105 | the array and cursors change exactly as StackSpec.Negate says |
| StackStore.Stack.Top | stack.c:108-111 | equals StackSpec.Top of the store |
| StackStore.Stack.AllocateSpace | stack.c:116-128 | the array and cursors change exactly as StackSpec.AllocateSpace says |
| StackStore.Stack.RetAtX | stack.c:142-150 | equals StackSpec.RetAtX of the store |
| StackStore.Stack.Sto | stack.c:152-157 | the array and cursors change exactly as StackSpec.Sto says |
| StackStore.Stack.Rtn | stack.c:159-162 | the array and cursors change exactly as StackSpec.Rtn says |
| StackStore.Stack.Cal | stack.c:164-169 | the array and cursors change exactly as StackSpec.Cal says |
| StackStore.PushThenPop | stack.c:57-90 | on the array: pop after push returns the pushed value and restores sp, bp and the occupied slots |
| StackStore.CallThenReturn | stack.c:159-169 | on the array: rtn after cal restores sp, bp and the occupied slots |
| MachineSpec.Mnemonic | machine.c:51-68 | a name exists exactly for opcodes 1..27, and it is entry opc - 1 of the table |
| MachineSpec.Static | machine.c:6-23 | computes static storage before initialize: a zeroed stack, pc 0, halt and tracing off, nothing written yet |
| MachineSpec.Initialize | machine.c:69-79 | computes initialize: stack zeroed, pc 0, halt off, tracing on, streams and trace kept (see InitializeResets) |
| MachineSpec.BinaryOp | machine.c:170-263 | computes the result of ADD, SUB and EQL..GEQ from the top a and the value b beneath it (see BinaryOpResults) |
| MachineSpec.Binary | machine.c:170-263 | computes the stack after a two-operand case: two pops and one push of `a op b` (see BinaryPopsTwoPushesOne) |
| MachineSpec.Mul | machine.c:182-189 | computes the stack after MUL: three pops and one push of the product of the first two (see MulConsumesThree) |
| MachineSpec.DivMod | machine.c:191-227 | computes DIV and MOD: the soft halt on a zero divisor, otherwise the C quotient or remainder pushed (see DivModPushesTruncated) |
| MachineSpec.Announce | machine.c:285-289 | computes the "==> addr:" line: the pre-increment pc, the mnemonic and M appended to the trace (see TraceStepRecords) |
| MachineSpec.Report | machine.c:300-312 | computes print_curr_stat: the registers and the stack dump appended to the trace (see TraceStepRecords) |
| MachineSpec.Step | machine.c:274-280 | computes one turn of run_prog: instr_list[pc] fetched and traced-executed (see StepPastLoadedProgram, TracedTurn) |
| MachineSpec.Execute | machine.c:82-269 | computes execute: pc incremented, then the opcode's case (well-formedness of the stack kept) |
| MachineSpec.Dispatch | machine.c:92-268 | computes the switch of execute, one case per opcode 1..27 |
| MachineSpec.TraceStep | machine.c:283-298 | computes execute_trace: announce, execute, report while tracing; fails where mnemonic exits |
| MachineSpec.Run | machine.c:274-280 | computes run_prog under a step bound: steps from instr_list[pc] until halt, a fatal exit, an undefined step or the bound |
| MachineSpec.ReadSingleInstruction | machine.c:372-389 | computes read_single_instruction: the pair read, and stop when the opcode is illegal or fewer than two integers were read |
| MachineSpec.Load | machine.c:343-369 | computes read_instruction_file: the count stored, or the overflow exit (see LoaderStoresLongestLegalPrefix) |
| MachineSpec.CodeTable | machine.c:343-369 | computes instr_list after loading: the program, then the zeroed static slots up to 512 |
| MachineSpec.Listing | machine.c:405-418 | computes print_program: one row per instruction, or the exit in mnemonic (see ListingRoundTrip) |
| MachineSpec.Boot | machine.c:420-437 | computes machine: initialize, load, list, print the status, run |
| MachineSpec.Dump | machine.c:314-323 | computes stackify: the pairs (i, ret_at_x(i)) below sp (see DumpListsOccupiedSlots) |
| MachineSpec.InvariantCheckPasses | machine.c:439-450 | computes invariant_check: true when neither of its exits would be taken |
| MachineSpec.LegalPrefix | machine.c:343-389 | the stored program is no longer than the input and holds only legal opcodes |
| MachineSpec.LegalPrefixAt | machine.c:343-389 | each stored line read two integers and had a legal opcode; the line that stops loading did not, unless the input ended |
| MachineProps.InitializeResets | machine.c:69-79 | from any state, initialize yields the zeroed stack, pc 0, halt off and tracing on, keeps the streams and trace, is idempotent, and leaves an empty dump |
| MachineProps.UndispatchedOpcodeOnlyAdvancesPc | machine.c:82-93 | an opcode without a case (0, or above 27) only increments pc |
| MachineProps.PcIncrementedBeforeDispatch | machine.c:84-85 | every opcode except RTN, CAL, JMP and JPC leaves pc at the next instruction |
| MachineProps.LitPushesOperand | machine.c:94-96 | LIT adds one slot holding M and changes nothing else |
| MachineProps.PsiPushesCopyOfTop | machine.c:112-117 | PSI pushes a copy of the current top |
| MachineProps.PrmPushesRelativeToBase | machine.c:119-122 | PRM pushes slot bp - M, or -1 when that address is above the capacity |
| MachineProps.PspPushesOldSp | machine.c:265-267 | PSP pushes sp as it was before the push |
| MachineProps.BinaryPopsTwoPushesOne | machine.c:170-263 | ADD, SUB and the comparisons replace the top two slots by `top op beneath` |
| MachineProps.BinaryOpResults | machine.c:176-263 | SUB is top minus beneath; the comparisons yield 0 or 1, with LSS meaning top < beneath and GEQ meaning top >= beneath |
| MachineProps.MulConsumesThree | machine.c:182-189 | MUL pops three slots and pushes the product of the top two |
| MachineProps.DivModByZeroSoftHalt | machine.c:191-227 | with a zero divisor (the slot beneath the top), DIV and MOD set halt, pop two slots and push nothing |
| MachineProps.DivModPushesTruncated | machine.c:191-227 | with a nonzero divisor, DIV and MOD push C's quotient and remainder: they rebuild the dividend, the remainder is smaller than the divisor and takes the dividend's sign, the quotient is truncated toward zero, and halt is unchanged |
| MachineProps.NegNegatesTop | machine.c:166-168 | NEG negates the top in place |
| MachineProps.StoStoresIndirect | machine.c:124-130 | STO stores the second slot at top + M and pops two slots |
| MachineProps.IncReservesSlots | machine.c:132-134 | INC is always defined and moves sp by M without changing any slot |
| MachineProps.CallSavesFrame | machine.c:103-106 | CAL builds a frame of the caller's bp and the address after CAL, moves bp to it and jumps to M |
| MachineProps.ReturnAfterBalancedBody | machine.c:98-106 | RTN after a body that kept sp and the frame returns to the address after CAL and restores bp and sp |
| MachineProps.CallThenReturn | machine.c:98-106 | CAL immediately followed by RTN restores pc + 1, bp, sp and the slots below the frame |
| MachineProps.JumpSemantics | machine.c:136-147 | JMP jumps to the popped top; JPC pops one slot and jumps to M exactly when it was nonzero |
| MachineProps.ChoWritesOneByte | machine.c:149-152 | CHO pops one slot and appends one byte to the output: the value itself when it is 0..255 |
| MachineProps.ChiReadsOneCharacter | machine.c:154-156 | CHI pushes the next input character and consumes it, or pushes EOF (-1) when the input is used up |
| MachineProps.FlagsAreOneWay | machine.c:158-227 | HLT sets halt and NDB clears tracing; no opcode clears halt or sets tracing; only HLT, DIV and MOD set halt |
| MachineProps.TraceStepFlags | machine.c:283-298 | a traced step never switches tracing on or clears halt |
| MachineProps.RunFlags | machine.c:274-280 | over a run tracing never comes back on; the outcome is Halted exactly when halt is set; a run that starts halted does nothing |
| MachineProps.DumpListsOccupiedSlots | machine.c:314-323 | stackify lists sp pairs (i, stack[i]) for i = 0..stack_size(), and nothing for an empty stack |
| MachineProps.TraceStepRecords | machine.c:283-304 | a traced step records the fetched address, mnemonic and M, then the registers and dump, unless the step was NDB |
| MachineProps.UntracedStepIsExecute | machine.c:283-298 | with tracing off a step is just execute |
| MachineProps.StepPastLoadedProgram | machine.c:274-298 | past the program the table holds (0, 0): fatal under tracing, a pc increment otherwise |
| MachineProps.LoaderStoresLongestLegalPrefix | machine.c:343-389 | the loader stores the longest run of legal two-integer lines; overflow happens exactly when 512 or more would be stored |
| MachineProps.IllegalFirstOpcodeLoadsNothing | machine.c:372-389 | a first line with opcode 99 loads nothing, and mnemonic rejects 99 |
| MachineProps.MnemonicWindow | machine.c:56-68 | the check on opc - 1 accepts raw 1..28; the table has 27 entries; below 28, a name exists exactly for 1..27 |
| MachineProps.NamesDistinct | machine.c:51-53 | the 27 mnemonics are pairwise distinct |
| MachineProps.FindNameFinds | machine.c:51-53 | looking up a name finds its first table position |
| MachineProps.MnemonicRoundTrip | machine.c:51-68 | looking up the mnemonic of opcode 1..27 gives that opcode back |
| MachineProps.ListingRoundTrip | machine.c:405-418 | the listing has one row per instruction, with its address, a mnemonic that maps back to its opcode, and its M |
| MachineProps.ListingFailsExactlyOnZero | machine.c:405-418 | a loaded program's listing exits exactly when it contains opcode 0 |
| MachineProps.ExecuteIgnoresTrace | machine.c:82-269 | execute neither reads nor writes the trace |
| MachineProps.TracedTurn | machine.c:274-298 | a traced turn of a named opcode acts like execute on everything but the trace, and the run continues from its result |
| MachineProps.LitTurn | machine.c:94-96 | a traced LIT turn pushes M, moves pc on and lets the run continue |
| MachineProps.TwoLitTurns | machine.c:94-96 | two traced LIT turns leave both operands in the next two slots |
| MachineProps.BinaryTurn | machine.c:170-263 | a traced two-operand turn leaves `top op beneath` one slot lower |
| MachineProps.DivTurn | machine.c:191-208 | a traced DIV turn soft-halts on a zero divisor, and otherwise pushes C's quotient and continues |
| MachineProps.HaltTurn | machine.c:158-160 | a traced HLT turn ends the run as Halted, with the stack unchanged |
| MachineProps.ChoTurn | machine.c:149-152 | a traced CHO turn pops the top and appends its byte to the output |
| MachineProps.BootRunsLoadedProgram | machine.c:420-437 | for a program that loads and lists, machine runs it from the initialized state after printing the status |
| MachineProps.WriteCharacterRun | machine.c:94-160 | from an empty traced stack, "LIT 65; CHO; HLT" appends 65 to the output and halts with an empty stack |
| MachineProps.RunWritesCharacter | machine.c:420-437 | for any step bound of at least 3, "LIT 65; CHO; HLT" outputs 65, empties the stack and halts at pc 3 |
| MachineProps.DivideRun | machine.c:191-208 | from an empty traced stack, "LIT 10; LIT 0; DIV; HLT" halts at HLT with 0 on top |
| MachineProps.RunDividesTopByBeneath | machine.c:191-208 | for any step bound of at least 4, "LIT 10; LIT 0; DIV; HLT" leaves 0 on top and halts at HLT, not at DIV |
| MachineProps.ZeroDivisorRun | machine.c:191-208 | from an empty traced stack, "LIT 0; LIT 10; DIV" halts at DIV with an empty stack |
| MachineProps.RunSoftHaltsOnZeroDivisor | machine.c:191-208 | for any step bound of at least 3, "LIT 0; LIT 10; DIV" halts at DIV with an empty stack |
| MachineProps.SubtractRun | machine.c:176-180 | from an empty traced stack, "LIT 5; LIT 3; SUB; HLT" halts with -2 on top |
| MachineProps.RunSubtractsLowerFromTop | machine.c:176-180 | for any step bound of at least 4, "LIT 5; LIT 3; SUB; HLT" leaves -2 |
| MachineProps.RunPastLoadedProgramExits | machine.c:274-298 | for any loaded program, a traced run that reaches an address past it exits in mnemonic with the state unchanged |
| MachineProps.RunOffTheEndExits | machine.c:274-298 | the one-line program "LIT m" exits in mnemonic at address 1, with one slot on the stack |
| MachineProps.LoadedZeroOpcodeExitsAtListing | machine.c:420-437 | any program that loads and contains opcode 0 exits while it is being listed, before any step |
| MachineProps.ZeroOpcodeExample | machine.c:420-437 | "LIT 7; 0 0; HLT" loads all three lines and then exits at the listing |
| MachineProps.FullTableExits | machine.c:343-369 | 512 or more legal lines give the too-many-instructions exit |
| MachineProps.InvariantCheckRejectsInitialState | machine.c:439-450 | the consistency check would reject the state initialize produces |
| Engine.Machine.constructor | machine.c:6-23 | static storage: a zeroed stack and instruction table, pc 0, flags off |
| Engine.Machine.Initialize | machine.c:71-79 | the new state is MachineSpec.Initialize of the old one: stack zeroed, pc 0, halt off, tracing on |
| Engine.Machine.Execute | machine.c:82-269 | the new state is exactly MachineSpec.Execute of the old one |
| Engine.Machine.DispatchLow | machine.c:94-134 | opcodes 1..8 change the state exactly as MachineSpec.Dispatch says |
| Engine.Machine.DispatchMiddle | machine.c:136-168 | opcodes 9..15 change the state exactly as MachineSpec.Dispatch says |
| Engine.Machine.DispatchHigh | machine.c:170-267 | opcodes 16..27 change the state exactly as MachineSpec.Dispatch says |
| Engine.Machine.Binary | machine.c:170-263 | the two-operand cases change the stack exactly as MachineSpec.Binary says |
| Engine.Machine.Mul | machine.c:182-189 | MUL changes the stack exactly as MachineSpec.Mul says |
| Engine.Machine.DivMod | machine.c:191-227 | DIV and MOD change the state exactly as MachineSpec.DivMod says |
| Engine.Machine.GetC | machine.c:154-156 | returns and consumes the next input character, or EOF without consuming anything |
| Engine.Machine.Stackify | machine.c:314-323 | the loop returns exactly MachineSpec.Dump of the stack, sp entries long |
| Engine.Machine.PrintCurrStat | machine.c:300-312 | appends the registers and the dump to the trace |
| Engine.Machine.ExecuteTrace | machine.c:283-298 | outcome and new state are exactly MachineSpec.TraceStep |
| Engine.Machine.RunProg | machine.c:274-280 | outcome and final state are exactly MachineSpec.Run over the instruction table |
| Engine.Machine.ReadInstructionFile | machine.c:343-369 | the load result is MachineSpec.Load; the table holds the loaded program and is unchanged beyond it |
| Engine.Machine.PrintProgram | machine.c:405-413 | the listing loop returns exactly MachineSpec.Listing of the first size instructions |
| Engine.RunMachine | machine.c:420-437 | the whole start-up and run equals MachineSpec.Boot |

## Left out

- File and stream I/O are left out. The opening and closing of the program
  file and their error exits (`open_instruction_file`,
  `close_instruction_file`) are not modelled. The file arrives already
  parsed, one `Line` per `fscanf` call, with the count `fscanf` returned.
  stdin is the sequence of values `getc` delivers.
- stdout is split in two. The bytes `CHO` writes with `putc` go to
  `output`. The tracer's lines (the "==> addr:" line and `print_curr_stat`)
  go to `trace` as events. On stdout these are interleaved; the model does
  not keep how the two are interleaved.
- The program listing is checked but not recorded. `Listing` and
  `Engine.Machine.PrintProgram` compute its rows, and the exit in
  `mnemonic` when one row has no name. `Boot` and `RunMachine` use only
  whether the listing succeeded, so no listed row reaches `trace`. The
  "Tracing ..." banner is not recorded either.
- Text formatting is left out. The `printf` layouts and the stderr wording
  of the diagnostics are abstracted. The trace keeps the values of the
  tracer's lines, and each exit becomes a run outcome.
- The value that `mnemonic`'s diagnostic prints is not modelled. Only the
  fatal exit is.
- C `int` overflow is not modelled, because this model's integers are
  unbounded. So `ADD`, `SUB`, `MUL`, `NEG`, `INC` and `INT_MIN / -1` give
  their mathematical values; in C they are undefined on overflow.
- MachineSpec.Run and Engine.Machine.RunProg add a bound of at most `fuel`
  steps, because a C run that never halts has no finite model.
  `OutOfFuel` marks where the bound ran out.
- Undefined behaviour (an access outside `stack` or `instr_list`) is a
  precondition, or the `Undefined` outcome. What the C program would do
  then is not modelled.
- `main.c` is not part of this model. It only forwards the command-line
  file name; `RunMachine` takes the parsed lines instead. `decr_push`,
  `get_sp` and `get_bp` are inlined or unused. Commented-out code is
  ignored.
- CHI (`MachineProps.ChiReadsOneCharacter`, `Engine.Machine.GetC`): the
  input is a sequence of arbitrary integers, not of bytes 0..255, because
  the model does not restrict what stdin holds; `getc` itself only returns
  0..255 or EOF.
- `invariant_check` is never called by the machine. It is modelled only
  as a predicate on states.

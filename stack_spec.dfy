// The stack store of stack.c as values: the 2048 slots, `sp` (the next free
// slot) and `bp` (the base of the current frame). Each function is one of the
// file's operations; its `requires` rules out the accesses the C code makes
// outside the array, which C leaves undefined.
module StackSpec {
  import opened Defs

  datatype StackState = StackState(cells: seq<int>, sp: int, bp: int)

  /** The store always has exactly MAX_STACK_HEIGHT slots. */
  predicate WellFormed(s: StackState) {
    |s.cells| == MAX_STACK_HEIGHT
  }

  /** State after initialize_stack: both cursors 0, every slot 0. */
  function Initial(): (s: StackState) {
    StackState(seq(MAX_STACK_HEIGHT, _ => 0), 0, 0)
  }

  /** push_stack writes stack[sp]: defined only while sp is inside the array.
      At sp == MAX_STACK_HEIGHT the source prints a diagnostic and writes anyway. */
  predicate CanPush(s: StackState) {
    0 <= s.sp < MAX_STACK_HEIGHT
  }

  /** pop_stack, stack_top, negate and replace_top read stack[sp - 1]. */
  predicate CanPop(s: StackState) {
    0 < s.sp <= MAX_STACK_HEIGHT
  }

  /** ret_at_x returns -1 above MAX_STACK_HEIGHT and reads the array otherwise;
      neither a negative address nor MAX_STACK_HEIGHT itself is caught. */
  predicate CanReadAt(addr: int) {
    addr > MAX_STACK_HEIGHT || 0 <= addr < MAX_STACK_HEIGHT
  }

  /** sto reads stack[sp - 1] and stack[sp - 2] and writes stack[stack[sp - 1] + o]. */
  predicate CanSto(s: StackState, o: int) {
    && WellFormed(s)
    && 2 <= s.sp <= MAX_STACK_HEIGHT
    && 0 <= s.cells[s.sp - 1] + o < MAX_STACK_HEIGHT
  }

  /** cal writes stack[sp] and stack[sp + 1]. */
  predicate CanCal(s: StackState) {
    0 <= s.sp && s.sp + 2 <= MAX_STACK_HEIGHT
  }

  /** rtn reads stack[sp - 2] (and RTN first reads stack[sp - 1]). */
  predicate CanRtn(s: StackState) {
    2 <= s.sp <= MAX_STACK_HEIGHT
  }

  function Push(s: StackState, v: int): (r: StackState)
    requires WellFormed(s) && CanPush(s)
    ensures WellFormed(r)
  {
    s.(cells := s.cells[s.sp := v], sp := s.sp + 1)
  }

  /** pop_stack: the state with sp decremented, and the value that was on top. */
  function Pop(s: StackState): (r: (StackState, int))
    requires WellFormed(s) && CanPop(s)
    ensures WellFormed(r.0)
  {
    (s.(sp := s.sp - 1), s.cells[s.sp - 1])
  }

  function Top(s: StackState): (v: int)
    requires WellFormed(s) && CanPop(s)
  {
    s.cells[s.sp - 1]
  }

  function Negate(s: StackState): (r: StackState)
    requires WellFormed(s) && CanPop(s)
    ensures WellFormed(r)
  {
    s.(cells := s.cells[s.sp - 1 := -s.cells[s.sp - 1]])
  }

  function ReplaceTop(s: StackState, v: int): (r: StackState)
    requires WellFormed(s) && CanPop(s)
    ensures WellFormed(r)
  {
    s.(cells := s.cells[s.sp - 1 := v])
  }

  /** allocate_space: moves sp by m whatever the outcome; past the capacity the
      source only prints a diagnostic. */
  function AllocateSpace(s: StackState, m: int): (r: StackState) {
    s.(sp := s.sp + m)
  }

  function RetAtX(s: StackState, addr: int): (v: int)
    requires WellFormed(s) && CanReadAt(addr)
  {
    if addr > MAX_STACK_HEIGHT then -1 else s.cells[addr]
  }

  function Sto(s: StackState, o: int): (r: StackState)
    requires CanSto(s, o)
    ensures WellFormed(r)
  {
    s.(cells := s.cells[s.cells[s.sp - 1] + o := s.cells[s.sp - 2]], sp := s.sp - 2)
  }

  /** cal(p): a two-slot frame holding the caller's bp and p, based at the old sp. */
  function Cal(s: StackState, p: int): (r: StackState)
    requires WellFormed(s) && CanCal(s)
    ensures WellFormed(r)
  {
    s.(cells := s.cells[s.sp := s.bp][s.sp + 1 := p], bp := s.sp, sp := s.sp + 2)
  }

  function Rtn(s: StackState): (r: StackState)
    requires WellFormed(s) && CanRtn(s)
  {
    s.(bp := s.cells[s.sp - 2], sp := s.sp - 2)
  }

  /** stack_size: one less than the number of occupied slots. */
  function Size(s: StackState): (n: int) {
    s.sp - 1
  }

  predicate IsEmpty(s: StackState) {
    s.sp == 0
  }

  predicate IsFull(s: StackState) {
    s.sp == MAX_STACK_HEIGHT
  }

  // ----- Properties of the store -----

  /** initialize_stack leaves both cursors at 0 and every slot 0. */
  lemma InitialIsZeroed()
    ensures WellFormed(Initial()) && Initial().sp == 0 && Initial().bp == 0
    ensures forall i :: 0 <= i < MAX_STACK_HEIGHT ==> Initial().cells[i] == 0
    ensures IsEmpty(Initial()) && !IsFull(Initial())
  {
  }

  /** A push writes exactly slot sp and moves sp up by one. */
  lemma PushWritesOneSlot(s: StackState, v: int)
    requires WellFormed(s) && CanPush(s)
    ensures Push(s, v).sp == s.sp + 1 && Push(s, v).bp == s.bp
    ensures Push(s, v).cells[s.sp] == v
    ensures forall i :: 0 <= i < MAX_STACK_HEIGHT && i != s.sp ==> Push(s, v).cells[i] == s.cells[i]
    ensures Top(Push(s, v)) == v
  {
  }

  /** A pop hands back the top slot and moves sp down without touching any slot. */
  lemma PopReadsTop(s: StackState)
    requires WellFormed(s) && CanPop(s)
    ensures Pop(s).1 == s.cells[s.sp - 1]
    ensures Pop(s).0.cells == s.cells && Pop(s).0.sp == s.sp - 1 && Pop(s).0.bp == s.bp
  {
  }

  /** Push then pop: the pushed value comes back and sp is restored. */
  lemma PushPopRoundTrip(s: StackState, v: int)
    requires WellFormed(s) && CanPush(s)
    ensures CanPop(Push(s, v))
    ensures Pop(Push(s, v)).1 == v
    ensures Pop(Push(s, v)).0 == s.(cells := s.cells[s.sp := v])
    ensures Pop(Push(s, v)).0.cells[..s.sp] == s.cells[..s.sp]
  {
  }

  /** negate and replace_top change slot sp - 1 only and keep sp. */
  lemma TopUpdatesTouchOnlyTop(s: StackState, v: int)
    requires WellFormed(s) && CanPop(s)
    ensures Negate(s).sp == s.sp && ReplaceTop(s, v).sp == s.sp
    ensures Negate(s).cells[s.sp - 1] == -s.cells[s.sp - 1]
    ensures ReplaceTop(s, v).cells[s.sp - 1] == v
    ensures forall i :: 0 <= i < MAX_STACK_HEIGHT && i != s.sp - 1 ==>
      Negate(s).cells[i] == s.cells[i] && ReplaceTop(s, v).cells[i] == s.cells[i]
  {
  }

  /** allocate_space keeps every slot, even when sp ends up past the capacity. */
  lemma AllocateKeepsCells(s: StackState, m: int)
    ensures AllocateSpace(s, m).cells == s.cells && AllocateSpace(s, m).bp == s.bp
    ensures AllocateSpace(s, m).sp == s.sp + m
  {
  }

  /** The sentinel -1 above the capacity; the slot's value inside it. */
  lemma RetAtXCases(s: StackState, addr: int)
    requires WellFormed(s) && CanReadAt(addr)
    ensures addr > MAX_STACK_HEIGHT ==> RetAtX(s, addr) == -1
    ensures addr < MAX_STACK_HEIGHT ==> 0 <= addr && RetAtX(s, addr) == s.cells[addr]
  {
  }

  /** Reading back after a push: the pushed slot gives the pushed value, every
      other in-range slot what it gave before. */
  lemma RetAtXAfterPush(s: StackState, v: int, addr: int)
    requires WellFormed(s) && CanPush(s) && 0 <= addr < MAX_STACK_HEIGHT
    ensures RetAtX(Push(s, v), addr) == if addr == s.sp then v else RetAtX(s, addr)
  {
  }

  /** Reading back after sto: the target slot gives the stored value, every
      other in-range slot what it gave before. */
  lemma RetAtXAfterSto(s: StackState, o: int, addr: int)
    requires CanSto(s, o) && 0 <= addr < MAX_STACK_HEIGHT
    ensures RetAtX(Sto(s, o), addr) ==
      if addr == s.cells[s.sp - 1] + o then s.cells[s.sp - 2] else RetAtX(s, addr)
  {
  }

  /** sto stores the second slot at (top + o) and drops exactly two slots. */
  lemma StoEffect(s: StackState, o: int)
    requires CanSto(s, o)
    ensures Sto(s, o).sp == s.sp - 2 && Sto(s, o).bp == s.bp
    ensures Sto(s, o).cells[s.cells[s.sp - 1] + o] == s.cells[s.sp - 2]
    ensures forall i :: 0 <= i < MAX_STACK_HEIGHT && i != s.cells[s.sp - 1] + o ==>
      Sto(s, o).cells[i] == s.cells[i]
  {
  }

  /** cal then rtn gives back the caller's bp and sp, with p on top in between. */
  lemma CalRtnRoundTrip(s: StackState, p: int)
    requires WellFormed(s) && CanCal(s)
    ensures Cal(s, p).bp == s.sp && Cal(s, p).sp == s.sp + 2
    ensures Cal(s, p).cells[s.sp] == s.bp && Cal(s, p).cells[s.sp + 1] == p
    ensures CanRtn(Cal(s, p)) && Top(Cal(s, p)) == p
    ensures Rtn(Cal(s, p)).bp == s.bp && Rtn(Cal(s, p)).sp == s.sp
    ensures Rtn(Cal(s, p)).cells[..s.sp] == s.cells[..s.sp]
  {
  }

  /** stack_size is the occupied count minus one; full and empty are its ends. */
  lemma SizeIsOffByOne(s: StackState)
    ensures Size(s) + 1 == s.sp
    ensures IsEmpty(s) <==> Size(s) == -1
    ensures IsFull(s) <==> Size(s) == MAX_STACK_HEIGHT - 1
  {
  }
}

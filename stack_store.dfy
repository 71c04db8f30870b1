// The stack store of stack.c as an object: the file-static array and its two
// cursors, updated in place. Each method is proved against its counterpart in
// StackSpec through Abs(), the store's value.
module StackStore {
  import opened Defs
  import S = StackSpec

  class Stack {
    const data: array<int>
    var sp: int
    var bp: int

    ghost predicate Valid()
      reads this
    {
      data.Length == MAX_STACK_HEIGHT
    }

    /** The store as a value. */
    function Abs(): (s: S.StackState)
      reads this, data
      ensures Valid() ==> S.WellFormed(s)
    {
      S.StackState(data[..], sp, bp)
    }

    /** The static array starts zeroed with both cursors 0. */
    constructor ()
      ensures Valid() && fresh(data)
      ensures Abs() == S.Initial()
    {
      var cells := new int[MAX_STACK_HEIGHT](_ => 0);
      assert cells[..] == S.Initial().cells;
      data := cells;
      sp, bp := 0, 0;
    }

    /** initialize_stack */
    method Initialize()
      requires Valid()
      modifies this, data
      ensures Abs() == S.Initial()
    {
      sp := 0;
      bp := 0;
      for i := 0 to MAX_STACK_HEIGHT
        invariant sp == 0 && bp == 0
        invariant forall j :: 0 <= j < i ==> data[j] == 0
      {
        data[i] := 0;
      }
      assert data[..] == S.Initial().cells;
    }

    /** replace_top */
    method ReplaceTop(val: int)
      requires Valid() && S.CanPop(Abs())
      modifies data
      ensures Abs() == S.ReplaceTop(old(Abs()), val)
    {
      data[sp - 1] := val;
    }

    /** stack_size */
    function Size(): (n: int)
      reads this, data
      ensures n == S.Size(Abs())
    {
      sp - 1
    }

    /** stack_is_empty */
    function IsEmpty(): (b: bool)
      reads this, data
      ensures b == S.IsEmpty(Abs())
    {
      sp == 0
    }

    /** stack_is_full */
    function IsFull(): (b: bool)
      reads this, data
      ensures b == S.IsFull(Abs())
    {
      sp == MAX_STACK_HEIGHT
    }

    /** push_stack; the full-stack diagnostic is not modelled, the write past the array is excluded. */
    method Push(val: int)
      requires Valid() && S.CanPush(Abs())
      modifies this, data
      ensures Abs() == S.Push(old(Abs()), val)
    {
      data[sp] := val;
      sp := sp + 1;
    }

    /** pop_stack */
    method Pop() returns (v: int)
      requires Valid() && S.CanPop(Abs())
      modifies this
      ensures (Abs(), v) == S.Pop(old(Abs()))
    {
      sp := sp - 1;
      v := data[sp];
    }

    /** negate */
    method Negate()
      requires Valid() && S.CanPop(Abs())
      modifies data
      ensures Abs() == S.Negate(old(Abs()))
    {
      data[sp - 1] := -data[sp - 1];
    }

    /** stack_top */
    function Top(): (v: int)
      requires Valid() && S.CanPop(Abs())
      reads this, data
      ensures v == S.Top(Abs())
    {
      data[sp - 1]
    }

    /** allocate_space */
    method AllocateSpace(m: int)
      modifies this
      ensures Abs() == S.AllocateSpace(old(Abs()), m)
    {
      var newSp := sp + m;
      sp := newSp;
    }

    /** ret_at_x */
    function RetAtX(addr: int): (v: int)
      requires Valid() && S.CanReadAt(addr)
      reads this, data
      ensures v == S.RetAtX(Abs(), addr)
    {
      if addr > MAX_STACK_HEIGHT then -1 else data[addr]
    }

    /** sto */
    method Sto(o: int)
      requires Valid() && S.CanSto(Abs(), o)
      modifies this, data
      ensures Abs() == S.Sto(old(Abs()), o)
    {
      data[data[sp - 1] + o] := data[sp - 2];
      var _ := Pop();
      var _ := Pop();
    }

    /** rtn */
    method Rtn()
      requires Valid() && S.CanRtn(Abs())
      modifies this
      ensures Abs() == S.Rtn(old(Abs()))
    {
      bp := data[sp - 2];
      sp := sp - 2;
    }

    /** cal */
    method Cal(pc: int)
      requires Valid() && S.CanCal(Abs())
      modifies this, data
      ensures Abs() == S.Cal(old(Abs()), pc)
    {
      data[sp] := bp;
      data[sp + 1] := pc;
      bp := sp;
      sp := sp + 2;
    }
  }

  /** A client of the object: a push and a pop give the value back and restore sp. */
  method PushThenPop(st: Stack, v: int) returns (w: int)
    requires st.Valid() && S.CanPush(st.Abs())
    modifies st, st.data
    ensures w == v && st.sp == old(st.sp) && st.bp == old(st.bp)
    ensures st.data[..old(st.sp)] == old(st.data[..st.sp])
  {
    st.Push(v);
    w := st.Pop();
  }

  /** A client of the object: cal then rtn restore bp and sp. */
  method CallThenReturn(st: Stack, p: int)
    requires st.Valid() && S.CanCal(st.Abs())
    modifies st, st.data
    ensures st.sp == old(st.sp) && st.bp == old(st.bp)
    ensures st.data[..old(st.sp)] == old(st.data[..st.sp])
  {
    st.Cal(p);
    st.Rtn();
  }
}

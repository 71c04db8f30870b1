// The opcode validator (instructions.c).
module Opcodes {
  import opened Defs

  /** True when opc lies outside 0..NUM_OPCODES. Zero passes: the test is `opc < 0`. */
  predicate IllegalOpcode(opc: int) {
    opc < 0 || opc > NUM_OPCODES
  }

  /** The opcodes the validator lets through. */
  ghost function LegalOpcodes(): (r: set<int>) {
    Interval(0, NUM_OPCODES + 1)
  }

  /** The integers lo, lo + 1, ..., hi - 1. */
  ghost function Interval(lo: int, hi: int): (r: set<int>)
    decreases hi - lo
  {
    if lo >= hi then {} else {lo} + Interval(lo + 1, hi)
  }

  /** Every negative opcode is rejected. */
  lemma NegativeIsIllegal(opc: int)
    requires opc < 0
    ensures IllegalOpcode(opc)
  {
  }

  /** Every opcode beyond NUM_OPCODES (27) is rejected. */
  lemma AboveRangeIsIllegal(opc: int)
    requires opc > NUM_OPCODES
    ensures IllegalOpcode(opc)
  {
  }

  /** Zero is accepted, although opcodes start at 1. */
  lemma ZeroIsLegal()
    ensures !IllegalOpcode(0)
  {
  }

  /** The legal opcodes are exactly 0..27: twenty-eight values. */
  lemma LegalSetIsZeroToTwentySeven()
    ensures forall o :: o in LegalOpcodes() <==> !IllegalOpcode(o)
    ensures |LegalOpcodes()| == NUM_OPCODES + 1
  {
    IntervalFacts(0, NUM_OPCODES + 1);
  }

  lemma {:induction false} IntervalFacts(lo: int, hi: int)
    requires lo <= hi
    ensures forall x :: x in Interval(lo, hi) <==> lo <= x < hi
    ensures |Interval(lo, hi)| == hi - lo
    decreases hi - lo
  {
    if lo < hi {
      IntervalFacts(lo + 1, hi);
    }
  }
}

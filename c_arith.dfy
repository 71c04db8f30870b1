// C integer operations whose meaning differs from Dafny's: truncating division
// and remainder (ISO/IEC 9899:1999 section 6.5.5), and conversion to unsigned
// char (section 6.3.1.3), which putc applies to the value it writes.
module CArith {

  function Abs(x: int): (n: nat) {
    if x < 0 then -x else x
  }

  /** C's `a / b`: the algebraic quotient with any fraction discarded (rounded toward zero). */
  function CDiv(a: int, b: int): (q: int)
    requires b != 0
    ensures 0 <= a && 0 < b ==> q == a / b
    ensures q == 0 || (q < 0) == ((a < 0) != (b < 0))
  {
    var q := Abs(a) / Abs(b);
    EuclideanOnNaturals(Abs(a), Abs(b));
    if (a < 0) == (b < 0) then q else -q
  }

  /** C's `a % b`: chosen so that `(a / b) * b + a % b == a`. */
  function CMod(a: int, b: int): (r: int)
    requires b != 0
    ensures 0 <= a && 0 < b ==> r == a % b
  {
    a - b * CDiv(a, b)
  }

  /** The value of an int converted to unsigned char: reduced modulo 256. */
  function UnsignedChar(v: int): (c: int)
    ensures 0 <= c < 256
    ensures (v - c) % 256 == 0
  {
    v % 256
  }

  /** The facts of C99 section 6.5.5: the quotient and remainder rebuild the
      dividend, the remainder is smaller than the divisor and takes the sign of
      the dividend, and the quotient is truncated toward zero (|q| * |b| <= |a|). */
  lemma TruncatedDivision(a: int, b: int)
    requires b != 0
    ensures CDiv(a, b) * b + CMod(a, b) == a
    ensures Abs(CMod(a, b)) < Abs(b)
    ensures CMod(a, b) == 0 || ((CMod(a, b) < 0) == (a < 0))
    ensures Abs(CDiv(a, b)) * Abs(b) <= Abs(a)
  {
    var A: int, B: int := Abs(a), Abs(b);
    var q: int, r: int := A / B, A % B;
    EuclideanOnNaturals(A, B);
    var d := CDiv(a, b);
    assert d == if (a < 0) == (b < 0) then q else -q;
    assert b * d == (if (a < 0) == (b < 0) then 1 else -1) * (b * q);
    assert b * q == (if b < 0 then -1 else 1) * (B * q);
    assert CMod(a, b) == if a < 0 then -r else r;
    assert d * b == b * d;
  }

  lemma EuclideanOnNaturals(A: int, B: int)
    requires 0 <= A && 0 < B
    ensures A == B * (A / B) + A % B && 0 <= A % B < B
    ensures 0 <= A / B && (A / B) * B <= A
  {
  }

  /** Truncation differs from Dafny's Euclidean operators on negative operands. */
  lemma TruncatesTowardZero()
    ensures CDiv(-7, 2) == -3 && CMod(-7, 2) == -1
    ensures CDiv(7, -2) == -3 && CMod(7, -2) == 1
    ensures -7 / 2 == -4 && -7 % 2 == 1
  {
  }
}

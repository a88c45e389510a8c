/**
  Java's 32-bit `int` arithmetic as the framework's code relies on it:
  two's-complement wrap-around, the truncating integer division `/`,
  the arithmetic shift `>> 1`, and the `(int)` cast of a `double`.
  Dafny's own `/` is Euclidean and its integers are unbounded, so each
  of these is written out here.
 */
module JavaArith {

  const MinInt32: int := -0x8000_0000
  const MaxInt32: int := 0x7fff_ffff
  const Modulus32: int := 0x1_0000_0000

  /** The values of a Java `int`. */
  type Int32 = x: int | MinInt32 <= x <= MaxInt32

  /** The exceptions the modelled code can raise. */
  datatype JavaException = ArithmeticException | UnsupportedOperationException

  /** The outcome of a Java expression that either yields a value or throws. */
  datatype Outcome<T> = Value(value: T) | Thrown(exception: JavaException)

  function Abs(x: int): (r: nat)
    ensures r == x || r == -x
  {
    if x < 0 then -x else x
  }

  /** Two's-complement reduction of a mathematical integer to 32 bits. */
  function Wrap(x: int): (r: Int32)
    ensures (x - r) % Modulus32 == 0
    ensures MinInt32 <= x <= MaxInt32 ==> r == x
  {
    var m := x % Modulus32;
    if m <= MaxInt32 then m else m - Modulus32
  }

  /** Java `a + b` on `int`. */
  function IntAdd(a: Int32, b: Int32): (r: Int32)
    ensures MinInt32 <= a + b <= MaxInt32 ==> r == a + b
  {
    Wrap(a + b)
  }

  lemma MulAtLeast(q: nat, d: nat)
    requires d >= 1
    ensures q * d >= q
  {
    assert q * d == q * (d - 1) + q;
    assert q * (d - 1) >= 0;
  }

  lemma NegMul(x: int, y: int)
    ensures (-x) * y == -(x * y) && x * (-y) == -(x * y)
  {
  }

  /** Giving the quotient of the magnitudes the sign of `a * b` leaves a remainder with the sign of `a`. */
  lemma SignedRemainder(a: int, b: int, q0: int, r0: int)
    requires b != 0 && q0 >= 0 && 0 <= r0 < Abs(b) && Abs(a) == q0 * Abs(b) + r0
    ensures var q: int := if (a < 0) == (b < 0) then q0 else -q0;
              a - q * b == (if a < 0 then -r0 else r0)
  {
    var d: int := Abs(b);
    NegMul(q0, d);
    if b < 0 {
      assert b == -d;
    }
  }

  /** Euclidean division of naturals. */
  lemma DivMod(x: nat, d: nat)
    requires d > 0
    ensures x / d >= 0 && x == (x / d) * d + x % d && 0 <= x % d < d
  {
  }

  /** The facts about the quotient of the magnitudes, given the sign of `a * b`, that truncating division promises. */
  lemma TruncDivFacts(a: int, b: int, q0: int, r0: int, q: int)
    requires b != 0 && q0 >= 0 && Abs(a) == q0 * Abs(b) + r0 && 0 <= r0 < Abs(b)
    requires q == if (a < 0) == (b < 0) then q0 else -q0
    ensures Abs(a - q * b) < Abs(b)
    ensures a - q * b == 0 || (a - q * b < 0 <==> a < 0)
    ensures Abs(q) <= Abs(a)
    ensures b == -1 ==> q == -a
  {
    var d: nat := Abs(b);
    SignedRemainder(a, b, q0, r0);
    assert a - q * b == (if a < 0 then -r0 else r0);
    MulAtLeast(q0, d);
    assert Abs(q) == q0;
    if d == 1 {
      assert q0 * d == q0;
    }
  }

  /** Integer division rounded toward zero (Java, C), as opposed to Dafny's Euclidean `/`. */
  function TruncDiv(a: int, b: int): (q: int)
    requires b != 0
    ensures Abs(a - q * b) < Abs(b)
    ensures a - q * b == 0 || (a - q * b < 0 <==> a < 0)
    ensures Abs(q) <= Abs(a)
    ensures b == -1 ==> q == -a
  {
    var q0: int := Abs(a) / Abs(b);
    var r0: int := Abs(a) % Abs(b);
    var q: int := if (a < 0) == (b < 0) then q0 else -q0;
    DivMod(Abs(a), Abs(b));
    TruncDivFacts(a, b, q0, r0, q);
    q
  }

  /** Java `a / b` on `int`: throws on a zero divisor; `MinInt32 / -1` wraps to `MinInt32`. */
  function Quotient(a: Int32, b: Int32): (r: Outcome<Int32>)
    ensures r.Thrown? <==> b == 0
    ensures r.Thrown? ==> r.exception == ArithmeticException
    ensures b != 0 && !(a == MinInt32 && b == -1) ==> r.Value? && r.value == TruncDiv(a, b)
    ensures a == MinInt32 && b == -1 ==> r == Value(MinInt32)
  {
    if b == 0 then Thrown(ArithmeticException)
    else
      var q := TruncDiv(a, b);
      assert a == MinInt32 && b == -1 ==> q == MaxInt32 + 1;
      Value(Wrap(q))
  }

  /** Java `x >> 1` on `int`: the arithmetic shift rounds toward negative infinity. */
  function ShiftRight1(x: Int32): (r: Int32)
    ensures 2 * r <= x < 2 * r + 2
  {
    x / 2
  }

  /** On a non-negative `int`, `x >> 1` and `x / 2` agree. */
  lemma ShiftRight1IsHalf(x: Int32)
    requires x >= 0
    ensures ShiftRight1(x) == TruncDiv(x, 2)
  {
  }

  /** On a negative odd `int` they do not: `-3 >> 1` is `-2`, while `-3 / 2` is `-1`. */
  lemma ShiftRight1IsNotTruncation()
    ensures ShiftRight1(-3) == -2 && TruncDiv(-3, 2) == -1
  {
  }

  /**
    Java's `(int)` cast of a `double`: truncation toward zero, saturating
    at the bounds of `int`.
   */
  function DoubleToInt(x: real): (r: Int32)
    ensures x >= MaxInt32 as real ==> r == MaxInt32
    ensures x <= MinInt32 as real ==> r == MinInt32
    ensures MinInt32 as real < x < MaxInt32 as real ==>
              Abs(r) as real <= (if x < 0.0 then -x else x) < Abs(r) as real + 1.0
              && (r == 0 || (r < 0 <==> x < 0.0))
  {
    if x >= MaxInt32 as real then MaxInt32
    else if x <= MinInt32 as real then MinInt32
    else if x >= 0.0 then x.Floor
    else -((-x).Floor)
  }

  /** The cast is exact on every integral value in range. */
  lemma DoubleToIntOfInt(k: Int32)
    ensures DoubleToInt(k as real) == k
  {
  }

  /** Away from the bounds, the cast commutes with negation: truncation is symmetric about zero. */
  lemma DoubleToIntNegate(x: real)
    requires -(MaxInt32 as real) <= x <= MaxInt32 as real
    ensures DoubleToInt(-x) == -DoubleToInt(x)
  {
  }

  /** The cast is monotone: it never reverses the order of two doubles. */
  lemma {:induction false} DoubleToIntMonotone(x: real, y: real)
    requires x <= y
    ensures DoubleToInt(x) <= DoubleToInt(y)
  {
    if MinInt32 as real < x < MaxInt32 as real && MinInt32 as real < y < MaxInt32 as real {
      if x < 0.0 && y >= 0.0 {
      } else if x >= 0.0 {
        assert x.Floor <= y.Floor;
      } else {
        assert (-y).Floor <= (-x).Floor;
      }
    }
  }
}

/** Shared helpers: an optional value, Python's truncating `int()` of a Decimal,
    and the facts about truncation that the cost calculators rely on. */
module Common {

  /** A value that may be absent (Python's `None`). */
  datatype Option<+T> = None | Some(value: T)

  /** `int(d)` for a Decimal `d`: drops the fractional part, rounding toward zero. */
  function Trunc(x: real): (r: int)
    ensures 0.0 <= x ==> r as real <= x < r as real + 1.0
    ensures x < 0.0 ==> r as real - 1.0 < x <= r as real
  {
    if x >= 0.0 then x.Floor else -((-x).Floor)
  }

  /** A Decimal value with no fractional part. */
  predicate IsWhole(x: real) {
    x == x.Floor as real
  }

  /** Multiplying a quotient by its divisor gives the dividend back. */
  lemma QuotientTimesDivisor(x: real, y: real)
    requires y != 0.0
    ensures (x / y) * y == x
  {
  }

  /** The sum of two whole values is whole. */
  lemma WholeAdd(a: real, b: real)
    requires IsWhole(a) && IsWhole(b)
    ensures IsWhole(a + b)
  {
    var n := a.Floor + b.Floor;
    assert a + b == n as real;
    assert (n as real).Floor == n;
  }

  /** The negation of a whole value is whole. */
  lemma WholeNeg(a: real)
    requires IsWhole(a)
    ensures IsWhole(-a)
  {
    var n := -a.Floor;
    assert -a == n as real;
    assert (n as real).Floor == n;
  }

  /** Sums and differences of whole values are whole. */
  lemma WholeAddSub(a: real, b: real)
    requires IsWhole(a) && IsWhole(b)
    ensures IsWhole(a + b) && IsWhole(a - b)
  {
    WholeAdd(a, b);
    WholeNeg(b);
    WholeAdd(a, -b);
  }

  /** Truncating a whole value gives that value back. */
  lemma TruncWhole(x: real)
    requires IsWhole(x)
    ensures Trunc(x) as real == x
  {
    if x < 0.0 {
      assert (-x).Floor == -(x.Floor);
    }
  }

  /** Truncating the integer `n` (seen as a Decimal) gives `n`. */
  lemma TruncInt(n: int)
    ensures Trunc(n as real) == n
  {
    TruncWhole(n as real);
  }

  /** Truncation moves a value by less than one. */
  lemma TruncClose(x: real)
    ensures x - 1.0 < Trunc(x) as real < x + 1.0
  {
  }

  /** Splitting the whole number `t` into `a` and `t - a` and truncating both
      parts loses at most one unit, and nothing at all when `a` is whole. */
  lemma TruncSplit(t: int, a: real)
    ensures -1 <= t - Trunc(a) - Trunc(t as real - a) <= 1
    ensures IsWhole(a) ==> Trunc(a) + Trunc(t as real - a) == t
  {
    TruncClose(a);
    TruncClose(t as real - a);
    if IsWhole(a) {
      TruncWhole(a);
      assert IsWhole(t as real - a) by {
        assert t as real - a == (t - a.Floor) as real;
      }
      TruncWhole(t as real - a);
    }
  }
}

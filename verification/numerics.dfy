/** Real-number helpers that mirror the Python operators the source uses on
    floats: `x ** n` for an integer exponent, `int(x)`, `max(0, x)` and the
    `value or default` idiom on optional numbers. */
module Numerics {
  import opened Wrappers

  function Abs(x: real): real {
    if x < 0.0 then -x else x
  }

  function Max0(x: real): (r: real)
    ensures r >= 0.0 && r >= x
    ensures r == x || r == 0.0
  {
    if x > 0.0 then x else 0.0
  }

  /** `x ** n` for a non-negative integer exponent. */
  function Pow(x: real, n: nat): real {
    if n == 0 then 1.0 else x * Pow(x, n - 1)
  }

  /** Python's `int(x)` on a float: truncation toward zero. */
  function Trunc(x: real): (r: int)
    ensures Abs(r as real) <= Abs(x) < Abs(r as real) + 1.0
    ensures x >= 0.0 ==> r >= 0
    ensures x <= 0.0 ==> r <= 0
  {
    if x >= 0.0 then x.Floor else -((-x).Floor)
  }

  /** For non-negative arguments truncation is the floor. */
  lemma TruncIsFloor(x: real)
    requires x >= 0.0
    ensures Trunc(x) == x.Floor
  {
  }

  /** `o or d` on an optional float: both `None` and `0.0` are falsy and give
      the default. */
  function OrDefault(o: Option<real>, d: real): (r: real)
    ensures r == 0.0 ==> d == 0.0
    ensures o.Some? && o.value != 0.0 ==> r == o.value
    ensures o.None? || o.value == 0.0 ==> r == d
  {
    if o.Some? && o.value != 0.0 then o.value else d
  }

  /** `o or 0` on an optional float. */
  function OrZero(o: Option<real>): (r: real)
    ensures o.None? ==> r == 0.0
    ensures o.Some? ==> r == o.value
  {
    if o.Some? then o.value else 0.0
  }

  lemma {:induction false} PowAbs(x: real, n: nat)
    ensures Abs(Pow(x, n)) == Pow(Abs(x), n)
  {
    if n > 0 {
      PowAbs(x, n - 1);
      var p := Pow(x, n - 1);
      assert Abs(x * p) == Abs(x) * Abs(p);
    }
  }

  lemma {:induction false} PowAboveOne(y: real, n: nat)
    requires y > 1.0 && n >= 1
    ensures Pow(y, n) > 1.0
  {
    if n > 1 {
      PowAboveOne(y, n - 1);
      var p := Pow(y, n - 1);
      assert y * p > 1.0 * p;
    }
  }

  lemma {:induction false} PowBelowOne(y: real, n: nat)
    requires 0.0 <= y < 1.0 && n >= 1
    ensures 0.0 <= Pow(y, n) < 1.0
  {
    if n > 1 {
      PowBelowOne(y, n - 1);
      var p := Pow(y, n - 1);
      assert Pow(y, n) == y * p;
      assert 0.0 <= y * p <= 1.0 * p;
    }
  }

  /** A power of a number other than 1 and -1 is never 1: the denominator of
      the fixed-payment formula is nonzero unless the growth factor is +-1. */
  lemma PowIsNotOne(x: real, n: nat)
    requires n >= 1 && x != 1.0 && x != -1.0
    ensures Pow(x, n) != 1.0
  {
    PowAbs(x, n);
    if Abs(x) > 1.0 {
      PowAboveOne(Abs(x), n);
    } else {
      PowBelowOne(Abs(x), n);
    }
  }

  lemma MulAtLeast(d: int, n: int)
    requires n > 0 && d >= 1
    ensures d * n >= n
  {
  }

  /** Adding a multiple of n does not change the remainder modulo n. */
  lemma ModMultiplePlus(k: int, n: int, j: int)
    requires n > 0 && 0 <= j < n
    ensures (k * n + j) % n == j
  {
    var x := k * n + j;
    var q := x / n;
    var m := x % n;
    assert x == q * n + m;
    assert (k - q) * n == m - j;
    if k - q >= 1 {
      MulAtLeast(k - q, n);
    } else if q - k >= 1 {
      MulAtLeast(q - k, n);
    }
  }

  /** How many more purchases of at least `minCost` the cash could pay
      for; the measure that ends a purchase loop. */
  function Budget(cash: real, minCost: real): nat {
    if cash < 0.0 || minCost <= 0.0 then 0 else (cash / minCost).Floor
  }

  lemma BudgetDecreases(cash: real, cost: real, minCost: real)
    requires 0.0 < minCost <= cost <= cash
    ensures Budget(cash - cost, minCost) < Budget(cash, minCost)
  {
    var a := cash / minCost;
    var b := (cash - cost) / minCost;
    assert b <= a - 1.0 by {
      assert cost / minCost >= 1.0;
      assert b == a - cost / minCost;
    }
  }
}

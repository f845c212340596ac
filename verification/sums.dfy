/** Sums and counts over sequences: the source's `sum(... for prop in
    properties)` and `sum(1 for ...)` expressions. */
module Sums {

  function SumBy<T>(s: seq<T>, f: T -> real): real
    decreases |s|
  {
    if |s| == 0 then 0.0 else f(s[0]) + SumBy(s[1..], f)
  }

  function CountIf<T>(s: seq<T>, p: T -> bool): (n: nat)
    ensures n <= |s|
    decreases |s|
  {
    if |s| == 0 then 0 else (if p(s[0]) then 1 else 0) + CountIf(s[1..], p)
  }

  lemma {:induction false} SumByAppend<T>(s: seq<T>, t: seq<T>, f: T -> real)
    ensures SumBy(s + t, f) == SumBy(s, f) + SumBy(t, f)
    decreases |s|
  {
    if |s| > 0 {
      assert (s + t)[0] == s[0];
      assert (s + t)[1..] == s[1..] + t;
      SumByAppend(s[1..], t, f);
    } else {
      assert s + t == t;
    }
  }

  lemma {:induction false} CountIfAppend<T>(s: seq<T>, t: seq<T>, p: T -> bool)
    ensures CountIf(s + t, p) == CountIf(s, p) + CountIf(t, p)
    decreases |s|
  {
    if |s| > 0 {
      assert (s + t)[0] == s[0];
      assert (s + t)[1..] == s[1..] + t;
      CountIfAppend(s[1..], t, p);
    } else {
      assert s + t == t;
    }
  }

  /** Two sums agree when their terms agree position by position. */
  lemma {:induction false} SumByPointwise<T, U>(a: seq<T>, b: seq<U>, f: T -> real, g: U -> real)
    requires |a| == |b|
    requires forall i :: 0 <= i < |a| ==> f(a[i]) == g(b[i])
    ensures SumBy(a, f) == SumBy(b, g)
    decreases |a|
  {
    if |a| > 0 {
      assert f(a[0]) == g(b[0]);
      SumByPointwise(a[1..], b[1..], f, g);
    }
  }

  lemma {:induction false} SumByNonNegative<T>(s: seq<T>, f: T -> real)
    requires forall i :: 0 <= i < |s| ==> f(s[i]) >= 0.0
    ensures SumBy(s, f) >= 0.0
    decreases |s|
  {
    if |s| > 0 {
      assert f(s[0]) >= 0.0;
      SumByNonNegative(s[1..], f);
    }
  }

  /** A sum of non-negative terms is zero exactly when every term is. */
  lemma {:induction false} SumByZeroIff<T>(s: seq<T>, f: T -> real)
    requires forall i :: 0 <= i < |s| ==> f(s[i]) >= 0.0
    ensures SumBy(s, f) == 0.0 <==> forall i :: 0 <= i < |s| ==> f(s[i]) == 0.0
    decreases |s|
  {
    if |s| > 0 {
      SumByNonNegative(s[1..], f);
      SumByZeroIff(s[1..], f);
      if SumBy(s, f) == 0.0 {
        forall i | 0 <= i < |s| ensures f(s[i]) == 0.0 {
          if i > 0 { assert s[i] == s[1..][i - 1]; }
        }
      }
      if forall i :: 0 <= i < |s| ==> f(s[i]) == 0.0 {
        forall i | 0 <= i < |s| - 1 ensures f(s[1..][i]) == 0.0 {
          assert s[1..][i] == s[i + 1];
        }
      }
    }
  }

  /** A sum whose terms are all a constant c is |s| * c. */
  lemma {:induction false} SumByConstant<T>(s: seq<T>, f: T -> real, c: real)
    requires forall i :: 0 <= i < |s| ==> f(s[i]) == c
    ensures SumBy(s, f) == |s| as real * c
    decreases |s|
  {
    if |s| > 0 {
      assert f(s[0]) == c;
      SumByConstant(s[1..], f, c);
    }
  }

  /** Scaling every term scales the sum. */
  lemma {:induction false} SumByScale<T, U>(a: seq<T>, b: seq<U>, f: T -> real, g: U -> real, k: real)
    requires |a| == |b|
    requires forall i :: 0 <= i < |a| ==> g(b[i]) == f(a[i]) * k
    ensures SumBy(b, g) == SumBy(a, f) * k
    decreases |a|
  {
    if |a| > 0 {
      assert g(b[0]) == f(a[0]) * k;
      SumByScale(a[1..], b[1..], f, g, k);
    }
  }

  lemma {:induction false} CountIfAll<T>(s: seq<T>, p: T -> bool)
    requires forall i :: 0 <= i < |s| ==> p(s[i])
    ensures CountIf(s, p) == |s|
    decreases |s|
  {
    if |s| > 0 {
      assert p(s[0]);
      CountIfAll(s[1..], p);
    }
  }

  lemma {:induction false} CountIfNone<T>(s: seq<T>, p: T -> bool)
    requires forall i :: 0 <= i < |s| ==> !p(s[i])
    ensures CountIf(s, p) == 0
    decreases |s|
  {
    if |s| > 0 {
      assert !p(s[0]);
      CountIfNone(s[1..], p);
    }
  }
}

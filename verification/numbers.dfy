/**
 * Integer arithmetic as the view models perform it: Swift's truncating `/`, sums, maxima and
 * minima of series, and the "more than 10% up or down" comparison of two averages.
 */
module Numbers {

  function Abs(x: int): nat {
    if x < 0 then -x else x
  }

  /** Swift's `a / b` on Int: the quotient truncated toward zero. */
  function Quot(a: int, b: int): int
    requires b != 0
  {
    if (a >= 0) == (b > 0) then Abs(a) / Abs(b) else -(Abs(a) / Abs(b))
  }

  lemma MulCancelLe(b: int, x: int, y: int)
    requires b > 0 && b * x <= b * y
    ensures x <= y
  {
  }

  lemma MulCancelLt(b: int, x: int, y: int)
    requires b > 0 && b * x < b * y
    ensures x < y
  {
  }

  lemma MulNeg(b: int, x: int)
    ensures b * -x == -(b * x)
  {
  }

  lemma DivBounds(n: nat, b: int)
    requires b > 0
    ensures b * (n / b) <= n < b * (n / b + 1)
  {
  }

  lemma NatQuotBetween(n: nat, b: int, lo: int, hi: int)
    requires b > 0 && b * lo <= n <= b * hi
    ensures lo <= n / b <= hi
  {
    DivBounds(n, b);
    MulCancelLe(b, n / b, hi);
    MulCancelLt(b, lo, n / b + 1);
  }

  /** For a positive divisor the quotient keeps any integer bounds the exact quotient has. */
  lemma QuotBetween(a: int, b: int, lo: int, hi: int)
    requires b > 0 && b * lo <= a <= b * hi
    ensures lo <= Quot(a, b) <= hi
  {
    if a >= 0 {
      NatQuotBetween(a, b, lo, hi);
    } else {
      MulNeg(b, lo);
      MulNeg(b, hi);
      NatQuotBetween(-a, b, -hi, -lo);
    }
  }

  /** `reduce(0, +)`, folding from the front; written from the back to suit loops that append. */
  function Sum(s: seq<int>): int {
    if s == [] then 0 else Sum(s[..|s| - 1]) + s[|s| - 1]
  }

  lemma {:induction false} SumBounds(s: seq<int>, lo: int, hi: int)
    requires forall i :: 0 <= i < |s| ==> lo <= s[i] <= hi
    ensures |s| * lo <= Sum(s) <= |s| * hi
  {
    if s != [] {
      var init := s[..|s| - 1];
      SumBounds(init, lo, hi);
      MulStep(|init|, lo);
      MulStep(|init|, hi);
    }
  }

  lemma MulStep(n: int, x: int)
    ensures (n + 1) * x == n * x + x
  {
  }

  /** `max()` of a non-empty series. */
  function Max(s: seq<int>): (m: int)
    requires |s| > 0
    ensures m in s
    ensures forall i :: 0 <= i < |s| ==> s[i] <= m
  {
    if |s| == 1 then s[0]
    else
      var m := Max(s[..|s| - 1]);
      if s[|s| - 1] > m then s[|s| - 1] else m
  }

  /** `min()` of a non-empty series. */
  function Min(s: seq<int>): (m: int)
    requires |s| > 0
    ensures m in s
    ensures forall i :: 0 <= i < |s| ==> m <= s[i]
  {
    if |s| == 1 then s[0]
    else
      var m := Min(s[..|s| - 1]);
      if s[|s| - 1] < m then s[|s| - 1] else m
  }

  /** The truncated average of a non-empty series lies between its minimum and its maximum. */
  lemma AverageBetweenMinAndMax(s: seq<int>)
    requires |s| > 0
    ensures Min(s) <= Quot(Sum(s), |s|) <= Max(s)
  {
    SumBounds(s, Min(s), Max(s));
    QuotBetween(Sum(s), |s|, Min(s), Max(s));
  }

  /** `Int(x)` on a finite floating-point value: truncation toward zero. */
  function Truncate(x: real): int {
    if x >= 0.0 then x.Floor else -((-x).Floor)
  }

  /** `(now - base) / base * 100`, computed exactly. */
  function PercentChange(base: int, now: int): real
    requires base != 0
  {
    (now - base) as real / base as real * 100.0
  }

  datatype Change = Rise | Fall | Flat

  /**
   * Whether the floating-point percentage `(now - base) / base * 100` is above 10, below -10,
   * or neither. A zero base gives +infinity, -infinity or NaN, and NaN fails both comparisons.
   */
  function Classify(base: int, now: int): Change {
    if base == 0 then
      if now > 0 then Rise else if now < 0 then Fall else Flat
    else if PercentChange(base, now) > 10.0 then Rise
    else if PercentChange(base, now) < -10.0 then Fall
    else Flat
  }

  /** With a positive base the percentage test is a plain integer comparison. */
  lemma ClassifyPositiveBase(base: int, now: int)
    requires base > 0
    ensures Classify(base, now) == Rise <==> 10 * (now - base) > base
    ensures Classify(base, now) == Fall <==> 10 * (now - base) < -base
    ensures Classify(base, now) == Flat <==> -base <= 10 * (now - base) <= base
  {
    var d := (now - base) as real;
    PercentScaled(base, now);
    ScaleCompare(PercentChange(base, now), 10.0, base as real, d * 100.0);
    ScaleCompare(PercentChange(base, now), -10.0, base as real, d * 100.0);
    assert d * 10.0 == (10 * (now - base)) as real;
  }

  lemma PercentScaled(base: int, now: int)
    requires base > 0
    ensures PercentChange(base, now) * base as real == (now - base) as real * 100.0
  {
  }

  lemma ScaleCompare(x: real, k: real, b: real, p: real)
    requires b > 0.0 && x * b == p
    ensures x > k <==> p > k * b
    ensures x < k <==> p < k * b
  {
  }
}

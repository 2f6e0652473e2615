/** pandas' `Series.quantile(q)` with its default linear interpolation: the
    values are sorted, the virtual index `(n - 1) * q` is split into its
    integer part `lo` and fraction `f`, and the result lies the fraction `f`
    of the way from the `lo`-th to the next value. NaN values are skipped
    by the caller; an empty series has no quantile (pandas returns NaN). */
module Quantiles {
  import opened Frames
  import opened RealArith

  predicate SortedUp(s: seq<real>) {
    forall i, j :: 0 <= i <= j < |s| ==> s[i] <= s[j]
  }

  function Insert(x: real, s: seq<real>): (r: seq<real>)
    requires SortedUp(s)
    ensures SortedUp(r) && multiset(r) == multiset(s) + multiset{x} && |r| == |s| + 1
  {
    if |s| == 0 || x <= s[0] then [x] + s
    else
      var rest := Insert(x, s[1..]);
      assert s == [s[0]] + s[1..];
      forall k | 0 <= k < |rest| ensures s[0] <= rest[k] {
        assert rest[k] in multiset(rest);
      }
      [s[0]] + rest
  }

  /** An ascending copy of the values: what pandas sorts before interpolating. */
  function Sort(s: seq<real>): (r: seq<real>)
    ensures SortedUp(r) && multiset(r) == multiset(s) && |r| == |s|
  {
    if |s| == 0 then []
    else
      assert s == [s[0]] + s[1..];
      Insert(s[0], Sort(s[1..]))
  }

  function Max(s: seq<real>): (m: real)
    requires |s| > 0
    ensures m in s && forall i :: 0 <= i < |s| ==> s[i] <= m
  {
    if |s| == 1 then s[0]
    else
      var m := Max(s[1..]);
      assert forall i :: 1 <= i < |s| ==> s[i] == s[1..][i - 1];
      if s[0] >= m then s[0] else m
  }

  function Min(s: seq<real>): (m: real)
    requires |s| > 0
    ensures m in s && forall i :: 0 <= i < |s| ==> m <= s[i]
  {
    if |s| == 1 then s[0]
    else
      var m := Min(s[1..]);
      assert forall i :: 1 <= i < |s| ==> s[i] == s[1..][i - 1];
      if s[0] <= m then s[0] else m
  }

  /** The virtual index `(n - 1) * q` of the quantile in a sorted sequence of length n. */
  function Position(t: seq<real>, q: real): (h: real)
    requires |t| > 0 && 0.0 <= q <= 1.0
    ensures 0.0 <= h <= (|t| - 1) as real
  {
    ScaledFraction((|t| - 1) as real, q);
    (|t| - 1) as real * q
  }

  lemma PositionMonotone(t: seq<real>, p: real, q: real)
    requires |t| > 0 && 0.0 <= p <= q <= 1.0
    ensures Position(t, p) <= Position(t, q)
  {
    var n := (|t| - 1) as real;
    MulNonNegative(n, q - p);
    assert n * q - n * p == n * (q - p);
    assert Position(t, p) == n * p && Position(t, q) == n * q;
  }

  /** Linear interpolation at fraction `q` of an ascending sequence. */
  function Interpolate(t: seq<real>, q: real): real
    requires |t| > 0 && 0.0 <= q <= 1.0
  {
    var h := Position(t, q);
    var lo := h.Floor;
    if lo + 1 < |t| then Lerp(t[lo], t[lo + 1], h - lo as real) else t[lo]
  }

  /** The point the fraction `f` of the way from `a` to `b`. */
  function Lerp(a: real, b: real, f: real): real {
    a + f * (b - a)
  }

  lemma LerpBetween(a: real, b: real, f: real)
    requires a <= b && 0.0 <= f <= 1.0
    ensures a <= Lerp(a, b, f) <= b
  {
    MulNonNegative(f, b - a);
    MulMonotone(f, 1.0, b - a);
  }

  lemma LerpMonotone(a: real, b: real, f: real, g: real)
    requires a <= b && f <= g
    ensures Lerp(a, b, f) <= Lerp(a, b, g)
  {
    MulMonotone(f, g, b - a);
  }

  /** The quantile of the values, or None when there are none. */
  function Quantile(values: seq<real>, q: real): (r: Option<real>)
    requires 0.0 <= q <= 1.0
    ensures r.Some? <==> |values| > 0
  {
    if |values| == 0 then None else Some(Interpolate(Sort(values), q))
  }

  /** The interpolated value lies between the two sorted values around its index. */
  lemma InterpolateBetween(t: seq<real>, q: real, lo: int)
    requires |t| > 0 && 0.0 <= q <= 1.0 && SortedUp(t)
    requires lo == Position(t, q).Floor
    ensures 0 <= lo < |t| && t[lo] <= Interpolate(t, q)
    ensures lo + 1 < |t| ==> Interpolate(t, q) <= t[lo + 1]
  {
    var h := Position(t, q);
    if lo + 1 < |t| {
      LerpBetween(t[lo], t[lo + 1], h - lo as real);
    }
  }

  lemma InterpolateBounds(t: seq<real>, q: real)
    requires |t| > 0 && 0.0 <= q <= 1.0 && SortedUp(t)
    ensures t[0] <= Interpolate(t, q) <= t[|t| - 1]
  {
    InterpolateBetween(t, q, Position(t, q).Floor);
  }

  /** Interpolation is monotone in the fraction. */
  lemma InterpolateMonotone(t: seq<real>, p: real, q: real)
    requires |t| > 0 && 0.0 <= p <= q <= 1.0 && SortedUp(t)
    ensures Interpolate(t, p) <= Interpolate(t, q)
  {
    var hp, hq := Position(t, p), Position(t, q);
    PositionMonotone(t, p, q);
    var lp, lq := hp.Floor, hq.Floor;
    InterpolateBetween(t, p, lp);
    InterpolateBetween(t, q, lq);
    if lp < lq {
      assert Interpolate(t, p) <= t[lp + 1] <= t[lq];
    } else if lp + 1 < |t| {
      LerpMonotone(t[lp], t[lp + 1], hp - lp as real, hq - lq as real);
    }
  }

  /** The first and last values of an ascending copy are the minimum and maximum. */
  lemma SortEnds(s: seq<real>)
    requires |s| > 0
    ensures Sort(s)[0] == Min(s) && Sort(s)[|s| - 1] == Max(s)
  {
    var t := Sort(s);
    assert t[0] in multiset(t) && t[|s| - 1] in multiset(t);
    assert t[0] in s && t[|s| - 1] in s;
    assert Min(s) in multiset(s) && Max(s) in multiset(s);
    assert Min(s) in t && Max(s) in t;
    assert Min(s) <= t[0] && t[|s| - 1] <= Max(s);
  }

  /** Every quantile lies between the smallest and the largest value. */
  lemma QuantileBounds(values: seq<real>, q: real)
    requires |values| > 0 && 0.0 <= q <= 1.0
    ensures Min(values) <= Quantile(values, q).value <= Max(values)
  {
    SortEnds(values);
    InterpolateBounds(Sort(values), q);
  }

  /** A higher fraction never gives a lower quantile. */
  lemma QuantileMonotone(values: seq<real>, p: real, q: real)
    requires |values| > 0 && 0.0 <= p <= q <= 1.0
    ensures Quantile(values, p).value <= Quantile(values, q).value
  {
    InterpolateMonotone(Sort(values), p, q);
  }
}

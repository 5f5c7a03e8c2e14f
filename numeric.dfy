/** Numeric helpers shared by both detectors: the array primitives of numpy that the
    detectors call (where, max, argmax, mean, sign, convolve in 'same' mode) stated over
    exact reals and sequences. */
module Numeric {

  function Abs(x: real): (r: real)
    ensures r >= 0.0 && (r == x || r == -x)
  {
    if x < 0.0 then -x else x
  }

  /** numpy's sign: -1, 0 or 1. */
  function Sign(x: real): (s: int)
    ensures -1 <= s <= 1
    ensures s < 0 <==> x < 0.0
    ensures s > 0 <==> x > 0.0
  {
    if x < 0.0 then -1 else if x > 0.0 then 1 else 0
  }

  /** The product of two signs is negative exactly when the two values lie strictly on
      opposite sides of zero (so neither is zero). */
  lemma SignProductNegative(a: real, b: real)
    ensures Sign(a) * Sign(b) < 0 <==> (a < 0.0 && b > 0.0) || (a > 0.0 && b < 0.0)
  {
  }

  /** math.ceil: the least integer not below x. */
  function Ceil(x: real): (c: int)
    ensures x <= c as real < x + 1.0
  {
    -((-x).Floor)
  }

  predicate StrictlyIncreasing(s: seq<int>)
  {
    forall j, k :: 0 <= j < k < |s| ==> s[j] < s[k]
  }

  /** Putting in front of an ascending list a value below all its elements keeps it
      ascending. */
  lemma ConsKeepsOrder(x: int, s: seq<int>)
    requires StrictlyIncreasing(s)
    requires forall y :: y in s ==> x < y
    ensures StrictlyIncreasing([x] + s)
  {
    var r := [x] + s;
    forall j, k | 0 <= j < k < |r| ensures r[j] < r[k] {
      assert r[k] == s[k - 1];
      if j > 0 {
        assert r[j] == s[j - 1];
      } else {
        assert s[k - 1] in s;
      }
    }
  }

  /** An ascending list of values within [lo, hi] has at most hi - lo + 1 entries. */
  lemma {:induction false} IncreasingWithinBound(r: seq<int>, lo: int, hi: int)
    requires StrictlyIncreasing(r)
    requires forall k :: 0 <= k < |r| ==> lo <= r[k] <= hi
    ensures r == [] || |r| <= hi - lo + 1
  {
    if r != [] {
      var t := r[1..];
      assert forall k :: 0 <= k < |t| ==> t[k] == r[k + 1] && r[0] < r[k + 1];
      IncreasingWithinBound(t, r[0] + 1, hi);
    }
  }

  /** numpy's where over the index range [lo, hi): the indices at which p holds, in
      ascending order. */
  function Where(lo: int, hi: int, p: int -> bool): (r: seq<int>)
    ensures forall x :: x in r <==> lo <= x < hi && p(x)
    ensures StrictlyIncreasing(r)
    ensures r == [] <==> forall i :: lo <= i < hi ==> !p(i)
    decreases hi - lo
  {
    if lo >= hi then []
    else
      var rest := Where(lo + 1, hi, p);
      if p(lo) then
        ConsKeepsOrder(lo, rest);
        [lo] + rest
      else rest
  }

  /** Adds a constant offset to every index (the `+ 1` applied to an index array). */
  function Shift(s: seq<int>, d: int): (r: seq<int>)
    ensures |r| == |s|
    ensures forall k :: 0 <= k < |s| ==> r[k] == s[k] + d
  {
    seq(|s|, k requires 0 <= k < |s| => s[k] + d)
  }

  lemma ShiftKeepsOrder(s: seq<int>, d: int)
    requires StrictlyIncreasing(s)
    ensures StrictlyIncreasing(Shift(s, d))
    ensures forall x :: x in Shift(s, d) <==> x - d in s
  {
    var r := Shift(s, d);
    forall x | x in r ensures x - d in s {
      var k :| 0 <= k < |r| && r[k] == x;
      assert s[k] == x - d;
    }
    forall x | x - d in s ensures x in r {
      var k :| 0 <= k < |s| && s[k] == x - d;
      assert r[k] == x;
    }
  }

  /** ndarray.max(): the largest element. */
  function SeqMax(s: seq<real>): (m: real)
    requires |s| > 0
    ensures m in s
    ensures forall i :: 0 <= i < |s| ==> s[i] <= m
  {
    if |s| == 1 then s[0]
    else
      var m := SeqMax(s[..|s| - 1]);
      if s[|s| - 1] > m then s[|s| - 1] else m
  }

  function SeqMin(s: seq<real>): (m: real)
    requires |s| > 0
    ensures m in s
    ensures forall i :: 0 <= i < |s| ==> m <= s[i]
  {
    if |s| == 1 then s[0]
    else
      var m := SeqMin(s[..|s| - 1]);
      if s[|s| - 1] < m then s[|s| - 1] else m
  }

  /** ndarray.argmax(): the first index at which the maximum is attained. */
  function ArgMax(s: seq<real>): (k: int)
    requires |s| > 0
    ensures 0 <= k < |s|
    ensures s[k] == SeqMax(s)
    ensures forall j :: 0 <= j < k ==> s[j] < s[k]
  {
    if |s| == 1 then 0
    else
      var k := ArgMax(s[..|s| - 1]);
      if s[|s| - 1] > s[k] then |s| - 1 else k
  }

  function Sum(s: seq<real>): real
  {
    if s == [] then 0.0 else Sum(s[..|s| - 1]) + s[|s| - 1]
  }

  /** ndarray.mean(): the arithmetic mean, which lies between the least and the
      greatest element. */
  function Mean(s: seq<real>): (m: real)
    requires |s| > 0
    ensures SeqMin(s) <= m <= SeqMax(s)
  {
    var lo, hi, n := SeqMin(s), SeqMax(s), |s| as real;
    SumBounds(s, lo, hi);
    QuotientWithin(Sum(s), n, lo, hi);
    Sum(s) / n
  }

  /** A total between n * lo and n * hi, divided by n > 0, lies between lo and hi. */
  lemma QuotientWithin(total: real, n: real, lo: real, hi: real)
    requires n > 0.0 && n * lo <= total <= n * hi
    ensures lo <= total / n <= hi
  {
    var q := total / n;
    assert q * n == total;
    assert n * (q - lo) >= 0.0;
    assert n * (hi - q) >= 0.0;
  }

  lemma {:induction false} SumBounds(s: seq<real>, lo: real, hi: real)
    requires forall i :: 0 <= i < |s| ==> lo <= s[i] <= hi
    ensures |s| as real * lo <= Sum(s) <= |s| as real * hi
  {
    if s != [] {
      var n := |s| as real;
      SumBounds(s[..|s| - 1], lo, hi);
      assert n * lo == (n - 1.0) * lo + lo;
      assert n * hi == (n - 1.0) * hi + hi;
    }
  }

  /** A mean lies between the least and the greatest element it averages. */
  lemma MeanWithin(s: seq<real>, lo: real, hi: real)
    requires |s| > 0
    requires forall i :: 0 <= i < |s| ==> lo <= s[i] <= hi
    ensures lo <= Mean(s) <= hi
  {
    SumBounds(s, lo, hi);
    QuotientWithin(Sum(s), |s| as real, lo, hi);
  }

  /** An element of a, with a taken as zero outside its index range. */
  function Padded(a: seq<real>, i: int): real
  {
    if 0 <= i < |a| then a[i] else 0.0
  }

  /** Entry k of the full discrete convolution of a with v: the sum over j of
      v[j] * a[k - j], with a zero outside its range. */
  function FullConvolutionAt(a: seq<real>, v: seq<real>, k: int): real
    decreases |v|
  {
    if v == [] then 0.0
    else FullConvolutionAt(a, v[..|v| - 1], k) + v[|v| - 1] * Padded(a, k - (|v| - 1))
  }

  /** numpy's convolve(a, v, mode='same') when a is at least as long as v: the |a|
      central entries of the full convolution, starting at offset (|v| - 1) / 2. */
  function ConvolveSame(a: seq<real>, v: seq<real>): (c: seq<real>)
    requires |a| >= |v| >= 1
    ensures |c| == |a|
  {
    seq(|a|, i => FullConvolutionAt(a, v, i + (|v| - 1) / 2))
  }

  /** With a three-tap kernel the output is centred on its own index. */
  lemma ConvolveSameThreeTaps(a: seq<real>, x: real, y: real, z: real)
    requires |a| >= 3
    ensures forall i :: 0 <= i < |a| ==>
      ConvolveSame(a, [x, y, z])[i] == x * Padded(a, i + 1) + y * Padded(a, i) + z * Padded(a, i - 1)
  {
    var v := [x, y, z];
    assert v[..2] == [x, y] && v[..2][..1] == [x] && v[..2][..1][..0] == [];
    forall i | 0 <= i < |a|
      ensures ConvolveSame(a, v)[i] == x * Padded(a, i + 1) + y * Padded(a, i) + z * Padded(a, i - 1)
    {
      assert ConvolveSame(a, v)[i] == FullConvolutionAt(a, v, i + 1);
      assert FullConvolutionAt(a, [x], i + 1) == x * Padded(a, i + 1);
      assert FullConvolutionAt(a, [x, y], i + 1) == x * Padded(a, i + 1) + y * Padded(a, i);
      assert FullConvolutionAt(a, v, i + 1) == FullConvolutionAt(a, [x, y], i + 1) + z * Padded(a, i - 1);
    }
  }

  /** With a two-tap kernel the output at i combines entries i and i - 1. */
  lemma ConvolveSameTwoTaps(a: seq<real>, x: real, y: real)
    requires |a| >= 2
    ensures forall i :: 0 <= i < |a| ==>
      ConvolveSame(a, [x, y])[i] == x * Padded(a, i) + y * Padded(a, i - 1)
  {
    var v := [x, y];
    assert v[..1] == [x] && v[..1][..0] == [];
    forall i | 0 <= i < |a|
      ensures ConvolveSame(a, v)[i] == x * Padded(a, i) + y * Padded(a, i - 1)
    {
      assert ConvolveSame(a, v)[i] == FullConvolutionAt(a, v, i);
      assert FullConvolutionAt(a, [x], i) == x * Padded(a, i);
      assert FullConvolutionAt(a, v, i) == FullConvolutionAt(a, [x], i) + y * Padded(a, i - 1);
    }
  }
}

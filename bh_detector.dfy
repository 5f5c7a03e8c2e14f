/** The derivative-based drop detector: the curvature zero-crossing edge finder, the
    Canny-style edge detector, and the plugin whose alert reports the last falling edge.
    The median filter that smooths the counts is not modelled: the smoothed series is an
    input. */
module BHDetector {
  import opened Numeric
  import opened AlertData

  const DefaultEpsilon: real := 60.0
  const DefaultThresholdSlope: real := -400.0
  const DefaultStrongThreshold: real := 95.0
  const DefaultWeakThreshold: real := 80.0

  /** Convolving with [1, 0, -1] takes the centred difference. */
  const CentralKernel: seq<real> := [1.0, 0.0, -1.0]
  /** Convolving with [1, -1] takes the backward difference. */
  const BackwardKernel: seq<real> := [1.0, -1.0]

  // ---------------------------------------------------------------------------------
  // d2_edge_finder
  // ---------------------------------------------------------------------------------

  /** The time unit of the derivatives: the span of the time bins in milliseconds
      divided by the number of bins. It is zero exactly when the first and last bins
      coincide. */
  function ScaledStep(times: seq<real>): (dt: real)
    requires |times| > 0
    ensures dt == 0.0 <==> times[|times| - 1] == times[0]
  {
    (times[|times| - 1] - times[0]) * 1000.0 / (|times| as real)
  }

  /** What the edge finder asks of its input: at least three samples (numpy swaps the
      operands of convolve for shorter ones) and at least one time bin. */
  predicate EdgeInput(times: seq<real>, smooth: seq<real>)
  {
    |smooth| >= 3 && |times| > 0
  }

  /** An input whose time bins also span a non-zero time, so that the derivatives are
      finite. */
  predicate ValidSeries(times: seq<real>, smooth: seq<real>)
  {
    EdgeInput(times, smooth) && times[|times| - 1] != times[0]
  }

  /** diff1: the smoothed series convolved with [1, 0, -1] in 'same' mode, over dt. */
  function Diff1(s: seq<real>, dt: real): (d1: seq<real>)
    requires |s| >= 3 && dt != 0.0
    ensures |d1| == |s|
  {
    var c := ConvolveSame(s, CentralKernel);
    seq(|s|, i requires 0 <= i < |s| => c[i] / dt)
  }

  /** diff2: diff1 convolved with [1, -1] in 'same' mode, over dt. */
  function Diff2(d1: seq<real>, dt: real): (d2: seq<real>)
    requires |d1| >= 2 && dt != 0.0
    ensures |d2| == |d1|
  {
    var c := ConvolveSame(d1, BackwardKernel);
    seq(|d1|, i requires 0 <= i < |d1| => c[i] / dt)
  }

  /** Convolving with the central kernel takes the centred difference, with the
      series taken as zero beyond its ends. */
  lemma CentralKernelDifference(s: seq<real>)
    requires |s| >= 3
    ensures forall i :: 0 <= i < |s| ==>
      ConvolveSame(s, CentralKernel)[i] == Padded(s, i + 1) - Padded(s, i - 1)
  {
    ConvolveSameThreeTaps(s, 1.0, 0.0, -1.0);
  }

  /** Convolving with the backward kernel takes the backward difference, with the
      series taken as zero before its start. */
  lemma BackwardKernelDifference(s: seq<real>)
    requires |s| >= 2
    ensures forall i :: 0 <= i < |s| ==> ConvolveSame(s, BackwardKernel)[i] == s[i] - Padded(s, i - 1)
  {
    ConvolveSameTwoTaps(s, 1.0, -1.0);
  }

  /** diff1 is the centred difference over dt; at the two ends the missing neighbour
      counts as zero. */
  lemma Diff1IsCentredDifference(s: seq<real>, dt: real)
    requires |s| >= 3 && dt != 0.0
    ensures forall i :: 0 < i < |s| - 1 ==> Diff1(s, dt)[i] == (s[i + 1] - s[i - 1]) / dt
    ensures Diff1(s, dt)[0] == s[1] / dt
    ensures Diff1(s, dt)[|s| - 1] == -s[|s| - 2] / dt
  {
    CentralKernelDifference(s);
    assert Diff1(s, dt)[0] == (Padded(s, 1) - Padded(s, -1)) / dt;
    assert Diff1(s, dt)[|s| - 1] == (Padded(s, |s|) - Padded(s, |s| - 2)) / dt;
  }

  /** diff2 is the backward difference of diff1 over dt, with diff1[-1] taken as zero. */
  lemma Diff2IsBackwardDifference(d1: seq<real>, dt: real)
    requires |d1| >= 2 && dt != 0.0
    ensures forall i :: 0 < i < |d1| ==> Diff2(d1, dt)[i] == (d1[i] - d1[i - 1]) / dt
    ensures Diff2(d1, dt)[0] == d1[0] / dt
  {
    BackwardKernelDifference(d1);
    assert Diff2(d1, dt)[0] == (d1[0] - Padded(d1, -1)) / dt;
  }

  /** The curvature test at interior index i: diff2 is near zero and its neighbours
      have signs whose product is negative. */
  predicate CurvatureCrossing(d2: seq<real>, epsilon: real, i: int)
    requires 1 <= i < |d2| - 1
  {
    Abs(d2[i]) < epsilon && Sign(d2[i - 1]) * Sign(d2[i + 1]) < 0
  }

  /** The boolean mask of the branch for edgeType at entry j of the interior slices
      (index j + 1 of the full arrays). */
  predicate EdgeMask(edgeType: string, d1: seq<real>, d2: seq<real>, epsilon: real, threshSlope: real, j: int)
    requires |d1| == |d2| && 0 <= j < |d2| - 2
  {
    && CurvatureCrossing(d2, epsilon, j + 1)
    && if edgeType == "falling" then d1[j + 1] < threshSlope && d2[j] < 0.0
       else if edgeType == "rising" then d1[j + 1] > threshSlope && d2[j] > 0.0
       else Abs(d1[j + 1]) > threshSlope
  }

  predicate KnownEdgeType(edgeType: string)
  {
    edgeType == "falling" || edgeType == "rising" || edgeType == "both"
  }

  /** The slice indices the branch for edgeType selects; any other edgeType selects
      nothing. */
  function Selected(d1: seq<real>, d2: seq<real>, epsilon: real, threshSlope: real, edgeType: string): (r: seq<int>)
    requires |d1| == |d2| >= 2
    ensures StrictlyIncreasing(r)
    ensures forall j :: j in r ==> 0 <= j < |d2| - 2
  {
    var m := |d2| - 2;
    if KnownEdgeType(edgeType) then Where(0, m, j => 0 <= j < m && EdgeMask(edgeType, d1, d2, epsilon, threshSlope, j))
    else []
  }

  /** The selected slice indices shifted by one: ascending, and all interior. */
  function EdgeIndicesFrom(d1: seq<real>, d2: seq<real>, epsilon: real, threshSlope: real, edgeType: string): (r: seq<int>)
    requires |d1| == |d2| >= 2
    ensures StrictlyIncreasing(r)
    ensures forall k :: 0 <= k < |r| ==> 1 <= r[k] <= |d2| - 2
  {
    var sel := Selected(d1, d2, epsilon, threshSlope, edgeType);
    ShiftKeepsOrder(sel, 1);
    assert forall k :: 0 <= k < |sel| ==> sel[k] in sel;
    Shift(sel, 1)
  }

  /** d2_edge_finder on an already smoothed series: ascending interior indices, so that
      the caller may index the time bins with them. When the time bins span no time,
      numpy divides by zero: every entry of diff2 becomes infinite or NaN, no
      comparison `abs(diff2) < epsilon` holds, and nothing is reported. */
  function EdgeIndices(times: seq<real>, smooth: seq<real>, epsilon: real, threshSlope: real, edgeType: string): (r: seq<int>)
    requires EdgeInput(times, smooth)
    ensures StrictlyIncreasing(r)
    ensures forall k :: 0 <= k < |r| ==> 1 <= r[k] <= |smooth| - 2
    ensures times[|times| - 1] == times[0] ==> r == []
  {
    var dt := ScaledStep(times);
    if dt == 0.0 then []
    else
      var d1 := Diff1(smooth, dt);
      EdgeIndicesFrom(d1, Diff2(d1, dt), epsilon, threshSlope, edgeType)
  }

  /** The edge conditions at interior index i, stated without sign(). The slope
      threshold is compared as it is given, for every edge type. */
  predicate EdgeAt(edgeType: string, d1: seq<real>, d2: seq<real>, epsilon: real, threshSlope: real, i: int)
    requires |d1| == |d2| && 1 <= i < |d2| - 1
  {
    && Abs(d2[i]) < epsilon
    && if edgeType == "falling" then d2[i - 1] < 0.0 && d2[i + 1] > 0.0 && d1[i] < threshSlope
       else if edgeType == "rising" then d2[i - 1] > 0.0 && d2[i + 1] < 0.0 && d1[i] > threshSlope
       else if edgeType == "both" then
         ((d2[i - 1] < 0.0 && d2[i + 1] > 0.0) || (d2[i - 1] > 0.0 && d2[i + 1] < 0.0)) && Abs(d1[i]) > threshSlope
       else false
  }

  /** On the interior slices, the Python plugin's mask (with sign()) and the sign-free edge
      conditions agree. */
  lemma EdgeMaskIsEdgeAt(d1: seq<real>, d2: seq<real>, epsilon: real, threshSlope: real, edgeType: string, j: int)
    requires |d1| == |d2| && 0 <= j < |d2| - 2 && KnownEdgeType(edgeType)
    ensures EdgeMask(edgeType, d1, d2, epsilon, threshSlope, j) <==> EdgeAt(edgeType, d1, d2, epsilon, threshSlope, j + 1)
  {
    SignProductNegative(d2[j], d2[j + 2]);
  }

  /** The selection mask holds at slice index j exactly when the edge conditions hold
      at the full index j + 1. */
  lemma SelectedMembership(d1: seq<real>, d2: seq<real>, epsilon: real, threshSlope: real, edgeType: string)
    requires |d1| == |d2| >= 2
    ensures var sel := Selected(d1, d2, epsilon, threshSlope, edgeType);
            forall j :: j in sel <==> 0 <= j < |d2| - 2 && EdgeAt(edgeType, d1, d2, epsilon, threshSlope, j + 1)
  {
    var m := |d2| - 2;
    var sel := Selected(d1, d2, epsilon, threshSlope, edgeType);
    if KnownEdgeType(edgeType) {
      var p := j => 0 <= j < m && EdgeMask(edgeType, d1, d2, epsilon, threshSlope, j);
      assert sel == Where(0, m, p);
      forall j ensures j in sel <==> 0 <= j < m && EdgeAt(edgeType, d1, d2, epsilon, threshSlope, j + 1) {
        if 0 <= j < m {
          assert j in sel <==> p(j);
          EdgeMaskIsEdgeAt(d1, d2, epsilon, threshSlope, edgeType, j);
        }
      }
    }
  }

  /** The selection holds exactly the slice indices whose full index is an edge, and it
      is empty exactly when no interior index is an edge. */
  lemma SelectedCharacterised(d1: seq<real>, d2: seq<real>, epsilon: real, threshSlope: real, edgeType: string)
    requires |d1| == |d2| >= 2
    ensures var sel := Selected(d1, d2, epsilon, threshSlope, edgeType);
            && (forall j :: j in sel <==> 0 <= j < |d2| - 2 && EdgeAt(edgeType, d1, d2, epsilon, threshSlope, j + 1))
            && (sel == [] <==> forall i :: 1 <= i < |d2| - 1 ==> !EdgeAt(edgeType, d1, d2, epsilon, threshSlope, i))
  {
    SelectedMembership(d1, d2, epsilon, threshSlope, edgeType);
    var sel := Selected(d1, d2, epsilon, threshSlope, edgeType);
    if sel != [] {
      assert sel[0] in sel;
    } else {
      forall i | 1 <= i < |d2| - 1 ensures !EdgeAt(edgeType, d1, d2, epsilon, threshSlope, i) {
        assert i - 1 !in sel;
      }
    }
  }

  /** An index is reported exactly when it is interior and meets the edge conditions of
      the requested type; nothing is reported exactly when no interior index meets
      them. */
  lemma EdgeIndicesFromCharacterised(d1: seq<real>, d2: seq<real>, epsilon: real, threshSlope: real, edgeType: string)
    requires |d1| == |d2| >= 2
    ensures var r := EdgeIndicesFrom(d1, d2, epsilon, threshSlope, edgeType);
            && (forall i :: i in r <==> 1 <= i <= |d2| - 2 && EdgeAt(edgeType, d1, d2, epsilon, threshSlope, i))
            && (r == [] <==> forall i :: 1 <= i <= |d2| - 2 ==> !EdgeAt(edgeType, d1, d2, epsilon, threshSlope, i))
  {
    var sel := Selected(d1, d2, epsilon, threshSlope, edgeType);
    ShiftKeepsOrder(sel, 1);
    SelectedCharacterised(d1, d2, epsilon, threshSlope, edgeType);
    var r := EdgeIndicesFrom(d1, d2, epsilon, threshSlope, edgeType);
    assert r == Shift(sel, 1);
    assert r == [] <==> sel == [];
  }

  /** d2_edge_finder reports an index exactly when it is interior and diff1, diff2
      meet there the edge conditions of the requested type; an unknown type reports
      nothing. */
  lemma EdgeIndicesCharacterised(times: seq<real>, smooth: seq<real>, epsilon: real, threshSlope: real, edgeType: string)
    requires ValidSeries(times, smooth)
    ensures var dt := ScaledStep(times);
            var d1 := Diff1(smooth, dt);
            var d2 := Diff2(d1, dt);
            var r := EdgeIndices(times, smooth, epsilon, threshSlope, edgeType);
            && (forall i :: i in r <==> 1 <= i <= |smooth| - 2 && EdgeAt(edgeType, d1, d2, epsilon, threshSlope, i))
            && (r == [] <==> forall i :: 1 <= i <= |smooth| - 2 ==> !EdgeAt(edgeType, d1, d2, epsilon, threshSlope, i))
    ensures !KnownEdgeType(edgeType) ==> EdgeIndices(times, smooth, epsilon, threshSlope, edgeType) == []
  {
    var dt := ScaledStep(times);
    var d1 := Diff1(smooth, dt);
    EdgeIndicesFromCharacterised(d1, Diff2(d1, dt), epsilon, threshSlope, edgeType);
  }

  /** With a slope threshold of at most zero, a series without variation has no falling
      edge: its centred difference is zero at every interior index. */
  lemma ConstantSeriesHasNoFallingEdge(times: seq<real>, smooth: seq<real>, epsilon: real, threshSlope: real)
    requires ValidSeries(times, smooth)
    requires forall i :: 0 <= i < |smooth| ==> smooth[i] == smooth[0]
    requires threshSlope <= 0.0
    ensures EdgeIndices(times, smooth, epsilon, threshSlope, "falling") == []
  {
    var dt := ScaledStep(times);
    var d1 := Diff1(smooth, dt);
    var d2 := Diff2(d1, dt);
    var r := EdgeIndices(times, smooth, epsilon, threshSlope, "falling");
    Diff1IsCentredDifference(smooth, dt);
    EdgeIndicesCharacterised(times, smooth, epsilon, threshSlope, "falling");
    forall i | 1 <= i <= |smooth| - 2
      ensures !EdgeAt("falling", d1, d2, epsilon, threshSlope, i)
    {
      assert d1[i] == 0.0;
    }
  }

  /** With the default slope threshold of -400 the rising branch reports an edge on a
      series without variation: the zero padding bends the curvature at both ends of the
      three-sample constant series, and the flat slope 0 exceeds -400. */
  lemma FlatSeriesReportsRisingEdge()
    ensures EdgeIndices([0.0, 1.0, 2.0], [1.0, 1.0, 1.0], DefaultEpsilon, DefaultThresholdSlope, "rising") == [1]
  {
    var times, smooth := [0.0, 1.0, 2.0], [1.0, 1.0, 1.0];
    FlatSeriesRisingAtOne();
    EdgeIndicesCharacterised(times, smooth, DefaultEpsilon, DefaultThresholdSlope, "rising");
    var r := EdgeIndices(times, smooth, DefaultEpsilon, DefaultThresholdSlope, "rising");
    assert 1 in r;
    IncreasingWithinBound(r, 1, 1);
    assert r == [1];
  }

  /** The derivatives of the flat series: slope 0 in the middle, curvature 1/dt^2 at
      the start and -1/dt^2 at both other indices. */
  lemma FlatSeriesRisingAtOne()
    ensures var dt := ScaledStep([0.0, 1.0, 2.0]);
            var d1 := Diff1([1.0, 1.0, 1.0], dt);
            EdgeAt("rising", d1, Diff2(d1, dt), DefaultEpsilon, DefaultThresholdSlope, 1)
  {
    var times, smooth := [0.0, 1.0, 2.0], [1.0, 1.0, 1.0];
    var dt := ScaledStep(times);
    assert dt == 2000.0 / 3.0;
    var d1 := Diff1(smooth, dt);
    var d2 := Diff2(d1, dt);
    Diff1IsCentredDifference(smooth, dt);
    Diff2IsBackwardDifference(d1, dt);
    assert d1[1] == 0.0;
    assert d2[0] == 1.0 / dt / dt;
    assert d2[1] == -1.0 / dt / dt;
    assert d2[2] == -1.0 / dt / dt;
    assert Abs(d2[1]) < DefaultEpsilon;
  }

  // ---------------------------------------------------------------------------------
  // canny_edge_detector
  // ---------------------------------------------------------------------------------

  /** The absolute centred difference with both ends set to zero. */
  function Gradient(s: seq<real>): (d: seq<real>)
    requires |s| >= 3
    ensures |d| == |s| && d[0] == 0.0 && d[|s| - 1] == 0.0
    ensures forall i :: 0 <= i < |s| ==> d[i] >= 0.0
  {
    var c := ConvolveSame(s, CentralKernel);
    seq(|s|, i requires 0 <= i < |s| => Abs(c[i]))[0 := 0.0][|s| - 1 := 0.0]
  }

  /** Inside the series the gradient is the absolute centred difference. */
  lemma GradientValue(s: seq<real>, i: int)
    requires |s| >= 3 && 0 < i < |s| - 1
    ensures Gradient(s)[i] == Abs(s[i + 1] - s[i - 1])
  {
    CentralKernelDifference(s);
  }

  /** The gradient rescaled by its maximum m onto 0..100. */
  function Normalized(d: seq<real>, m: real): (nd: seq<real>)
    requires m != 0.0
    ensures |nd| == |d|
  {
    seq(|d|, i requires 0 <= i < |d| => d[i] / m * 100.0)
  }

  /** The suppressed value at interior index i: d[i] when it is at least as large as
      both neighbours, otherwise zero. */
  function ThinnedAt(d: seq<real>, i: int): real
    requires 0 < i < |d| - 1
  {
    if d[i] >= d[i - 1] && d[i] >= d[i + 1] then d[i] else 0.0
  }

  /** e is d after non-maximum suppression: both ends are zero and every interior
      entry is the thinned value. */
  predicate IsSuppression(d: seq<real>, e: seq<real>)
  {
    && |e| == |d| >= 2 && e[0] == 0.0 && e[|d| - 1] == 0.0
    && forall i :: 0 < i < |d| - 1 ==> e[i] == ThinnedAt(d, i)
  }

  /** Non-maximum suppression. */
  function Suppressed(d: seq<real>): (e: seq<real>)
    requires |d| >= 2
    ensures IsSuppression(d, e)
  {
    seq(|d|, i requires 0 <= i < |d| => if 0 < i < |d| - 1 then ThinnedAt(d, i) else 0.0)
  }

  /** Suppression determines its result: any e with the property is Suppressed(d). */
  lemma SuppressionUnique(d: seq<real>, e: seq<real>)
    requires IsSuppression(d, e)
    ensures e == Suppressed(d)
  {
    var f := Suppressed(d);
    forall i | 0 <= i < |d| ensures e[i] == f[i] {
      if 0 < i < |d| - 1 {
        assert e[i] == ThinnedAt(d, i) == f[i];
      }
    }
  }

  /** The thinned edge strengths: zero at both ends and between 0 and 100. When the
      gradient is zero everywhere, numpy divides 0 by 0 and every entry becomes NaN;
      every comparison with NaN is false, so the suppression leaves all the zeros it
      started from. */
  function CannyEdges(s: seq<real>): (e: seq<real>)
    requires |s| >= 3
    ensures |e| == |s| && e[0] == 0.0 && e[|s| - 1] == 0.0
    ensures forall i :: 0 <= i < |s| ==> 0.0 <= e[i] <= 100.0
    ensures SeqMax(Gradient(s)) == 0.0 ==> forall i :: 0 <= i < |s| ==> e[i] == 0.0
  {
    var d := Gradient(s);
    var m := SeqMax(d);
    if m == 0.0 then seq(|s|, _ => 0.0)
    else
      NormalizedRange(d);
      Suppressed(Normalized(d, m))
  }

  predicate IsStrong(e: seq<real>, strongThreshold: real, i: int)
  {
    0 <= i < |e| && e[i] >= strongThreshold
  }

  predicate IsWeak(e: seq<real>, strongThreshold: real, weakThreshold: real, i: int)
  {
    0 <= i < |e| && weakThreshold <= e[i] < strongThreshold
  }

  /** The indices of the strong strengths, ascending. */
  function StrongIndices(e: seq<real>, strongThreshold: real): (r: seq<int>)
    ensures StrictlyIncreasing(r)
    ensures forall i :: i in r <==> IsStrong(e, strongThreshold, i)
  {
    Where(0, |e|, i => IsStrong(e, strongThreshold, i))
  }

  /** The indices of the weak strengths, ascending. */
  function WeakIndices(e: seq<real>, strongThreshold: real, weakThreshold: real): (r: seq<int>)
    ensures StrictlyIncreasing(r)
    ensures forall i :: i in r <==> IsWeak(e, strongThreshold, weakThreshold, i)
  {
    Where(0, |e|, i => IsWeak(e, strongThreshold, weakThreshold, i))
  }

  /** Hysteresis: the weak indices whose successor or predecessor is among the strong
      indices, in their original order. */
  function Linked(weak: seq<int>, strong: seq<int>): (r: seq<int>)
    ensures forall x :: x in r <==> x in weak && (x + 1 in strong || x - 1 in strong)
  {
    if weak == [] then []
    else
      var rest := Linked(weak[1..], strong);
      if weak[0] + 1 in strong || weak[0] - 1 in strong then [weak[0]] + rest else rest
  }

  /** np.insert(strong, np.searchsorted(strong, weak), weak): every weak index goes in
      front of the first strong index not below it. Of two ascending, disjoint index
      lists the result is their ascending union. */
  function Merge(strong: seq<int>, weak: seq<int>): (r: seq<int>)
    ensures |r| == |strong| + |weak|
    ensures forall x :: x in r <==> x in strong || x in weak
    decreases |strong| + |weak|
  {
    if weak == [] then strong
    else if strong == [] then weak
    else if weak[0] <= strong[0] then [weak[0]] + Merge(strong, weak[1..])
    else [strong[0]] + Merge(strong[1..], weak)
  }

  /** Every element of an ascending list after its head is above the head. */
  lemma TailAboveHead(s: seq<int>)
    requires StrictlyIncreasing(s) && |s| > 0
    ensures forall x :: x in s[1..] ==> s[0] < x
    ensures forall x :: x in s ==> s[0] <= x
  {
    forall x | x in s ensures s[0] <= x {
      var k :| 0 <= k < |s| && s[k] == x;
    }
    forall x | x in s[1..] ensures s[0] < x {
      var k :| 0 <= k < |s| - 1 && s[1..][k] == x;
      assert s[k + 1] == x;
    }
  }

  /** Hysteresis keeps the weak indices in ascending order. */
  lemma {:induction false} LinkedKeepsOrder(weak: seq<int>, strong: seq<int>)
    requires StrictlyIncreasing(weak)
    ensures StrictlyIncreasing(Linked(weak, strong))
  {
    if weak != [] {
      var rest := Linked(weak[1..], strong);
      LinkedKeepsOrder(weak[1..], strong);
      TailAboveHead(weak);
      if weak[0] + 1 in strong || weak[0] - 1 in strong {
        ConsKeepsOrder(weak[0], rest);
      }
    }
  }

  /** Inserting an ascending list of weak indices, none of them strong, into the
      ascending strong indices gives their ascending union. */
  lemma {:induction false} MergeKeepsOrder(strong: seq<int>, weak: seq<int>)
    requires StrictlyIncreasing(strong) && StrictlyIncreasing(weak)
    requires forall x :: x in strong ==> x !in weak
    ensures StrictlyIncreasing(Merge(strong, weak))
    decreases |strong| + |weak|
  {
    if weak != [] && strong != [] {
      TailAboveHead(strong);
      TailAboveHead(weak);
      if weak[0] <= strong[0] {
        MergeKeepsOrder(strong, weak[1..]);
        assert strong[0] in strong && weak[0] in weak;
        ConsKeepsOrder(weak[0], Merge(strong, weak[1..]));
      } else {
        MergeKeepsOrder(strong[1..], weak);
        ConsKeepsOrder(strong[0], Merge(strong[1..], weak));
      }
    }
  }

  /** The double threshold and the hysteresis over edge strengths e: the strong
      indices with the linked weak ones merged in. The result is ascending and holds
      exactly the strong indices and the weak indices next to a strong one. */
  function Hysteresis(e: seq<real>, strongThreshold: real, weakThreshold: real): (r: seq<int>)
    ensures StrictlyIncreasing(r)
    ensures forall i :: i in r <==>
              || IsStrong(e, strongThreshold, i)
              || (IsWeak(e, strongThreshold, weakThreshold, i)
                  && (IsStrong(e, strongThreshold, i - 1) || IsStrong(e, strongThreshold, i + 1)))
  {
    var strong := StrongIndices(e, strongThreshold);
    var weak := WeakIndices(e, strongThreshold, weakThreshold);
    var linked := Linked(weak, strong);
    LinkedKeepsOrder(weak, strong);
    MergeKeepsOrder(strong, linked);
    Merge(strong, linked)
  }

  /** canny_edge_detector on an already smoothed series: ascending, and holding exactly
      the strong indices of the thinned strengths and the weak indices next to a strong
      one; no weak index without a strong neighbour survives. */
  function CannyEdgeIndices(s: seq<real>, strongThreshold: real, weakThreshold: real): (r: seq<int>)
    requires |s| >= 3
    ensures StrictlyIncreasing(r)
    ensures var e := CannyEdges(s);
            forall i :: i in r <==>
              || IsStrong(e, strongThreshold, i)
              || (IsWeak(e, strongThreshold, weakThreshold, i)
                  && (IsStrong(e, strongThreshold, i - 1) || IsStrong(e, strongThreshold, i + 1)))
  {
    Hysteresis(CannyEdges(s), strongThreshold, weakThreshold)
  }

  /** Rescaling a value between 0 and a positive maximum lands in [0, 100], with 0
      going to 0 and the maximum to 100. */
  lemma RescaledWithin(x: real, m: real)
    requires 0.0 <= x <= m && 0.0 < m
    ensures 0.0 <= x / m * 100.0 <= 100.0
    ensures x == 0.0 ==> x / m * 100.0 == 0.0
    ensures x == m ==> x / m * 100.0 == 100.0
  {
    assert x / m <= 1.0;
  }

  /** A non-negative series with zero ends and a positive maximum, rescaled by that
      maximum: zero ends, every entry in [0, 100], and 100 exactly where the maximum
      was first attained. */
  lemma NormalizedRange(d: seq<real>)
    requires |d| >= 2 && d[0] == 0.0 && d[|d| - 1] == 0.0
    requires forall i :: 0 <= i < |d| ==> d[i] >= 0.0
    requires SeqMax(d) > 0.0
    ensures var nd := Normalized(d, SeqMax(d));
            && nd[0] == 0.0 && nd[|d| - 1] == 0.0
            && (forall i :: 0 <= i < |d| ==> 0.0 <= nd[i] <= 100.0)
            && nd[ArgMax(d)] == 100.0
            && SeqMax(nd) == 100.0
  {
    var m := SeqMax(d);
    var nd := Normalized(d, m);
    forall i | 0 <= i < |d|
      ensures 0.0 <= nd[i] <= 100.0
      ensures d[i] == 0.0 ==> nd[i] == 0.0
      ensures d[i] == m ==> nd[i] == 100.0
    {
      RescaledWithin(d[i], m);
    }
    var k := ArgMax(d);
    assert SeqMax(nd) >= nd[k];
  }

  /** After normalisation the gradient has zero ends, entries in [0, 100] and maximum
      exactly 100, provided the raw maximum is positive. */
  lemma NormalizedGradientRange(s: seq<real>)
    requires |s| >= 3 && SeqMax(Gradient(s)) > 0.0
    ensures var nd := Normalized(Gradient(s), SeqMax(Gradient(s)));
            && nd[0] == 0.0 && nd[|s| - 1] == 0.0
            && (forall i :: 0 <= i < |s| ==> 0.0 <= nd[i] <= 100.0)
            && SeqMax(nd) == 100.0
  {
    NormalizedRange(Gradient(s));
  }

  /** An entry of 100 in a series bounded by 100 with zero ends is interior and a
      local maximum, so suppression keeps it. */
  lemma PeakKept(nd: seq<real>, k: int)
    requires |nd| >= 2 && nd[0] == 0.0 && nd[|nd| - 1] == 0.0
    requires forall i :: 0 <= i < |nd| ==> 0.0 <= nd[i] <= 100.0
    requires 0 <= k < |nd| && nd[k] == 100.0
    ensures 0 < k < |nd| - 1
    ensures Suppressed(nd)[k] == 100.0
  {
    assert nd[k] >= nd[k - 1] && nd[k] >= nd[k + 1];
  }

  /** Where the maximum is first attained the thinned strengths are 100: that index is
      interior (the ends are zero) and no neighbour exceeds it. */
  lemma PeakSurvivesSuppression(d: seq<real>)
    requires |d| >= 2 && d[0] == 0.0 && d[|d| - 1] == 0.0
    requires forall i :: 0 <= i < |d| ==> d[i] >= 0.0
    requires SeqMax(d) > 0.0
    ensures 0 < ArgMax(d) < |d| - 1
    ensures Suppressed(Normalized(d, SeqMax(d)))[ArgMax(d)] == 100.0
  {
    var m, k := SeqMax(d), ArgMax(d);
    NormalizedRange(d);
    PeakKept(Normalized(d, m), k);
  }

  /** The index of the largest gradient survives every stage, so the result is
      non-empty, whenever the gradient is not zero everywhere and the strong threshold
      is at most 100. */
  lemma CannyKeepsSteepestIndex(s: seq<real>, strongThreshold: real, weakThreshold: real)
    requires |s| >= 3 && SeqMax(Gradient(s)) > 0.0 && strongThreshold <= 100.0
    ensures ArgMax(Gradient(s)) in CannyEdgeIndices(s, strongThreshold, weakThreshold)
    ensures |CannyEdgeIndices(s, strongThreshold, weakThreshold)| > 0
  {
    var d := Gradient(s);
    PeakSurvivesSuppression(d);
    assert CannyEdges(s) == Suppressed(Normalized(d, SeqMax(d)));
    assert IsStrong(CannyEdges(s), strongThreshold, ArgMax(d));
  }

  /** The first step of canny_edge_detector: the absolute centred difference written
      into a new array, whose two ends are then overwritten with zero. */
  method GradientArray(smooth: seq<real>) returns (diff: array<real>)
    requires |smooth| >= 3
    ensures fresh(diff)
    ensures diff[..] == Gradient(smooth)
  {
    var n := |smooth|;
    var c := ConvolveSame(smooth, CentralKernel);
    diff := new real[n];
    for i := 0 to n
      invariant forall k :: 0 <= k < i ==> diff[k] == Abs(c[k])
    {
      diff[i] := Abs(c[i]);
    }
    diff[0] := 0.0;
    diff[n - 1] := 0.0;
  }

  /** The rescaling `diff = diff / diff.max() * 100`, done in place here: the Python plugin
      binds diff to a new array, but nothing else holds the old one. */
  method RescaleInPlace(diff: array<real>, m: real)
    requires m != 0.0
    modifies diff
    ensures diff[..] == Normalized(old(diff[..]), m)
  {
    ghost var d := diff[..];
    for i := 0 to diff.Length
      invariant forall k :: 0 <= k < i ==> diff[k] == d[k] / m * 100.0
      invariant forall k :: i <= k < diff.Length ==> diff[k] == d[k]
    {
      diff[i] := diff[i] / m * 100.0;
    }
  }

  /** The non-maximum suppression loop, writing the interior of a zero-ended edges
      array and leaving its two ends as they are. */
  method SuppressInto(diff: array<real>, edges: array<real>)
    requires diff.Length == edges.Length >= 2 && diff != edges
    requires edges[0] == 0.0 && edges[edges.Length - 1] == 0.0
    modifies edges
    ensures IsSuppression(diff[..], edges[..])
  {
    var n := diff.Length;
    ghost var d := diff[..];
    for i := 1 to n - 1
      invariant edges[0] == 0.0 && edges[n - 1] == 0.0
      invariant forall k :: 0 < k < i ==> edges[k] == ThinnedAt(d, k)
    {
      edges[i] := if diff[i] >= diff[i - 1] && diff[i] >= diff[i + 1] then diff[i] else 0.0;
      assert edges[i] == ThinnedAt(d, i);
    }
  }

  /** canny_edge_detector, working on arrays as the Python plugin does: the gradient is
      built in an array, rescaled in place, and thinned into a zero-initialised array
      of edge strengths, which the double threshold and the hysteresis then read. */
  method CannyEdgeDetector(smooth: seq<real>, strongThreshold: real := DefaultStrongThreshold,
                           weakThreshold: real := DefaultWeakThreshold)
    returns (indices: seq<int>)
    requires |smooth| >= 3
    ensures indices == CannyEdgeIndices(smooth, strongThreshold, weakThreshold)
  {
    var n := |smooth|;
    var diff := GradientArray(smooth);
    var m := SeqMax(diff[..]);
    var edges := new real[n](_ => 0.0);
    if m != 0.0 {
      // With m == 0 every entry would become NaN and every comparison below false.
      RescaleInPlace(diff, m);
      SuppressInto(diff, edges);
      SuppressionUnique(diff[..], edges[..]);
    } else {
      assert edges[..] == seq(n, _ => 0.0);
    }
    assert edges[..] == CannyEdges(smooth);
    var weakI := WeakIndices(edges[..], strongThreshold, weakThreshold);
    var strongI := StrongIndices(edges[..], strongThreshold);
    weakI := Linked(weakI, strongI);
    indices := Merge(strongI, weakI);
  }

  // ---------------------------------------------------------------------------------
  // The plugin
  // ---------------------------------------------------------------------------------

  /** The BH_Detector plugin: its configuration, and the outcome of its latest alert. */
  class BHDetector {
    const tfield: string
    const yfield: string
    const epsilon: real
    const threshSlope: real
    /** Read from the configuration but never used. */
    const outField: Option<string>
    var dropTime: Option<real>
    var foundDrop: bool

    constructor (inXField: string, inYField: string, epsilon: real := DefaultEpsilon,
                 thresholdSlope: real := DefaultThresholdSlope, outField: Option<string> := None)
      ensures tfield == inXField && yfield == inYField
      ensures this.epsilon == epsilon && threshSlope == thresholdSlope && this.outField == outField
      ensures dropTime == None && !foundDrop
    {
      tfield := inXField;
      yfield := inYField;
      this.epsilon := epsilon;
      threshSlope := thresholdSlope;
      this.outField := outField;
      dropTime := None;
      foundDrop := false;
    }

    /** The payload holds the time bins and the counts, and the counts, once smoothed
        (smooth), are as many as the time bins and enough for the edge finder. */
    predicate AlertInput(data: map<string, Value>, smooth: seq<real>)
    {
      && tfield in data && data[tfield].ArrayVal?
      && yfield in data && data[yfield].ArrayVal?
      && |data[yfield].xs| == |smooth| == |data[tfield].xs|
      && EdgeInput(data[tfield].xs, smooth)
    }

    /** alert: finds the falling edges of the smoothed counts, records whether there is
        one and the time bin of the last, writes both into the payload, and returns
        True. */
    method Alert(data: Dict, smooth: seq<real>) returns (ok: bool)
      requires AlertInput(data.entries, smooth)
      modifies this, data
      ensures ok
      ensures var times := old(data.entries)[tfield].xs;
              var edges := EdgeIndices(times, smooth, epsilon, threshSlope, "falling");
              && foundDrop == (|edges| > 0)
              && dropTime == (if |edges| == 0 then None else Some(times[edges[|edges| - 1]]))
      ensures data.entries == old(data.entries) + map["has_drop" := BoolVal(foundDrop), "drop_time" := TimeValue(dropTime)]
    {
      var times := data.entries[tfield].xs;
      var dropInd := EdgeIndices(times, smooth, epsilon, threshSlope, "falling");
      if |dropInd| == 0 {
        foundDrop := false;
        dropTime := None;
      } else {
        dropTime := Some(times[dropInd[|dropInd| - 1]]);
        foundDrop := true;
      }
      data.Update(map["has_drop" := BoolVal(foundDrop), "drop_time" := TimeValue(dropTime)]);
      ok := true;
    }
  }
}

/** SharpDropoff: looks for a sharp drop in a binned count series by segmenting the
    log2 counts at change points, averaging each segment and comparing the steps
    between consecutive segment means with a threshold.

    The change-point search (a kernel change-point detector) and the logarithm are
    not modelled: the breakpoints and the log2 counts are inputs, and log2 of the drop
    threshold is a parameter given with the threshold. */
module SharpDropoff {
  import opened Numeric
  import opened AlertData

  /** Characteristic time of the drop, in seconds. */
  const DefaultCharTime: real := 0.0002
  /** Penalty handed to the change-point search (not used by the model). */
  const DefaultPenalty: real := 0.6
  /** Factor by which the signal must fall. */
  const DefaultThreshDrop: real := 3.0
  /** The change-point detector's own minimum segment size before alert sets it. */
  const DefaultMinSize: int := 2

  /** How a call to alert can fail: times[1] does not exist, the time step is zero
      (ceil of an infinite or undefined quotient raises), there is only one segment
      (max of an empty array raises), or log2 of a non-positive threshold raises. */
  datatype AlertError = TooFewTimeBins | ZeroTimeStep | EmptyDifferences | NonPositiveThreshold

  // ---------------------------------------------------------------------------------
  // Minimum segment size
  // ---------------------------------------------------------------------------------

  /** max(2, ceil(char_time / dt)). */
  function MinSize(charTime: real, dt: real): (m: int)
    requires dt != 0.0
    ensures m >= 2
  {
    var c := Ceil(charTime / dt);
    if 2 < c then c else 2
  }

  /** When time runs forward the minimum segment spans the characteristic time, and
      when it is above 2 one sample fewer would not. */
  lemma MinSizeSpans(charTime: real, dt: real)
    requires dt > 0.0
    ensures MinSize(charTime, dt) as real * dt >= charTime
    ensures MinSize(charTime, dt) > 2 ==> (MinSize(charTime, dt) - 1) as real * dt < charTime
  {
    var q := charTime / dt;
    var c := Ceil(q);
    assert q * dt == charTime;
    assert c as real * dt >= charTime by {
      assert c as real >= q;
    }
    assert (c - 1) as real * dt < charTime by {
      assert (c - 1) as real < q;
    }
  }

  // ---------------------------------------------------------------------------------
  // Segments and their means
  // ---------------------------------------------------------------------------------

  /** Each element is above the one before it. */
  predicate StepsUp(s: seq<int>)
  {
    forall i :: 0 <= i < |s| - 1 ==> s[i] < s[i + 1]
  }

  /** The breakpoints the change-point search returns for n samples: ascending ends of
      non-empty segments, the last being n. */
  predicate IsBreakpoints(bkps: seq<int>, n: int)
  {
    |bkps| > 0 && bkps[0] > 0 && StepsUp(bkps) && bkps[|bkps| - 1] == n
  }

  /** Segment boundaries over n samples: ascending, all within [0, n]. */
  predicate IsBounds(bounds: seq<int>, n: int)
  {
    StepsUp(bounds) && forall i :: 0 <= i < |bounds| ==> 0 <= bounds[i] <= n
  }

  /** Along an ascending list, every step of position raises the value by at least one. */
  lemma {:induction false} StepsUpSpread(s: seq<int>, i: int, j: int)
    requires StepsUp(s) && 0 <= i <= j < |s|
    ensures s[j] - s[i] >= j - i
    decreases j - i
  {
    if i < j {
      StepsUpSpread(s, i + 1, j);
    }
  }

  /** Stepping up at every position is the same as being strictly increasing. */
  lemma StepsUpIffIncreasing(s: seq<int>)
    ensures StepsUp(s) <==> StrictlyIncreasing(s)
  {
    if StepsUp(s) {
      forall j, k | 0 <= j < k < |s| ensures s[j] < s[k] {
        StepsUpSpread(s, j, k);
      }
    }
  }

  /** Prepending 0 to the breakpoints gives segment boundaries over the n samples, and
      there are at most n breakpoints. */
  lemma BreakpointsBounds(bkps: seq<int>, n: int)
    requires IsBreakpoints(bkps, n)
    ensures IsBounds([0] + bkps, n)
    ensures |bkps| <= n
  {
    var last := |bkps| - 1;
    forall i | 0 <= i < |bkps| ensures 1 <= bkps[i] <= n {
      StepsUpSpread(bkps, 0, i);
      StepsUpSpread(bkps, i, last);
    }
    StepsUpSpread(bkps, 0, last);
  }

  /** The breakpoints with the start point 0 prepended: segment boundaries over the n
      samples. */
  function Bounds(bkps: seq<int>, n: int): (bounds: seq<int>)
    requires IsBreakpoints(bkps, n)
    ensures IsBounds(bounds, n) && |bounds| == |bkps| + 1 <= n + 1
    ensures bounds[0] == 0 && bounds[1..] == bkps
  {
    BreakpointsBounds(bkps, n);
    [0] + bkps
  }

  /** The samples between two boundaries. */
  function Segment(logVals: seq<real>, bounds: seq<int>, i: int): (seg: seq<real>)
    requires IsBounds(bounds, |logVals|) && 0 <= i < |bounds| - 1
    ensures |seg| == bounds[i + 1] - bounds[i] > 0
  {
    logVals[bounds[i]..bounds[i + 1]]
  }

  /** The mean of every segment, in order. */
  function SegmentMeans(logVals: seq<real>, bounds: seq<int>): (means: seq<real>)
    requires IsBounds(bounds, |logVals|) && |bounds| > 0
    ensures |means| == |bounds| - 1
  {
    seq(|bounds| - 1, i requires 0 <= i < |bounds| - 1 => Mean(Segment(logVals, bounds, i)))
  }

  /** Every segment mean lies between the least and the greatest sample of its
      segment. */
  lemma SegmentMeansWithin(logVals: seq<real>, bounds: seq<int>)
    requires IsBounds(bounds, |logVals|) && |bounds| > 0
    ensures forall i :: 0 <= i < |bounds| - 1 ==>
      SeqMin(Segment(logVals, bounds, i)) <= SegmentMeans(logVals, bounds)[i] <= SeqMax(Segment(logVals, bounds, i))
  {
    forall i | 0 <= i < |bounds| - 1
      ensures SeqMin(Segment(logVals, bounds, i)) <= SegmentMeans(logVals, bounds)[i] <= SeqMax(Segment(logVals, bounds, i))
    {
      var seg := Segment(logVals, bounds, i);
      MeanWithin(seg, SeqMin(seg), SeqMax(seg));
    }
  }

  /** The log_means loop: a zero array with one entry per segment, each entry then set
      to the mean of its segment. */
  method LogMeans(logVals: seq<real>, bounds: seq<int>) returns (means: seq<real>)
    requires IsBounds(bounds, |logVals|) && |bounds| > 0
    ensures means == SegmentMeans(logVals, bounds)
  {
    var a := new real[|bounds| - 1](_ => 0.0);
    for i := 0 to |bounds| - 1
      invariant forall k :: 0 <= k < i ==> a[k] == Mean(Segment(logVals, bounds, k))
    {
      a[i] := Mean(logVals[bounds[i]..bounds[i + 1]]);
    }
    means := a[..];
  }

  // ---------------------------------------------------------------------------------
  // Steps between segment means
  // ---------------------------------------------------------------------------------

  /** numpy's diff: the step from each entry to the next. */
  function Diffs(m: seq<real>): (d: seq<real>)
    ensures |d| == if |m| == 0 then 0 else |m| - 1
  {
    if |m| <= 1 then [] else Diffs(m[..|m| - 1]) + [m[|m| - 1] - m[|m| - 2]]
  }

  /** Entry k of the differences is the step from entry k to entry k + 1. */
  lemma {:induction false} DiffsAt(m: seq<real>, k: int)
    requires 0 <= k < |m| - 1
    ensures Diffs(m)[k] == m[k + 1] - m[k]
  {
    var init := m[..|m| - 1];
    if k < |m| - 2 {
      DiffsAt(init, k);
      assert Diffs(m)[k] == Diffs(init)[k];
    }
  }

  /** Sum of a list with one more entry at the end. */
  lemma SumSnoc(s: seq<real>, x: real)
    ensures Sum(s + [x]) == Sum(s) + x
  {
    assert (s + [x])[..|s|] == s;
  }

  /** The steps add up to the overall change from the first entry to the last. */
  lemma {:induction false} DiffsTelescope(m: seq<real>)
    requires |m| > 0
    ensures Sum(Diffs(m)) == m[|m| - 1] - m[0]
  {
    if |m| == 1 {
      assert Diffs(m) == [];
    } else {
      var init := m[..|m| - 1];
      var step := m[|m| - 1] - m[|m| - 2];
      assert Diffs(m) == Diffs(init) + [step];
      DiffsTelescope(init);
      SumSnoc(Diffs(init), step);
      assert init[|init| - 1] == m[|m| - 2];
    }
  }

  /** The steps between the means of consecutive segments, for breakpoints of the log
      counts: one fewer than the segments, so fewer than the samples. */
  function Steps(logVals: seq<real>, bkps: seq<int>): (d: seq<real>)
    requires IsBreakpoints(bkps, |logVals|)
    ensures |d| == |bkps| - 1 < |logVals|
  {
    Diffs(SegmentMeans(logVals, Bounds(bkps, |logVals|)))
  }

  /** alert, from prepending 0 up to the maximum: prepend 0 to the breakpoints, fill the
      segment means, take their differences. */
  method SegmentSteps(logVals: seq<real>, bkps: seq<int>) returns (diffs: seq<real>)
    requires IsBreakpoints(bkps, |logVals|)
    ensures diffs == Steps(logVals, bkps)
  {
    var bounds := Bounds(bkps, |logVals|);
    var logMeans := LogMeans(logVals, bounds);
    diffs := Diffs(logMeans);
  }

  /** The largest step is at most -l exactly when every step is a fall of at least l:
      since the code takes the maximum, a detection needs every pair of consecutive
      segments to fall by the threshold, not just one. */
  lemma DetectionIffEveryStepFalls(d: seq<real>, l: real)
    requires |d| > 0
    ensures SeqMax(d) <= -l <==> forall k :: 0 <= k < |d| ==> d[k] <= -l
  {
    var k :| 0 <= k < |d| && d[k] == SeqMax(d);
  }

  /** On a series whose log counts are all the same value every step is zero, so with
      a threshold above 1 (a positive log2) nothing is detected. */
  lemma ConstantSeriesNoDrop(logVals: seq<real>, bkps: seq<int>, c: real, l: real)
    requires IsBreakpoints(bkps, |logVals|) && |bkps| > 1
    requires forall i :: 0 <= i < |logVals| ==> logVals[i] == c
    requires l > 0.0
    ensures SeqMax(Steps(logVals, bkps)) > -l
  {
    var bounds := Bounds(bkps, |logVals|);
    var means := SegmentMeans(logVals, bounds);
    MeanWithin(Segment(logVals, bounds, 0), c, c);
    MeanWithin(Segment(logVals, bounds, 1), c, c);
    DiffsAt(means, 0);
    assert Steps(logVals, bkps)[0] == 0.0;
  }

  /** The index alert uses for drop_time is a segment-pair index, below the number of
      breakpoints minus one and so inside the time bins, and it is the first index of
      the largest step. */
  lemma DropIndexInBounds(logVals: seq<real>, bkps: seq<int>)
    requires IsBreakpoints(bkps, |logVals|) && |bkps| > 1
    ensures var d := Steps(logVals, bkps);
            && 0 <= ArgMax(d) < |bkps| - 1 < |logVals|
            && d[ArgMax(d)] == SeqMax(d)
            && forall j :: 0 <= j < ArgMax(d) ==> d[j] < SeqMax(d)
  {
  }

  /** The exception alert raises, in the order the code meets them: times[1] on fewer
      than two time bins, ceil on a zero time step, max of no steps when there is a
      single segment, log2 of a non-positive threshold. */
  function AlertFailure(times: seq<real>, segments: int, threshDrop: real): (e: Option<AlertError>)
    ensures e == None <==> |times| >= 2 && times[1] != times[0] && segments >= 2 && threshDrop > 0.0
  {
    if |times| < 2 then Some(TooFewTimeBins)
    else if times[1] == times[0] then Some(ZeroTimeStep)
    else if segments < 2 then Some(EmptyDifferences)
    else if threshDrop <= 0.0 then Some(NonPositiveThreshold)
    else None
  }

  // ---------------------------------------------------------------------------------
  // The plugin
  // ---------------------------------------------------------------------------------

  /** The SharpDropoff plugin: its configuration, the minimum segment size it hands to
      the change-point detector, and the drop it has seen. */
  class SharpDropoff {
    const tfield: string
    const yfield: string
    const charTime: real
    const cpdPenalty: real
    const threshDrop: real
    /** Stands for math.log2(threshDrop), which the model does not compute. */
    const log2ThreshDrop: real
    /** Read from the configuration but never used. */
    const outField: Option<string>
    /** The change-point detector's min_size. */
    var minSize: int
    /** The largest step between consecutive segment means; unset before the first
        alert that gets that far. */
    var dropMax: Option<real>
    var dropTime: Option<real>
    var foundDropoff: bool

    constructor (inXField: string, inYField: string, log2ThreshDrop: real,
                 charTime: real := DefaultCharTime, penalty: real := DefaultPenalty,
                 thresholdDrop: real := DefaultThreshDrop, outField: Option<string> := None)
      ensures tfield == inXField && yfield == inYField
      ensures this.charTime == charTime && cpdPenalty == penalty && threshDrop == thresholdDrop
      ensures this.log2ThreshDrop == log2ThreshDrop && this.outField == outField
      ensures minSize == DefaultMinSize && dropMax == None
      ensures dropTime == None && !foundDropoff
    {
      tfield := inXField;
      yfield := inYField;
      this.charTime := charTime;
      cpdPenalty := penalty;
      threshDrop := thresholdDrop;
      this.log2ThreshDrop := log2ThreshDrop;
      this.outField := outField;
      minSize := DefaultMinSize;
      dropMax := None;
      dropTime := None;
      foundDropoff := false;
    }

    /** The payload holds the time bins and the counts, as many of each as there are
        log counts, and bkps are the breakpoints of the log counts. */
    predicate AlertInput(data: map<string, Value>, logVals: seq<real>, bkps: seq<int>)
    {
      && tfield in data && data[tfield].ArrayVal?
      && yfield in data && data[yfield].ArrayVal?
      && |data[tfield].xs| == |data[yfield].xs| == |logVals|
      && IsBreakpoints(bkps, |logVals|)
    }

    /** alert: sets the minimum segment size from the time step, averages the log
        counts over the segments, keeps the largest step between consecutive means,
        records a drop when that step is a fall of at least log2 of the threshold, and
        writes has_drop, drop_time and max_drop into the payload. An exception leaves
        whatever was already assigned; a call that detects nothing leaves an earlier
        detection in place. */
    method Alert(data: Dict, logVals: seq<real>, bkps: seq<int>) returns (r: Result<bool, AlertError>)
      requires AlertInput(data.entries, logVals, bkps)
      modifies this, data
      ensures var failure := AlertFailure(old(data.entries)[tfield].xs, |bkps|, threshDrop);
              r == if failure.Some? then Err(failure.value) else Ok(true)
      ensures var times := old(data.entries)[tfield].xs;
              minSize == if |times| < 2 || times[1] == times[0] then old(minSize)
                         else MinSize(charTime, times[1] - times[0])
      ensures dropMax == if r.Ok? || r == Err(NonPositiveThreshold) then Some(SeqMax(Steps(logVals, bkps)))
                         else old(dropMax)
      ensures var detected := r.Ok? && SeqMax(Steps(logVals, bkps)) <= -log2ThreshDrop;
              && (detected ==> dropTime == Some(old(data.entries)[tfield].xs[ArgMax(Steps(logVals, bkps))]) && foundDropoff)
              && (!detected ==> dropTime == old(dropTime) && foundDropoff == old(foundDropoff))
      ensures data.entries == if r.Err? then old(data.entries)
                              else old(data.entries) + map["has_drop" := BoolVal(foundDropoff),
                                                           "drop_time" := TimeValue(dropTime),
                                                           "max_drop" := Exp2Val(SeqMax(Steps(logVals, bkps)))]
      ensures old(foundDropoff) ==> foundDropoff
    {
      var times := data.entries[tfield].xs;
      if |times| < 2 {
        return Err(TooFewTimeBins);
      }
      var dt := times[1] - times[0];
      if dt == 0.0 {
        return Err(ZeroTimeStep);
      }
      minSize := MinSize(charTime, dt);

      var diffs := SegmentSteps(logVals, bkps);
      if |diffs| == 0 {
        return Err(EmptyDifferences);
      }
      var m := SeqMax(diffs);
      dropMax := Some(m);

      if threshDrop <= 0.0 {
        return Err(NonPositiveThreshold);
      }
      if m <= -log2ThreshDrop {
        dropTime := Some(times[ArgMax(diffs)]);
        foundDropoff := true;
      }
      data.Update(map["has_drop" := BoolVal(foundDropoff), "drop_time" := TimeValue(dropTime),
                      "max_drop" := Exp2Val(m)]);
      return Ok(true);
    }
  }
}

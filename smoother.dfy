/** The outlier smoother run after every tick: it looks at the newest
    `WindowSize` raw entries and decides whether the newest raw pitch is
    carried into the postprocessed history or replaced by "no pitch".
    Frequencies are `f32` in the program; here they are reals, and the
    standard-deviation test is stated without the square root. */
module Smoother {
  import opened Collections

  /** Number of trailing raw entries examined. */
  const WindowSize: nat := 5
  /** Statistics are computed only when more present entries than this are in the window. */
  const MinCount: nat := 3
  /** A newest value more than this many standard deviations above the mean is an outlier. */
  const ZLimit: real := 2.0

  /** `before.iter().rev().take(window_size)`: the newest entries, newest first. */
  function Window(before: seq<Option<real>>): (w: seq<Option<real>>)
    ensures |w| == if |before| < WindowSize then |before| else WindowSize
    ensures forall k :: 0 <= k < |w| ==> w[k] == before[|before| - 1 - k]
  {
    ReverseAll(before);
    Take(Reverse(before), WindowSize)
  }

  /** The `sum()` of the present values. */
  function Sum(v: seq<real>): real
  {
    if |v| == 0 then 0.0 else v[0] + Sum(v[1..])
  }

  /** A common upper bound `b` of the values bounds their sum by `|v| * b`. */
  lemma {:induction false} SumAtMost(v: seq<real>, b: real)
    requires forall j :: 0 <= j < |v| ==> v[j] <= b
    ensures Sum(v) <= |v| as real * b
  {
    if |v| > 0 {
      SumAtMost(v[1..], b);
    }
  }

  /** A common lower bound `b` of the values bounds their sum by `|v| * b`. */
  lemma {:induction false} SumAtLeast(v: seq<real>, b: real)
    requires forall j :: 0 <= j < |v| ==> b <= v[j]
    ensures |v| as real * b <= Sum(v)
  {
    if |v| > 0 {
      SumAtLeast(v[1..], b);
    }
  }

  /** `sum / count`. */
  function Mean(v: seq<real>): real
    requires |v| > 0
  {
    Sum(v) / |v| as real
  }

  /** The mean lies between the smallest and the largest value: it is at
      most any common upper bound and at least any common lower bound. */
  lemma MeanBetween(v: seq<real>, lo: real, hi: real)
    requires |v| > 0
    requires forall j :: 0 <= j < |v| ==> lo <= v[j] <= hi
    ensures lo <= Mean(v) <= hi
  {
    SumAtMost(v, hi);
    SumAtLeast(v, lo);
  }

  /** Sum of squared deviations from `m`. */
  function SumSqDev(v: seq<real>, m: real): (s: real)
    ensures s >= 0.0
  {
    if |v| == 0 then 0.0
    else
      var d := v[0] - m;
      assert d * d >= 0.0 by { if d < 0.0 { assert d * d == (-d) * (-d); } }
      d * d + SumSqDev(v[1..], m)
  }

  /** Bessel-corrected sample variance (divisor `count - 1`). */
  function Variance(v: seq<real>): (var_: real)
    requires |v| > 1
    ensures var_ >= 0.0
  {
    SumSqDev(v, Mean(v)) / (|v| - 1) as real
  }

  /** `(x - mean) / standard_deviation > 2.0` with the standard deviation the
      square root of `Variance(v)`. For a non-negative deviation bound this is
      `x - mean > 0` and `(x - mean)^2 > 4 * variance`; when the variance is
      zero it holds exactly when `x` lies above the mean, as the division by
      zero would give positive infinity there. */
  predicate ZScoreAbove(v: seq<real>, x: real)
    requires |v| > 1
    ensures ZScoreAbove(v, x) ==> x > Mean(v)
  {
    var d := x - Mean(v);
    d > 0.0 && d * d > ZLimit * ZLimit * Variance(v)
  }

  /** The rejection test as the program writes it: mean and deviation are
      taken over ALL present entries of the window, the newest included. */
  predicate RejectsAsWritten(w: seq<Option<real>>)
    ensures RejectsAsWritten(w) ==>
      |w| > MinCount && w[0].Some? && w[0].value > Mean(Present(w))
  {
    |Present(w)| > MinCount && w[0].Some? && ZScoreAbove(Present(w), w[0].value)
  }

  /** The rejection test as evidently intended: the newest value is judged
      against the mean and deviation of the OTHER present entries of the
      window; a zero deviation never rejects. */
  predicate Rejects(w: seq<Option<real>>)
    ensures Rejects(w) ==>
      |w| > MinCount && w[0].Some? && |Present(w[1..])| > 1 &&
      Variance(Present(w[1..])) > 0.0 && w[0].value > Mean(Present(w[1..]))
  {
    |Present(w)| > MinCount && w[0].Some? &&
    var others := Present(w[1..]);
    |others| > 1 && Variance(others) > 0.0 && ZScoreAbove(others, w[0].value)
  }

  /** The value written into the newest postprocessed slot: the newest raw
      entry, unless the (intended) test rejects it. */
  function NewestSlot(before: seq<Option<real>>): (r: Option<real>)
    requires |before| > 0
    ensures r == before[|before| - 1] || r == None
    ensures before[|before| - 1] == None ==> r == None
    ensures |Present(Window(before))| <= MinCount ==> r == before[|before| - 1]
    ensures before[|before| - 1].Some? ==>
      (r == None <==>
        var others := Present(Window(before)[1..]);
        |Present(Window(before))| > MinCount && |others| > 1 && Variance(others) > 0.0 &&
        ZScoreAbove(others, before[|before| - 1].value))
  {
    if Rejects(Window(before)) then None else before[|before| - 1]
  }

  /** The same slot as the program computes it. */
  function NewestSlotAsWritten(before: seq<Option<real>>): (r: Option<real>)
    requires |before| > 0
    ensures r == before[|before| - 1] || r == None
    ensures before[|before| - 1] == None ==> r == None
    ensures |Present(Window(before))| <= MinCount ==> r == before[|before| - 1]
  {
    if RejectsAsWritten(Window(before)) then None else before[|before| - 1]
  }

  /** The deviation of the first value is one term of the sum of squared deviations. */
  lemma {:induction false} FirstDeviationBounded(v: seq<real>, m: real)
    requires |v| > 0
    ensures (v[0] - m) * (v[0] - m) <= SumSqDev(v, m)
  {
  }

  /** As written, the filter never fires: with at most five values and the
      newest among them, `(x - mean)^2` is at most the sum of squared
      deviations, which is at most `4 * variance` because the divisor
      `count - 1` is at most 4. So the z-score never exceeds 2, and the
      newest raw entry is always carried over unchanged. */
  lemma {:induction false} AsWrittenNeverRejects(before: seq<Option<real>>)
    requires |before| > 0
    ensures NewestSlotAsWritten(before) == before[|before| - 1]
  {
    var w := Window(before);
    if |Present(w)| > MinCount && w[0].Some? {
      var v := Present(w);
      assert v == [w[0].value] + Present(w[1..]);
      FirstNeverAboveLimit(v);
    }
  }

  /** The arithmetic core of the finding: among four or five values, the
      first is never more than two Bessel-corrected deviations above their
      mean. */
  lemma FirstNeverAboveLimit(v: seq<real>)
    requires 4 <= |v| <= 5
    ensures !ZScoreAbove(v, v[0])
  {
    var m := Mean(v);
    var s := SumSqDev(v, m);
    FirstDeviationBounded(v, m);
    var n := |v| - 1;
    assert ZLimit * ZLimit * Variance(v) == 4.0 * (s / n as real);
    assert 4.0 * (s / n as real) >= s by {
      assert s / n as real >= s / 4.0;
    }
  }

  /** The spike of five present raw entries 100, 102, 98, 101, 250 Hz. */
  function SpikeHistory(): seq<Option<real>>
  {
    [Some(100.0), Some(102.0), Some(98.0), Some(101.0), Some(250.0)]
  }

  /** The same history with a plausible newest value of 103 Hz. */
  function SteadyHistory(): seq<Option<real>>
  {
    [Some(100.0), Some(102.0), Some(98.0), Some(101.0), Some(103.0)]
  }

  /** The window of a five-entry history lists it newest first. */
  lemma WindowOfFive(h: seq<Option<real>>)
    requires |h| == 5
    ensures Window(h) == [h[4], h[3], h[2], h[1], h[0]]
  {
    ReverseAt(h, 1);
    ReverseAt(h, 2);
    ReverseAt(h, 3);
    ReverseAt(h, 4);
  }

  /** As written, the 250 Hz spike is kept. */
  lemma AsWrittenKeepsSpike()
    ensures NewestSlotAsWritten(SpikeHistory()) == Some(250.0)
  {
    AsWrittenNeverRejects(SpikeHistory());
  }

  /** The four older entries shared by both example histories, newest first. */
  function SharedOthers(): seq<Option<real>>
  {
    [Some(101.0), Some(98.0), Some(102.0), Some(100.0)]
  }

  /** Mean 100.25 and variance 35/12 of the four older values. */
  lemma SharedOthersStats()
    ensures Present(SharedOthers()) == [101.0, 98.0, 102.0, 100.0]
    ensures Mean([101.0, 98.0, 102.0, 100.0]) == 100.25
    ensures Variance([101.0, 98.0, 102.0, 100.0]) == 8.75 / 3.0
  {
    var o := [101.0, 98.0, 102.0, 100.0];
    assert Sum(o[3..]) == 100.0;
    assert Sum(o[2..]) == 202.0;
    assert Sum(o[1..]) == 300.0;
    assert Sum(o) == 401.0;
    assert SumSqDev(o[3..], 100.25) == 0.0625;
    assert SumSqDev(o[2..], 100.25) == 3.125;
    assert SumSqDev(o[1..], 100.25) == 8.1875;
    assert SumSqDev(o, 100.25) == 8.75;
  }

  /** The intended test rejects the 250 Hz spike. */
  lemma CorrectedRejectsSpike()
    ensures NewestSlot(SpikeHistory()) == None
  {
    var w := Window(SpikeHistory());
    WindowOfFive(SpikeHistory());
    assert w == [Some(250.0)] + SharedOthers();
    assert w[1..] == SharedOthers();
    SharedOthersStats();
    var others := [101.0, 98.0, 102.0, 100.0];
    assert Present(w) == [250.0] + others;
    assert Variance(others) > 0.0;
    assert ZScoreAbove(others, 250.0);
    assert Rejects(w);
  }

  /** 103 Hz lies 2.75 above the mean 100.25; its square 7.5625 is below
      4 * 35/12. */
  lemma SteadyWithinLimit()
    ensures !ZScoreAbove([101.0, 98.0, 102.0, 100.0], 103.0)
  {
    SharedOthersStats();
    var others := [101.0, 98.0, 102.0, 100.0];
    assert (103.0 - 100.25) * (103.0 - 100.25) == 7.5625;
    assert ZLimit * ZLimit * Variance(others) == 35.0 / 3.0;
  }

  /** The intended test keeps the plausible 103 Hz value. */
  lemma CorrectedKeepsSteady()
    ensures NewestSlot(SteadyHistory()) == Some(103.0)
  {
    var w := Window(SteadyHistory());
    WindowOfFive(SteadyHistory());
    assert w == [Some(103.0)] + SharedOthers();
    assert w[1..] == SharedOthers();
    SharedOthersStats();
    var others := [101.0, 98.0, 102.0, 100.0];
    assert Present(w[1..]) == others;
    SteadyWithinLimit();
    assert !Rejects(w);
  }

  /** The intended test is one-sided: a newest value at or below the mean of
      the others is never rejected, however far below it lies. */
  lemma CorrectedKeepsLowValues(before: seq<Option<real>>)
    requires |before| > 0
    requires before[|before| - 1].Some?
    requires var others := Present(Window(before)[1..]);
      |others| > 0 && before[|before| - 1].value <= Mean(others)
    ensures NewestSlot(before) == before[|before| - 1]
  {
  }

  /** `after.rotate_left(1)` followed by `after[index] = slot`: every entry
      moves one slot toward the front, the front entry wraps to the back, and
      then the slot at `index` is overwritten. */
  function RotateAndWrite(after: seq<Option<real>>, index: nat, slot: Option<real>): (r: seq<Option<real>>)
    requires index < |after|
    ensures |r| == |after|
    ensures r[index] == slot
    ensures forall k :: 0 <= k < |after| - 1 && k != index ==> r[k] == after[k + 1]
    ensures index != |after| - 1 ==> r[|after| - 1] == after[0]
  {
    (after[1..] + [after[0]])[index := slot]
  }

  /** `postprocess` as the program writes it: rotate, then write the slot at
      the raw history's last index, which the as-written test always leaves
      holding the newest raw entry. With histories of equal length the
      oldest postprocessed entry is dropped and the newest raw entry is
      appended. */
  function Postprocessed(before: seq<Option<real>>, after: seq<Option<real>>): (r: seq<Option<real>>)
    requires 0 < |before| <= |after|
    ensures |r| == |after|
    ensures r[|before| - 1] == before[|before| - 1]
    ensures |before| == |after| ==> r == after[1..] + [before[|before| - 1]]
    ensures |before| < |after| ==> r[|after| - 1] == after[0]
  {
    AsWrittenNeverRejects(before);
    RotateAndWrite(after, |before| - 1, NewestSlotAsWritten(before))
  }

  /** The same step with the intended test: the slot receives the corrected
      `NewestSlot`, so a rejected spike leaves "no pitch" behind. */
  function PostprocessedCorrected(before: seq<Option<real>>, after: seq<Option<real>>): (r: seq<Option<real>>)
    requires 0 < |before| <= |after|
    ensures |r| == |after|
    ensures |before| == |after| ==> r == after[1..] + [NewestSlot(before)]
    ensures |before| < |after| ==> r[|after| - 1] == after[0]
  {
    RotateAndWrite(after, |before| - 1, NewestSlot(before))
  }

  /** Consequence of the finding: as written, one smoothing step after a push
      reproduces the raw history exactly. `Vocalize.Tick` carries this as the
      invariant that the postprocessed history equals the raw one. */
  lemma AsWrittenMirrorsRaw(history: seq<Option<real>>, entry: Option<real>)
    requires |history| > 0
    ensures var before := history[1..] + [entry];
      history[1..] + [NewestSlotAsWritten(before)] == before
  {
    AsWrittenNeverRejects(history[1..] + [entry]);
  }
}

/** `LossDivergenceChecker`: the two bounded windows of steps and losses, and the
    classifier that decides from them whether the loss is diverging. */
module DivergenceChecker {
  import opened Wrappers
  import opened SampleWindow
  import opened Regression

  /** The checker's configuration, fixed at construction. */
  datatype Thresholds = Thresholds(
    windowSize: nat,
    frequencyThreshold: real,
    magnitudeThreshold: real,
    slopeThreshold: real)
  {
    /** How many positive excursions a full window needs before the trend is tested. */
    function RequiredPositives(): real
    {
      windowSize as real * frequencyThreshold
    }
  }

  /** The two status messages `check` can report: "No divergence" and "Divergence
      detected". */
  datatype Message = NoDivergence | DivergenceDetected

  /** What `check` returns: a message (`None` while the window is still filling) and
      whether divergence was detected. */
  datatype Verdict = Verdict(message: Option<Message>, alert: bool)

  /** The exceptions `check` can raise instead of returning. */
  datatype CheckError =
    | EmptyWindow    // `min()` of the empty deque a window size of 0 leaves: ValueError
    | ZeroLossRange  // all window losses equal while `loss` exceeds the first: ZeroDivisionError

  const Filling := Verdict(None, false)
  const Calm := Verdict(Some(NoDivergence), false)
  const Diverging := Verdict(Some(DivergenceDetected), true)

  /** The steps as reals, for the regression. */
  function Reals(steps: seq<int>): (xs: seq<real>)
    ensures |xs| == |steps|
    ensures forall i | 0 <= i < |xs| :: xs[i] == steps[i] as real
  {
    seq(|steps|, i requires 0 <= i < |steps| => steps[i] as real)
  }

  /** The loss at index `i` rescaled against the window's minimum and range. */
  function NormLoss(losses: seq<real>, i: int): (norm: real)
    requires Spread(losses) && 0 <= i < |losses|
  {
    SpreadIffRange(losses);
    Normalize(losses[i], Min(losses), Max(losses) - Min(losses))
  }

  /** A positive excursion: a sample whose normalised loss exceeds both the magnitude
      threshold and the normalised loss of the window's first sample. */
  predicate IsExcursion(losses: seq<real>, magnitude: real, i: int)
    requires Spread(losses) && 0 < i < |losses|
  {
    NormLoss(losses, i) > magnitude && NormLoss(losses, i) > NormLoss(losses, 0)
  }

  /** `num_positives` once the counting loop has visited the indices `1 .. k - 1`. */
  function CountExcursions(losses: seq<real>, magnitude: real, k: nat): (c: nat)
    requires Spread(losses) && 1 <= k <= |losses|
    ensures c <= k - 1
  {
    if k == 1 then 0
    else CountExcursions(losses, magnitude, k - 1) + (if IsExcursion(losses, magnitude, k - 1) then 1 else 0)
  }

  /** The counting loop of `check`: how many samples after the first are positive
      excursions. */
  method CountPositives(losses: seq<real>, magnitude: real) returns (numPositives: nat)
    requires Spread(losses)
    ensures numPositives == CountExcursions(losses, magnitude, |losses|)
  {
    var normOrigLoss := NormLoss(losses, 0);
    numPositives := 0;
    for i := 1 to |losses|
      invariant numPositives == CountExcursions(losses, magnitude, i)
    {
      var normLoss := NormLoss(losses, i);
      if normLoss > magnitude && normLoss > normOrigLoss {
        numPositives := numPositives + 1;
      }
    }
  }

  /** The indices after the first that are positive excursions. */
  ghost function Excursions(losses: seq<real>, magnitude: real, k: nat): set<int>
    requires Spread(losses) && k <= |losses|
  {
    set i | 0 < i < k && IsExcursion(losses, magnitude, i)
  }

  /** The counter counts exactly the excursions among the samples it has visited, and
      so never exceeds the number of samples after the first. */
  lemma {:induction false} CountExcursionsIsSize(losses: seq<real>, magnitude: real, k: nat)
    requires Spread(losses) && 1 <= k <= |losses|
    ensures CountExcursions(losses, magnitude, k) == |Excursions(losses, magnitude, k)|
    ensures 0 <= |Excursions(losses, magnitude, k)| <= k - 1
  {
    if k == 1 {
      assert Excursions(losses, magnitude, k) == {};
    } else {
      CountExcursionsIsSize(losses, magnitude, k - 1);
      var before := Excursions(losses, magnitude, k - 1);
      if IsExcursion(losses, magnitude, k - 1) {
        assert Excursions(losses, magnitude, k) == before + {k - 1};
        assert k - 1 !in before;
      } else {
        assert Excursions(losses, magnitude, k) == before;
      }
    }
  }

  /** The OLS slope of the normalised losses on the normalised steps, or `None` when all
      steps are equal: the step range is then zero, the normalised steps come out NaN
      and so does the slope, which then compares greater than no threshold. */
  function NormalizedSlope(steps: seq<int>, losses: seq<real>): (b: Option<real>)
    requires |steps| == |losses| && Spread(losses)
    ensures b.Some? <==> Spread(Reals(steps))
  {
    var xs := Reals(steps);
    SpreadIffRange(xs);
    if Max(xs) - Min(xs) == 0.0 then None
    else Some(OlsSlope(NormalizeAll(xs), NormalizeAll(losses)))
  }

  /** The verdict on a full window whose losses are not all equal, once the loss has
      risen over it: divergence when enough samples are positive excursions and the
      normalised trend is steeper than the slope threshold. */
  function Trend(t: Thresholds, steps: seq<int>, losses: seq<real>): (v: Verdict)
    requires |steps| == |losses| && Spread(losses)
    ensures v == Calm || v == Diverging
  {
    if CountExcursions(losses, t.magnitudeThreshold, |losses|) as real >= t.RequiredPositives() then
      match NormalizedSlope(steps, losses)
      case Some(b) => if b > t.slopeThreshold then Diverging else Calm
      case None => Calm
    else Calm
  }

  /** `LossDivergenceChecker.check(loss)` on windows holding `steps` and `losses`. */
  function Classify(t: Thresholds, steps: seq<int>, losses: seq<real>, loss: real): (r: Result<Verdict, CheckError>)
    requires |steps| == |losses|
    ensures |losses| != t.windowSize ==> r == Ok(Filling)
    ensures |losses| == t.windowSize > 0 && loss <= losses[0] ==> r == Ok(Calm)
    ensures r.Ok? ==> r.value == Filling || r.value == Calm || r.value == Diverging
    ensures |losses| == t.windowSize && r.Ok? ==> r.value == Calm || r.value == Diverging
    ensures r.Ok? ==> (r.value.alert <==> r.value.message == Some(DivergenceDetected))
  {
    if |losses| != t.windowSize then Ok(Filling)
    else if |losses| == 0 then Err(EmptyWindow)
    else
      var minLoss := Min(losses);
      var lossRange := Max(losses) - minLoss;
      SpreadIffRange(losses);
      if loss - losses[0] <= 0.0 then Ok(Calm)
      else if lossRange == 0.0 then Err(ZeroLossRange)
      else Ok(Trend(t, steps, losses))
  }

  /** `check` raises exactly in two cases: `min()` of the empty window a window size of
      0 leaves, and a division by the zero range of a flat window that the loss has
      risen over. */
  lemma ClassifyFailsIff(t: Thresholds, steps: seq<int>, losses: seq<real>, loss: real)
    requires |steps| == |losses|
    ensures Classify(t, steps, losses, loss) == Err(EmptyWindow) <==> |losses| == t.windowSize == 0
    ensures Classify(t, steps, losses, loss) == Err(ZeroLossRange) <==>
      |losses| == t.windowSize > 0 && loss > losses[0] && !Spread(losses)
  {
    if |losses| > 0 {
      SpreadIffRange(losses);
    }
  }

  /** Divergence is reported exactly when the window is full, the loss has risen over
      it, enough samples are positive excursions and the normalised trend is steeper
      than the slope threshold. */
  lemma ClassifyDivergingIff(t: Thresholds, steps: seq<int>, losses: seq<real>, loss: real)
    requires |steps| == |losses|
    ensures Classify(t, steps, losses, loss) == Ok(Diverging) <==>
      |losses| == t.windowSize > 0 && loss > losses[0] && Spread(losses) &&
      |Excursions(losses, t.magnitudeThreshold, |losses|)| as real >= t.RequiredPositives() &&
      NormalizedSlope(steps, losses).Some? && NormalizedSlope(steps, losses).value > t.slopeThreshold
  {
    if |losses| == t.windowSize > 0 && Spread(losses) {
      CountExcursionsIsSize(losses, t.magnitudeThreshold, |losses|);
    }
  }

  /** When `loss` is the sample just appended, as in the monitor, a loss that rose over
      the window implies a positive loss range: `check` never divides by zero. */
  lemma ClassifyLatestNeverFails(t: Thresholds, steps: seq<int>, losses: seq<real>)
    requires |steps| == |losses| == t.windowSize > 0
    ensures Classify(t, steps, losses, losses[|losses| - 1]).Ok?
  {
    var n := |losses|;
    if losses[n - 1] > losses[0] {
      assert losses[n - 1] in losses && losses[0] in losses;
      SpreadIffRange(losses);
    }
  }

  /** A full window of identical losses never reports divergence. */
  lemma FlatWindowIsCalm(t: Thresholds, steps: seq<int>, losses: seq<real>)
    requires |steps| == |losses| == t.windowSize > 0
    requires forall i | 0 <= i < |losses| :: losses[i] == losses[0]
    ensures Classify(t, steps, losses, losses[|losses| - 1]) == Ok(Calm)
  {
  }

  /** The ramp: a window of five samples over steps 6 to 10 whose loss climbs from 1 to 4
      and then jumps to 10, checked with window size 5, frequency 0.6, magnitude 0.05 and
      slope 0.1. */
  const RampThresholds := Thresholds(5, 0.6, 0.05, 0.1)
  const RampSteps: seq<int> := [6, 7, 8, 9, 10]
  const RampLosses: seq<real> := [1.0, 2.0, 3.0, 4.0, 10.0]
  /** The ramp's steps and losses normalised to their windows' minimum and range. */
  const RampX: seq<real> := [0.0, 0.25, 0.5, 0.75, 1.0]
  const RampY: seq<real> := [0.0, 1.0 / 9.0, 2.0 / 9.0, 3.0 / 9.0, 1.0]

  lemma RampLossRange()
    ensures Min(RampLosses) == 1.0 && Max(RampLosses) == 10.0 && Spread(RampLosses)
  {
    var lo, hi := Min(RampLosses), Max(RampLosses);
    assert RampLosses[0] in RampLosses && RampLosses[4] in RampLosses;
    assert lo >= 1.0 && hi <= 10.0 by {
      var i :| 0 <= i < 5 && RampLosses[i] == lo;
      var j :| 0 <= j < 5 && RampLosses[j] == hi;
    }
  }

  lemma RampStepRange()
    ensures Reals(RampSteps) == [6.0, 7.0, 8.0, 9.0, 10.0]
    ensures Min(Reals(RampSteps)) == 6.0 && Max(Reals(RampSteps)) == 10.0 && Spread(Reals(RampSteps))
  {
    var xs := Reals(RampSteps);
    assert xs == [6.0, 7.0, 8.0, 9.0, 10.0];
    var lo, hi := Min(xs), Max(xs);
    assert xs[0] in xs && xs[4] in xs;
    assert lo >= 6.0 && hi <= 10.0 by {
      var i :| 0 <= i < 5 && xs[i] == lo;
      var j :| 0 <= j < 5 && xs[j] == hi;
    }
  }

  /** The normalised ramp losses are the losses less their minimum 1, over their range 9. */
  lemma RampYIsScaled(i: nat)
    requires i < 5
    ensures RampY[i] == (RampLosses[i] - 1.0) / 9.0
  {
    if i == 0 {
    } else if i == 1 {
    } else if i == 2 {
    } else if i == 3 {
    } else {
    }
  }

  lemma RampLossNormalizedAt(i: nat)
    requires i < 5
    ensures Spread(RampLosses) && NormalizeAll(RampLosses)[i] == RampY[i]
  {
    RampLossRange();
    NormalizeAllAt(RampLosses, i);
    RampYIsScaled(i);
  }

  lemma RampLossesNormalized()
    ensures Spread(RampLosses) && NormalizeAll(RampLosses) == RampY
  {
    RampLossRange();
    var ys := NormalizeAll(RampLosses);
    forall i | 0 <= i < 5
      ensures ys[i] == RampY[i]
    {
      RampLossNormalizedAt(i);
    }
    assert |ys| == |RampY|;
  }

  lemma RampStepsNormalized()
    ensures Spread(Reals(RampSteps)) && NormalizeAll(Reals(RampSteps)) == RampX
  {
    RampStepRange();
    var steps := Reals(RampSteps);
    var xs := NormalizeAll(steps);
    forall i | 0 <= i < 5
      ensures xs[i] == RampX[i]
    {
      NormalizeAllAt(steps, i);
      assert xs[i] == (steps[i] - 6.0) / 4.0;
      if i == 0 {} else if i == 1 {} else if i == 2 {} else if i == 3 {} else {}
    }
    assert |xs| == |RampX|;
  }

  /** Every sample after the first is a positive excursion. */
  lemma RampCount()
    ensures Spread(RampLosses) && CountExcursions(RampLosses, 0.05, 5) == 4
  {
    RampLossRange();
    assert NormLoss(RampLosses, 0) == 0.0;
    assert NormLoss(RampLosses, 1) == 1.0 / 9.0;
    assert IsExcursion(RampLosses, 0.05, 1);
    assert IsExcursion(RampLosses, 0.05, 2);
    assert IsExcursion(RampLosses, 0.05, 3);
    assert IsExcursion(RampLosses, 0.05, 4);
  }

  lemma RampMeans()
    ensures Mean(RampX) == 0.5 && Mean(RampY) == 1.0 / 3.0
  {
    assert RampX[..4] == [0.0, 0.25, 0.5, 0.75] && RampX[..4][..3] == [0.0, 0.25, 0.5];
    assert RampX[..4][..3][..2] == [0.0, 0.25] && RampX[..4][..3][..2][..1] == [0.0];
    assert Sum([0.0]) == 0.0;
    assert Sum([0.0, 0.25]) == 0.25;
    assert Sum([0.0, 0.25, 0.5]) == 0.75;
    assert Sum(RampX[..4]) == 1.5;
    assert Sum(RampX) == 2.5;
    assert RampY[..4] == [0.0, 1.0 / 9.0, 2.0 / 9.0, 3.0 / 9.0];
    assert RampY[..4][..3] == [0.0, 1.0 / 9.0, 2.0 / 9.0];
    assert RampY[..4][..3][..2] == [0.0, 1.0 / 9.0] && RampY[..4][..3][..2][..1] == [0.0];
    assert Sum([0.0]) == 0.0;
    assert Sum([0.0, 1.0 / 9.0]) == 1.0 / 9.0;
    assert Sum([0.0, 1.0 / 9.0, 2.0 / 9.0]) == 3.0 / 9.0;
    assert Sum(RampY[..4]) == 6.0 / 9.0;
    assert Sum(RampY) == 15.0 / 9.0;
  }

  lemma RampSumSq()
    ensures SumSq(RampX, 0.5) == 0.625
  {
    assert RampX[..4] == [0.0, 0.25, 0.5, 0.75] && RampX[..4][..3] == [0.0, 0.25, 0.5];
    assert RampX[..4][..3][..2] == [0.0, 0.25] && RampX[..4][..3][..2][..1] == [0.0];
    assert SumSq([0.0], 0.5) == 0.25;
    assert SumSq([0.0, 0.25], 0.5) == 0.3125;
    assert SumSq([0.0, 0.25, 0.5], 0.5) == 0.3125;
    assert SumSq([0.0, 0.25, 0.5, 0.75], 0.5) == 0.375;
  }

  lemma RampSumCross()
    ensures SumCross(RampX, RampY, 0.5, 1.0 / 3.0) == 5.0 / 9.0
  {
    var my := 1.0 / 3.0;
    assert RampX[..4] == [0.0, 0.25, 0.5, 0.75] && RampX[..4][..3] == [0.0, 0.25, 0.5];
    assert RampX[..4][..3][..2] == [0.0, 0.25] && RampX[..4][..3][..2][..1] == [0.0];
    assert RampY[..4] == [0.0, 1.0 / 9.0, 2.0 / 9.0, 3.0 / 9.0];
    assert RampY[..4][..3] == [0.0, 1.0 / 9.0, 2.0 / 9.0];
    assert RampY[..4][..3][..2] == [0.0, 1.0 / 9.0] && RampY[..4][..3][..2][..1] == [0.0];
    assert SumCross([0.0], [0.0], 0.5, my) == 1.0 / 6.0;
    assert SumCross([0.0, 0.25], [0.0, 1.0 / 9.0], 0.5, my) == 2.0 / 9.0;
    assert SumCross([0.0, 0.25, 0.5], [0.0, 1.0 / 9.0, 2.0 / 9.0], 0.5, my) == 2.0 / 9.0;
    assert SumCross([0.0, 0.25, 0.5, 0.75], [0.0, 1.0 / 9.0, 2.0 / 9.0, 3.0 / 9.0], 0.5, my) == 2.0 / 9.0;
  }

  /** The normalised ramp rises with slope 8/9. */
  lemma RampSlope()
    ensures Spread(RampLosses) && NormalizedSlope(RampSteps, RampLosses) == Some(8.0 / 9.0)
  {
    RampLossesNormalized();
    RampStepsNormalized();
    RampMeans();
    RampSumSq();
    RampSumCross();
    assert Spread(RampX);
    assert OlsSlope(RampX, RampY) == (5.0 / 9.0) / 0.625;
  }

  /** Four of the ramp's five samples are positive excursions, at least the required
      5 * 0.6, and its normalised slope 8/9 exceeds 0.1. */
  lemma RampTrend()
    ensures Spread(RampLosses) && Trend(RampThresholds, RampSteps, RampLosses) == Diverging
  {
    RampCount();
    RampSlope();
    assert RampThresholds.RequiredPositives() == 3.0;
  }

  /** The ramp is reported as diverging. */
  lemma RampDiverges()
    ensures Classify(RampThresholds, RampSteps, RampLosses, 10.0) == Ok(Diverging)
  {
    RampLossRange();
    RampTrend();
  }

  /** The checker object: configuration plus the two bounded windows. */
  class LossDivergenceChecker {
    const windowSize: nat
    const frequencyThreshold: real
    const magnitudeThreshold: real
    const slopeThreshold: real

    var steps: seq<int>
    var losses: seq<real>

    /** Every step and every loss ever sampled, oldest first. */
    ghost var sampledSteps: seq<int>
    ghost var sampledLosses: seq<real>

    /** The windows hold exactly the last `windowSize` sampled pairs, in arrival order. */
    ghost predicate Valid()
      reads this
      ensures Valid() ==> |steps| == |losses| <= windowSize
    {
      |sampledSteps| == |sampledLosses| &&
      steps == LastN(sampledSteps, windowSize) &&
      losses == LastN(sampledLosses, windowSize)
    }

    function Config(): Thresholds
    {
      Thresholds(windowSize, frequencyThreshold, magnitudeThreshold, slopeThreshold)
    }

    constructor(windowSize: nat, frequencyThreshold: real, magnitudeThreshold: real, slopeThreshold: real)
      ensures Valid()
      ensures Config() == Thresholds(windowSize, frequencyThreshold, magnitudeThreshold, slopeThreshold)
      ensures steps == [] && losses == [] && sampledSteps == [] && sampledLosses == []
    {
      this.windowSize := windowSize;
      this.frequencyThreshold := frequencyThreshold;
      this.magnitudeThreshold := magnitudeThreshold;
      this.slopeThreshold := slopeThreshold;
      steps, losses := [], [];
      sampledSteps, sampledLosses := [], [];
    }

    /** `sample(step, loss)`: append to both windows, evicting the oldest pair when full. */
    method Sample(step: int, loss: real)
      requires Valid()
      modifies this
      ensures Valid()
      ensures sampledSteps == old(sampledSteps) + [step] && sampledLosses == old(sampledLosses) + [loss]
      ensures steps == BoundedAppend(old(steps), step, windowSize)
      ensures losses == BoundedAppend(old(losses), loss, windowSize)
    {
      LastNAppend(sampledSteps, step, windowSize);
      LastNAppend(sampledLosses, loss, windowSize);
      steps, sampledSteps := BoundedAppend(steps, step, windowSize), sampledSteps + [step];
      losses, sampledLosses := BoundedAppend(losses, loss, windowSize), sampledLosses + [loss];
    }

    /** `check(loss)`: reads the windows only and classifies them. */
    method Check(loss: real) returns (r: Result<Verdict, CheckError>)
      requires Valid()
      ensures r == Classify(Config(), steps, losses, loss)
    {
      var t, steps, losses := Config(), this.steps, this.losses;
      if |losses| != windowSize {
        return Ok(Filling);
      }
      if |losses| == 0 {
        return Err(EmptyWindow);
      }
      var minLoss := Min(losses);
      var lossRange := Max(losses) - minLoss;
      var origLoss := losses[0];
      if loss - origLoss <= 0.0 {
        return Ok(Calm);
      }
      if lossRange == 0.0 {
        return Err(ZeroLossRange);
      }
      SpreadIffRange(losses);
      assert Classify(t, steps, losses, loss) == Ok(Trend(t, steps, losses));
      var numPositives := CountPositives(losses, magnitudeThreshold);
      if numPositives as real >= t.RequiredPositives() {
        var slope := NormalizedSlope(steps, losses);
        if slope.Some? && slope.value > slopeThreshold {
          return Ok(Diverging);
        }
      }
      return Ok(Calm);
    }
  }
}

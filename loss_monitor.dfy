/** `WAndBLossMonitor`: the per-batch callback that samples the (distorted) loss into
    the divergence checker and, at most once per alert interval of wall-clock time,
    runs the check and forwards its verdict to the alert sink. */
module LossMonitor {
  import opened Wrappers
  import opened SampleWindow
  import opened DivergenceChecker

  /** The step after which the callback injects its synthetic sawtooth into the loss. */
  const DivStart: int := 500
  /** The period, in steps, of that sawtooth. */
  const DivDur: int := 200

  /** The factor the loss of a step past `DivStart` is multiplied by: it climbs from 0
      towards 5 in steps of 1/40 and falls back to 0 every `DivDur` steps. */
  function DistortionFactor(step: int): (f: real)
    requires step > DivStart
    ensures 0.0 <= f < 5.0
    ensures f == 0.0 <==> (step - DivStart) % DivDur == 0
  {
    ((step - DivStart) % DivDur) as real / DivDur as real * 5.0
  }

  /** The loss the callback actually samples for `step`. */
  function Distort(step: int, loss: real): (r: real)
    ensures step <= DivStart ==> r == loss
    ensures step > DivStart && (step - DivStart) % DivDur == 0 ==> r == 0.0
    ensures loss >= 0.0 ==> r >= 0.0
    ensures step > DivStart && loss > 0.0 ==> r < 5.0 * loss
  {
    if step > DivStart then loss * DistortionFactor(step) else loss
  }

  /** Past `DivStart` the distortion repeats every `DivDur` steps. */
  lemma DistortPeriodic(step: int, loss: real)
    requires step > DivStart
    ensures Distort(step + DivDur, loss) == Distort(step, loss)
  {
    assert (step + DivDur - DivStart) % DivDur == (step - DivStart) % DivDur;
  }

  /** Within one period of the sawtooth a positive loss is distorted upwards strictly
      as the step grows. */
  lemma DistortRisesWithinPeriod(s1: int, s2: int, loss: real)
    requires DivStart < s1 < s2
    requires (s1 - DivStart) / DivDur == (s2 - DivStart) / DivDur
    requires loss > 0.0
    ensures Distort(s1, loss) < Distort(s2, loss)
  {
    var q := (s1 - DivStart) / DivDur;
    var m1 := (s1 - DivStart) % DivDur;
    var m2 := (s2 - DivStart) % DivDur;
    assert s1 - DivStart == q * DivDur + m1;
    assert s2 - DivStart == q * DivDur + m2;
    assert m1 < m2;
    assert DistortionFactor(s1) < DistortionFactor(s2);
    calc {
      Distort(s1, loss);
      loss * DistortionFactor(s1);
    < { ScaleStrictlyMonotone(loss, DistortionFactor(s1), DistortionFactor(s2)); }
      loss * DistortionFactor(s2);
      Distort(s2, loss);
    }
  }

  lemma ScaleStrictlyMonotone(x: real, a: real, b: real)
    requires x > 0.0 && a < b
    ensures x * a < x * b
  {
  }

  /** `_check(now)`: the alert interval has elapsed since the last alert. The gate
      opens at the very second the interval ends; a non-positive interval never holds
      back a call made at or after the last alert, and a positive one keeps the gate
      shut at the second of the last alert and before it. */
  predicate GateOpen(lastAlert: int, alertFrequency: int, now: int)
    ensures now == lastAlert + alertFrequency ==> GateOpen(lastAlert, alertFrequency, now)
    ensures alertFrequency <= 0 && now >= lastAlert ==> GateOpen(lastAlert, alertFrequency, now)
    ensures alertFrequency > 0 && now <= lastAlert ==> !GateOpen(lastAlert, alertFrequency, now)
  {
    now - lastAlert >= alertFrequency
  }

  /** The callback's configuration. */
  datatype MonitorConfig = MonitorConfig(thresholds: Thresholds, alertFrequency: int, reportOk: bool)

  /** The callback's state: the checker's two windows and the time of the last alert. */
  datatype MonitorState = MonitorState(steps: seq<int>, losses: seq<real>, lastAlert: int)

  /** What one `batch_end` call sees: whether this process has global rank 0, whether
      the loss is a single tensor, the batch count, the loss value, and `now`, the
      clock reading `total_wct.seconds` of the training state's timestamp. */
  datatype BatchInput = BatchInput(isRank0: bool, lossIsTensor: bool, step: int, loss: real, now: int)

  /** How one `batch_end` call ends. */
  datatype BatchOutcome =
    | NotPrimary                    // not rank 0: returns at once, nothing sampled
    | MultipleLosses                // the loss is not a tensor: NotImplementedError
    | Skipped                       // sampled, but the alert interval has not elapsed
    | CheckFailed(error: CheckError)  // sampled, and `check` raised
    | Checked(alert: bool, message: Option<Message>, sent: bool)  // returns `alert`; `sent`: `message` went to the alert sink

  /** The outcome delivered a message to the alert sink. */
  predicate Sent(o: BatchOutcome)
  {
    o.Checked? && o.sent
  }

  /** The outcome ran the divergence check. */
  predicate Evaluated(o: BatchOutcome)
  {
    o.Checked? || o.CheckFailed?
  }

  /** The windows have equal lengths within the configured window size. */
  predicate WellFormed(mc: MonitorConfig, st: MonitorState)
  {
    |st.steps| == |st.losses| <= mc.thresholds.windowSize
  }

  /** The state `__init__` leaves: empty windows and a last alert placed one interval
      before time zero. */
  function Initial(mc: MonitorConfig): (st: MonitorState)
    ensures WellFormed(mc, st) && st.steps == [] && st.losses == []
    ensures forall now: int :: GateOpen(st.lastAlert, mc.alertFrequency, now) <==> now >= 0
  {
    MonitorState([], [], -mc.alertFrequency)
  }

  /** What `batch_end` does with the result of `check` once the gate is open: it
      returns `alert`, and it sends the message and records `now` as the last alert time
      when divergence was detected or when quiet verdicts are reported too. */
  function Respond(mc: MonitorConfig, lastAlert: int, now: int, checked: Result<Verdict, CheckError>): (res: (int, BatchOutcome))
    ensures Evaluated(res.1)
    ensures res.0 == if Sent(res.1) then now else lastAlert
    ensures checked.Err? ==> res.1 == CheckFailed(checked.error)
    ensures checked.Ok? ==> res.1.Checked? && res.1.alert == checked.value.alert && res.1.message == checked.value.message
    ensures checked.Ok? ==> (Sent(res.1) <==> checked.value.alert || (mc.reportOk && checked.value.message.Some?))
  {
    match checked
    case Err(e) => (lastAlert, CheckFailed(e))
    case Ok(v) =>
      var send := v.alert || (mc.reportOk && v.message.Some?);
      (if send then now else lastAlert, Checked(v.alert, v.message, send))
  }

  /** `checker.sample(step, loss)` with the distorted loss. */
  function SampleBatch(mc: MonitorConfig, st: MonitorState, b: BatchInput): (res: MonitorState)
    requires WellFormed(mc, st)
    ensures WellFormed(mc, res) && res.lastAlert == st.lastAlert
  {
    var n := mc.thresholds.windowSize;
    MonitorState(BoundedAppend(st.steps, b.step, n), BoundedAppend(st.losses, Distort(b.step, b.loss), n), st.lastAlert)
  }

  /** One `batch_end` call. */
  function BatchTransition(mc: MonitorConfig, st: MonitorState, b: BatchInput): (res: (MonitorState, BatchOutcome))
    requires WellFormed(mc, st)
    ensures WellFormed(mc, res.0)
    ensures !b.isRank0 ==> res == (st, NotPrimary)
    ensures b.isRank0 && !b.lossIsTensor ==> res == (st, MultipleLosses)
    ensures b.isRank0 && b.lossIsTensor ==>
      res.0.steps == BoundedAppend(st.steps, b.step, mc.thresholds.windowSize) &&
      res.0.losses == BoundedAppend(st.losses, Distort(b.step, b.loss), mc.thresholds.windowSize)
    ensures Evaluated(res.1) <==> b.isRank0 && b.lossIsTensor && GateOpen(st.lastAlert, mc.alertFrequency, b.now)
    ensures b.isRank0 && b.lossIsTensor && GateOpen(st.lastAlert, mc.alertFrequency, b.now) ==>
      res.1 == Respond(mc, st.lastAlert, b.now, Classify(mc.thresholds, res.0.steps, res.0.losses, Distort(b.step, b.loss))).1
    ensures res.0.lastAlert == if Sent(res.1) then b.now else st.lastAlert
    ensures res.1.Checked? ==> (res.1.alert <==> res.1.message == Some(DivergenceDetected))
    ensures res.1.Checked? ==> (Sent(res.1) <==> res.1.alert || (mc.reportOk && res.1.message.Some?))
  {
    if !b.isRank0 then (st, NotPrimary)
    else if !b.lossIsTensor then (st, MultipleLosses)
    else
      var sampled := SampleBatch(mc, st, b);
      if !GateOpen(st.lastAlert, mc.alertFrequency, b.now) then (sampled, Skipped)
      else
        var checked := Classify(mc.thresholds, sampled.steps, sampled.losses, Distort(b.step, b.loss));
        var response := Respond(mc, st.lastAlert, b.now, checked);
        (sampled.(lastAlert := response.0), response.1)
  }

  /** With a window of at least one sample the check never raises: the loss it is
      given is the one just sampled, so it cannot have risen over a flat window. */
  lemma BatchNeverFails(mc: MonitorConfig, st: MonitorState, b: BatchInput)
    requires WellFormed(mc, st) && mc.thresholds.windowSize > 0
    ensures !BatchTransition(mc, st, b).1.CheckFailed?
  {
    var n := mc.thresholds.windowSize;
    if b.isRank0 && b.lossIsTensor {
      var loss := Distort(b.step, b.loss);
      var steps := BoundedAppend(st.steps, b.step, n);
      var losses := BoundedAppend(st.losses, loss, n);
      if |losses| == n {
        assert losses[n - 1] == loss;
        ClassifyLatestNeverFails(mc.thresholds, steps, losses);
      }
    }
  }

  /** A sequence of `batch_end` calls, returning the final state and every outcome. */
  function Run(mc: MonitorConfig, st: MonitorState, bs: seq<BatchInput>): (res: (MonitorState, seq<BatchOutcome>))
    requires WellFormed(mc, st)
    ensures WellFormed(mc, res.0)
    ensures |res.1| == |bs|
    decreases |bs|
  {
    if bs == [] then (st, [])
    else
      var before := Run(mc, st, bs[..|bs| - 1]);
      var last := BatchTransition(mc, before.0, bs[|bs| - 1]);
      (last.0, before.1 + [last.1])
  }

  /** The outcomes of a run's first `j` calls are those of the run cut after them, and
      call `j` starts from that shorter run's final state. */
  lemma {:induction false} RunPrefix(mc: MonitorConfig, st: MonitorState, bs: seq<BatchInput>, j: nat)
    requires WellFormed(mc, st) && j < |bs|
    ensures Run(mc, st, bs[..j]).1 == Run(mc, st, bs).1[..j]
    ensures Run(mc, st, bs).1[j] == BatchTransition(mc, Run(mc, st, bs[..j]).0, bs[j]).1
    decreases |bs|
  {
    var p := bs[..|bs| - 1];
    if j < |bs| - 1 {
      RunPrefix(mc, st, p, j);
      assert p[..j] == bs[..j];
    } else {
      assert p == bs[..j];
    }
  }

  /** The losses of the batches that reach `sample`, distorted as sampled. */
  function SampledLosses(bs: seq<BatchInput>): (ls: seq<real>)
    ensures |ls| <= |bs|
  {
    if bs == [] then []
    else
      var b := bs[|bs| - 1];
      SampledLosses(bs[..|bs| - 1]) + if b.isRank0 && b.lossIsTensor then [Distort(b.step, b.loss)] else []
  }

  /** The steps of the batches that reach `sample`. */
  function SampledSteps(bs: seq<BatchInput>): (ss: seq<int>)
    ensures |ss| <= |bs|
  {
    if bs == [] then []
    else
      var b := bs[|bs| - 1];
      SampledSteps(bs[..|bs| - 1]) + if b.isRank0 && b.lossIsTensor then [b.step] else []
  }

  /** Sampling does not depend on the gate: after any run from the initial state the
      windows hold the last `windowSize` samples of every primary, single-loss batch. */
  lemma {:induction false} RunKeepsLastSamples(mc: MonitorConfig, bs: seq<BatchInput>)
    ensures Run(mc, Initial(mc), bs).0.steps == LastN(SampledSteps(bs), mc.thresholds.windowSize)
    ensures Run(mc, Initial(mc), bs).0.losses == LastN(SampledLosses(bs), mc.thresholds.windowSize)
  {
    var n := mc.thresholds.windowSize;
    if bs != [] {
      var p := bs[..|bs| - 1];
      var b := bs[|bs| - 1];
      RunKeepsLastSamples(mc, p);
      var mid := Run(mc, Initial(mc), p).0;
      assert Run(mc, Initial(mc), bs).0 == BatchTransition(mc, mid, b).0;
      if b.isRank0 && b.lossIsTensor {
        assert SampledSteps(bs) == SampledSteps(p) + [b.step];
        assert SampledLosses(bs) == SampledLosses(p) + [Distort(b.step, b.loss)];
        LastNAppend(SampledSteps(p), b.step, n);
        LastNAppend(SampledLosses(p), Distort(b.step, b.loss), n);
      } else {
        assert SampledSteps(bs) == SampledSteps(p);
        assert SampledLosses(bs) == SampledLosses(p);
      }
    }
  }

  /** While the gate stays shut nothing is checked and the last alert time stays put. */
  lemma {:induction false} ClosedGateChecksNothing(mc: MonitorConfig, st: MonitorState, bs: seq<BatchInput>)
    requires WellFormed(mc, st)
    requires forall k | 0 <= k < |bs| :: !GateOpen(st.lastAlert, mc.alertFrequency, bs[k].now)
    ensures Run(mc, st, bs).0.lastAlert == st.lastAlert
    ensures forall k | 0 <= k < |bs| :: !Evaluated(Run(mc, st, bs).1[k])
  {
    if bs != [] {
      ClosedGateChecksNothing(mc, st, bs[..|bs| - 1]);
    }
  }

  /** The wall-clock readings of the calls never go backwards. */
  predicate NowsNonDecreasing(bs: seq<BatchInput>)
  {
    forall i, j | 0 <= i <= j < |bs| :: bs[i].now <= bs[j].now
  }

  /** Every prefix of calls with a clock that never goes backwards has one too. */
  lemma NowsNonDecreasingPrefix(bs: seq<BatchInput>, j: nat)
    requires NowsNonDecreasing(bs) && j <= |bs|
    ensures NowsNonDecreasing(bs[..j])
  {
  }

  /** With a clock that never goes backwards, or with a non-negative alert interval
      whatever the clock does, the last alert time is at least the time of every alert
      sent during the run; with a non-negative interval it never falls below its
      starting value. */
  lemma {:induction false} LastAlertCoversSends(mc: MonitorConfig, st: MonitorState, bs: seq<BatchInput>)
    requires WellFormed(mc, st) && (NowsNonDecreasing(bs) || mc.alertFrequency >= 0)
    ensures mc.alertFrequency >= 0 ==> Run(mc, st, bs).0.lastAlert >= st.lastAlert
    ensures forall k | 0 <= k < |bs| && Sent(Run(mc, st, bs).1[k]) :: Run(mc, st, bs).0.lastAlert >= bs[k].now
  {
    if bs != [] {
      var n := |bs|;
      var p := bs[..n - 1];
      if NowsNonDecreasing(bs) {
        NowsNonDecreasingPrefix(bs, n - 1);
      }
      LastAlertCoversSends(mc, st, p);
      var mid := Run(mc, st, p);
      var last := BatchTransition(mc, mid.0, bs[n - 1]);
      assert Run(mc, st, bs) == (last.0, mid.1 + [last.1]);
      if mc.alertFrequency >= 0 {
        StepKeepsCover(mc, mid.0, bs[n - 1], st.lastAlert);
      }
      forall k | 0 <= k < n && Sent(Run(mc, st, bs).1[k])
        ensures last.0.lastAlert >= bs[k].now
      {
        if k < n - 1 {
          assert Run(mc, st, bs).1[k] == mid.1[k];
          StepKeepsCover(mc, mid.0, bs[n - 1], bs[k].now);
        }
      }
    }
  }

  /** One call keeps the last alert time at or above any bound it already meets, when
      that bound is not after the call's clock reading or the interval is non-negative. */
  lemma StepKeepsCover(mc: MonitorConfig, st: MonitorState, b: BatchInput, t: int)
    requires WellFormed(mc, st) && st.lastAlert >= t
    requires t <= b.now || mc.alertFrequency >= 0
    ensures BatchTransition(mc, st, b).0.lastAlert >= t
  {
  }

  /** The rate limit: two alerts sent during a run are at least one alert interval
      apart, when the clock never goes backwards or the interval is non-negative. */
  lemma {:induction false} AlertsAtLeastIntervalApart(mc: MonitorConfig, st: MonitorState, bs: seq<BatchInput>, i: nat, j: nat)
    requires WellFormed(mc, st) && (NowsNonDecreasing(bs) || mc.alertFrequency >= 0)
    requires i < j < |bs|
    requires Sent(Run(mc, st, bs).1[i]) && Sent(Run(mc, st, bs).1[j])
    ensures bs[j].now - bs[i].now >= mc.alertFrequency
  {
    RunPrefix(mc, st, bs, j);
    var p := bs[..j];
    var before := Run(mc, st, p);
    if NowsNonDecreasing(bs) {
      NowsNonDecreasingPrefix(bs, j);
    }
    LastAlertCoversSends(mc, st, p);
    assert before.1[i] == Run(mc, st, bs).1[i];
    assert before.0.lastAlert >= bs[i].now by {
      assert p[i] == bs[i];
    }
    assert Evaluated(BatchTransition(mc, before.0, bs[j]).1);
  }

  /** The last alert time is the initial one or the time of a call of the run that sent
      an alert. */
  lemma {:induction false} LastAlertFromRun(mc: MonitorConfig, st: MonitorState, bs: seq<BatchInput>)
    requires WellFormed(mc, st)
    ensures Run(mc, st, bs).0.lastAlert == st.lastAlert ||
      exists k | 0 <= k < |bs| :: Sent(Run(mc, st, bs).1[k]) && Run(mc, st, bs).0.lastAlert == bs[k].now
  {
    if bs != [] {
      var p := bs[..|bs| - 1];
      LastAlertFromRun(mc, st, p);
      var outs := Run(mc, st, bs).1;
      if Sent(outs[|bs| - 1]) {
        assert Run(mc, st, bs).0.lastAlert == bs[|bs| - 1].now;
      } else if Run(mc, st, p).0.lastAlert != st.lastAlert {
        var k :| 0 <= k < |p| && Sent(Run(mc, st, p).1[k]) && Run(mc, st, p).0.lastAlert == p[k].now;
        assert outs[k] == Run(mc, st, p).1[k];
        assert Run(mc, st, bs).0.lastAlert == bs[k].now;
      }
    }
  }

  /** Silence is never permanent: a primary, single-loss call made at least one interval
      after the initial last alert and after every alert sent before it runs the check. */
  lemma GateReopensAfterInterval(mc: MonitorConfig, st: MonitorState, bs: seq<BatchInput>, b: BatchInput)
    requires WellFormed(mc, st)
    requires b.isRank0 && b.lossIsTensor
    requires b.now - st.lastAlert >= mc.alertFrequency
    requires forall k | 0 <= k < |bs| && Sent(Run(mc, st, bs).1[k]) :: b.now - bs[k].now >= mc.alertFrequency
    ensures Evaluated(Run(mc, st, bs + [b]).1[|bs|])
  {
    LastAlertFromRun(mc, st, bs);
    assert (bs + [b])[..|bs|] == bs;
  }

  /** When every call is a primary, single-loss call, every call is sampled, in order. */
  lemma {:induction false} SampledEveryCall(bs: seq<BatchInput>)
    requires forall k | 0 <= k < |bs| :: bs[k].isRank0 && bs[k].lossIsTensor
    ensures |SampledSteps(bs)| == |bs| && |SampledLosses(bs)| == |bs|
    ensures forall k | 0 <= k < |bs| ::
      SampledSteps(bs)[k] == bs[k].step && SampledLosses(bs)[k] == Distort(bs[k].step, bs[k].loss)
  {
    if bs != [] {
      var p := bs[..|bs| - 1];
      SampledEveryCall(p);
      assert SampledSteps(bs) == SampledSteps(p) + [bs[|bs| - 1].step];
      assert SampledLosses(bs) == SampledLosses(p) + [Distort(bs[|bs| - 1].step, bs[|bs| - 1].loss)];
    }
  }

  /** The ramp scenario: window size 5, frequency 0.6, magnitude 0.05, slope 0.1, a
      300-second interval and quiet verdicts not reported. Call `k` (from 0) is made at
      step `k + 1`, `300 * k` seconds in, with a loss that stays at 1 for six calls and then
      climbs 2, 3, 4, 10. */
  const RampConfig := MonitorConfig(RampThresholds, 300, false)
  const RampStream: seq<real> := [1.0, 1.0, 1.0, 1.0, 1.0, 1.0, 2.0, 3.0, 4.0, 10.0]
  const RampCalls: seq<BatchInput> :=
    seq(10, k requires 0 <= k < 10 => BatchInput(true, true, k + 1, RampStream[k], 300 * k))

  /** Every call of the ramp finds the gate open: no alert was sent less than one interval
      before it, since the calls are one interval apart. */
  lemma RampGateOpen(j: nat)
    requires j < 10
    ensures GateOpen(Run(RampConfig, Initial(RampConfig), RampCalls[..j]).0.lastAlert, 300, RampCalls[j].now)
  {
    var p := RampCalls[..j];
    LastAlertFromRun(RampConfig, Initial(RampConfig), p);
    assert forall k | 0 <= k < |p| :: p[k].now <= 300 * (j - 1);
  }

  /** After a run of at least `windowSize` primary, single-loss calls from the initial
      state, the windows hold the steps and distorted losses of the last `windowSize`
      calls. */
  lemma LastCallsFillWindows(mc: MonitorConfig, bs: seq<BatchInput>)
    requires forall k | 0 <= k < |bs| :: bs[k].isRank0 && bs[k].lossIsTensor
    requires |bs| >= mc.thresholds.windowSize
    ensures var w, n := Run(mc, Initial(mc), bs).0, mc.thresholds.windowSize;
      |w.steps| == |w.losses| == n &&
      forall i | 0 <= i < n :: w.steps[i] == bs[|bs| - n + i].step &&
        w.losses[i] == Distort(bs[|bs| - n + i].step, bs[|bs| - n + i].loss)
  {
    RunKeepsLastSamples(mc, bs);
    SampledEveryCall(bs);
  }

  /** Call `k` of the ramp, spelled out. */
  lemma RampCallAt(k: nat)
    requires k < 10
    ensures RampCalls[k] == BatchInput(true, true, k + 1, RampStream[k], 300 * k)
    ensures Distort(RampCalls[k].step, RampCalls[k].loss) == RampStream[k]
  {
  }

  /** The state call `j` of the ramp leaves is the state of the run cut after it. */
  lemma RampCallEnds(j: nat)
    requires j < 10
    ensures var before := Run(RampConfig, Initial(RampConfig), RampCalls[..j]).0;
      Run(RampConfig, Initial(RampConfig), RampCalls).1[j] == BatchTransition(RampConfig, before, RampCalls[j]).1 &&
      Run(RampConfig, Initial(RampConfig), RampCalls[..j + 1]).0 == BatchTransition(RampConfig, before, RampCalls[j]).0
  {
    RunPrefix(RampConfig, Initial(RampConfig), RampCalls, j);
    var q := RampCalls[..j + 1];
    assert q[..|q| - 1] == RampCalls[..j] && q[|q| - 1] == RampCalls[j];
  }

  /** After the first five ramp calls the windows hold steps 1 to 5 and five flat losses. */
  lemma RampFirstWindows()
    ensures Run(RampConfig, Initial(RampConfig), RampCalls[..5]).0.steps == [1, 2, 3, 4, 5]
    ensures Run(RampConfig, Initial(RampConfig), RampCalls[..5]).0.losses == [1.0, 1.0, 1.0, 1.0, 1.0]
  {
    var p := RampCalls[..5];
    LastCallsFillWindows(RampConfig, p);
    var w := Run(RampConfig, Initial(RampConfig), p).0;
    forall i | 0 <= i < 5
      ensures w.steps[i] == i + 1 && w.losses[i] == 1.0
    {
      RampCallAt(i);
    }
  }

  /** After all ten ramp calls the windows hold steps 6 to 10 and the climbing losses. */
  lemma RampLastWindows()
    ensures Run(RampConfig, Initial(RampConfig), RampCalls).0.steps == RampSteps
    ensures Run(RampConfig, Initial(RampConfig), RampCalls).0.losses == RampLosses
  {
    LastCallsFillWindows(RampConfig, RampCalls);
    var w := Run(RampConfig, Initial(RampConfig), RampCalls).0;
    forall i | 0 <= i < 5
      ensures w.steps[i] == RampSteps[i] && w.losses[i] == RampLosses[i]
    {
      RampCallAt(5 + i);
    }
  }

  /** Once five flat losses fill the window, the fifth call reports "No divergence" and,
      with quiet verdicts not reported, sends nothing. */
  lemma RampFlatWindowIsCalm()
    ensures Run(RampConfig, Initial(RampConfig), RampCalls).1[4] == Checked(false, Some(NoDivergence), false)
  {
    var before := Run(RampConfig, Initial(RampConfig), RampCalls[..4]).0;
    RampCallEnds(4);
    RampGateOpen(4);
    RampFirstWindows();
    RampCallAt(4);
    var after := BatchTransition(RampConfig, before, RampCalls[4]);
    assert after.0 == Run(RampConfig, Initial(RampConfig), RampCalls[..5]).0;
    assert |after.0.losses| == 5 && after.0.losses[0] == 1.0;
    assert Classify(RampThresholds, after.0.steps, after.0.losses, 1.0) == Ok(Calm);
    assert after.1 == Respond(RampConfig, before.lastAlert, 1200, Ok(Calm)).1;
  }

  /** When the loss climbs to 10 over the last five calls, the tenth call detects
      divergence and sends the alert. */
  lemma RampRunDiverges()
    ensures Run(RampConfig, Initial(RampConfig), RampCalls).1[9] == Checked(true, Some(DivergenceDetected), true)
  {
    var before := Run(RampConfig, Initial(RampConfig), RampCalls[..9]).0;
    RampCallEnds(9);
    assert RampCalls[..10] == RampCalls;
    RampGateOpen(9);
    RampLastWindows();
    RampCallAt(9);
    RampDiverges();
    var after := BatchTransition(RampConfig, before, RampCalls[9]);
    assert Classify(RampThresholds, after.0.steps, after.0.losses, 10.0) == Ok(Diverging);
    assert after.1 == Respond(RampConfig, before.lastAlert, 2700, Ok(Diverging)).1;
  }

  /** `timedelta.seconds`: the seconds within the current day of an elapsed time. */
  function DaySeconds(elapsed: nat): (s: int)
    ensures 0 <= s < 86400
    ensures elapsed < 86400 ==> s == elapsed
  {
    elapsed % 86400
  }

  /** Reading the clock as the seconds within the day, as the callback does: once an
      alert has been sent at 86100 seconds of elapsed time with the default 300-second
      interval, the gate never opens again, whatever the later calls. */
  lemma DaySecondsGateNeverReopens(mc: MonitorConfig, st: MonitorState, bs: seq<BatchInput>)
    requires WellFormed(mc, st) && mc.alertFrequency == 300
    requires st.lastAlert == DaySeconds(86100)
    requires forall k | 0 <= k < |bs| :: exists e: nat :: bs[k].now == DaySeconds(e)
    ensures Run(mc, st, bs).0.lastAlert == st.lastAlert
    ensures forall k | 0 <= k < |bs| :: !Evaluated(Run(mc, st, bs).1[k])
  {
  }

  /** The callback object: the checker it owns, the alert interval, whether quiet
      verdicts are reported too, and the time of the last alert. */
  class WAndBLossMonitor {
    const alertFrequency: int
    const reportOk: bool
    var lastAlert: int
    const checker: LossDivergenceChecker

    ghost predicate Valid()
      reads this, checker
    {
      checker.Valid()
    }

    function Settings(): MonitorConfig
    {
      MonitorConfig(checker.Config(), alertFrequency, reportOk)
    }

    function State(): MonitorState
      reads this, checker
    {
      MonitorState(checker.steps, checker.losses, lastAlert)
    }

    /** `__init__`, with its default arguments. */
    constructor(windowSize: nat := 100, frequencyThreshold: real := 0.6, magnitudeThreshold: real := 0.05,
                slopeThreshold: real := 0.1, alertFrequency: int := 300, reportOk: bool := false)
      ensures Valid() && fresh(checker)
      ensures Settings() == MonitorConfig(
        Thresholds(windowSize, frequencyThreshold, magnitudeThreshold, slopeThreshold), alertFrequency, reportOk)
      ensures State() == Initial(Settings())
    {
      this.alertFrequency := alertFrequency;
      this.reportOk := reportOk;
      lastAlert := -alertFrequency;
      checker := new LossDivergenceChecker(windowSize, frequencyThreshold, magnitudeThreshold, slopeThreshold);
    }

    /** `_check(now)`: true exactly when a primary, single-loss `batch_end` call at
        `now` would go on to run the divergence check. */
    function GateIsOpen(now: int): (r: bool)
      requires Valid()
      reads this, checker
      ensures r <==> Evaluated(BatchTransition(Settings(), State(), BatchInput(true, true, 0, 0.0, now)).1)
    {
      GateOpen(lastAlert, alertFrequency, now)
    }

    /** `batch_end(state, logger)`. */
    method BatchEnd(b: BatchInput) returns (r: BatchOutcome)
      requires Valid()
      modifies this, checker
      ensures Valid()
      ensures (State(), r) == BatchTransition(Settings(), old(State()), b)
      ensures b.isRank0 && b.lossIsTensor ==>
        checker.sampledSteps == old(checker.sampledSteps) + [b.step] &&
        checker.sampledLosses == old(checker.sampledLosses) + [Distort(b.step, b.loss)]
      ensures !(b.isRank0 && b.lossIsTensor) ==> unchanged(checker)
    {
      if !b.isRank0 {
        return NotPrimary;
      }
      if !b.lossIsTensor {
        return MultipleLosses;
      }
      var loss := Distort(b.step, b.loss);
      checker.Sample(b.step, loss);
      if GateIsOpen(b.now) {
        var checked := checker.Check(loss);
        match checked
        case Err(e) =>
          return CheckFailed(e);
        case Ok(v) =>
          var send := v.alert || (reportOk && v.message.Some?);
          if send {
            lastAlert := b.now;
          }
          return Checked(v.alert, v.message, send);
      }
      return Skipped;
    }
  }
}

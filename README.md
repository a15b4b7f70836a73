# Loss-divergence monitor: a Dafny model

This project models the loss-divergence detector of LLM Foundry's `WAndBLossMonitor`
training callback and proves its properties with the Dafny verifier. The callback lives
in `llmfoundry/callbacks/wandb_loss_monitor.py`.

- **`LossDivergenceChecker`**
  - It keeps two bounded FIFO windows, `deque(maxlen = window_size)`, one of training
    steps and one of losses.
  - `check(loss)` decides from them whether the loss is diverging:
    1. It skips a window that is not yet full, and a loss that has not risen over the
       window.
    2. It normalises the losses to the window's minimum and range.
    3. It counts the *positive excursions*: samples whose normalised loss exceeds both
       the magnitude threshold and the first sample's normalised loss.
    4. When that count reaches `window_size * frequency_threshold`, it fits an
       ordinary-least-squares line to the normalised (step, loss) points.
    5. It reports divergence when the line's slope exceeds the slope threshold.
- **`WAndBLossMonitor.batch_end`** runs on every training batch:
  - It ignores every process but global rank 0.
  - It rejects a loss that is not a single tensor.
  - Past step 500 it multiplies the loss by a synthetic sawtooth factor.
  - It always samples.
  - It runs `check` only when the wall-clock gate `_check` is open. The gate is open
    when at least `alert_frequency` seconds have passed since the last alert.
  - It sends an alert when divergence is detected, or when `report_ok` is set and
    there is a message. It records the alert's time only when an alert was sent.

Modules, one per component:

- `Wrappers` (`wrappers.dfy`): `Option` and `Result`.
- `SampleWindow` (`window.dfy`): the bounded deque.
  - `LastN(s, n)` is what a deque with `maxlen = n` holds after the elements of `s`
    have been appended to it.
  - `BoundedAppend` is one `append`.
- `Regression` (`regression.dfy`), all over exact reals:
  - Python's `min` and `max`.
  - The min/range normalisation.
  - The ordinary-least-squares slope Σ(x − x̄)(y − ȳ) / Σ(x − x̄)², which is the `slope`
    that `scipy.stats.linregress` returns.
- `DivergenceChecker` (`divergence_checker.dfy`):
  - `Classify` is the pure specification of `check`. Each exception `check` can raise
    is a `CheckError`.
  - The class `LossDivergenceChecker` has the two windows as `seq` fields and the
    `Sample` and `Check` methods. `Check` is proved equal to `Classify`.
    - Its ghost fields `sampledSteps`/`sampledLosses` record every sample ever taken.
    - `Valid()` ties the windows to the last `windowSize` of those samples.
- `LossMonitor` (`loss_monitor.dfy`):
  - The distortion, as a pure function.
  - The gate `GateOpen`.
  - `BatchTransition`, the pure specification of one `batch_end` call, and `Run`, a
    sequence of such calls.
  - The class `WAndBLossMonitor`. Its `BatchEnd` method is proved equal to
    `BatchTransition`.
  - The rate-limit lemmas over runs.
  - A worked run, the ramp. With window size 5, steps 1 to 5 at a flat loss of 1 give
    "No divergence". Continuing with losses 1, 2, 3, 4, 10 at steps 6 to 10 gives
    "Divergence detected", with the alert sent. `DivergenceChecker.RampDiverges` proves
    the check on the final window; `LossMonitor.RampRunDiverges` proves the whole run
    from the initial state.

The external inputs of `batch_end` are all fields of `BatchInput`:

- whether the process has global rank 0;
- whether `state.loss` is a tensor;
- the batch count;
- the loss value;
- `now`, the clock reading taken at line 50, `state.timestamp.total_wct.seconds`.

The rate-limit lemmas treat `now` as a plain integer. `LastAlertCoversSends` and
`AlertsAtLeastIntervalApart` hold when the readings never decrease from one call to
the next, and also for any sequence of readings when `alert_frequency` is not
negative. The second case covers the `.seconds` field of a `timedelta`, which falls
back to 0 at every day boundary, with the default interval of 300: the wrapping clock
never lets two alerts through less than one interval apart. What it does instead is
keep the gate shut; the Findings section below shows how.

Sending an alert is the `sent` flag of the `Checked` outcome, with the message it
carries.

Facts about the code that shape the model:

- A window that is not yet full yields `(None, False)`.
- `check` divides by the loss range without testing it. When the loss has risen over a
  flat window, that is a division by zero. The model returns `Err(ZeroLossRange)`.
  `ClassifyLatestNeverFails` and `BatchNeverFails` prove that this cannot happen as
  `batch_end` calls `check`, because `batch_end` passes the loss it has just sampled.
- A window size of 0 makes `check` call `min()` on an empty deque, which raises
  `ValueError`. The model returns `Err(EmptyWindow)`.
- The loss distortion is the fixed sawtooth of lines 52-55.
- The alert interval and the clock are integers, as the code types them.
- When all steps in the window are equal, the step range is zero:
  - numpy turns the normalised steps into NaN, and the slope comes out NaN too.
  - `NaN > slope_threshold` is false, so the verdict is "No divergence".
  - The model states this as `NormalizedSlope` returning `None`.

## Model

| member | source | states |
|---|---|---|
| `SampleWindow.LastNIsSuffix` | llmfoundry/callbacks/wandb_loss_monitor.py:94-95 | the window of a history holds its last elements in their original order: element `i` of the window is the element of the history `|window| - i` places from its end |
| `SampleWindow.BoundedAppend` | llmfoundry/callbacks/wandb_loss_monitor.py:129-131 | appending to a deque with `maxlen = n` grows it by one until it holds `n` elements, then keeps its length at `n` |
| `SampleWindow.BoundedAppendKeepsNewest` | llmfoundry/callbacks/wandb_loss_monitor.py:129-131 | with `maxlen > 0` the deque after an append is the newest elements of the old deque, in their old order, followed by the new element: only the oldest element is evicted, and only from a full deque |
| `SampleWindow.LastNAppend` | llmfoundry/callbacks/wandb_loss_monitor.py:94-95 | appending to the window of a history gives the window of the extended history, so the window always holds exactly the last `n` appended elements in arrival order |
| `Regression.Min` | llmfoundry/callbacks/wandb_loss_monitor.py:103 | `min` of a non-empty window is one of its elements and is at most every element |
| `Regression.Max` | llmfoundry/callbacks/wandb_loss_monitor.py:104 | `max` of a non-empty window is one of its elements and is at least every element |
| `Regression.SpreadIffRange` | llmfoundry/callbacks/wandb_loss_monitor.py:103-104 | `loss_range = max - min` is positive exactly when the window's values are not all equal |
| `Regression.Normalize` | llmfoundry/callbacks/wandb_loss_monitor.py:111-114 | a value rescaled against a positive range that contains it lies in [0, 1], with the minimum mapped to 0 and the maximum to 1 |
| `Regression.NormalizeAllAt` | llmfoundry/callbacks/wandb_loss_monitor.py:121-122 | element `i` of the normalised sequence is element `i` rescaled against the whole sequence's minimum and its non-zero range |
| `Regression.NormalizeAll` | llmfoundry/callbacks/wandb_loss_monitor.py:121-122 | normalising a non-flat sequence keeps its length, maps every element into [0, 1], maps exactly the minima to 0, and leaves the result non-flat |
| `Regression.SumSqPositive` | llmfoundry/callbacks/wandb_loss_monitor.py:123 | the slope's denominator Σ(x − m)² is positive whenever the x values are not all equal |
| `Regression.OlsSlope` | llmfoundry/callbacks/wandb_loss_monitor.py:123-124 | `linregress(steps, losses).slope` has the sign of the covariance Σ(x − x̄)(y − ȳ): positive exactly when it is positive, zero exactly when it is zero |
| `Regression.OlsSlopeOfIdentity` | llmfoundry/callbacks/wandb_loss_monitor.py:123 | points on the line y = x, with not all x equal, have slope 1 |
| `Regression.OlsSlopeOfFlat` | llmfoundry/callbacks/wandb_loss_monitor.py:123 | points with equal y values, with not all x equal, have slope 0 |
| `DivergenceChecker.CountExcursions` | llmfoundry/callbacks/wandb_loss_monitor.py:112-116 | after visiting indices `1 .. k-1` the counter is at most `k - 1` |
| `DivergenceChecker.CountExcursionsIsSize` | llmfoundry/callbacks/wandb_loss_monitor.py:112-116 | the counter equals the number of indices after the first whose normalised loss exceeds both thresholds, so `0 <= num_positives <= window_size - 1` |
| `DivergenceChecker.CountPositives` | llmfoundry/callbacks/wandb_loss_monitor.py:111-116 | the counting loop computes exactly that count |
| `DivergenceChecker.NormalizedSlope` | llmfoundry/callbacks/wandb_loss_monitor.py:119-124 | the slope of the normalised points exists exactly when the steps are not all equal; otherwise it is NaN, which never exceeds the threshold |
| `DivergenceChecker.Trend` | llmfoundry/callbacks/wandb_loss_monitor.py:118-127 | once the loss has risen over a full non-flat window, the verdict is either "No divergence" without alert or "Divergence detected" with alert |
| `DivergenceChecker.Classify` | llmfoundry/callbacks/wandb_loss_monitor.py:97-127 | a window that is not full gives `(None, False)` whatever its values; on a full window a loss that has not risen over the first sample gives `("No divergence", False)`; a full window never gives `(None, False)`; `alert` holds exactly when the message is "Divergence detected" |
| `DivergenceChecker.ClassifyFailsIff` | llmfoundry/callbacks/wandb_loss_monitor.py:103-111 | `check` raises `ValueError` exactly on a window of size 0, and `ZeroDivisionError` exactly when the loss has risen over a full, flat window |
| `DivergenceChecker.ClassifyDivergingIff` | llmfoundry/callbacks/wandb_loss_monitor.py:118-127 | divergence is reported exactly when the window is full, the loss has risen over the first sample, the window is not flat, the positive excursions number at least `window_size * frequency_threshold`, and the normalised OLS slope exists and exceeds `slope_threshold` |
| `DivergenceChecker.ClassifyLatestNeverFails` | llmfoundry/callbacks/wandb_loss_monitor.py:103-111 | when the loss checked is the window's newest sample, a full non-empty window never raises: a rise over the first sample implies a positive loss range |
| `DivergenceChecker.FlatWindowIsCalm` | llmfoundry/callbacks/wandb_loss_monitor.py:106-109 | a full window of equal losses, checked against its newest sample, reports "No divergence" |
| `DivergenceChecker.RampCount` | llmfoundry/callbacks/wandb_loss_monitor.py:111-116 | in the window of losses [1, 2, 3, 4, 10] with magnitude threshold 0.05, all four samples after the first are positive excursions |
| `DivergenceChecker.RampSlope` | llmfoundry/callbacks/wandb_loss_monitor.py:119-123 | over steps 6 to 10, the normalised losses [0, 1/9, 2/9, 3/9, 1] have OLS slope 8/9 on the normalised steps [0, 0.25, 0.5, 0.75, 1] |
| `DivergenceChecker.RampDiverges` | llmfoundry/callbacks/wandb_loss_monitor.py:97-127 | with window size 5, frequency 0.6, magnitude 0.05 and slope 0.1, checking the loss 10 against steps 6 to 10 and losses [1, 2, 3, 4, 10] reports "Divergence detected" with alert |
| `DivergenceChecker.LossDivergenceChecker.Valid` | llmfoundry/callbacks/wandb_loss_monitor.py:94-95 | the two windows have equal length, at most `window_size` |
| `DivergenceChecker.LossDivergenceChecker.constructor` | llmfoundry/callbacks/wandb_loss_monitor.py:82-95 | the checker starts with the given thresholds and two empty windows |
| `DivergenceChecker.LossDivergenceChecker.Sample` | llmfoundry/callbacks/wandb_loss_monitor.py:129-131 | `sample` appends the step and the loss to their windows, evicting the oldest pair when full, and the windows remain the last `window_size` samples ever taken |
| `DivergenceChecker.LossDivergenceChecker.Check` | llmfoundry/callbacks/wandb_loss_monitor.py:97-127 | `check` returns `Classify` of the current windows and changes nothing, so repeated calls on an unchanged window agree |
| `LossMonitor.DistortionFactor` | llmfoundry/callbacks/wandb_loss_monitor.py:52-55 | past step 500 the loss factor lies in [0, 5) and is 0 exactly at steps 500 + 200k |
| `LossMonitor.Distort` | llmfoundry/callbacks/wandb_loss_monitor.py:52-55 | the loss is unchanged up to step 500; past it a non-negative loss stays non-negative, a positive loss stays below five times its value, and every 200 steps the sampled loss drops to 0 |
| `LossMonitor.DistortPeriodic` | llmfoundry/callbacks/wandb_loss_monitor.py:54-55 | past step 500 the distortion repeats every 200 steps |
| `LossMonitor.DistortRisesWithinPeriod` | llmfoundry/callbacks/wandb_loss_monitor.py:54-55 | within one 200-step period a positive loss is distorted strictly upwards as the step grows |
| `LossMonitor.GateOpen` | llmfoundry/callbacks/wandb_loss_monitor.py:78-79 | `_check` opens at the very second one interval after `last_alert`; a non-positive interval never holds back a call at or after `last_alert`; a positive one keeps the gate shut at and before `last_alert` |
| `LossMonitor.Initial` | llmfoundry/callbacks/wandb_loss_monitor.py:36-37 | the initial `last_alert = -alert_frequency` opens the gate exactly at the times `now >= 0`, with empty windows |
| `LossMonitor.Respond` | llmfoundry/callbacks/wandb_loss_monitor.py:59-65 | once the gate is open, the check always runs; the message is sent exactly when `alert` or (`report_ok` and a message exists); `last_alert` becomes `now` exactly when it is sent |
| `LossMonitor.SampleBatch` | llmfoundry/callbacks/wandb_loss_monitor.py:52-57 | sampling the distorted loss keeps the windows of equal length within `window_size` and leaves `last_alert` alone |
| `LossMonitor.BatchTransition` | llmfoundry/callbacks/wandb_loss_monitor.py:41-65 | off rank 0 nothing changes; a non-tensor loss raises before sampling; otherwise the distorted sample is always appended; the check runs exactly when the gate is open; `last_alert` becomes `now` exactly when an alert is sent; an alert always carries "Divergence detected"; once the gate is open, the returned `alert` and the message sent are exactly what `check` gives on the windows just sampled, checked against the distorted loss |
| `LossMonitor.BatchNeverFails` | llmfoundry/callbacks/wandb_loss_monitor.py:57-60 | with a window size of at least 1, `batch_end` never makes `check` raise |
| `LossMonitor.Run` | llmfoundry/callbacks/wandb_loss_monitor.py:41-65 | any sequence of calls keeps the windows of equal length within `window_size` and yields one outcome per call |
| `LossMonitor.RunKeepsLastSamples` | llmfoundry/callbacks/wandb_loss_monitor.py:54-57 | after any run from the initial state, the windows hold the last `window_size` distorted samples of the primary single-loss batches, whether or not the gate was open |
| `LossMonitor.ClosedGateChecksNothing` | llmfoundry/callbacks/wandb_loss_monitor.py:59-63 | while every call falls inside the alert interval, no check runs and `last_alert` stays put |
| `LossMonitor.StepKeepsCover` | llmfoundry/callbacks/wandb_loss_monitor.py:59-63 | one `batch_end` call never lowers `last_alert` below a bound it already meets, when the bound is not after the call's `now` or `alert_frequency` is not negative |
| `LossMonitor.LastAlertCoversSends` | llmfoundry/callbacks/wandb_loss_monitor.py:61-63 | with a clock that never goes backwards, or with any clock when `alert_frequency >= 0`, the final `last_alert` is at least the time of every alert sent in the run; with `alert_frequency >= 0` it never falls below its starting value |
| `LossMonitor.AlertsAtLeastIntervalApart` | llmfoundry/callbacks/wandb_loss_monitor.py:78-79 | with a clock that never goes backwards, or with any clock when `alert_frequency >= 0`, any two alerts sent during a run are at least `alert_frequency` seconds apart |
| `LossMonitor.LastAlertFromRun` | llmfoundry/callbacks/wandb_loss_monitor.py:61-63 | `last_alert` only ever takes its initial value or the time of a call that sent an alert |
| `LossMonitor.GateReopensAfterInterval` | llmfoundry/callbacks/wandb_loss_monitor.py:78-79 | with the elapsed-seconds clock, a primary single-loss call made at least one interval after the initial `last_alert` and after every alert sent before it always runs the check |
| `LossMonitor.SampledEveryCall` | llmfoundry/callbacks/wandb_loss_monitor.py:43-57 | when every call is on rank 0 with a single loss tensor, every call is sampled, in order, with its distorted loss |
| `LossMonitor.LastCallsFillWindows` | llmfoundry/callbacks/wandb_loss_monitor.py:54-57 | after at least `window_size` such calls from the initial state, the windows are full and hold the steps and distorted losses of the last `window_size` calls |
| `LossMonitor.RampFlatWindowIsCalm` | llmfoundry/callbacks/wandb_loss_monitor.py:57-65 | with window size 5, frequency 0.6, magnitude 0.05, slope 0.1, a 300 s interval and `report_ok` off, the fifth call of steps 1 to 5 at a flat loss of 1 reports "No divergence" and sends nothing |
| `LossMonitor.RampRunDiverges` | llmfoundry/callbacks/wandb_loss_monitor.py:57-65 | continuing that run with losses 1, 2, 3, 4, 10 at steps 6 to 10, the tenth call returns `alert = True` and sends "Divergence detected" |
| `LossMonitor.DaySeconds` | llmfoundry/callbacks/wandb_loss_monitor.py:50 | `timedelta.seconds` lies in [0, 86400) and equals the elapsed seconds during the first day |
| `LossMonitor.DaySecondsGateNeverReopens` | llmfoundry/callbacks/wandb_loss_monitor.py:50 | with the clock read as seconds within the day, an alert sent at 86100 s of elapsed time with a 300 s interval shuts the gate for good |
| `LossMonitor.WAndBLossMonitor.constructor` | llmfoundry/callbacks/wandb_loss_monitor.py:24-40 | the monitor starts with the checker's thresholds, empty windows and `last_alert = -alert_frequency`; the arguments default to 100, 0.6, 0.05, 0.1, 300 and `False` |
| `LossMonitor.WAndBLossMonitor.GateIsOpen` | llmfoundry/callbacks/wandb_loss_monitor.py:78-79 | the object's `_check(now)` is true exactly when a primary single-loss `batch_end` call at `now` on its current state would run the check |
| `LossMonitor.WAndBLossMonitor.BatchEnd` | llmfoundry/callbacks/wandb_loss_monitor.py:41-65 | `batch_end` moves the monitor's state exactly as `BatchTransition` does, and its sample extends the checker's history by the distorted loss |

## Left out

- `_alert` (lines 67-76) is not modelled: the title built from `datetime.now()`, the run name, `dist.get_node_rank()`, the `NODENAME` environment lookup, and the `wandb.alert` call. All of these are I/O or foreign calls. Sending an alert is the `sent` flag of the outcome.
- The extraction of the rank, the loss tensor and the timestamp (lines 43-50) is not modelled. These are framework calls; their results are the fields of `BatchInput`. The unused `logger` argument is dropped.
- What the training loop does after `batch_end` raises is not modelled. The call ends with `MultipleLosses` or `CheckFailed`.
- IEEE-754 rounding is not modelled: losses, the distortion factor, the normalisations and the slope are exact reals. NaN appears only as the "no slope" case of a zero step range.
- Of `linregress`'s results, only the slope is modelled. The intercept, correlation, p-value and standard error are unused by the code.
- `Regression.OlsSlope`: its value is stated for the lines y = x and y = c and through its sign, not for a general line y = a·x + b. The general statement needs distributivity over the recursive sums, which the solver does not reach within the resource limit.
- A negative `window_size` is not modelled, because `deque` rejects it at construction. The window size is a `nat`.
- `llmfoundry/optim/wsd_scheduler.py` is not part of this model. It wraps scheduler classes of the training framework that are not available here.
- `llmfoundry/callbacks/schedule_free.py` is not part of this model. It only calls `train()`/`eval()` on framework optimizer objects.
- `llmfoundry/optim/__init__.py` is not part of this model. It only registers components.

## Findings

| source | as written | input that shows it | evidently intended | confidence | as-written member | corrected member |
|---|---|---|---|---|---|---|
| llmfoundry/callbacks/wandb_loss_monitor.py:50 | `now = state.timestamp.total_wct.seconds` reads the seconds field of a `timedelta`, which wraps to 0 every 86400 s | an alert sent at 86100 s of elapsed time with `alert_frequency = 300`: `last_alert` becomes 86100, every later reading is at most 86399, so `_check` stays false for the rest of training | the total elapsed seconds (`total_seconds()`), so the gate reopens one interval after each alert | medium, not executed; assumes the framework's `total_wct` is a `datetime.timedelta` | `LossMonitor.DaySecondsGateNeverReopens` | `LossMonitor.GateReopensAfterInterval` |

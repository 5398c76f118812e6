# Transaction monitor — a Dafny model

This project models `TransactionMonitor` from `src/monitor.py`. The monitor watches
per-minute transaction counts with a hybrid anomaly rule. Each tracked status
(`failed`, `denied`, `reversed`) keeps a rolling window, a `deque(maxlen=window_size)`,
of its recent counts. Every ingested minute batch is handled metric by metric:

1. The metric's value is judged against its window **before** the value is appended.
2. If it is anomalous, an alert is collected and dispatched.
3. The value is appended, and a full window drops its oldest value.

`failed` follows a static ceiling (`value > 5`). `denied` and `reversed` follow a
one-sided z-score against the window's mean and population standard deviation:

- With fewer than 10 samples they never fire (the cold start).
- With zero deviation they fire when the value is more than 5 above the mean.

Modules:

- `RealFacts` (`real_facts.dfy`): small ordered-field lemmas about `real` products that
  the z-score proofs are assembled from.
- `Stats` (`stats.dfy`): exact `Sum`, `Mean` and population `Variance` of a history,
  which stand for `np.mean` and `np.std`. The variance is computed over integers scaled
  by the history length. It is proved equal to the textbook mean squared deviation,
  and zero exactly for flat histories.
- `RollingWindow` (`rolling_window.dfy`): `deque.append` under `maxlen` as `Append`,
  proved to keep the newest `maxlen` values (`LastN`), for one append and for any run
  of appends.
- `Detection` (`detection.dfy`): the metrics, `_is_anomaly` as `IsAnomaly` and
  `_get_mean` as `GetMean`, with one lemma per branch of the rule.
- `Monitor` (`monitor.dfy`):
  - the `TransactionMonitor` class, whose `history` map is updated in place by
    `IngestData`, with a ghost log of the alerts handed to `SendAlert`;
  - the functional specification of one batch's alert list (`AlertsUpTo`,
    `BatchAlerts`);
  - the `__main__` scenario as `Simulation`.

`IsAnomaly` avoids the square root by comparing squares with the denominators
cleared. `Detection.ZScoreRule` proves that this agrees with
`(value - mean) / std > threshold_sigma` for every positive `std` whose square is the
population variance.

## Model

| member | source | states |
|---|---|---|
| Detection.IsAnomaly | src/monitor.py:50-75 | definition of `_is_anomaly`: the static ceiling for `failed`, the cold start, the zero-deviation margin and the one-sided z-score. Each branch is pinned by StaticRule, ColdStart, ZeroStdRule and ZScoreRule |
| Detection.GetMean | src/monitor.py:77-79 | definition of `_get_mean`: 0 for an empty history, otherwise the mean (see GetMeanBaseline) |
| Stats.Mean | src/monitor.py:66 | definition of `np.mean` over exact rationals: the total divided by the count (see GetMeanBaseline) |
| Stats.Variance | src/monitor.py:67 | definition of the square of `np.std`, population variance (ddof 0); it is never negative (see VarianceIsMeanSquaredDeviation) |
| RollingWindow.Append | src/monitor.py:46 | definition of `deque.append` under `maxlen`; the result never exceeds `maxlen` (see AppendKeepsNewest) |
| Monitor.Value | src/monitor.py:37 | definition of `minute_batch.get(metric, 0)`: a missing key reads as 0 |
| Monitor.Judge | src/monitor.py:39-43 | definition of one metric's pass: a single alert carrying the value and the baseline mean exactly when the rule fires (see JudgeShape) |
| Monitor.BatchAlerts | src/monitor.py:33-48 | definition of a batch's alert list: the metrics' judgements in the order failed, denied, reversed (see BatchAlertsSpec) |
| Detection.StaticRule | src/monitor.py:59-60 | `failed` is anomalous exactly when its value exceeds 5, whatever its history |
| Detection.ColdStart | src/monitor.py:63-64 | an adaptive metric with fewer than 10 samples of history never fires |
| Detection.ZeroStdRule | src/monitor.py:66-72 | zero variance means the history is flat, and then the metric fires exactly when value > mean + 5 |
| Detection.FlatRule | src/monitor.py:66-72 | with a warm flat history, an adaptive metric fires exactly when the value exceeds the common value by more than 5 |
| Detection.MarginIsAboveMean | src/monitor.py:72 | the integer test `n*value - Sum > 5*n` is exactly `value > mean + 5` |
| Detection.FlatFivesExample | src/monitor.py:70-72 | after ten 5s, 11 fires and 10 does not |
| Detection.ZScoreRule | src/monitor.py:66-75 | with a warm history and any positive std whose square is the variance, an adaptive metric fires exactly when `(value - mean) / std > sigma` |
| Detection.ZScoreExceedsIsZAbove | src/monitor.py:74-75 | the square-root-free test equals the z-score comparison, in both directions and for either sign of sigma |
| Detection.BoundaryDoesNotFire | src/monitor.py:75 | the comparison is strict: a value exactly sigma standard deviations above the mean does not fire |
| Detection.AtOrBelowMeanNeverFires | src/monitor.py:74-75 | with sigma >= 0, a value at or below the baseline mean never fires an adaptive metric (the test is one-sided) |
| Detection.MonotoneInValue | src/monitor.py:59-75 | any value larger than one that fires also fires |
| Detection.GetMeanBaseline | src/monitor.py:77-79 | the baseline is 0 for an empty history; otherwise it is the value whose n-fold is the history's total |
| Stats.VarianceIsMeanSquaredDeviation | src/monitor.py:67 | the variance is the mean squared deviation from the mean (population std, ddof 0) |
| Stats.VarianceZeroIffFlat | src/monitor.py:67-70 | std == 0 exactly when every value of the history is the same |
| RollingWindow.AppendKeepsNewest | src/monitor.py:46 | appending to a deque bounded by maxlen keeps exactly the newest maxlen values, oldest evicted first |
| RollingWindow.AppendAllKeepsNewest | src/monitor.py:18-22 | after any run of appends the window holds the newest maxlen values ever appended, in arrival order |
| RollingWindow.LastNIsSuffix | src/monitor.py:18-22 | the window is a suffix of everything appended, of length min(maxlen, count) |
| Monitor.JudgeShape | src/monitor.py:37-43 | a metric raises at most one alert, about itself, and one exactly when its rule fires |
| Monitor.JudgeLocal | src/monitor.py:40 | a metric's verdict depends only on its own history |
| Monitor.AlertsUpToShape | src/monitor.py:36-43 | the first k metrics raise at most k alerts, all about those metrics |
| Monitor.AlertsUpToOrdered | src/monitor.py:36-43 | alerts follow the evaluation order failed, denied, reversed |
| Monitor.AlertsUpToRaised | src/monitor.py:37-42 | every alert carries its metric's batch value and baseline mean, and its rule fires for that value |
| Monitor.AlertsUpToReports | src/monitor.py:36-43 | among the first k metrics, a metric is reported exactly when its rule fires |
| Monitor.BatchAlertsSpec | src/monitor.py:33-48 | a batch raises one alert per firing metric and none for the others, in evaluation order, each judged against the history before the batch |
| Monitor.UntrackedKeysIgnored | src/monitor.py:36-37 | keys that name no tracked metric change neither the values read nor the alerts |
| Monitor.ShortWindowOnlyStatic | src/monitor.py:19-21 | with a window shorter than 10, only `failed` can ever alert |
| Monitor.AppendedAt | src/monitor.py:36-46 | after the first k metrics of the loop, exactly those have received the batch's value (a missing key as 0) |
| Monitor.AppendedKeepsNewest | src/monitor.py:46 | after the batch, every window holds the newest window_size values it has seen, the batch's value last |
| Monitor.TransactionMonitor.constructor | src/monitor.py:6-22 | the settings are stored and every metric starts with an empty history |
| Monitor.TransactionMonitor.SendAlert | src/monitor.py:81-83 | the alert is appended to the dispatch log |
| Monitor.TransactionMonitor.Observe | src/monitor.py:37-46 | one loop pass: the verdict uses the history before the value; the alert is dispatched when the rule fires; then only that metric's window is appended to |
| Monitor.TransactionMonitor.ObserveNext | src/monitor.py:36-46 | loop pass i judges the i-th metric on its untouched history and moves the histories one metric further |
| Monitor.TransactionMonitor.IngestData | src/monitor.py:24-48 | status "processed"; the alerts are exactly `BatchAlerts` of the prior history; each window becomes the newest window_size values of its old contents plus the batch value; windows stay bounded; the alerts are dispatched in order |
| Monitor.QuietMinute | src/monitor.py:91-92 | one more identical batch extends every not-yet-full window by that batch's value |
| Monitor.Simulation | src/monitor.py:86-99 | 60 quiet minutes then the spike return "processed" with exactly one alert: `failed`, value 15, baseline 0 |
| Monitor.SpikeAfterQuietHour | src/monitor.py:91-97 | against flat windows of sixty 0s, 5s and 1s, the spike batch alerts for `failed` only |

## Left out

- The dashboard (`src/dashboard.py`) is not part of this model.
- Alert text is not modelled. The formatted message (metric name, value, mean to two decimals) becomes an `Alert` record holding the same three facts. The console output of `_send_alert` and of the `__main__` block is dropped.
- Monitor.TransactionMonitor.SendAlert: the external dispatch (console, webhook) is modelled only as a ghost log of the alerts handed over, in order.
- Floating point is not modelled. `np.mean` and `np.std` are computed exactly over rationals, so numpy rounding (for instance a `std` that is tiny but non-zero) is not captured. `std` itself, a square root, enters the z-score lemmas as any positive `std` whose square is the variance.
- The default `threshold_sigma=3` is an integer in the source and is modelled as the real `3.0`. Any real threshold is accepted, negative ones included, as in the code.
- `window_size` is a `nat`. A negative `maxlen` makes `deque` raise `ValueError`, which is not modelled. A window of 0 is allowed and keeps every history empty, as `deque(maxlen=0)` does.
- The code does not validate `window_size` or `threshold_sigma` (src/monitor.py:6-22); the model follows the code.
- Batches are modelled as `map<string, int>`, so every count is an integer. Negative counts are accepted, as in the code.
- Float counts are outside the model. The code accepts them: for example `{'failed': 6.5}` fires, is formatted and is appended (src/monitor.py:41-46).
- Non-integer fields that are never read are outside the model. An example is the `timestamp` of the sample batch (src/monitor.py:28); the loop reads only the three metric keys (src/monitor.py:36-37).
- Non-numeric counts are outside the model. During the cold start the code appends them without comparing them (src/monitor.py:63-64, 46).
- A non-mapping batch and a failing alert sink are not modelled.
- `window_size=None` is outside the model. It gives an unbounded `deque`, while the model's `window_size` is always a `nat` bound.
- Concurrency is not modelled. The monitor is a single object mutated by one caller at a time.

/** `TransactionMonitor`: one bounded rolling history per tracked metric,
    updated once per ingested minute batch, and the alerts that batch raises. */
module Monitor {
  import opened Stats
  import opened RollingWindow
  import opened Detection

  /** One minute of aggregated counts, keyed by status name. */
  type Batch = map<string, int>

  /** The rolling history of each metric. */
  type Histories = map<Metric, seq<int>>

  /** An anomaly: which metric, the value observed and the baseline mean it was judged against. */
  datatype Alert = Alert(metric: Metric, value: int, mean: real)

  /** What `ingest_data` returns: a status tag and the alerts of the batch. */
  datatype IngestResult = IngestResult(status: string, alerts: seq<Alert>)

  /** The metrics, in the order every batch evaluates them. */
  const Tracked: seq<Metric> := [Failed, Denied, Reversed]

  function Name(m: Metric): string
  {
    match m
    case Failed => "failed"
    case Denied => "denied"
    case Reversed => "reversed"
  }

  /** Position of a metric in `Tracked`. */
  function Rank(m: Metric): (k: nat)
    ensures k < |Tracked| && Tracked[k] == m
  {
    match m
    case Failed => 0
    case Denied => 1
    case Reversed => 2
  }

  /** `minute_batch.get(metric, 0)`. */
  function Value(batch: Batch, m: Metric): int
  {
    if Name(m) in batch then batch[Name(m)] else 0
  }

  ghost predicate Complete(h: Histories)
  {
    forall m: Metric :: m in h
  }

  /** Every metric has a history of at most `w` values. */
  ghost predicate Bounded(h: Histories, w: nat)
  {
    Complete(h) && forall m :: |h[m]| <= w
  }

  /** Some alert of `alerts` is about `m`. */
  ghost predicate Reports(alerts: seq<Alert>, m: Metric)
  {
    exists a :: a in alerts && a.metric == m
  }

  /** The alert, if any, that metric `m` raises for `batch` against its history in `h`. */
  function Judge(h: Histories, batch: Batch, sigma: real, m: Metric): seq<Alert>
    requires m in h
  {
    var value := Value(batch, m);
    if IsAnomaly(m, value, h[m], sigma) then [Alert(m, value, GetMean(h[m]))] else []
  }

  /** `a` is an alert that `batch` legitimately raises: its metric's rule fires
      for the batch's value against the history in `h`, and it carries that
      value and the baseline mean. */
  ghost predicate Raised(h: Histories, batch: Batch, sigma: real, a: Alert)
    requires Complete(h)
  {
    && a.value == Value(batch, a.metric)
    && a.mean == GetMean(h[a.metric])
    && IsAnomaly(a.metric, a.value, h[a.metric], sigma)
  }

  /** Metrics of `alerts` strictly follow the evaluation order. */
  ghost predicate InTrackedOrder(alerts: seq<Alert>)
  {
    forall i, j :: 0 <= i < j < |alerts| ==> Rank(alerts[i].metric) < Rank(alerts[j].metric)
  }

  /** The alerts raised by the first `k` tracked metrics, in evaluation order. */
  function AlertsUpTo(h: Histories, batch: Batch, sigma: real, k: nat): seq<Alert>
    requires Complete(h) && k <= |Tracked|
  {
    if k == 0 then [] else AlertsUpTo(h, batch, sigma, k - 1) + Judge(h, batch, sigma, Tracked[k - 1])
  }

  /** The first `k` metrics raise at most one alert each, and only for themselves. */
  lemma {:induction false} AlertsUpToShape(h: Histories, batch: Batch, sigma: real, k: nat)
    requires Complete(h) && k <= |Tracked|
    ensures |AlertsUpTo(h, batch, sigma, k)| <= k
    ensures forall a :: a in AlertsUpTo(h, batch, sigma, k) ==> Rank(a.metric) < k
  {
    if k > 0 {
      AlertsUpToShape(h, batch, sigma, k - 1);
      assert AlertsUpTo(h, batch, sigma, k)
        == AlertsUpTo(h, batch, sigma, k - 1) + Judge(h, batch, sigma, Tracked[k - 1]);
    }
  }

  /** A metric's judgement is at most one alert, about that metric, and there
      is one exactly when the metric's rule fires. */
  lemma JudgeShape(h: Histories, batch: Batch, sigma: real, m: Metric)
    requires m in h
    ensures |Judge(h, batch, sigma, m)| <= 1
    ensures forall a :: a in Judge(h, batch, sigma, m) ==> a.metric == m
    ensures Reports(Judge(h, batch, sigma, m), m) <==> IsAnomaly(m, Value(batch, m), h[m], sigma)
  {
    if IsAnomaly(m, Value(batch, m), h[m], sigma) {
      assert Judge(h, batch, sigma, m)[0] in Judge(h, batch, sigma, m);
    }
  }

  /** Appending at most one alert for a metric ranked after all of `prev` keeps the order. */
  lemma OrderedAppend(prev: seq<Alert>, next: seq<Alert>, k: nat)
    requires InTrackedOrder(prev) && |next| <= 1
    requires forall a :: a in prev ==> Rank(a.metric) < k
    requires forall a :: a in next ==> Rank(a.metric) == k
    ensures InTrackedOrder(prev + next)
  {
    var r := prev + next;
    forall i, j | 0 <= i < j < |r| ensures Rank(r[i].metric) < Rank(r[j].metric) {
      assert r[i] == prev[i] && prev[i] in prev;
      if j < |prev| {
        assert r[j] == prev[j];
      } else {
        assert r[j] == next[j - |prev|] && next[j - |prev|] in next;
      }
    }
  }

  /** A metric is reported by a concatenation exactly when either part reports it. */
  lemma ReportsAppend(prev: seq<Alert>, next: seq<Alert>, m: Metric)
    ensures Reports(prev + next, m) <==> Reports(prev, m) || Reports(next, m)
  {
    if Reports(prev + next, m) {
      var a :| a in prev + next && a.metric == m;
      assert a in prev || a in next;
    }
    if Reports(prev, m) {
      var a :| a in prev && a.metric == m;
      assert a in prev + next;
    }
    if Reports(next, m) {
      var a :| a in next && a.metric == m;
      assert a in prev + next;
    }
  }

  /** The alerts of the first `k` metrics follow the evaluation order. */
  lemma {:induction false} AlertsUpToOrdered(h: Histories, batch: Batch, sigma: real, k: nat)
    requires Complete(h) && k <= |Tracked|
    ensures InTrackedOrder(AlertsUpTo(h, batch, sigma, k))
  {
    if k > 0 {
      AlertsUpToOrdered(h, batch, sigma, k - 1);
      AlertsUpToShape(h, batch, sigma, k - 1);
      JudgeShape(h, batch, sigma, Tracked[k - 1]);
      OrderedAppend(AlertsUpTo(h, batch, sigma, k - 1), Judge(h, batch, sigma, Tracked[k - 1]), k - 1);
    }
  }

  /** Every alert of the first `k` metrics is one the batch legitimately raises. */
  lemma {:induction false} AlertsUpToRaised(h: Histories, batch: Batch, sigma: real, k: nat)
    requires Complete(h) && k <= |Tracked|
    ensures forall a :: a in AlertsUpTo(h, batch, sigma, k) ==> Raised(h, batch, sigma, a)
  {
    if k > 0 {
      AlertsUpToRaised(h, batch, sigma, k - 1);
      assert AlertsUpTo(h, batch, sigma, k)
        == AlertsUpTo(h, batch, sigma, k - 1) + Judge(h, batch, sigma, Tracked[k - 1]);
    }
  }

  /** Among the first `k` metrics, a metric has an alert exactly when its rule
      fires for the batch's value against its own history before the batch. */
  lemma {:induction false} AlertsUpToReports(h: Histories, batch: Batch, sigma: real, k: nat)
    requires Complete(h) && k <= |Tracked|
    ensures forall m :: Rank(m) < k ==>
      (Reports(AlertsUpTo(h, batch, sigma, k), m) <==> IsAnomaly(m, Value(batch, m), h[m], sigma))
  {
    if k > 0 {
      AlertsUpToReports(h, batch, sigma, k - 1);
      AlertsUpToShape(h, batch, sigma, k - 1);
      var prev := AlertsUpTo(h, batch, sigma, k - 1);
      var last := Tracked[k - 1];
      var judged := Judge(h, batch, sigma, last);
      JudgeShape(h, batch, sigma, last);
      forall m | Rank(m) < k
        ensures Reports(prev + judged, m) <==> IsAnomaly(m, Value(batch, m), h[m], sigma)
      {
        ReportsAppend(prev, judged, m);
        if m == last {
          assert !Reports(prev, m);
        } else {
          assert !Reports(judged, m);
        }
      }
    }
  }

  /** A metric's judgement depends only on that metric's own history. */
  lemma JudgeLocal(h: Histories, h': Histories, batch: Batch, sigma: real, m: Metric)
    requires m in h && m in h' && h[m] == h'[m]
    ensures Judge(h, batch, sigma, m) == Judge(h', batch, sigma, m)
  {
  }

  /** All the alerts of one batch. */
  function BatchAlerts(h: Histories, batch: Batch, sigma: real): seq<Alert>
    requires Complete(h)
  {
    AlertsUpTo(h, batch, sigma, |Tracked|)
  }

  /** A batch raises one alert for each metric whose rule fires and none for
      the others, in the order failed, denied, reversed. */
  lemma BatchAlertsSpec(h: Histories, batch: Batch, sigma: real)
    requires Complete(h)
    ensures var r := BatchAlerts(h, batch, sigma);
      && |r| <= |Tracked|
      && InTrackedOrder(r)
      && (forall a :: a in r ==> Raised(h, batch, sigma, a))
      && (forall m :: Reports(r, m) <==> IsAnomaly(m, Value(batch, m), h[m], sigma))
  {
    AlertsUpToShape(h, batch, sigma, |Tracked|);
    AlertsUpToOrdered(h, batch, sigma, |Tracked|);
    AlertsUpToRaised(h, batch, sigma, |Tracked|);
    AlertsUpToReports(h, batch, sigma, |Tracked|);
  }

  /** Keys that name no tracked metric do not affect what a batch does. */
  lemma UntrackedKeysIgnored(h: Histories, batch: Batch, sigma: real, key: string, count: int)
    requires Complete(h)
    requires forall m :: Name(m) != key
    ensures forall m :: Value(batch[key := count], m) == Value(batch, m)
    ensures BatchAlerts(h, batch[key := count], sigma) == BatchAlerts(h, batch, sigma)
  {
    var b := batch[key := count];
    forall m ensures Value(b, m) == Value(batch, m) {
      assert Name(m) != key;
    }
    assert AlertsUpTo(h, b, sigma, 1) == AlertsUpTo(h, batch, sigma, 1);
    assert AlertsUpTo(h, b, sigma, 2) == AlertsUpTo(h, batch, sigma, 2);
  }

  /** With a window shorter than the cold start, only the static `failed` rule can fire. */
  lemma ShortWindowOnlyStatic(h: Histories, batch: Batch, sigma: real, windowSize: nat)
    requires Bounded(h, windowSize) && windowSize < 10
    ensures forall a :: a in BatchAlerts(h, batch, sigma) ==> a.metric == Failed
  {
    AlertsUpToRaised(h, batch, sigma, |Tracked|);
  }

  /** The histories once the first `k` tracked metrics of `batch` have been appended. */
  ghost function Appended(before: Histories, batch: Batch, w: nat, k: nat): Histories
    requires Bounded(before, w) && k <= |Tracked|
  {
    if k == 0 then before
    else
      var m := Tracked[k - 1];
      Appended(before, batch, w, k - 1)[m := Append(before[m], w, Value(batch, m))]
  }

  /** After the first `k` metrics, exactly those have received the batch's value. */
  lemma {:induction false} AppendedAt(before: Histories, batch: Batch, w: nat, k: nat, m: Metric)
    requires Bounded(before, w) && k <= |Tracked|
    ensures m in Appended(before, batch, w, k)
    ensures Rank(m) < k ==> Appended(before, batch, w, k)[m] == Append(before[m], w, Value(batch, m))
    ensures Rank(m) >= k ==> Appended(before, batch, w, k)[m] == before[m]
  {
    if k > 0 {
      var last := Tracked[k - 1];
      var prev := Appended(before, batch, w, k - 1);
      AppendedAt(before, batch, w, k - 1, m);
      assert Appended(before, batch, w, k) == prev[last := Append(before[last], w, Value(batch, last))];
    }
  }

  lemma AppendedBounded(before: Histories, batch: Batch, w: nat, k: nat)
    requires Bounded(before, w) && k <= |Tracked|
    ensures Bounded(Appended(before, batch, w, k), w)
  {
    forall m ensures m in Appended(before, batch, w, k) && |Appended(before, batch, w, k)[m]| <= w {
      AppendedAt(before, batch, w, k, m);
    }
  }

  /** Once the whole batch is appended, every window holds the newest `w` values
      it has seen, the batch's value last, and so still at most `w` of them. */
  lemma AppendedKeepsNewest(before: Histories, batch: Batch, w: nat)
    requires Bounded(before, w)
    ensures var after := Appended(before, batch, w, |Tracked|);
      && Bounded(after, w)
      && forall m :: after[m] == LastN(before[m] + [Value(batch, m)], w)
  {
    forall m
      ensures m in Appended(before, batch, w, |Tracked|)
      ensures Appended(before, batch, w, |Tracked|)[m] == LastN(before[m] + [Value(batch, m)], w)
    {
      AppendedAt(before, batch, w, |Tracked|, m);
      AppendKeepsNewest(before[m], w, Value(batch, m));
    }
  }

  class TransactionMonitor {
    const windowSize: nat
    const thresholdSigma: real
    /** `self.history`: one rolling window per tracked metric. */
    var history: Histories
    /** Every alert handed to `_send_alert`, oldest first. */
    ghost var dispatched: seq<Alert>

    /** Each window holds at most `windowSize` values. */
    ghost predicate Valid()
      reads this
    {
      Bounded(history, windowSize)
    }

    /** `__init__`: an empty history per metric; the defaults are those of the source. */
    constructor (windowSize: nat := 60, thresholdSigma: real := 3.0)
      ensures Valid()
      ensures this.windowSize == windowSize && this.thresholdSigma == thresholdSigma
      ensures forall m :: history[m] == []
      ensures dispatched == []
    {
      this.windowSize := windowSize;
      this.thresholdSigma := thresholdSigma;
      history := map[Failed := [], Denied := [], Reversed := []];
      dispatched := [];
      new;
      forall m: Metric ensures m in history && history[m] == [] {
        match m
        case Failed =>
        case Denied =>
        case Reversed =>
      }
    }

    /** `_send_alert`: the external dispatch, recorded in the ghost log. */
    method SendAlert(alert: Alert)
      modifies this`dispatched
      ensures dispatched == old(dispatched) + [alert]
    {
      dispatched := dispatched + [alert];
    }

    /** One pass of the loop in `ingest_data` for `metric`: judge the batch's
        value against the metric's history, dispatch the alert if it fires, then
        append the value to the window. */
    method Observe(batch: Batch, metric: Metric) returns (found: seq<Alert>)
      requires Valid()
      modifies this`history, this`dispatched
      ensures found == Judge(old(history), batch, thresholdSigma, metric)
      ensures history == old(history)[metric := Append(old(history)[metric], windowSize, Value(batch, metric))]
      ensures dispatched == old(dispatched) + found
    {
      var value := Value(batch, metric);
      found := [];
      if IsAnomaly(metric, value, history[metric], thresholdSigma) {
        var alert := Alert(metric, value, GetMean(history[metric]));
        found := [alert];
        SendAlert(alert);
      }
      history := history[metric := Append(history[metric], windowSize, value)];
    }

    /** Pass `i` of the loop in `ingest_data`, stated against the histories
        `before` the batch: the `i`-th tracked metric is judged on its untouched
        history, then receives the batch's value. */
    method ObserveNext(batch: Batch, ghost before: Histories, i: nat) returns (found: seq<Alert>)
      requires Bounded(before, windowSize) && i < |Tracked|
      requires history == Appended(before, batch, windowSize, i)
      modifies this`history, this`dispatched
      ensures found == Judge(before, batch, thresholdSigma, Tracked[i])
      ensures history == Appended(before, batch, windowSize, i + 1)
      ensures dispatched == old(dispatched) + found
    {
      var metric := Tracked[i];
      AppendedAt(before, batch, windowSize, i, metric);
      AppendedBounded(before, batch, windowSize, i);
      JudgeLocal(history, before, batch, thresholdSigma, metric);
      found := Observe(batch, metric);
    }

    /** `ingest_data`: judge each tracked metric against its history before
        this batch, alert and dispatch when it fires, then append the value.
        Every window ends up holding the newest `windowSize` values it has seen. */
    method IngestData(batch: Batch) returns (response: IngestResult)
      requires Valid()
      modifies this`history, this`dispatched
      ensures Valid()
      ensures response == IngestResult("processed", BatchAlerts(old(history), batch, thresholdSigma))
      ensures forall m :: history[m] == LastN(old(history)[m] + [Value(batch, m)], windowSize)
      ensures dispatched == old(dispatched) + response.alerts
    {
      ghost var before := history;
      ghost var sent := dispatched;
      var alerts: seq<Alert> := [];
      var i := 0;
      while i < |Tracked|
        invariant 0 <= i <= |Tracked|
        invariant history == Appended(before, batch, windowSize, i)
        invariant alerts == AlertsUpTo(before, batch, thresholdSigma, i)
        invariant dispatched == sent + alerts
      {
        var found := ObserveNext(batch, before, i);
        alerts := alerts + found;
        i := i + 1;
      }
      assert alerts == BatchAlerts(before, batch, thresholdSigma);
      AppendedKeepsNewest(before, batch, windowSize);
      response := IngestResult("processed", alerts);
    }
  }

  /** Sixty quiet minutes `{failed: 0, denied: 5, reversed: 1}` followed by
      `{failed: 15, denied: 8, reversed: 2}`: the spike raises exactly one
      alert, for `failed`, against a baseline mean of 0. */
  method Simulation() returns (response: IngestResult)
    ensures response == IngestResult("processed", [Alert(Failed, 15, 0.0)])
  {
    var monitor := new TransactionMonitor();
    var quiet: Batch := map["failed" := 0, "denied" := 5, "reversed" := 1];
    var minute := 0;
    while minute < 60
      invariant 0 <= minute <= 60
      invariant monitor.Valid()
      invariant monitor.windowSize == 60 && monitor.thresholdSigma == 3.0
      invariant forall m :: monitor.history[m] == seq(minute, _ => Value(quiet, m))
    {
      QuietMinute(monitor, quiet, minute);
      minute := minute + 1;
    }
    ghost var h := monitor.history;
    var spike: Batch := map["failed" := 15, "denied" := 8, "reversed" := 2];
    response := monitor.IngestData(spike);
    SpikeAfterQuietHour(h, spike);
  }

  /** One more minute of the same batch `quiet` while the window is not yet full. */
  method QuietMinute(monitor: TransactionMonitor, quiet: Batch, minute: nat)
    requires monitor.Valid() && minute < monitor.windowSize
    requires forall m :: monitor.history[m] == seq(minute, _ => Value(quiet, m))
    modifies monitor`history, monitor`dispatched
    ensures monitor.Valid()
    ensures forall m :: monitor.history[m] == seq(minute + 1, _ => Value(quiet, m))
  {
    var _ := monitor.IngestData(quiet);
    forall m ensures monitor.history[m] == seq(minute + 1, _ => Value(quiet, m)) {
      assert seq(minute, _ => Value(quiet, m)) + [Value(quiet, m)] == seq(minute + 1, _ => Value(quiet, m));
    }
  }

  /** The arithmetic of `Simulation`: flat histories of sixty 0s, 5s and 1s. */
  lemma SpikeAfterQuietHour(h: Histories, spike: Batch)
    requires Complete(h)
    requires h[Failed] == seq(60, _ => 0) && h[Denied] == seq(60, _ => 5) && h[Reversed] == seq(60, _ => 1)
    requires spike == map["failed" := 15, "denied" := 8, "reversed" := 2]
    ensures BatchAlerts(h, spike, 3.0) == [Alert(Failed, 15, 0.0)]
  {
    assert Value(spike, Failed) == 15 && Value(spike, Denied) == 8 && Value(spike, Reversed) == 2;
    FlatMean(h[Failed]);
    FlatRule(Denied, 8, h[Denied], 3.0);
    FlatRule(Reversed, 2, h[Reversed], 3.0);
    assert AlertsUpTo(h, spike, 3.0, 1) == [Alert(Failed, 15, 0.0)];
    assert AlertsUpTo(h, spike, 3.0, 2) == [Alert(Failed, 15, 0.0)];
  }
}

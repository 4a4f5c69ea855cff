/**
 * The stats exporter of the `opencensus_ext_newrelic` package: it turns the
 * metrics OpenCensus exports into New Relic summary, count and gauge
 * records, delta-encoding cumulative values against the last raw value seen
 * for each metric identity.
 *
 * The specification is a chain of functions, each one step of the exporter's
 * nested loop: TranslateSeries (one time series), FoldSeries (the series of
 * one metric that precede the first unsupported value), TranslateMetric and
 * TranslateMetrics (the whole batch). The class StatsExporter holds the
 * exporter's mutable state and its ExportMetrics method is proved to compute
 * exactly what TranslateMetrics says.
 */
module ExtStats {
  import opened Telemetry

  /** The aggregation of a registered view. */
  datatype Aggregation =
    | CountAggregation
    | SumAggregation
    | LastValueAggregation
    | DistributionAggregation

  /** Membership in COUNT_AGGREGATION_TYPES: the aggregations whose scalars are delta-encoded. */
  predicate IsCountAggregation(a: Aggregation) {
    a.CountAggregation? || a.SumAggregation?
  }

  datatype Measure = Measure(name: string, unit: string)

  datatype View = View(name: string, measure: Measure, columns: seq<string>, aggregation: Aggregation)

  /** The kind string passed to `create_identity`: "summary" or "count". */
  datatype Kind = SummaryKind | CountKind

  /** A metric identity: the name, the merged tags and the kind. */
  datatype Identity = Identity(name: string, tags: Tags, kind: Kind)

  /** The raw value last seen for an identity: a scalar for counts, the pair for summaries. */
  datatype Stored = StoredScalar(value: real) | StoredPair(count: int, sum: real)

  type MergedValues = map<Identity, Stored>

  /** A count identity always holds a scalar, a summary identity always a pair. */
  predicate WellKinded(m: MergedValues) {
    forall id :: id in m ==> (id.kind.CountKind? <==> m[id].StoredScalar?)
  }

  /** The New Relic records this exporter emits (min, max and interval are always None). */
  datatype NrMetric =
    | SummaryMetric(name: string, count: int, sum: real, tags: Tags, endTimeMs: int)
    | CountMetric(name: string, value: real, tags: Tags, endTimeMs: int)
    | GaugeMetric(name: string, value: real, tags: Tags, endTimeMs: int)

  /** The tags every series of a view starts from. */
  function BaseTags(view: View): Tags {
    map["measure.name" := view.measure.name, "measure.unit" := view.measure.unit]
  }

  /** The base tags overlaid by the view's columns zipped with the series' label values. */
  function SeriesTags(view: View, ts: TimeSeries): Tags {
    Overlay(BaseTags(view), view.columns, ts.labelValues)
  }

  /** The identity whose stored value a series reads and replaces, if any. */
  function SeriesIdentity(name: string, view: View, ts: TimeSeries): (r: Option<Identity>)
    ensures r.Some? <==> ts.value.CountSum? || (ts.value.Scalar? && IsCountAggregation(view.aggregation))
    ensures r.Some? ==> r.value.name == name && r.value.tags == SeriesTags(view, ts)
    ensures r.Some? ==> (r.value.kind.SummaryKind? <==> ts.value.CountSum?)
  {
    match ts.value
    case CountSum(_, _) => Some(Identity(name, SeriesTags(view, ts), SummaryKind))
    case Scalar(_) =>
      if IsCountAggregation(view.aggregation) then Some(Identity(name, SeriesTags(view, ts), CountKind))
      else None
    case Unsupported => None
  }

  /** The value a count identity is measured against: the stored one, or 0. */
  function Baseline(m: MergedValues, id: Identity): real
    requires WellKinded(m) && id.kind.CountKind?
  {
    if id in m then m[id].value else 0.0
  }

  datatype Step = Step(record: NrMetric, merged: MergedValues)

  /**
   * One time series with a supported value: the record it emits and the
   * merged values afterwards. The value's shape is tested before the
   * aggregation.
   */
  function TranslateSeries(m: MergedValues, name: string, view: View, ts: TimeSeries): (r: Step)
    requires WellKinded(m)
    requires !ts.value.Unsupported?
    ensures WellKinded(r.merged)
  {
    var tags := SeriesTags(view, ts);
    var endTimeMs := EndTimeMs(ts.timestamp);
    match ts.value
    case CountSum(count, sum) =>
      var id := Identity(name, tags, SummaryKind);
      var deltaCount := if id in m then count - m[id].count else count;
      var deltaSum := if id in m then sum - m[id].sum else sum;
      Step(SummaryMetric(name, deltaCount, deltaSum, tags, endTimeMs), m[id := StoredPair(count, sum)])
    case Scalar(value) =>
      if IsCountAggregation(view.aggregation) then
        var id := Identity(name, tags, CountKind);
        Step(CountMetric(name, value - Baseline(m, id), tags, endTimeMs), m[id := StoredScalar(value)])
      else
        Step(GaugeMetric(name, value, tags, endTimeMs), m)
  }

  /** How many leading series are processed before the loop meets an unsupported value and breaks. */
  function SupportedPrefix(series: seq<TimeSeries>): (n: nat)
    ensures n <= |series|
    ensures forall j :: 0 <= j < n ==> !series[j].value.Unsupported?
    ensures n < |series| ==> series[n].value.Unsupported?
  {
    if series == [] || series[0].value.Unsupported? then 0
    else 1 + SupportedPrefix(series[1..])
  }

  predicate AllSupported(series: seq<TimeSeries>) {
    forall j :: 0 <= j < |series| ==> !series[j].value.Unsupported?
  }

  datatype Acc = Acc(records: seq<NrMetric>, merged: MergedValues)

  /** TranslateSeries applied to each series in turn, threading the merged values. */
  function FoldSeries(m: MergedValues, name: string, view: View, series: seq<TimeSeries>): (r: Acc)
    requires WellKinded(m) && AllSupported(series)
    ensures WellKinded(r.merged)
    ensures |r.records| == |series|
    decreases |series|
  {
    if series == [] then Acc([], m)
    else SeriesStep(FoldSeries(m, name, view, series[..|series| - 1]), name, view, series[|series| - 1])
  }

  /** One more series after the ones that gave `prev`: its record is appended. */
  function SeriesStep(prev: Acc, name: string, view: View, ts: TimeSeries): (r: Acc)
    requires WellKinded(prev.merged) && !ts.value.Unsupported?
    ensures WellKinded(r.merged)
    ensures |r.records| == |prev.records| + 1
  {
    var step := TranslateSeries(prev.merged, name, view, ts);
    Acc(prev.records + [step.record], step.merged)
  }

  /** One metric: its series up to the first unsupported value. */
  function TranslateMetric(m: MergedValues, view: View, metric: Metric): (r: Acc)
    requires WellKinded(m)
    ensures WellKinded(r.merged)
    ensures |r.records| == SupportedPrefix(metric.series)
  {
    FoldSeries(m, metric.name, view, metric.series[..SupportedPrefix(metric.series)])
  }

  /** What `self.views[name]` raises: views cleared by stop, or a name never registered. */
  datatype ExportError = ViewsCleared | UnknownView(name: string)

  datatype Translation = Translation(records: seq<NrMetric>, merged: MergedValues, error: Option<ExportError>)

  /**
   * The whole batch: the metrics in order, each looked up among the views;
   * the first failed lookup stops the batch with the records and merged
   * values reached so far.
   */
  function TranslateMetrics(views: Option<map<string, View>>, m: MergedValues, metrics: seq<Metric>): (r: Translation)
    requires WellKinded(m)
    ensures WellKinded(r.merged)
    decreases |metrics|
  {
    if metrics == [] then Translation([], m, None)
    else ExportStep(views, TranslateMetrics(views, m, metrics[..|metrics| - 1]), metrics[|metrics| - 1])
  }

  /** One metric of the batch, after the ones before it have given `prev`. */
  function ExportStep(views: Option<map<string, View>>, prev: Translation, metric: Metric): (r: Translation)
    requires WellKinded(prev.merged)
    ensures WellKinded(r.merged)
  {
    if prev.error.Some? then prev
    else if views.None? then Translation(prev.records, prev.merged, Some(ViewsCleared))
    else if metric.name !in views.value then Translation(prev.records, prev.merged, Some(UnknownView(metric.name)))
    else
      var acc := TranslateMetric(prev.merged, views.value[metric.name], metric);
      Translation(prev.records + acc.records, acc.merged, None)
  }

  /** A step only appends to the records it is given. */
  lemma ExportStepPrefix(views: Option<map<string, View>>, head: seq<NrMetric>, prev: Translation, metric: Metric)
    requires WellKinded(prev.merged)
    ensures var r := ExportStep(views, prev, metric);
      ExportStep(views, Translation(head + prev.records, prev.merged, prev.error), metric)
        == Translation(head + r.records, r.merged, r.error)
  {
    if prev.error.None? && views.Some? && metric.name in views.value {
      var acc := TranslateMetric(prev.merged, views.value[metric.name], metric);
      assert head + prev.records + acc.records == head + (prev.records + acc.records);
    }
  }

  // ---------------------------------------------------------------------
  // One series
  // ---------------------------------------------------------------------

  /** A count identity seen for the first time emits its raw value (baseline 0) and stores it. */
  lemma CountFirstObservation(m: MergedValues, name: string, view: View, ts: TimeSeries)
    requires WellKinded(m) && ts.value.Scalar? && IsCountAggregation(view.aggregation)
    requires Identity(name, SeriesTags(view, ts), CountKind) !in m
    ensures var r := TranslateSeries(m, name, view, ts);
      && r.record == CountMetric(name, ts.value.value, SeriesTags(view, ts), EndTimeMs(ts.timestamp))
      && r.merged == m[Identity(name, SeriesTags(view, ts), CountKind) := StoredScalar(ts.value.value)]
  {
  }

  /**
   * A count identity already seen emits the current value minus the stored
   * one, negative or not, and stores the current value.
   */
  lemma CountLaterObservation(m: MergedValues, name: string, view: View, ts: TimeSeries)
    requires WellKinded(m) && ts.value.Scalar? && IsCountAggregation(view.aggregation)
    requires Identity(name, SeriesTags(view, ts), CountKind) in m
    ensures var id, r := Identity(name, SeriesTags(view, ts), CountKind), TranslateSeries(m, name, view, ts);
      && r.record.CountMetric?
      && r.record.value == ts.value.value - m[id].value
      && r.merged == m[id := StoredScalar(ts.value.value)]
  {
  }

  /**
   * A count/sum value has its count and its sum delta-encoded separately
   * against the stored pair (the raw pair on first sight), and the current
   * pair replaces the stored one.
   */
  lemma SummaryDelta(m: MergedValues, name: string, view: View, ts: TimeSeries)
    requires WellKinded(m) && ts.value.CountSum?
    ensures var id, r := Identity(name, SeriesTags(view, ts), SummaryKind), TranslateSeries(m, name, view, ts);
      && r.record.SummaryMetric?
      && (id !in m ==> r.record.count == ts.value.count && r.record.sum == ts.value.sum)
      && (id in m ==> r.record.count == ts.value.count - m[id].count && r.record.sum == ts.value.sum - m[id].sum)
      && r.merged == m[id := StoredPair(ts.value.count, ts.value.sum)]
  {
  }

  /**
   * Shape decides before aggregation: a count/sum value is a summary under
   * any aggregation; a scalar outside Count and Sum is a gauge carrying the
   * value unchanged and leaves the merged values alone.
   */
  lemma ShapeBeforeAggregation(m: MergedValues, name: string, view: View, ts: TimeSeries)
    requires WellKinded(m) && !ts.value.Unsupported?
    ensures var r := TranslateSeries(m, name, view, ts);
      && (ts.value.CountSum? ==> r.record.SummaryMetric?)
      && (ts.value.Scalar? && IsCountAggregation(view.aggregation) ==> r.record.CountMetric?)
      && (ts.value.Scalar? && !IsCountAggregation(view.aggregation) ==>
            r.record == GaugeMetric(name, ts.value.value, SeriesTags(view, ts), EndTimeMs(ts.timestamp))
            && r.merged == m)
  {
  }

  /** Every record carries the metric's name, the series' merged tags and its end time. */
  lemma RecordFields(m: MergedValues, name: string, view: View, ts: TimeSeries)
    requires WellKinded(m) && !ts.value.Unsupported?
    ensures var r := TranslateSeries(m, name, view, ts);
      r.record.name == name && r.record.tags == SeriesTags(view, ts) && r.record.endTimeMs == EndTimeMs(ts.timestamp)
  {
  }

  /** A series changes the stored value of its own identity only. */
  lemma StepFrame(m: MergedValues, name: string, view: View, ts: TimeSeries, other: Identity)
    requires WellKinded(m) && !ts.value.Unsupported?
    requires SeriesIdentity(name, view, ts) != Some(other)
    ensures var r := TranslateSeries(m, name, view, ts);
      (other in r.merged <==> other in m) && (other in m ==> r.merged[other] == m[other])
  {
  }

  /**
   * Two series of one metric whose label values differ in a column that no
   * later column repeats get different tags, hence different identities.
   */
  lemma DistinctLabelsDistinctTags(view: View, ts1: TimeSeries, ts2: TimeSeries, j: nat)
    requires j < |view.columns| && j < |ts1.labelValues| && j < |ts2.labelValues|
    requires view.columns[j] !in view.columns[j + 1..]
    requires ts1.labelValues[j] != ts2.labelValues[j]
    ensures SeriesTags(view, ts1) != SeriesTags(view, ts2)
  {
    var c := view.columns;
    OverlayLookup(BaseTags(view), c, ts1.labelValues);
    OverlayLookup(BaseTags(view), c, ts2.labelValues);
    NotInLaterPrefix(c, j, Min(|c|, |ts1.labelValues|));
    NotInLaterPrefix(c, j, Min(|c|, |ts2.labelValues|));
    assert SeriesTags(view, ts1)[c[j]] == ts1.labelValues[j];
    assert SeriesTags(view, ts2)[c[j]] == ts2.labelValues[j];
  }

  /** A column absent from the rest of the columns is absent from any prefix of the rest. */
  lemma NotInLaterPrefix(c: seq<string>, j: nat, n: nat)
    requires j < n <= |c| && c[j] !in c[j + 1..]
    ensures c[j] !in c[j + 1..n]
  {
    assert c[j + 1..n] == c[j + 1..][..n - j - 1];
  }

  /**
   * Series that share a name but differ in label values keep independent
   * baselines: processing one leaves the other's stored value as it was.
   */
  lemma IndependentBaselines(m: MergedValues, name: string, view: View, ts1: TimeSeries, ts2: TimeSeries, j: nat)
    requires WellKinded(m) && ts1.value.Scalar? && ts2.value.Scalar? && IsCountAggregation(view.aggregation)
    requires j < |view.columns| && j < |ts1.labelValues| && j < |ts2.labelValues|
    requires view.columns[j] !in view.columns[j + 1..]
    requires ts1.labelValues[j] != ts2.labelValues[j]
    ensures var id2 := Identity(name, SeriesTags(view, ts2), CountKind);
      Baseline(TranslateSeries(m, name, view, ts1).merged, id2) == Baseline(m, id2)
  {
    DistinctLabelsDistinctTags(view, ts1, ts2, j);
    StepFrame(m, name, view, ts1, Identity(name, SeriesTags(view, ts2), CountKind));
  }

  // ---------------------------------------------------------------------
  // The series of one metric
  // ---------------------------------------------------------------------

  /** Records come out in series order, each the step at the state its predecessors left. */
  lemma {:induction false} FoldSeriesRecordAt(m: MergedValues, name: string, view: View, series: seq<TimeSeries>, j: nat)
    requires WellKinded(m) && AllSupported(series) && j < |series|
    ensures AllSupported(series[..j])
    ensures FoldSeries(m, name, view, series).records[j]
         == TranslateSeries(FoldSeries(m, name, view, series[..j]).merged, name, view, series[j]).record
    decreases |series|
  {
    var last := |series| - 1;
    var init := series[..last];
    assert AllSupported(init);
    var prev := FoldSeries(m, name, view, init);
    assert FoldSeries(m, name, view, series) == SeriesStep(prev, name, view, series[last]);
    if j < last {
      FoldSeriesRecordAt(m, name, view, init, j);
      assert init[..j] == series[..j] && init[j] == series[j];
      assert FoldSeries(m, name, view, series).records[j] == prev.records[j];
    } else {
      assert init == series[..j];
    }
  }

  /** Folding two runs of series one after the other is folding their concatenation. */
  lemma {:induction false} FoldSeriesAppend(m: MergedValues, name: string, view: View, s1: seq<TimeSeries>, s2: seq<TimeSeries>)
    requires WellKinded(m) && AllSupported(s1) && AllSupported(s2)
    ensures AllSupported(s1 + s2)
    ensures var a := FoldSeries(m, name, view, s1);
      var b := FoldSeries(a.merged, name, view, s2);
      FoldSeries(m, name, view, s1 + s2) == Acc(a.records + b.records, b.merged)
    decreases |s2|
  {
    assert AllSupported(s1 + s2);
    if s2 == [] {
      assert s1 + s2 == s1;
    } else {
      var init, last := s2[..|s2| - 1], s2[|s2| - 1];
      assert AllSupported(init);
      FoldSeriesAppend(m, name, view, s1, init);
      var a := FoldSeries(m, name, view, s1);
      var b' := FoldSeries(a.merged, name, view, init);
      var s := s1 + s2;
      assert s[..|s| - 1] == s1 + init && s[|s| - 1] == last;
      assert FoldSeries(m, name, view, s) == SeriesStep(Acc(a.records + b'.records, b'.merged), name, view, last);
      assert FoldSeries(a.merged, name, view, s2) == SeriesStep(b', name, view, last);
      SeriesStepPrefix(a.records, b', name, view, last);
    }
  }

  /** A step only appends to the records it is given. */
  lemma SeriesStepPrefix(head: seq<NrMetric>, prev: Acc, name: string, view: View, ts: TimeSeries)
    requires WellKinded(prev.merged) && !ts.value.Unsupported?
    ensures var r := SeriesStep(prev, name, view, ts);
      SeriesStep(Acc(head + prev.records, prev.merged), name, view, ts) == Acc(head + r.records, r.merged)
  {
    var step := TranslateSeries(prev.merged, name, view, ts);
    assert head + prev.records + [step.record] == head + (prev.records + [step.record]);
  }

  /** Under a view that is neither Count nor Sum, scalars pass through as gauges and touch no state. */
  lemma {:induction false} GaugeSeriesPassThrough(m: MergedValues, name: string, view: View, series: seq<TimeSeries>)
    requires WellKinded(m) && !IsCountAggregation(view.aggregation)
    requires forall j :: 0 <= j < |series| ==> series[j].value.Scalar?
    ensures AllSupported(series)
    ensures var r := FoldSeries(m, name, view, series);
      && r.merged == m
      && forall j :: 0 <= j < |series| ==>
           r.records[j] == GaugeMetric(name, series[j].value.value, SeriesTags(view, series[j]), EndTimeMs(series[j].timestamp))
    decreases |series|
  {
    if series != [] {
      var init := series[..|series| - 1];
      GaugeSeriesPassThrough(m, name, view, init);
    }
  }

  /** An identity that no series of the run maps to keeps its stored value. */
  lemma {:induction false} FoldSeriesFrame(m: MergedValues, name: string, view: View, series: seq<TimeSeries>, other: Identity)
    requires WellKinded(m) && AllSupported(series)
    requires forall j :: 0 <= j < |series| ==> SeriesIdentity(name, view, series[j]) != Some(other)
    ensures var r := FoldSeries(m, name, view, series);
      (other in r.merged <==> other in m) && (other in m ==> r.merged[other] == m[other])
    decreases |series|
  {
    if series != [] {
      var init := series[..|series| - 1];
      FoldSeriesFrame(m, name, view, init, other);
      StepFrame(FoldSeries(m, name, view, init).merged, name, view, series[|series| - 1], other);
    }
  }

  /** The sum of the values of count records (others contribute nothing). */
  function CountTotal(records: seq<NrMetric>): real {
    if records == [] then 0.0
    else CountTotal(records[..|records| - 1])
         + (if records[|records| - 1].CountMetric? then records[|records| - 1].value else 0.0)
  }

  /**
   * Delta encoding loses nothing: successive observations of one count
   * identity emit deltas that add up to the latest raw value minus the
   * baseline held before the first of them, and the latest raw value is
   * what remains stored.
   */
  lemma {:induction false} CountDeltasTelescope(m: MergedValues, name: string, view: View, series: seq<TimeSeries>, tags: Tags)
    requires WellKinded(m) && IsCountAggregation(view.aggregation) && |series| > 0
    requires forall j :: 0 <= j < |series| ==> series[j].value.Scalar? && SeriesTags(view, series[j]) == tags
    ensures AllSupported(series)
    ensures var r, id := FoldSeries(m, name, view, series), Identity(name, tags, CountKind);
      && CountTotal(r.records) == series[|series| - 1].value.value - Baseline(m, id)
      && id in r.merged && r.merged[id] == StoredScalar(series[|series| - 1].value.value)
    decreases |series|
  {
    var id := Identity(name, tags, CountKind);
    var init := series[..|series| - 1];
    assert AllSupported(series);
    if |init| == 0 {
      assert FoldSeries(m, name, view, init) == Acc([], m);
    } else {
      CountDeltasTelescope(m, name, view, init, tags);
      assert init[|init| - 1] == series[|series| - 2];
    }
    var r := FoldSeries(m, name, view, series);
    assert r.records[..|r.records| - 1] == FoldSeries(m, name, view, init).records;
  }

  /** SupportedPrefix stops exactly at the first unsupported value. */
  lemma {:induction false} SupportedPrefixAtBreak(s1: seq<TimeSeries>, ts: TimeSeries, s2: seq<TimeSeries>)
    requires AllSupported(s1) && ts.value.Unsupported?
    ensures SupportedPrefix(s1 + [ts] + s2) == |s1|
    decreases |s1|
  {
    if s1 == [] {
      assert (s1 + [ts] + s2)[0] == ts;
    } else {
      assert (s1 + [ts] + s2)[1..] == s1[1..] + [ts] + s2;
      SupportedPrefixAtBreak(s1[1..], ts, s2);
    }
  }

  /**
   * An unsupported value ends its metric: the series before it are
   * translated, it and every series after it emit nothing and change nothing.
   */
  lemma BreakSkipsRest(m: MergedValues, view: View, metric: Metric, s1: seq<TimeSeries>, ts: TimeSeries, s2: seq<TimeSeries>)
    requires WellKinded(m) && AllSupported(s1) && ts.value.Unsupported?
    requires metric.series == s1 + [ts] + s2
    ensures TranslateMetric(m, view, metric) == FoldSeries(m, metric.name, view, s1)
  {
    SupportedPrefixAtBreak(s1, ts, s2);
    assert metric.series[..|s1|] == s1;
  }

  // ---------------------------------------------------------------------
  // The batch
  // ---------------------------------------------------------------------

  /** Once a lookup has failed, the rest of the batch changes nothing. */
  lemma {:induction false} ErrorSticks(views: Option<map<string, View>>, m: MergedValues, metrics: seq<Metric>, k: nat)
    requires WellKinded(m) && k <= |metrics|
    requires TranslateMetrics(views, m, metrics[..k]).error.Some?
    ensures TranslateMetrics(views, m, metrics) == TranslateMetrics(views, m, metrics[..k])
    decreases |metrics| - k
  {
    if k < |metrics| {
      assert metrics[..k + 1][..k] == metrics[..k];
      ErrorSticks(views, m, metrics, k + 1);
    } else {
      assert metrics[..k] == metrics;
    }
  }

  /**
   * After stop has cleared the views, a non-empty batch raises at its first
   * metric, before any record or state change; an empty one emits nothing.
   */
  lemma ExportAfterStop(m: MergedValues, metrics: seq<Metric>)
    requires WellKinded(m)
    ensures |metrics| > 0 ==> TranslateMetrics(None, m, metrics) == Translation([], m, Some(ViewsCleared))
    ensures |metrics| == 0 ==> TranslateMetrics(None, m, metrics) == Translation([], m, None)
  {
    if |metrics| > 0 {
      assert metrics[..1][..0] == [];
      ErrorSticks(None, m, metrics, 1);
    }
  }

  /**
   * Two batches exported one after the other produce, between them, the
   * records and final state of the one batch that concatenates them: the
   * merged values carry the baselines from one export to the next.
   */
  lemma {:induction false} TranslateMetricsAppend(views: Option<map<string, View>>, m: MergedValues, ms1: seq<Metric>, ms2: seq<Metric>)
    requires WellKinded(m)
    requires TranslateMetrics(views, m, ms1).error.None?
    ensures var a := TranslateMetrics(views, m, ms1);
      var b := TranslateMetrics(views, a.merged, ms2);
      TranslateMetrics(views, m, ms1 + ms2) == Translation(a.records + b.records, b.merged, b.error)
    decreases |ms2|
  {
    if ms2 == [] {
      assert ms1 + ms2 == ms1;
    } else {
      var init, last := ms2[..|ms2| - 1], ms2[|ms2| - 1];
      TranslateMetricsAppend(views, m, ms1, init);
      var ms := ms1 + ms2;
      assert ms[..|ms| - 1] == ms1 + init && ms[|ms| - 1] == last;
      var a := TranslateMetrics(views, m, ms1);
      ExportStepPrefix(views, a.records, TranslateMetrics(views, a.merged, init), last);
    }
  }

  /** A batch of one metric with one supported series registered under a view emits just that series' record. */
  lemma SingleSeriesBatch(views: map<string, View>, m: MergedValues, metric: Metric)
    requires WellKinded(m) && metric.name in views
    requires |metric.series| == 1 && !metric.series[0].value.Unsupported?
    ensures var step := TranslateSeries(m, metric.name, views[metric.name], metric.series[0]);
      TranslateMetrics(Some(views), m, [metric]) == Translation([step.record], step.merged, None)
  {
    var view, ts := views[metric.name], metric.series[0];
    var step := TranslateSeries(m, metric.name, view, ts);
    assert metric.series[1..] == [];
    assert SupportedPrefix(metric.series) == 1;
    assert metric.series[..1] == metric.series;
    assert metric.series[..0] == [];
    assert FoldSeries(m, metric.name, view, metric.series) == Acc([step.record], step.merged);
    assert TranslateMetric(m, view, metric) == Acc([step.record], step.merged);
    assert [metric][..0] == [] && [metric][0] == metric;
    assert TranslateMetrics(Some(views), m, []) == Translation([], m, None);
  }

  /**
   * A counter observed as `c1` in one export and `c2` in the next, on a
   * fresh identity, is reported as `c1` and then as `c2 - c1`.
   */
  lemma SuccessiveCountExports(views: map<string, View>, m: MergedValues, first: Metric, second: Metric)
    requires WellKinded(m) && first.name in views && second.name == first.name
    requires IsCountAggregation(views[first.name].aggregation)
    requires |first.series| == 1 && |second.series| == 1
    requires first.series[0].value.Scalar? && second.series[0].value.Scalar?
    requires first.series[0].labelValues == second.series[0].labelValues
    requires Identity(first.name, SeriesTags(views[first.name], first.series[0]), CountKind) !in m
    ensures var t1 := TranslateMetrics(Some(views), m, [first]);
      var t2 := TranslateMetrics(Some(views), t1.merged, [second]);
      && |t1.records| == 1 && t1.records[0].CountMetric? && t1.records[0].value == first.series[0].value.value
      && |t2.records| == 1 && t2.records[0].CountMetric?
      && t2.records[0].value == second.series[0].value.value - first.series[0].value.value
  {
    var view := views[first.name];
    SingleSeriesBatch(views, m, first);
    CountFirstObservation(m, first.name, view, first.series[0]);
    var m1 := TranslateSeries(m, first.name, view, first.series[0]).merged;
    SingleSeriesBatch(views, m1, second);
    CountLaterObservation(m1, second.name, view, second.series[0]);
  }

  /** A gauge observed twice is reported unchanged both times and the state does not move. */
  lemma RepeatedGaugeExports(views: map<string, View>, m: MergedValues, metric: Metric)
    requires WellKinded(m) && metric.name in views
    requires !IsCountAggregation(views[metric.name].aggregation)
    requires |metric.series| == 1 && metric.series[0].value.Scalar?
    ensures var t1 := TranslateMetrics(Some(views), m, [metric]);
      var t2 := TranslateMetrics(Some(views), t1.merged, [metric]);
      && t1.merged == m && t2 == t1
      && |t1.records| == 1 && t1.records[0].GaugeMetric? && t1.records[0].value == metric.series[0].value.value
  {
    SingleSeriesBatch(views, m, metric);
    ShapeBeforeAggregation(m, metric.name, views[metric.name], metric.series[0]);
  }

  // ---------------------------------------------------------------------
  // The exporter object
  // ---------------------------------------------------------------------

  /** The `common` block sent with every batch. */
  datatype Common = Common(intervalMs: real, serviceName: string)

  /** A send attempted: the batch and the common block it went with. */
  datatype SendRequest = SendRequest(batch: seq<NrMetric>, common: Common)

  /** What export_metrics ends with: an exception, or a return value (None or the response). */
  datatype ExportResult = Raised(error: ExportError) | Returned(response: Option<Response>)

  class StatsExporter {
    var views: Option<map<string, View>>
    var mergedValues: MergedValues
    const common: Common

    ghost predicate Valid()
      reads this
    {
      WellKinded(mergedValues)
    }

    /** A new exporter: no views, no stored values, and the common block from the interval and service name. */
    constructor (serviceName: string, interval: real := 5.0)
      ensures Valid()
      ensures views == Some(map[]) && mergedValues == map[]
      ensures common == Common(interval * 1000.0, serviceName)
    {
      views := Some(map[]);
      mergedValues := map[];
      common := Common(interval * 1000.0, serviceName);
    }

    /** A registered view is stored under its name, unless stop has cleared the views. */
    method OnRegisterView(view: View)
      requires Valid()
      modifies this`views
      ensures Valid()
      ensures views == if old(views).Some? then Some(old(views).value[view.name := view]) else None
    {
      if views.Some? {
        views := Some(views.value[view.name := view]);
      }
    }

    /**
     * One supported time series: its record, with the merged values
     * read and overwritten in place for count and summary identities.
     * Its case split follows TranslateSeries: this is the in-place update,
     * that one its specification on values.
     */
    method ExportPoint(name: string, view: View, tags: Tags, ts: TimeSeries) returns (record: NrMetric)
      requires WellKinded(mergedValues) && !ts.value.Unsupported? && tags == BaseTags(view)
      modifies this`mergedValues
      ensures TranslateSeries(old(mergedValues), name, view, ts) == Step(record, mergedValues)
    {
      var value := ts.value;
      var endTimeMs := EndTimeMs(ts.timestamp);
      var seriesTags := Overlay(tags, view.columns, ts.labelValues);
      if value.CountSum? {
        var identity := Identity(name, seriesTags, SummaryKind);
        var deltaCount, deltaSum;
        if identity in mergedValues {
          var last := mergedValues[identity];
          deltaCount, deltaSum := value.count - last.count, value.sum - last.sum;
        } else {
          deltaCount, deltaSum := value.count, value.sum;
        }
        mergedValues := mergedValues[identity := StoredPair(value.count, value.sum)];
        record := SummaryMetric(name, deltaCount, deltaSum, seriesTags, endTimeMs);
      } else if IsCountAggregation(view.aggregation) {
        var identity := Identity(name, seriesTags, CountKind);
        var previous := if identity in mergedValues then mergedValues[identity].value else 0.0;
        mergedValues := mergedValues[identity := StoredScalar(value.value)];
        record := CountMetric(name, value.value - previous, seriesTags, endTimeMs);
      } else {
        record := GaugeMetric(name, value.value, seriesTags, endTimeMs);
      }
    }

    /**
     * The series loop of one metric: translates the series up to the first
     * unsupported value, whose `break` skips the rest, and returns the
     * records in series order.
     */
    method ExportSeries(name: string, view: View, series: seq<TimeSeries>) returns (records: seq<NrMetric>)
      requires WellKinded(mergedValues)
      modifies this`mergedValues
      ensures WellKinded(mergedValues)
      ensures TranslateMetric(old(mergedValues), view, Metric(name, "", "", series)) == Acc(records, mergedValues)
    {
      var tags := BaseTags(view);
      records := [];
      var j := 0;
      while j < |series|
        invariant 0 <= j <= |series|
        invariant AllSupported(series[..j])
        invariant WellKinded(mergedValues)
        invariant FoldSeries(old(mergedValues), name, view, series[..j]) == Acc(records, mergedValues)
      {
        var ts := series[j];
        if ts.value.Unsupported? {
          break;
        }
        var record := ExportPoint(name, view, tags, ts);
        assert series[..j + 1][..j] == series[..j];
        records := records + [record];
        j := j + 1;
      }
      assert j == SupportedPrefix(series);
    }

    /**
     * Translates the batch, updating the merged values in place; sends the
     * records unless there are none, and returns the response, or None
     * when the send raised or nothing was sent.
     */
    method ExportMetrics(metrics: seq<Metric>, outcome: SendOutcome) returns (sent: Option<SendRequest>, result: ExportResult)
      requires Valid()
      modifies this`mergedValues
      ensures Valid()
      ensures var t := TranslateMetrics(views, old(mergedValues), metrics);
        && mergedValues == t.merged
        && (t.error.Some? ==> sent.None? && result == Raised(t.error.value))
        && (t.error.None? && t.records == [] ==> sent.None? && result == Returned(None))
        && (t.error.None? && t.records != [] ==>
              sent == Some(SendRequest(t.records, common)) && result == Returned(CaughtResponse(outcome)))
    {
      var nrMetrics: seq<NrMetric> := [];
      var error: Option<ExportError> := None;
      var i := 0;
      while i < |metrics|
        invariant 0 <= i <= |metrics|
        invariant WellKinded(mergedValues)
        invariant TranslateMetrics(views, old(mergedValues), metrics[..i]) == Translation(nrMetrics, mergedValues, None)
      {
        var metric := metrics[i];
        if views.None? {
          error := Some(ViewsCleared);
          break;
        }
        if metric.name !in views.value {
          error := Some(UnknownView(metric.name));
          break;
        }
        var view := views.value[metric.name];
        var seriesRecords := ExportSeries(metric.name, view, metric.series);
        assert metrics[..i + 1][..i] == metrics[..i];
        nrMetrics := nrMetrics + seriesRecords;
        i := i + 1;
      }
      if error.Some? {
        assert metrics[..i + 1][..i] == metrics[..i];
        ErrorSticks(views, old(mergedValues), metrics, i + 1);
        sent, result := None, Raised(error.value);
        return;
      }
      assert metrics[..i] == metrics;
      // No records: no send, and None is returned.
      if nrMetrics == [] {
        sent, result := None, Returned(None);
        return;
      }
      sent := Some(SendRequest(nrMetrics, common));
      match outcome {
        case SendRaised =>
          result := Returned(None);
        case SendReturned(response) =>
          result := Returned(Some(response));
      }
    }

    /**
     * Clears the views (the thread and client go with them). The delta map
     * is not cleared: the source assigns None to `count_values`, a name it
     * never uses, so `merged_values` survives stop.
     */
    method Stop()
      requires Valid()
      modifies this`views
      ensures Valid()
      ensures views == None
      ensures mergedValues == old(mergedValues)
    {
      views := None;
    }
  }
}

/**
 * The stats exporter of the older `ocnewrelic` package: every time series
 * whose point carries a plain value becomes a New Relic gauge with that
 * value; there is no delta state. The gauge's tags are the descriptor's
 * description and unit only: the tags merged with the label values are
 * built and then not used.
 */
module OcStats {
  import opened Telemetry

  /** A registered view; only its name and columns are read here. */
  datatype View = View(name: string, columns: seq<string>)

  datatype GaugeMetric = GaugeMetric(name: string, value: real, tags: Tags, endTimeMs: int)

  /** The tags built from the metric's descriptor. */
  function DescriptorTags(metric: Metric): Tags {
    map["description" := metric.description, "unit" := metric.unit]
  }

  /**
   * The series loop of one metric: a series whose value has no `.value`
   * is skipped (`continue`) and the loop goes on with the next one.
   */
  function TranslateSeries(metric: Metric, series: seq<TimeSeries>): (r: seq<GaugeMetric>)
    ensures |r| <= |series|
    ensures forall g :: g in r ==> g.name == metric.name
    decreases |series|
  {
    if series == [] then []
    else
      var ts := series[|series| - 1];
      TranslateSeries(metric, series[..|series| - 1])
      + (if ts.value.Scalar? then [GaugeMetric(metric.name, ts.value.value, DescriptorTags(metric), EndTimeMs(ts.timestamp))] else [])
  }

  /** The batch translated, or the name whose `self.views[name]` lookup raised. */
  datatype Translation = Translated(records: seq<GaugeMetric>) | UnknownView(name: string)

  /** The metrics in order; each is looked up among the views before its series are read. */
  function TranslateMetrics(views: map<string, View>, metrics: seq<Metric>): (r: Translation)
    ensures r.UnknownView? ==> r.name !in views && exists j :: 0 <= j < |metrics| && metrics[j].name == r.name
    ensures r.Translated? ==> forall j :: 0 <= j < |metrics| ==> metrics[j].name in views
    decreases |metrics|
  {
    if metrics == [] then Translated([])
    else
      var prev := TranslateMetrics(views, metrics[..|metrics| - 1]);
      var metric := metrics[|metrics| - 1];
      if prev.UnknownView? then prev
      else if metric.name !in views then UnknownView(metric.name)
      else Translated(prev.records + TranslateSeries(metric, metric.series))
  }

  /** Translating two runs of series is translating each and concatenating. */
  lemma {:induction false} TranslateSeriesAppend(metric: Metric, s1: seq<TimeSeries>, s2: seq<TimeSeries>)
    ensures TranslateSeries(metric, s1 + s2) == TranslateSeries(metric, s1) + TranslateSeries(metric, s2)
    decreases |s2|
  {
    if s2 == [] {
      assert s1 + s2 == s1;
    } else {
      var init := s2[..|s2| - 1];
      TranslateSeriesAppend(metric, s1, init);
      assert (s1 + s2)[..|s1 + s2| - 1] == s1 + init;
    }
  }

  /** A series without a plain value is skipped, and the series after it are still translated. */
  lemma SkipOnlyThatSeries(metric: Metric, s1: seq<TimeSeries>, ts: TimeSeries, s2: seq<TimeSeries>)
    requires !ts.value.Scalar?
    ensures TranslateSeries(metric, s1 + [ts] + s2) == TranslateSeries(metric, s1) + TranslateSeries(metric, s2)
  {
    assert [ts][..0] == [];
    assert TranslateSeries(metric, [ts]) == [];
    TranslateSeriesAppend(metric, s1, [ts]);
    assert TranslateSeries(metric, s1 + [ts]) == TranslateSeries(metric, s1);
    TranslateSeriesAppend(metric, s1 + [ts], s2);
  }

  /**
   * Every record is a gauge named after its metric, carrying exactly the
   * descriptor's description and unit as tags, whatever the label values.
   */
  lemma {:induction false} RecordsCarryDescriptorTags(metric: Metric, series: seq<TimeSeries>)
    ensures forall r :: r in TranslateSeries(metric, series) ==>
      r.name == metric.name && r.tags == map["description" := metric.description, "unit" := metric.unit]
    decreases |series|
  {
    if series != [] {
      RecordsCarryDescriptorTags(metric, series[..|series| - 1]);
    }
  }

  /** When every series has a plain value, record k is series k's value, unchanged, with its end time. */
  lemma {:induction false} GaugesCarryRawValues(metric: Metric, series: seq<TimeSeries>)
    requires forall j :: 0 <= j < |series| ==> series[j].value.Scalar?
    ensures |TranslateSeries(metric, series)| == |series|
    ensures forall k :: 0 <= k < |series| ==>
      TranslateSeries(metric, series)[k]
        == GaugeMetric(metric.name, series[k].value.value, DescriptorTags(metric), EndTimeMs(series[k].timestamp))
    decreases |series|
  {
    if series != [] {
      GaugesCarryRawValues(metric, series[..|series| - 1]);
    }
  }

  /** Label values never reach the output: two series runs that differ only in labels translate alike. */
  lemma {:induction false} LabelsIgnored(metric: Metric, s1: seq<TimeSeries>, s2: seq<TimeSeries>)
    requires |s1| == |s2|
    requires forall j :: 0 <= j < |s1| ==> s1[j].value == s2[j].value && s1[j].timestamp == s2[j].timestamp
    ensures TranslateSeries(metric, s1) == TranslateSeries(metric, s2)
    decreases |s1|
  {
    if s1 != [] {
      LabelsIgnored(metric, s1[..|s1| - 1], s2[..|s2| - 1]);
    }
  }

  /**
   * Every metric name must be registered: the first metric whose name is
   * not raises, even one without series, and nothing is sent.
   */
  lemma {:induction false} FirstUnknownNameRaises(views: map<string, View>, metrics: seq<Metric>, k: nat)
    requires k < |metrics| && metrics[k].name !in views
    requires forall j :: 0 <= j < k ==> metrics[j].name in views
    ensures TranslateMetrics(views, metrics) == UnknownView(metrics[k].name)
    decreases |metrics|
  {
    var init := metrics[..|metrics| - 1];
    if k < |metrics| - 1 {
      FirstUnknownNameRaises(views, init, k);
    } else {
      AllKnownTranslate(views, init);
    }
  }

  /** A batch whose names are all registered translates without raising. */
  lemma {:induction false} AllKnownTranslate(views: map<string, View>, metrics: seq<Metric>)
    requires forall j :: 0 <= j < |metrics| ==> metrics[j].name in views
    ensures TranslateMetrics(views, metrics).Translated?
    decreases |metrics|
  {
    if metrics != [] {
      AllKnownTranslate(views, metrics[..|metrics| - 1]);
    }
  }

  /** Records follow input order: two batches translate to the concatenation of their records. */
  lemma {:induction false} TranslateMetricsAppend(views: map<string, View>, ms1: seq<Metric>, ms2: seq<Metric>)
    requires TranslateMetrics(views, ms1).Translated? && TranslateMetrics(views, ms2).Translated?
    ensures TranslateMetrics(views, ms1 + ms2)
         == Translated(TranslateMetrics(views, ms1).records + TranslateMetrics(views, ms2).records)
    decreases |ms2|
  {
    if ms2 == [] {
      assert ms1 + ms2 == ms1;
    } else {
      var init, last := ms2[..|ms2| - 1], ms2[|ms2| - 1];
      assert TranslateMetrics(views, init).Translated?;
      TranslateMetricsAppend(views, ms1, init);
      assert (ms1 + ms2)[..|ms1 + ms2| - 1] == ms1 + init && (ms1 + ms2)[|ms1 + ms2| - 1] == last;
      var a, b := TranslateMetrics(views, ms1).records, TranslateMetrics(views, init).records;
      assert a + b + TranslateSeries(last, last.series) == a + (b + TranslateSeries(last, last.series));
    }
  }

  /** What export_metrics ends with: returning None, or an exception from the lookup or from the send. */
  datatype ExportResult = Completed | RaisedUnknownView(name: string) | RaisedFromSend

  class StatsExporter {
    var views: map<string, View>

    constructor ()
      ensures views == map[]
    {
      views := map[];
    }

    /** A registered view is stored under its name. */
    method OnRegisterView(view: View)
      modifies this`views
      ensures views == old(views)[view.name := view]
    {
      views := views[view.name := view];
    }

    /**
     * Translates the batch and sends it unconditionally, even when empty;
     * the send is not guarded, so its exception propagates.
     */
    method ExportMetrics(metrics: seq<Metric>, outcome: SendOutcome) returns (sent: Option<seq<GaugeMetric>>, result: ExportResult)
      ensures TranslateMetrics(views, metrics).UnknownView? ==>
        sent.None? && result == RaisedUnknownView(TranslateMetrics(views, metrics).name)
      ensures TranslateMetrics(views, metrics).Translated? ==>
        sent == Some(TranslateMetrics(views, metrics).records)
        && result == (if outcome.SendRaised? then RaisedFromSend else Completed)
    {
      var nrMetrics: seq<GaugeMetric> := [];
      var i := 0;
      while i < |metrics|
        invariant 0 <= i <= |metrics|
        invariant TranslateMetrics(views, metrics[..i]) == Translated(nrMetrics)
      {
        var metric := metrics[i];
        var tags := DescriptorTags(metric);
        if metric.name !in views {
          AllKnownBefore(views, metrics, i, nrMetrics);
          FirstUnknownNameRaises(views, metrics, i);
          sent, result := None, RaisedUnknownView(metric.name);
          return;
        }
        var view := views[metric.name];
        var j := 0;
        while j < |metric.series|
          invariant 0 <= j <= |metric.series|
          invariant TranslateMetrics(views, metrics[..i]).records + TranslateSeries(metric, metric.series[..j]) == nrMetrics
        {
          var ts := metric.series[j];
          assert metric.series[..j + 1][..j] == metric.series[..j];
          if !ts.value.Scalar? {
            j := j + 1;
            continue;
          }
          // The label-merged tags are computed but the record is built from `tags`.
          var labelledTags := Overlay(tags, view.columns, ts.labelValues);
          nrMetrics := nrMetrics + [GaugeMetric(metric.name, ts.value.value, tags, EndTimeMs(ts.timestamp))];
          j := j + 1;
        }
        assert metric.series[..j] == metric.series;
        assert metrics[..i + 1][..i] == metrics[..i];
        i := i + 1;
      }
      assert metrics[..i] == metrics;
      sent := Some(nrMetrics);
      result := if outcome.SendRaised? then RaisedFromSend else Completed;
    }
  }

  /** A prefix that translated without raising has only registered names. */
  lemma {:induction false} AllKnownBefore(views: map<string, View>, metrics: seq<Metric>, i: nat, records: seq<GaugeMetric>)
    requires i <= |metrics| && TranslateMetrics(views, metrics[..i]) == Translated(records)
    ensures forall j :: 0 <= j < i ==> metrics[j].name in views
    decreases i
  {
    if i > 0 {
      var prev := TranslateMetrics(views, metrics[..i - 1]);
      assert metrics[..i][..i - 1] == metrics[..i - 1];
      if prev.Translated? {
        AllKnownBefore(views, metrics, i - 1, prev.records);
      }
    }
  }
}

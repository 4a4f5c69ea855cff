# New Relic OpenCensus exporters, modelled in Dafny

This project models the translators in the New Relic exporter for OpenCensus (Python). They turn OpenCensus metrics and spans into New Relic records:

- **`ExtStats`** (`src/opencensus_ext_newrelic/stats.py`) is the stats exporter with delta encoding. `StatsExporter` holds the registered `views` and the `mergedValues` map. That map goes from a metric identity (name, merged tags, kind "summary" or "count") to the last raw cumulative value seen. `ExportMetrics` walks the metrics and their time series in a nested loop. Each point value is classified by shape:
  - A count/sum pair becomes a summary delta.
  - A scalar under a Count or Sum view becomes a count delta.
  - Any other scalar becomes a gauge, passed through unchanged.
  - An unsupported value breaks out of that metric's series loop.

  The map is overwritten in place. An empty batch is never sent. The methods are proved against specification functions: `TranslateSeries`, `FoldSeries`, `TranslateMetric` and `TranslateMetrics`. The properties are proved as lemmas about those functions.
- **`ExtTrace`** (`src/opencensus_ext_newrelic/trace.py`) converts spans one for one, in order. Times become whole milliseconds. The service name goes only into the batch's common attributes. `Export` forwards the spans only while a transport is set, and `Stop` clears the transport.
- **`OcTrace`** (`src/ocnewrelic/trace.py`) is the older span exporter. Every span carries the entity name, which defaults to "Python Application".
- **`OcStats`** (`src/ocnewrelic/stats.py`) is the older stats exporter. It emits gauges only and keeps no delta state. A series without a plain value is skipped with `continue`. The tags are exactly the descriptor's description and unit: the label-merged tags are built and then thrown away. The batch is always sent, even when empty.
- **`Telemetry`** holds the shared pieces:
  - the input shapes (`Metric`, `TimeSeries`, `PointValue`, `SpanData`);
  - the send outcome;
  - floor division of microseconds into milliseconds;
  - the `tags.copy(); update(zip(columns, labels))` overlay (`Overlay`).

The HTTP send is not modelled. Each exporting method takes the send's outcome as a parameter: it either raised, or it returned a response with `ok` and a status code. The method returns the request it would have sent (`sent`), or `None` when no send is attempted.

Three behaviours of the code are easy to misread:

- **Shape is tested before aggregation.** A count/sum value is a summary under any aggregation. Only a scalar looks at the view's aggregation.
- **An unsupported value skips the rest of its metric.** The loop `break`s, so it skips the rest of that metric's series, not just the one snapshot.
- **`stop` does not clear the delta map.** It sets `count_values` to None, a name used nowhere else, so `merged_values` survives. This cannot be observed: `stop` also sets `views` to None, so every later non-empty export raises at its first lookup, before `merged_values` is read (`ExportAfterStop`).

## Model

| member | source | states |
|---|---|---|
| `Telemetry.CaughtResponse` | src/opencensus_ext_newrelic/trace.py:108-119 | a send that raised yields None; any returned response, ok or not, is handed back unchanged |
| `Telemetry.MicrosToMillis` | src/opencensus_ext_newrelic/trace.py:93-94 | `us // 1000` is the integer `ms` with `ms*1000 <= us < ms*1000 + 1000` (a floor, also for negative values) |
| `Telemetry.MicrosToMillisIsRealFloor` | tests/test_trace.py:47-48 | the integer floor equals `math.floor` of the microseconds divided by 1000 over the reals |
| `Telemetry.FloorOfDifference` | src/opencensus_ext_newrelic/trace.py:89-94 | the floor of `end - start` is the difference of the floors, minus one exactly when the end's sub-millisecond part is below the start's |
| `Telemetry.DurationIsNotDifferenceOfFloors` | src/opencensus_ext_newrelic/trace.py:91-94 | a concrete pair of times (999 µs, 1001 µs) where the duration differs from the difference of the floored ends |
| `Telemetry.EndTimeMs` | src/opencensus_ext_newrelic/stats.py:120-124 | the end time of a point is `epoch_secs*1000 + microsecond // 1000` whole milliseconds |
| `Telemetry.OverlayLookup` | src/opencensus_ext_newrelic/stats.py:126-131 | the overlaid tags contain exactly the base keys and the zipped columns; a base key not among the zipped columns keeps its value; a zipped column that no later zipped column repeats maps to its label value, overriding a base key of the same name |
| `Telemetry.Overlay` | src/opencensus_ext_newrelic/stats.py:126-131 | `tags.copy()` updated with `zip(columns, values)` keeps every base key; its key-by-key contents are stated in `OverlayLookup` |
| `ExtStats.TranslateSeries` | src/opencensus_ext_newrelic/stats.py:133-179 | translating one series keeps the merged values well kinded (count identities hold scalars, summary identities pairs) |
| `ExtStats.IsCountAggregation` | src/opencensus_ext_newrelic/stats.py:159 | membership in COUNT_AGGREGATION_TYPES: Count and Sum only. `ShapeBeforeAggregation` shows that only scalars consult it |
| `ExtStats.BaseTags` | src/opencensus_ext_newrelic/stats.py:102-106 | the tags every series of a view starts from: the measure's name and unit. `OverlayLookup` shows they survive unless a column of the same name overrides them |
| `ExtStats.SeriesTags` | src/opencensus_ext_newrelic/stats.py:126-131 | the base tags overlaid by the view's columns zipped with the label values. `DistinctLabelsDistinctTags` shows that distinct label values in a non-repeated column give distinct tags |
| `ExtStats.SeriesIdentity` | src/opencensus_ext_newrelic/stats.py:133-160 | a series has an identity exactly when it is a count/sum value or a scalar under Count or Sum. The identity carries the metric name and the series' tags, and its kind is summary exactly for count/sum values. `StepFrame` shows no other identity changes |
| `ExtStats.Baseline` | src/opencensus_ext_newrelic/stats.py:164 | `merged_values.get(identity, 0)`: the stored scalar, or 0 for an identity not yet seen. `CountFirstObservation` and `CountLaterObservation` state the deltas it yields |
| `ExtStats.SupportedPrefix` | src/opencensus_ext_newrelic/stats.py:108-118 | the number of series run before the loop breaks: all series before it are supported, and the series at it (if any) is unsupported |
| `ExtStats.FoldSeries` | src/opencensus_ext_newrelic/stats.py:108-181 | folding supported series yields one record per series and keeps the merged values well kinded |
| `ExtStats.TranslateMetric` | src/opencensus_ext_newrelic/stats.py:108-118 | a metric emits exactly as many records as series precede its first unsupported value |
| `ExtStats.TranslateMetrics` | src/opencensus_ext_newrelic/stats.py:97-181 | translating a batch keeps the merged values well kinded |
| `ExtStats.ExportStep` | src/opencensus_ext_newrelic/stats.py:99-104 | one metric's lookup and translation keeps the merged values well kinded |
| `ExtStats.CountFirstObservation` | src/opencensus_ext_newrelic/stats.py:159-166 | a count identity never seen emits its raw value (implicit baseline 0) and the raw value is stored |
| `ExtStats.CountLaterObservation` | src/opencensus_ext_newrelic/stats.py:159-166 | a count identity already seen emits current minus stored, negative or not (no reset detection), and current replaces the stored value |
| `ExtStats.SummaryDelta` | src/opencensus_ext_newrelic/stats.py:133-146 | a count/sum value emits the raw pair on first sight, otherwise the count delta and the sum delta computed independently against the stored pair; the current pair replaces the stored one |
| `ExtStats.ShapeBeforeAggregation` | src/opencensus_ext_newrelic/stats.py:133-179 | a count/sum value always takes the summary path; a scalar takes the count path exactly under Count or Sum aggregation; any other scalar is a gauge with its value unchanged and the merged values untouched |
| `ExtStats.RecordFields` | src/opencensus_ext_newrelic/stats.py:148-179 | every record carries the metric's name, the series' merged tags and the point's end time in milliseconds |
| `ExtStats.StepFrame` | src/opencensus_ext_newrelic/stats.py:133-166 | a series changes the stored value of its own identity only; every other identity keeps its presence and value |
| `ExtStats.DistinctLabelsDistinctTags` | src/opencensus_ext_newrelic/stats.py:126-134 | series differing in a label value whose column is not repeated later get different tags, hence different identities |
| `ExtStats.IndependentBaselines` | src/opencensus_ext_newrelic/stats.py:126-166 | processing one counter series leaves the baseline of a same-named series with a different label value unchanged |
| `ExtStats.FoldSeriesRecordAt` | src/opencensus_ext_newrelic/stats.py:108-181 | record k is series k translated against the state the first k series left (records are in series order) |
| `ExtStats.FoldSeriesAppend` | src/opencensus_ext_newrelic/stats.py:108-181 | folding two runs of series one after the other equals folding their concatenation |
| `ExtStats.GaugeSeriesPassThrough` | src/opencensus_ext_newrelic/stats.py:176-181 | under a non-count view, scalars come out as gauges with their raw values, in order, and the merged values are unchanged |
| `ExtStats.FoldSeriesFrame` | src/opencensus_ext_newrelic/stats.py:133-166 | an identity no series maps to keeps its stored value through the whole run |
| `ExtStats.CountDeltasTelescope` | src/opencensus_ext_newrelic/stats.py:159-166 | the deltas emitted for successive observations of one count identity add up to the latest raw value minus the earlier baseline, and the latest raw value is stored |
| `ExtStats.BreakSkipsRest` | src/opencensus_ext_newrelic/stats.py:108-118 | an unsupported value ends its metric: only the series before it are translated; it and every series after it emit nothing and change nothing |
| `ExtStats.ErrorSticks` | src/opencensus_ext_newrelic/stats.py:101 | once a view lookup has raised, no later metric changes the records or the merged values |
| `ExtStats.ExportAfterStop` | src/opencensus_ext_newrelic/stats.py:101 | with views cleared, a non-empty batch raises at once with no record and no state change; an empty batch emits nothing |
| `ExtStats.TranslateMetricsAppend` | src/opencensus_ext_newrelic/stats.py:97-181 | exporting two batches in turn gives the records and final state of their concatenation; later metrics are processed after an earlier metric's break |
| `ExtStats.SingleSeriesBatch` | src/opencensus_ext_newrelic/stats.py:97-181 | a batch of one registered metric with one supported series emits exactly that series' record |
| `ExtStats.SuccessiveCountExports` | src/opencensus_ext_newrelic/stats.py:159-166 | a fresh counter exported as c1 and then as c2 is reported as c1 and then as c2 - c1 |
| `ExtStats.RepeatedGaugeExports` | src/opencensus_ext_newrelic/stats.py:176-179 | a gauge exported twice is reported with its raw value both times, and the state does not move |
| `ExtStats.StatsExporter.constructor` | src/opencensus_ext_newrelic/stats.py:64-79 | starts with no views, an empty merged-values map, and the common block (interval in ms, service name) |
| `ExtStats.StatsExporter.OnRegisterView` | src/opencensus_ext_newrelic/stats.py:81-88 | stores the view under its name while views is set; after stop it does nothing |
| `ExtStats.StatsExporter.ExportPoint` | src/opencensus_ext_newrelic/stats.py:109-179 | the in-place update of one series computes exactly TranslateSeries's record and new merged values |
| `ExtStats.StatsExporter.ExportSeries` | src/opencensus_ext_newrelic/stats.py:108-181 | the series loop with `break` computes exactly TranslateMetric's records and merged values |
| `ExtStats.StatsExporter.ExportMetrics` | src/opencensus_ext_newrelic/stats.py:90-197 | the merged values end as TranslateMetrics says. A failed lookup raises and sends nothing. An empty record batch is not sent and returns None. Otherwise it sends the records in order with the common block and returns the response, or None if the send raised |
| `ExtStats.StatsExporter.Stop` | src/opencensus_ext_newrelic/stats.py:199-210 | clears views and leaves the merged values as they were |
| `ExtTrace.ToSpan` | src/opencensus_ext_newrelic/trace.py:89-104 | name, tags, guid, trace id and parent id copied; start is the floor of start µs / 1000; the duration is the floor of (end − start) µs / 1000 |
| `ExtTrace.DurationFromMicroseconds` | src/opencensus_ext_newrelic/trace.py:89-94 | the duration equals floored end minus floored start, less one when the end's sub-millisecond part is below the start's |
| `ExtTrace.TraceExporter.constructor` | src/opencensus_ext_newrelic/trace.py:74-78 | the common block holds only the service name; transport and client are set |
| `ExtTrace.TraceExporter.Emit` | src/opencensus_ext_newrelic/trace.py:80-119 | one span per span data, in order, each ToSpan of its input. The batch is sent with the common block even when empty. A raising send yields None and any response is returned. After stop, the cleared client makes the send raise inside the try, so nothing is sent and None is returned |
| `ExtTrace.TraceExporter.Export` | src/opencensus_ext_newrelic/trace.py:121-131 | forwards the spans to the transport exactly while one is set |
| `ExtTrace.TraceExporter.Stop` | src/opencensus_ext_newrelic/trace.py:133-142 | clears the transport and the client |
| `OcTrace.ToSpan` | src/ocnewrelic/trace.py:64-81 | the entity is the exporter's; name, tags, guid, trace id and parent id copied; start and duration are floors in milliseconds |
| `OcTrace.TimesAreRealFloors` | tests/test_trace.py:47-50 | the duration and timestamp equal `math.floor` of the elapsed and start times in milliseconds |
| `OcTrace.TraceExporter.constructor` | src/ocnewrelic/trace.py:40-54 | the entity is the given service name, "Python Application" by default |
| `OcTrace.TraceExporter.Emit` | src/ocnewrelic/trace.py:56-96 | one span per input, in order, each under the entity. The batch is always sent. A raising send yields None and any response is returned |
| `OcTrace.TraceExporter.Export` | src/ocnewrelic/trace.py:98-107 | forwards the spans to the transport unconditionally |
| `OcTrace.DefaultEntity` | tests/test_trace.py:12-57 | an exporter built without a service name reports every span under "Python Application" |
| `OcStats.DescriptorTags` | src/ocnewrelic/stats.py:25-28 | the tags built from the descriptor: its description and unit. `RecordsCarryDescriptorTags` shows they are exactly the tags every gauge carries |
| `OcStats.TranslateSeries` | src/ocnewrelic/stats.py:31-53 | the series loop of one metric: at most one gauge per series, each named after the metric. The lemmas below state the skip rule, the tags and the values |
| `OcStats.TranslateMetrics` | src/ocnewrelic/stats.py:21-53 | a batch raises only for a name that occurs in it and is not registered, and translates only when every name is registered |
| `OcStats.TranslateSeriesAppend` | src/ocnewrelic/stats.py:31-53 | translating two runs of series is translating each and concatenating |
| `OcStats.SkipOnlyThatSeries` | src/ocnewrelic/stats.py:31-37 | a series without a plain value is skipped and the series after it are still translated |
| `OcStats.RecordsCarryDescriptorTags` | src/ocnewrelic/stats.py:47-51 | every record carries the metric's name and exactly {description, unit} as tags |
| `OcStats.GaugesCarryRawValues` | src/ocnewrelic/stats.py:34-53 | when every series has a plain value, record k is a gauge with series k's raw value and end time |
| `OcStats.LabelsIgnored` | src/ocnewrelic/stats.py:45-51 | series runs that differ only in label values translate to the same records |
| `OcStats.FirstUnknownNameRaises` | src/ocnewrelic/stats.py:30 | the first metric whose name is not registered raises, even one without series |
| `OcStats.AllKnownTranslate` | src/ocnewrelic/stats.py:21-30 | a batch whose names are all registered translates without raising |
| `OcStats.TranslateMetricsAppend` | src/ocnewrelic/stats.py:21-53 | the records of two batches together are the records of each, in order |
| `OcStats.StatsExporter.constructor` | src/ocnewrelic/stats.py:8-15 | starts with no views |
| `OcStats.StatsExporter.OnRegisterView` | src/ocnewrelic/stats.py:17-18 | stores the view under its name, unconditionally |
| `OcStats.StatsExporter.ExportMetrics` | src/ocnewrelic/stats.py:20-55 | an unknown name raises before any send. Otherwise the translated gauges are sent, even when there are none. An exception from the send propagates, and success returns None |

## Left out

- HTTP sending (`MetricClient`, `SpanClient`, `API.send_*`), `add_version_info` and response objects: the call is outside this model. The send's outcome is a parameter, and `sent` records the batch the send was attempted with.
- Exporter threads and transports (`get_exporter_thread`, `DefaultTransport`, `AsyncTransport`, `SyncTransport`) are concurrency and timer plumbing. So are the final flushes done by both `stop` methods before they clear state. `Export` models only whether the spans are handed to a transport.
- `ExtStats.StatsExporter.constructor`: the client and thread fields are not modelled. The interval is taken as given, not read back from the thread.
- `ExtTrace.TraceExporter.Stop`: the transport's own `stop` (a pending-data flush) is not modelled.
- Timestamp parsing (`timestamp_to_microseconds`, `utctimetuple`, `calendar.timegm`) is library code. Span times are given as integer epoch microseconds. A point time is given as epoch seconds plus the microsecond field.
- `Telemetry.EndTimeMs`: `epoch_secs * 1e6 + microsecond` is a float product in the source. The model computes it exactly in integers, then floors with `// 1000`. Floating-point rounding is not modelled.
- `ExtStats.CountLaterObservation`, `ExtStats.SummaryDelta`: scalars and sums are Dafny reals and counts are integers. Float subtraction rounding is not modelled.
- Only a series' first point is read, as the source does. A series with no points (an `IndexError` in the source) cannot be expressed.
- Label values are strings. A `None` label value has no counterpart.
- Metric identity is the tuple (name, tags, kind). The internals of `MetricBatch.create_identity` are outside this model.
- `stop` sets a `count_values` attribute that nothing else uses. It is not a field of the model. `ExtStats.StatsExporter.Stop` states instead that the merged values are kept.
- Summary records have min, max and interval all None. They are not fields of the record.
- Logging is not modelled.
- `docs/conf.py`, `tests/conftest.py` and `src/ocnewrelic/__init__.py` are configuration, test fixtures and a version-file read. They are not part of this model.

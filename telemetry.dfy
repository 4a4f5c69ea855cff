/**
 * Values shared by the four exporters: what the OpenCensus side hands over
 * (metrics with time series, span data), what the New Relic client answers,
 * and the two pieces of arithmetic and tag handling that every translator
 * repeats (microseconds to whole milliseconds, and overlaying a view's
 * columns zipped with a series' label values on a base tag map).
 */
module Telemetry {

  datatype Option<+T> = None | Some(value: T)

  /** Tag and attribute dictionaries, string to string. */
  type Tags = map<string, string>

  /** What the New Relic client's send returns: `response.ok` and the status code. */
  datatype Response = Response(ok: bool, status: int)

  /**
   * The send is a call into the telemetry client that this model does not
   * contain; its outcome is an input: it raised, or it returned a response.
   */
  datatype SendOutcome = SendRaised | SendReturned(response: Response)

  /**
   * What an exporter that wraps the send in `try/except Exception` and
   * returns the response hands back: nothing when the send raised, the
   * response (ok or not) otherwise.
   */
  function CaughtResponse(outcome: SendOutcome): (r: Option<Response>)
    ensures r.None? <==> outcome.SendRaised?
    ensures r.Some? ==> r.value == outcome.response
  {
    match outcome
    case SendRaised => None
    case SendReturned(response) => Some(response)
  }

  /** Python's `us // 1000`: the floor of a microsecond count in milliseconds. */
  function MicrosToMillis(us: int): (ms: int)
    ensures ms * 1000 <= us < ms * 1000 + 1000
  {
    us / 1000
  }

  /** The floor in MicrosToMillis agrees with `math.floor(us / 1000)` taken over the reals. */
  lemma MicrosToMillisIsRealFloor(us: int)
    ensures MicrosToMillis(us) == (us as real / 1000.0).Floor
  {
    var ms := MicrosToMillis(us);
    assert ms as real * 1000.0 <= us as real < ms as real * 1000.0 + 1000.0;
    assert ms as real <= us as real / 1000.0 < ms as real + 1.0;
  }

  /**
   * The floor of a difference is not the difference of the floors: it is
   * one less whenever the end's sub-millisecond part is below the start's.
   */
  lemma FloorOfDifference(startUs: int, endUs: int)
    ensures MicrosToMillis(endUs - startUs)
         == MicrosToMillis(endUs) - MicrosToMillis(startUs)
            - (if endUs % 1000 < startUs % 1000 then 1 else 0)
  {
    var a, r := endUs / 1000, endUs % 1000;
    var b, q := startUs / 1000, startUs % 1000;
    assert endUs - startUs == (a - b) * 1000 + (r - q);
    var d := if r < q then a - b - 1 else a - b;
    assert d * 1000 <= endUs - startUs < d * 1000 + 1000;
    MillisUnique(endUs - startUs, d);
  }

  /** Any integer within one millisecond below `us` is its floor. */
  lemma MillisUnique(us: int, ms: int)
    requires ms * 1000 <= us < ms * 1000 + 1000
    ensures MicrosToMillis(us) == ms
  {
  }

  /** A witness that the duration is not the difference of the floored ends. */
  lemma DurationIsNotDifferenceOfFloors()
    ensures MicrosToMillis(1001 - 999) != MicrosToMillis(1001) - MicrosToMillis(999)
  {
    FloorOfDifference(999, 1001);
  }

  /** `datetime.microsecond`: always below one second. */
  type Microsecond = x: int | 0 <= x < 1000000

  /** A point's end timestamp, as UTC epoch seconds plus the microsecond field. */
  datatype Timestamp = Timestamp(epochSeconds: int, microsecond: Microsecond)

  /**
   * `(epoch_secs * 1e6 + microsecond) // 1000`, computed exactly: the whole
   * milliseconds since the epoch.
   */
  function EndTimeMs(ts: Timestamp): (ms: int)
    ensures ms == ts.epochSeconds * 1000 + ts.microsecond / 1000
  {
    var us := ts.epochSeconds * 1000000 + ts.microsecond;
    MillisUnique(us, ts.epochSeconds * 1000 + ts.microsecond / 1000);
    MicrosToMillis(us)
  }

  /**
   * A point value, classified by shape: one with a `.value` attribute, one
   * with `.count` and `.sum`, and anything else.
   */
  datatype PointValue = Scalar(value: real) | CountSum(count: int, sum: real) | Unsupported

  /** One time series of an exported metric, reduced to its first point. */
  datatype TimeSeries = TimeSeries(labelValues: seq<string>, value: PointValue, timestamp: Timestamp)

  /** An exported metric: its descriptor's name, description and unit, and its time series. */
  datatype Metric = Metric(name: string, description: string, unit: string, series: seq<TimeSeries>)

  /** A finished span, with its timestamps already converted to epoch microseconds. */
  datatype SpanData = SpanData(
    name: string,
    attributes: Tags,
    spanId: string,
    traceId: string,
    parentSpanId: Option<string>,
    startUs: int,
    endUs: int)

  function Min(a: nat, b: nat): nat { if a <= b then a else b }

  /**
   * `tags.copy()` updated with `zip(columns, values)`: pairs are taken up to
   * the shorter sequence and applied left to right, so a later column wins
   * over an earlier one and any column wins over a base key of the same name.
   */
  function Overlay(base: Tags, columns: seq<string>, values: seq<string>): (t: Tags)
    ensures base.Keys <= t.Keys
    decreases |columns|
  {
    if |columns| == 0 || |values| == 0 then base
    else Overlay(base[columns[0] := values[0]], columns[1..], values[1..])
  }

  /** What Overlay yields, key by key. */
  lemma {:induction false} OverlayLookup(base: Tags, columns: seq<string>, values: seq<string>)
    ensures var t, n := Overlay(base, columns, values), Min(|columns|, |values|);
      && (forall k :: k in t <==> k in base || k in columns[..n])
      && (forall k :: k in base && k !in columns[..n] ==> t[k] == base[k])
      && (forall j :: 0 <= j < n && columns[j] !in columns[j + 1..n] ==> t[columns[j]] == values[j])
    decreases |columns|
  {
    var t, n := Overlay(base, columns, values), Min(|columns|, |values|);
    if |columns| == 0 || |values| == 0 {
      assert columns[..n] == [];
    } else {
      var base' := base[columns[0] := values[0]];
      var cs, vs := columns[1..], values[1..];
      OverlayLookup(base', cs, vs);
      assert t == Overlay(base', cs, vs);
      assert Min(|cs|, |vs|) == n - 1;
      assert columns[..n] == [columns[0]] + cs[..n - 1];
      forall j | 0 <= j < n && columns[j] !in columns[j + 1..n]
        ensures t[columns[j]] == values[j]
      {
        if j == 0 {
          assert columns[1..n] == cs[..n - 1];
        } else {
          assert cs[j - 1] == columns[j];
          assert cs[j..n - 1] == columns[j + 1..n];
        }
      }
    }
  }
}

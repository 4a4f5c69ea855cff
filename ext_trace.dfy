/**
 * The trace exporter of the `opencensus_ext_newrelic` package: it turns
 * finished OpenCensus spans into New Relic spans, one per span and in order,
 * with start time and duration in whole milliseconds, and sends them with
 * the service name in the batch's common attributes.
 */
module ExtTrace {
  import opened Telemetry

  /** A New Relic span as this exporter builds it. */
  datatype Span = Span(
    name: string,
    tags: Tags,
    guid: string,
    traceId: string,
    parentId: Option<string>,
    startTimeMs: int,
    durationMs: int)

  /** The common block sent with every batch: only the service name. */
  datatype Common = Common(serviceName: string)

  /** A send attempted: the spans and the common block they went with. */
  datatype SendRequest = SendRequest(spans: seq<Span>, common: Common)

  /**
   * One span: identifiers and attributes copied, start time floored to the
   * millisecond, and the duration the floor of the microsecond difference.
   */
  function ToSpan(sd: SpanData): (s: Span)
    ensures s.name == sd.name && s.tags == sd.attributes && s.guid == sd.spanId
    ensures s.traceId == sd.traceId && s.parentId == sd.parentSpanId
    ensures s.startTimeMs * 1000 <= sd.startUs < s.startTimeMs * 1000 + 1000
    ensures s.durationMs * 1000 <= sd.endUs - sd.startUs < s.durationMs * 1000 + 1000
  {
    var durationUs := sd.endUs - sd.startUs;
    Span(
      name := sd.name,
      tags := sd.attributes,
      guid := sd.spanId,
      traceId := sd.traceId,
      parentId := sd.parentSpanId,
      startTimeMs := MicrosToMillis(sd.startUs),
      durationMs := MicrosToMillis(durationUs))
  }

  /**
   * The duration is not the difference of the floored start and end: it
   * is one millisecond less whenever the end's sub-millisecond part is
   * below the start's.
   */
  lemma DurationFromMicroseconds(sd: SpanData)
    ensures ToSpan(sd).durationMs
         == MicrosToMillis(sd.endUs) - ToSpan(sd).startTimeMs - (if sd.endUs % 1000 < sd.startUs % 1000 then 1 else 0)
  {
    FloorOfDifference(sd.startUs, sd.endUs);
  }

  class TraceExporter {
    const common: Common
    /** Whether `_transport` and `client` are still set; stop clears both. */
    var transportPresent: bool
    var clientPresent: bool

    constructor (serviceName: string)
      ensures common == Common(serviceName)
      ensures transportPresent && clientPresent
    {
      common := Common(serviceName);
      transportPresent, clientPresent := true, true;
    }

    /**
     * Converts every span and sends the batch, even an empty one. A send
     * that raises, including the call on the client stop has cleared,
     * yields None; any response, ok or not, is returned.
     */
    method Emit(spanDatas: seq<SpanData>, outcome: SendOutcome) returns (sent: Option<SendRequest>, response: Option<Response>)
      ensures clientPresent ==> sent.Some? && sent.value.common == common
      ensures clientPresent ==> response == CaughtResponse(outcome)
      ensures !clientPresent ==> sent.None? && response.None?
      ensures sent.Some? ==> |sent.value.spans| == |spanDatas|
      ensures sent.Some? ==> forall k :: 0 <= k < |spanDatas| ==> sent.value.spans[k] == ToSpan(spanDatas[k])
    {
      var spans: seq<Span> := [];
      var i := 0;
      while i < |spanDatas|
        invariant 0 <= i <= |spanDatas|
        invariant |spans| == i
        invariant forall k :: 0 <= k < i ==> spans[k] == ToSpan(spanDatas[k])
      {
        var span := ToSpan(spanDatas[i]);
        spans := spans + [span];
        i := i + 1;
      }
      if !clientPresent {
        // `None.send_batch` raises inside the try block.
        sent, response := None, None;
        return;
      }
      sent := Some(SendRequest(spans, common));
      match outcome {
        case SendRaised =>
          response := None;
        case SendReturned(r) =>
          response := Some(r);
      }
    }

    /** Hands the spans to the transport, while there is one; after stop there is none and nothing happens. */
    method Export(spanDatas: seq<SpanData>) returns (forwarded: Option<seq<SpanData>>)
      ensures transportPresent ==> forwarded == Some(spanDatas)
      ensures !transportPresent ==> forwarded.None?
    {
      if transportPresent {
        forwarded := Some(spanDatas);
      } else {
        forwarded := None;
      }
    }

    /** Clears the transport and the client. */
    method Stop()
      modifies this
      ensures !transportPresent && !clientPresent
    {
      transportPresent, clientPresent := false, false;
    }
  }
}

/**
 * The trace exporter of the older `ocnewrelic` package: like the newer one,
 * but every span names its entity (the service name, "Python Application"
 * unless given) and the batch has no common block.
 */
module OcTrace {
  import opened Telemetry

  const DefaultServiceName: string := "Python Application"

  /** A New Relic span as this exporter builds it. */
  datatype Span = Span(
    entity: string,
    name: string,
    tags: Tags,
    guid: string,
    traceId: string,
    parentId: Option<string>,
    startTimeMs: int,
    durationMs: int)

  /**
   * One span under the given entity: identifiers and attributes copied,
   * start time floored to the millisecond, the duration the floor of the
   * microsecond difference.
   */
  function ToSpan(entity: string, sd: SpanData): (s: Span)
    ensures s.entity == entity
    ensures s.name == sd.name && s.tags == sd.attributes && s.guid == sd.spanId
    ensures s.traceId == sd.traceId && s.parentId == sd.parentSpanId
    ensures s.startTimeMs * 1000 <= sd.startUs < s.startTimeMs * 1000 + 1000
    ensures s.durationMs * 1000 <= sd.endUs - sd.startUs < s.durationMs * 1000 + 1000
  {
    var durationUs := sd.endUs - sd.startUs;
    Span(
      entity := entity,
      name := sd.name,
      tags := sd.attributes,
      guid := sd.spanId,
      traceId := sd.traceId,
      parentId := sd.parentSpanId,
      startTimeMs := MicrosToMillis(sd.startUs),
      durationMs := MicrosToMillis(durationUs))
  }

  /**
   * The duration and the timestamp agree with `math.floor` of the elapsed
   * and the start time in milliseconds taken over the reals.
   */
  lemma TimesAreRealFloors(entity: string, sd: SpanData)
    ensures ToSpan(entity, sd).durationMs == ((sd.endUs - sd.startUs) as real / 1000.0).Floor
    ensures ToSpan(entity, sd).startTimeMs == (sd.startUs as real / 1000.0).Floor
  {
    MicrosToMillisIsRealFloor(sd.endUs - sd.startUs);
    MicrosToMillisIsRealFloor(sd.startUs);
  }

  class TraceExporter {
    /** The service name every span is reported under. */
    const entity: string

    constructor (serviceName: string := DefaultServiceName)
      ensures entity == serviceName
    {
      entity := serviceName;
    }

    /**
     * Converts every span under this exporter's entity and sends the batch,
     * even an empty one; a send that raises yields None, any response, ok
     * or not, is returned.
     */
    method Emit(spanDatas: seq<SpanData>, outcome: SendOutcome) returns (sent: seq<Span>, response: Option<Response>)
      ensures |sent| == |spanDatas|
      ensures forall k :: 0 <= k < |spanDatas| ==> sent[k] == ToSpan(entity, spanDatas[k])
      ensures response == CaughtResponse(outcome)
    {
      var spans: seq<Span> := [];
      var i := 0;
      while i < |spanDatas|
        invariant 0 <= i <= |spanDatas|
        invariant |spans| == i
        invariant forall k :: 0 <= k < i ==> spans[k] == ToSpan(entity, spanDatas[k])
      {
        var span := ToSpan(entity, spanDatas[i]);
        spans := spans + [span];
        i := i + 1;
      }
      sent := spans;
      match outcome {
        case SendRaised =>
          response := None;
        case SendReturned(r) =>
          response := Some(r);
      }
    }

    /** Hands the spans to the transport unconditionally. */
    method Export(spanDatas: seq<SpanData>) returns (forwarded: seq<SpanData>)
      ensures forwarded == spanDatas
    {
      forwarded := spanDatas;
    }
  }

  /** An exporter built without a service name reports every span under "Python Application". */
  method DefaultEntity(spanDatas: seq<SpanData>, outcome: SendOutcome) returns (sent: seq<Span>)
    ensures |sent| == |spanDatas|
    ensures forall k :: 0 <= k < |sent| ==> sent[k].entity == "Python Application"
  {
    var exporter := new TraceExporter();
    var response;
    sent, response := exporter.Emit(spanDatas, outcome);
  }
}

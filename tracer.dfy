/** `XRayTracer`: the OpenTracing tracer. It is the source of active spans,
    builds spans on its recorder, and propagates contexts through the
    converters registered per carrier format. */
module Tracers {
  import opened Values
  import opened TraceHeaders
  import opened Recorders
  import opened SpanContexts
  import opened ActiveSpans
  import opened SpanBuilders
  import opened HttpSpanContextConverters

  /** The OpenTracing built-in carrier formats. */
  datatype Format = TextMapFormat | HttpHeadersFormat | BinaryFormat

  class Tracer {
    /** The tracer's own active-span state (the tracer extends the source). */
    const source: ActiveSpanSource
    const recorder: Recorder
    const converters: map<Format, HttpSpanContextConverter>

    /** One HTTP converter serves both text formats; the binary format has
        none. */
    ghost predicate Valid()
      reads this, source, source.localStack, source.recorder
    {
      && recorder == source.recorder && source.Valid()
      && converters.Keys == {TextMapFormat, HttpHeadersFormat}
      && converters[TextMapFormat] == converters[HttpHeadersFormat]
    }

    constructor (recorder: Recorder)
      requires recorder.Valid()
      ensures Valid() && this.recorder == recorder && fresh(source) && fresh(source.localStack)
      ensures forall t :: source.localStack.Stack(t) == []
    {
      var s := new ActiveSpanSource(recorder);
      var http := new HttpSpanContextConverter();
      source, this.recorder := s, recorder;
      converters := map[TextMapFormat := http, HttpHeadersFormat := http];
    }

    /** `buildSpan`: a builder on this tracer and its recorder, with nothing
        set yet. */
    method BuildSpan(name: string) returns (b: SpanBuilder)
      requires Valid()
      ensures fresh(b) && b.Valid() && b.name == name && b.source == source && b.recorder == recorder
      ensures b.parentContext.None? && !b.ignoreActive
      ensures b.stringTags.None? && b.booleanTags.None? && b.numberTags.None?
    {
      b := new SpanBuilder(name, source, recorder);
    }

    /** `inject`: only an X-Ray context, and only into a carrier of a
        registered format, gets the header. */
    method Inject(sc: SpanContext, format: Format, carrier: Carrier)
      requires Valid()
      modifies carrier
      ensures format in converters && sc.XRay? ==>
        carrier.entries == old(carrier.entries) + [(TraceIdHeader, ToText(HeaderOf(sc.ctx)))]
      ensures !(format in converters && sc.XRay?) ==> carrier.entries == old(carrier.entries)
    {
      if format in converters && sc.XRay? {
        var converter := converters[format];
        converter.Inject(sc.ctx, carrier);
      }
    }

    /** `extract`: null for a format without a converter. */
    method Extract(format: Format, carrier: Carrier) returns (r: Option<SpanContext>)
      requires Valid()
      ensures format !in converters ==> r.None?
      ensures format in converters ==> r == Extracted(carrier.entries)
    {
      if format in converters {
        var converter := converters[format];
        var c := converter.Extract(carrier);
        r := if c.Some? then Some(XRay(c.value)) else None;
      } else {
        r := None;
      }
    }
  }

  /** What a text format's converter extracts, as an OpenTracing context. */
  function Extracted(entries: seq<(string, string)>): Option<SpanContext>
  {
    var c := ExtractFrom(entries);
    if c.Some? then Some(XRay(c.value)) else None
  }

  /** Through either text format, a context injected by the tracer comes back
      with its trace id, settled decision and (for SAMPLED) id, detached from
      any entity; nothing travels through the binary format. */
  lemma TracerRoundTrip(tracer: Tracer, format: Format, c: XRaySpanContext, entries: seq<(string, string)>)
    requires tracer.Valid() && Transmittable(c)
    requires c.traceId.Some?
    ensures format in tracer.converters <==> format != BinaryFormat
    ensures format != BinaryFormat ==>
      var d := if c.decision.None? then Unknown else c.decision.value;
      Extracted(entries + [(TraceIdHeader, ToText(HeaderOf(c)))])
        == Some(XRay(XRaySpanContext(c.traceId, None, if d == Sampled then c.id else None, Some(d), null)))
  {
    assert format in tracer.converters.Keys <==> format != BinaryFormat;
    InjectExtractRoundTrip(c, entries);
  }
}

/** `HttpSpanContextConverter`: carries a span context across processes in
    the X-Ray tracing header, `X-Amzn-Trace-Id`, of a text-map carrier. */
module HttpSpanContextConverters {
  import opened Values
  import opened TraceHeaders
  import opened SpanContexts
  import opened TextMapUtils
  import opened StringUtils

  /** The header name, lower-cased once so that lookups in the lower-cased
      carrier map find it. */
  const TraceIdHeader: string := Lower("X-Amzn-Trace-Id")

  lemma TraceIdHeaderIsLowerCase()
    ensures TraceIdHeader == "x-amzn-trace-id"
    ensures Lower(TraceIdHeader) == TraceIdHeader
  {
    var lower := "x-amzn-trace-id";
    assert |TraceIdHeader| == |lower|;
    forall i | 0 <= i < |lower|
      ensures TraceIdHeader[i] == lower[i] && Lower(lower)[i] == lower[i]
    {
    }
  }

  /** A text-map carrier: its entries in iteration order. */
  class Carrier {
    var entries: seq<(string, string)>

    constructor (entries: seq<(string, string)>)
      ensures this.entries == entries
    {
      this.entries := entries;
    }

    method Put(key: string, value: string)
      modifies this
      ensures entries == old(entries) + [(key, value)]
    {
      entries := entries + [(key, value)];
    }
  }

  /** The header `inject` writes: an absent decision is UNKNOWN, and the
      span's id is the header's parent only for a SAMPLED decision. */
  function HeaderOf(c: XRaySpanContext): (h: TraceHeader)
    ensures h.root == c.traceId
    ensures c.decision.None? ==> h.sampled == Unknown
    ensures c.decision.Some? ==> h.sampled == c.decision.value
    ensures h.sampled == Sampled ==> h.parent == c.id
    ensures h.sampled != Sampled ==> h.parent.None?
  {
    var d := if c.decision.None? then Unknown else c.decision.value;
    TraceHeader(c.traceId, if d == Sampled then c.id else None, d)
  }

  /** What `extract` finds in the given carrier entries: no context when the
      header is missing or blank. */
  function ExtractFrom(entries: seq<(string, string)>): Option<XRaySpanContext>
  {
    var m := ToMapSpec(entries);
    if TraceIdHeader in m && !Blank(Some(m[TraceIdHeader])) then Some(FromHeader(FromText(m[TraceIdHeader])))
    else None
  }

  /** The converter: it holds no state of its own. */
  class HttpSpanContextConverter {
    constructor ()
    {
    }

    /** `inject`: exactly one entry, under the lower-cased header name. */
    method Inject(c: XRaySpanContext, carrier: Carrier)
      modifies carrier
      ensures carrier.entries == old(carrier.entries) + [(TraceIdHeader, ToText(HeaderOf(c)))]
    {
      var d := c.decision;
      if d.None? {
        d := Some(Unknown);
      }
      var header := TraceHeader(c.traceId, if d.value == Sampled then c.id else None, d.value);
      carrier.Put(TraceIdHeader, ToText(header));
    }

    /** `extract`: copy the carrier into a lower-cased map, look the header up,
        and parse it unless it is blank. */
    method Extract(carrier: Carrier) returns (r: Option<XRaySpanContext>)
      ensures r == ExtractFrom(carrier.entries)
      ensures r.Some? ==> r.value.entity == null && r.value.parentId.None?
    {
      var m := ToMap(carrier.entries);
      var id: Option<string> := if TraceIdHeader in m then Some(m[TraceIdHeader]) else None;
      var blank := IsBlank(id);
      if !blank {
        r := Some(FromHeader(FromText(id.value)));
      } else {
        r := None;
      }
    }
  }

  /** The header is found whatever the case of its name, and the last entry
      under any spelling of it wins. */
  lemma ExtractCaseInsensitive(entries: seq<(string, string)>, key: string, value: string)
    requires Lower(key) == TraceIdHeader
    ensures ExtractFrom(entries + [(key, value)]) ==
      if Blank(Some(value)) then None else Some(FromHeader(FromText(value)))
  {
    var all := entries + [(key, value)];
    assert all[..|all| - 1] == entries;
  }

  /** No entry under the header name, in any case, means no context. */
  lemma ExtractMissingHeader(entries: seq<(string, string)>)
    requires forall i :: 0 <= i < |entries| ==> Lower(entries[i].0) != TraceIdHeader
    ensures ExtractFrom(entries) == None
  {
    ToMapKeys(entries, TraceIdHeader);
  }

  /** A header text that says nothing is blank and gives no context. */
  lemma ExtractBlankHeader(entries: seq<(string, string)>, value: string)
    requires forall i :: 0 <= i < |value| ==> IsWhitespace(value[i])
    ensures ExtractFrom(entries + [(TraceIdHeader, value)]) == None
  {
    TraceIdHeaderIsLowerCase();
    ExtractCaseInsensitive(entries, TraceIdHeader, value);
  }

  /** Identifiers that the header can carry: no separator inside. */
  predicate Transmittable(c: XRaySpanContext)
  {
    (c.traceId.Some? ==> IdText(c.traceId.value)) && (c.id.Some? ==> IdText(c.id.value))
  }

  /** Extracting what `inject` wrote, whatever the carrier held before: the
      trace id and decision survive (absent becomes UNKNOWN), the id survives
      only for SAMPLED, and there is no parent id and no entity. A context
      with nothing to write gives an empty, hence blank, header and no
      context. */
  lemma InjectExtractRoundTrip(c: XRaySpanContext, entries: seq<(string, string)>)
    requires Transmittable(c)
    ensures var r := ExtractFrom(entries + [(TraceIdHeader, ToText(HeaderOf(c)))]);
      var d := if c.decision.None? then Unknown else c.decision.value;
      && (c.traceId.None? && d == Unknown ==> r.None?)
      && (c.traceId.Some? || d != Unknown ==>
            r == Some(XRaySpanContext(c.traceId, None, if d == Sampled then c.id else None, Some(d), null)))
  {
    var h := HeaderOf(c);
    var text := ToText(h);
    TraceIdHeaderIsLowerCase();
    ExtractCaseInsensitive(entries, TraceIdHeader, text);
    TextEmptyIffNothingSet(h);
    if text != [] {
      assert !IsWhitespace(text[0]);
      HeaderOfRoundTrip(c);
    }
  }

  /** The header of a transmittable context reads back as itself. */
  lemma HeaderOfRoundTrip(c: XRaySpanContext)
    requires Transmittable(c)
    ensures FromText(ToText(HeaderOf(c))) == HeaderOf(c)
  {
    assert WellFormed(HeaderOf(c));
    HeaderRoundTrip(HeaderOf(c));
  }
}

/** `XRaySpanContext`: the immutable position of a span in a trace. As a
    datatype value it cannot change after construction. */
module SpanContexts {
  import opened Values
  import opened TraceHeaders
  import opened Recorders

  datatype XRaySpanContext = XRaySpanContext(
    traceId: Option<TraceId>,
    parentId: Option<string>,
    id: Option<string>,
    decision: Option<SampleDecision>,
    /** The live entity this context was derived from, if any (never owned). */
    entity: Entity?)

  /** A span context as the OpenTracing API hands it around: an X-Ray context,
      or a context of some other kind (for example the no-op span's). */
  datatype SpanContext = XRay(ctx: XRaySpanContext) | Foreign

  /** `new XRaySpanContext()`: a fresh trace id and nothing else.
      The freshly generated trace id is a parameter. */
  function NewRootContext(freshTraceId: TraceId): (c: XRaySpanContext)
    ensures c.traceId == Some(freshTraceId)
    ensures c.parentId.None? && c.id.None? && c.decision.None? && c.entity == null
  {
    XRaySpanContext(Some(freshTraceId), None, None, None, null)
  }

  /** `getDesicion`: a boolean "sampled" flag as a sampling decision. */
  function DecisionOf(sampled: Option<bool>): (d: Option<SampleDecision>)
    ensures sampled == Some(true) <==> d == Some(Sampled)
    ensures sampled == Some(false) <==> d == Some(NotSampled)
    ensures sampled.None? <==> d.None?
  {
    if sampled.Some? then Some(if sampled.value then Sampled else NotSampled) else None
  }

  /** `create(Segment)`. */
  function FromSegment(s: Entity): XRaySpanContext
    requires s.kind == SegmentEntity
  {
    XRaySpanContext(s.traceId, s.parentId, Some(s.id), DecisionOf(Some(s.sampled)), s)
  }

  /** `create(Subsegment)`: trace id and decision come from the parent
      segment; without a parent id of its own the parent segment's id is used. */
  function FromSubsegment(s: Entity): XRaySpanContext
    requires s.kind == SubsegmentEntity && s.Shaped()
  {
    var seg := s.parentSegment;
    var parentId := if s.parentId.Some? then s.parentId else Some(seg.id);
    XRaySpanContext(seg.traceId, parentId, Some(s.id), DecisionOf(Some(seg.sampled)), s)
  }

  /** `create(TraceHeader)`: an inbound header gives a context with no entity;
      the header's parent id becomes this context's id. */
  function FromHeader(h: TraceHeader): XRaySpanContext
  {
    XRaySpanContext(h.root, None, h.parent, Some(h.sampled), null)
  }

  /** The context a span creates for its own entity. */
  function FromEntity(e: Entity): XRaySpanContext
    requires e.Shaped()
  {
    if e.kind == SegmentEntity then FromSegment(e) else FromSubsegment(e)
  }

  /** The consistency a context keeps with the entity it was derived from:
      same trace, same id, the entity's sampling flag as decision. */
  ghost predicate DerivedFrom(c: XRaySpanContext, e: Entity)
  {
    && c.entity == e
    && c.traceId == e.traceId
    && c.id == Some(e.id)
    && c.decision == Some(if e.sampled then Sampled else NotSampled)
    && c.parentId == (if e.kind == SubsegmentEntity && e.parentId.None? && e.parentSegment != null
                      then Some(e.parentSegment.id) else e.parentId)
  }

  /** Both entity factories give contexts consistent with their entity. */
  lemma EntityContextConsistent(e: Entity)
    requires e.Shaped()
    ensures DerivedFrom(FromEntity(e), e)
    ensures FromEntity(e).entity == e
  {
  }

  /** A subsegment's context sits in its segment's trace. */
  lemma SubsegmentContextInSegmentTrace(s: Entity)
    requires s.kind == SubsegmentEntity && s.Shaped()
    ensures FromSubsegment(s).traceId == FromSegment(s.parentSegment).traceId
    ensures FromSubsegment(s).decision == FromSegment(s.parentSegment).decision
    ensures s.parentId.None? ==> FromSubsegment(s).parentId == FromSegment(s.parentSegment).id
  {
  }

  /** A context read from a header has no parent id and no entity. */
  lemma HeaderContextDetached(h: TraceHeader)
    ensures FromHeader(h).entity == null && FromHeader(h).parentId.None?
    ensures FromHeader(h).id == h.parent && FromHeader(h).traceId == h.root
  {
  }
}

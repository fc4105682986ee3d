/** `XRaySpanBuilder`: collects a parent, tags and options, then chooses what
    to start: the no-op span, a subsegment under the recorder's current
    entity, a sampled segment, or an unsampled (dummy) segment. */
module SpanBuilders {
  import opened Values
  import opened TraceHeaders
  import opened Recorders
  import opened SpanContexts
  import opened Taggers
  import opened Spans
  import opened ActiveSpans

  const ChildOf := "child_of"
  const FollowsFrom := "follows_from"

  /** What `startManual` does, decided before any recorder call. */
  datatype Plan =
    | NoopPlan
    | SubsegmentPlan
    | SegmentPlan(traceId: Option<TraceId>, parentId: Option<string>)
    | DummyPlan(traceId: Option<TraceId>)

  /** Why starting a span raised an exception: the recorder had no entity to
      begin a subsegment under, or a tagger failed. */
  datatype StartError = ContextMissing | TagFailed(error: TagError)

  datatype Outcome<T> = Started(value: T) | Failed(error: StartError)

  /** Decisions that leave the choice to the sampling strategy. */
  predicate NeedsSampling(d: Option<SampleDecision>)
  {
    d.None? || d == Some(Requested) || d == Some(Unknown)
  }

  /** The tag-visible state of a newly begun entity. */
  function InitialFields(name: string): EntityFields
  {
    EntityFields(name, None, false, false, false, None, map[], None, None)
  }

  function KeysOf(order: seq<(string, Obj)>): set<string>
  {
    set i | 0 <= i < |order| :: order[i].0
  }

  /** `order` visits entries of `m`, each key at most once. */
  ghost predicate ListsPart(order: seq<(string, Obj)>, m: map<string, Obj>)
  {
    && (forall i :: 0 <= i < |order| ==> order[i].0 in m && order[i].1 == m[order[i].0])
    && (forall i, j :: 0 <= i < j < |order| ==> order[i].0 != order[j].0)
  }

  /** `order` is one iteration order of `m`. */
  ghost predicate Lists(order: seq<(string, Obj)>, m: map<string, Obj>)
  {
    ListsPart(order, m) && KeysOf(order) == m.Keys
  }

  /** The order in which `fillTags` applied the tags: string tags, then
      boolean tags, then number tags, each map in its own iteration order. */
  datatype FillOrder = FillOrder(strs: seq<(string, Obj)>, bools: seq<(string, Obj)>, nums: seq<(string, Obj)>)
  {
    function All(): seq<(string, Obj)>
    {
      strs + bools + nums
    }
  }

  /** A string tag value as the object `setTag` receives; `None` is null. */
  function StrObj(v: Option<string>): Obj
  {
    if v.Some? then Str(v.value) else NullObj
  }

  /** A number tag value as the object `setTag` receives; `None` is null. */
  function NumObj(v: Option<int>): Obj
  {
    if v.Some? then Num(v.value) else NullObj
  }

  function StringObjs(m: Option<map<string, Option<string>>>): map<string, Obj>
  {
    if m.None? then map[] else map k | k in m.value :: StrObj(m.value[k])
  }

  function BooleanObjs(m: Option<map<string, bool>>): map<string, Obj>
  {
    if m.None? then map[] else map k | k in m.value :: Bool(m.value[k])
  }

  function NumberObjs(m: Option<map<string, Option<int>>>): map<string, Obj>
  {
    if m.None? then map[] else map k | k in m.value :: NumObj(m.value[k])
  }

  /** Visiting one more key of `m` keeps the order a partial listing. */
  lemma ListsPartSnoc(order: seq<(string, Obj)>, m: map<string, Obj>, k: string)
    requires ListsPart(order, m) && k in m && k !in KeysOf(order)
    ensures ListsPart(order + [(k, m[k])], m)
    ensures KeysOf(order + [(k, m[k])]) == KeysOf(order) + {k}
  {
    var o := order + [(k, m[k])];
    assert forall i :: 0 <= i < |order| ==> o[i] == order[i];
    assert o[|order|].0 == k;
    forall i, j | 0 <= i < j < |o|
      ensures o[i].0 != o[j].0
    {
      if j == |order| {
        assert order[i].0 in KeysOf(order);
      }
    }
  }

  /** Apply every entry of `m` to the span, in the map's iteration order
      (chosen here without constraint), stopping at the first exception. */
  method FillFrom(span: Span, m: map<string, Obj>) returns (err: Option<TagError>, ghost order: seq<(string, Obj)>)
    requires span.Valid() && span.entity != null
    modifies span, span.entity
    ensures span.Valid() && span.TagFrame()
    ensures (span.State(), err) == ApplyTags(old(span.State()), span.variant == SegmentSpan, order)
    ensures ListsPart(order, m) && (err.None? ==> Lists(order, m))
  {
    err, order := None, [];
    ghost var f0 := span.State();
    ghost var isSegment := span.variant == SegmentSpan;
    var keys := m.Keys;
    while keys != {} && err.None?
      invariant span.Valid() && span.TagFrame()
      invariant (span.State(), err) == ApplyTags(f0, isSegment, order)
      invariant ListsPart(order, m)
      invariant keys <= m.Keys && keys !! KeysOf(order)
      invariant err.None? ==> keys + KeysOf(order) == m.Keys
      decreases keys
    {
      var k :| k in keys;
      ApplyTagsSnoc(f0, isSegment, order, (k, m[k]));
      ListsPartSnoc(order, m, k);
      err := span.SetTag(k, m[k]);
      order := order + [(k, m[k])];
      keys := keys - {k};
    }
  }

  /** One more map's worth of tags, continuing the tags already applied;
      nothing happens once an earlier tag has thrown. An absent map is passed
      as the empty map, which visits nothing. */
  method FillMore(span: Span, m: map<string, Obj>, ghost f0: EntityFields, ghost done: seq<(string, Obj)>,
                  errIn: Option<TagError>)
    returns (err: Option<TagError>, ghost more: seq<(string, Obj)>)
    requires span.Valid() && span.entity != null
    requires (span.State(), errIn) == ApplyTags(f0, span.variant == SegmentSpan, done)
    modifies span, span.entity
    ensures span.Valid() && span.TagFrame()
    ensures (span.State(), err) == ApplyTags(f0, span.variant == SegmentSpan, done + more)
    ensures ListsPart(more, m) && (err.None? ==> Lists(more, m))
    ensures errIn.Some? ==> err == errIn
  {
    if errIn.Some? {
      err, more := errIn, [];
      assert done + more == done;
    } else {
      err, more := FillFrom(span, m);
      ApplyTagsAppend(f0, span.variant == SegmentSpan, done, more);
    }
  }

  class SpanBuilder {
    /** The tracer, as the source of active spans it is. */
    const source: ActiveSpanSource
    const recorder: Recorder
    const name: string
    var parentContext: Option<SpanContext>
    var ignoreActive: bool
    /** The tag maps; a value of `None` is a tag set to null. */
    var stringTags: Option<map<string, Option<string>>>
    var booleanTags: Option<map<string, bool>>
    var numberTags: Option<map<string, Option<int>>>

    ghost predicate Valid()
      reads this, source, source.localStack, source.recorder
    {
      recorder == source.recorder && source.Valid()
    }

    constructor (name: string, source: ActiveSpanSource, recorder: Recorder)
      ensures this.name == name && this.source == source && this.recorder == recorder
      ensures parentContext.None? && !ignoreActive
      ensures stringTags.None? && booleanTags.None? && numberTags.None?
    {
      this.name, this.source, this.recorder := name, source, recorder;
      parentContext, ignoreActive := None, false;
      stringTags, booleanTags, numberTags := None, None, None;
    }

    /** `asChildOf(SpanContext)`; `None` stands for a null context. */
    method AsChildOf(sc: Option<SpanContext>)
      modifies this
      ensures parentContext == sc && ignoreActive == old(ignoreActive)
      ensures stringTags == old(stringTags) && booleanTags == old(booleanTags) && numberTags == old(numberTags)
    {
      parentContext := sc;
    }

    /** `asChildOf(BaseSpan)`: the span's own context becomes the parent. */
    method AsChildOfSpan(span: Span)
      requires span.WellFormed()
      modifies this
      ensures parentContext == Some(span.ContextValue()) && ignoreActive == old(ignoreActive)
      ensures stringTags == old(stringTags) && booleanTags == old(booleanTags) && numberTags == old(numberTags)
    {
      parentContext := Some(span.ContextValue());
    }

    /** `addReference`: only "child_of" and "follows_from" set the parent. */
    method AddReference(kind: string, sc: Option<SpanContext>)
      modifies this
      ensures parentContext == (if kind == ChildOf || kind == FollowsFrom then sc else old(parentContext))
      ensures ignoreActive == old(ignoreActive)
      ensures stringTags == old(stringTags) && booleanTags == old(booleanTags) && numberTags == old(numberTags)
    {
      if kind == ChildOf || kind == FollowsFrom {
        parentContext := sc;
      }
    }

    method IgnoreActiveSpan()
      modifies this
      ensures ignoreActive && parentContext == old(parentContext)
      ensures stringTags == old(stringTags) && booleanTags == old(booleanTags) && numberTags == old(numberTags)
    {
      ignoreActive := true;
    }

    /** `withTag(String, String)`: the map is created on first use; `None`
        stands for a null value, which is stored as it is. */
    method WithStringTag(key: string, value: Option<string>)
      modifies this
      ensures stringTags == Some((if old(stringTags).Some? then old(stringTags).value else map[])[key := value])
      ensures parentContext == old(parentContext) && ignoreActive == old(ignoreActive)
      ensures booleanTags == old(booleanTags) && numberTags == old(numberTags)
    {
      if stringTags.None? {
        stringTags := Some(map[]);
      }
      stringTags := Some(stringTags.value[key := value]);
    }

    method WithBooleanTag(key: string, value: bool)
      modifies this
      ensures booleanTags == Some((if old(booleanTags).Some? then old(booleanTags).value else map[])[key := value])
      ensures parentContext == old(parentContext) && ignoreActive == old(ignoreActive)
      ensures stringTags == old(stringTags) && numberTags == old(numberTags)
    {
      if booleanTags.None? {
        booleanTags := Some(map[]);
      }
      booleanTags := Some(booleanTags.value[key := value]);
    }

    /** `withTag(String, Number)`; `None` stands for a null value. */
    method WithNumberTag(key: string, value: Option<int>)
      modifies this
      ensures numberTags == Some((if old(numberTags).Some? then old(numberTags).value else map[])[key := value])
      ensures parentContext == old(parentContext) && ignoreActive == old(ignoreActive)
      ensures stringTags == old(stringTags) && booleanTags == old(booleanTags)
    {
      if numberTags.None? {
        numberTags := Some(map[]);
      }
      numberTags := Some(numberTags.value[key := value]);
    }

    /** `withStartTimestamp`: the timestamp is ignored. */
    method WithStartTimestamp(timestamp: int) returns (b: SpanBuilder)
      ensures b == this
    {
      b := this;
    }

    /** A string tag, when string tags exist and hold the key with a
        non-null value (`Map.get` answers null for both). */
    function StringTag(key: string): Option<string>
      reads this
    {
      if stringTags.Some? && key in stringTags.value then stringTags.value[key] else None
    }

    /** `getServiceName`: the peer.service tag, else the span name. */
    function ServiceName(): string
      reads this
    {
      if StringTag(PeerService).Some? then StringTag(PeerService).value else name
    }

    /** `getMethod`: "GET" only when no string tag was given at all;
        otherwise the http.method tag, possibly absent. */
    function Method(): Option<string>
      reads this
    {
      if stringTags.None? then Some("GET") else StringTag(HttpMethod)
    }

    /** The request handed to the sampling strategy: service name, host
        (`getHost`), path (`getPath`), method and service type
        (`getServiceType`). */
    function Request(): SamplingRequest
      reads this
    {
      SamplingRequest(ServiceName(), StringTag(PeerHostname), StringTag(HttpUrl), Method(), StringTag(SpanKind))
    }

    /** The span.kind string tag says "server". */
    predicate IsServer()
      reads this
    {
      StringTag(SpanKind) == Some(SpanKindServer)
    }

    /** The decision `createXraySpan` acts on. */
    function Decision(d: Option<SampleDecision>): SampleDecision
      reads this
    {
      if NeedsSampling(d) then (if recorder.sampler(Request()) then Sampled else NotSampled) else d.value
    }

    /** The recorder calls that consult the sampling strategy, if any. */
    function SamplingCalls(d: Option<SampleDecision>): seq<RecorderCall>
      reads this
    {
      if NeedsSampling(d) then [ShouldTraceCall(Request())] else []
    }

    function SegmentPlanFor(c: XRaySpanContext): Plan
      reads this
    {
      if Decision(c.decision) == Sampled then SegmentPlan(c.traceId, c.id) else DummyPlan(c.traceId)
    }

    /** The context a new segment is begun from: the parent's, or a fresh root
        context when there is no parent. */
    function SegmentContext(parent: Option<SpanContext>, freshTraceId: TraceId): XRaySpanContext
      requires parent.None? || parent.value.XRay?
    {
      if parent.None? then NewRootContext(freshTraceId) else parent.value.ctx
    }

    /** `startManual`'s choice for a given parent. */
    function PlanFor(parent: Option<SpanContext>, freshTraceId: TraceId): Plan
      reads this
    {
      if parent.Some? && parent.value.Foreign? then NoopPlan
      else if parent.None? && !IsServer() then NoopPlan
      else if parent.Some? && parent.value.ctx.entity != null then SubsegmentPlan
      else SegmentPlanFor(SegmentContext(parent, freshTraceId))
    }

    /** The parent `startActive` starts from: the explicit parent, else the
        active span's context unless the active span is ignored. */
    function ActiveParent(t: ThreadId): Option<SpanContext>
      requires source.Valid()
      reads this, source, source.localStack, source.localStack.Stack(t), source.recorder
    {
      var active := source.ActiveOf(t);
      if parentContext.None? && !ignoreActive && active != null then
        assert active in source.localStack.Stack(t);
        Some(active.span.ContextValue())
      else parentContext
    }

    /** The tag maps as entity values, in `fillTags` order. */
    ghost predicate Covers(o: FillOrder, complete: bool)
      reads this
    {
      if complete then
        Lists(o.strs, StringObjs(stringTags)) && Lists(o.bools, BooleanObjs(booleanTags))
        && Lists(o.nums, NumberObjs(numberTags))
      else
        ListsPart(o.strs, StringObjs(stringTags)) && ListsPart(o.bools, BooleanObjs(booleanTags))
        && ListsPart(o.nums, NumberObjs(numberTags))
    }

    /** `fillTags`: string tags, then boolean tags, then number tags; an
        exception from a tagger ends the fill. */
    method FillTags(span: Span) returns (err: Option<TagError>, ghost order: FillOrder)
      requires span.Valid() && span.entity != null
      modifies span, span.entity
      ensures span.Valid() && span.TagFrame()
      ensures (span.State(), err) == ApplyTags(old(span.State()), span.variant == SegmentSpan, order.All())
      ensures Covers(order, err.None?)
    {
      ghost var f0 := span.State();
      ghost var strs, bools, nums;
      err, strs := FillMore(span, StringObjs(stringTags), f0, [], None);
      assert [] + strs == strs;
      err, bools := FillMore(span, BooleanObjs(booleanTags), f0, strs, err);
      err, nums := FillMore(span, NumberObjs(numberTags), f0, strs + bools, err);
      order := FillOrder(strs, bools, nums);
    }

    /** `createXraySpan`: settle the decision (asking the sampling strategy
        for null, REQUESTED or UNKNOWN), then begin a segment if it is SAMPLED
        and a dummy segment otherwise. */
    method CreateXraySpan(t: ThreadId, c: XRaySpanContext, freshId: string) returns (span: Span)
      requires Valid()
      modifies recorder
      ensures Valid()
      ensures var p := SegmentPlanFor(c);
        recorder.calls == old(recorder.calls) + SamplingCalls(c.decision)
          + [if p.SegmentPlan? then BeginSegmentCall(name, c.traceId, c.id) else BeginDummySegmentCall(c.traceId)]
      ensures fresh(span) && fresh(span.entity) && span.Valid() && span.variant == SegmentSpan
      ensures span.recorder == recorder && span.entity != null
      ensures span.State() == InitialFields(if SegmentPlanFor(c).SegmentPlan? then name else "")
      ensures span.entity.traceId == c.traceId && span.entity.sampled == SegmentPlanFor(c).SegmentPlan?
      ensures span.entity.parentId == (if SegmentPlanFor(c).SegmentPlan? then c.id else None)
      ensures recorder.Current(t) == span.entity && recorder.current - {t} == old(recorder.current) - {t}
      ensures !span.ended && span.spanContext.None?
    {
      var d := c.decision;
      if d.None? || d == Some(Requested) || d == Some(Unknown) {
        var sampled := recorder.ShouldTrace(Request());
        d := Some(if sampled then Sampled else NotSampled);
      }
      var segment: Entity;
      if d == Some(Sampled) {
        segment := recorder.BeginSegment(t, name, c.traceId, c.id, freshId);
      } else {
        segment := recorder.BeginDummySegment(t, c.traceId, freshId);
      }
      span := new Span.Of(recorder, segment);
    }

    /** The name a plan's entity starts with (a dummy segment has none). */
    function EntityName(p: Plan): string
    {
      if p.DummyPlan? then "" else name
    }

    /** The recorder calls a plan makes, sampling consultation included. */
    function PlanCalls(p: Plan, parent: Option<SpanContext>, freshTraceId: TraceId): seq<RecorderCall>
      requires parent.None? || parent.value.XRay?
      reads this
    {
      match p
      case NoopPlan => []
      case SubsegmentPlan => [BeginSubsegmentCall(name)]
      case SegmentPlan(traceId, parentId) =>
        SamplingCalls(SegmentContext(parent, freshTraceId).decision) + [BeginSegmentCall(name, traceId, parentId)]
      case DummyPlan(traceId) =>
        SamplingCalls(SegmentContext(parent, freshTraceId).decision) + [BeginDummySegmentCall(traceId)]
    }

    /** A begun entity after `fillTags`: either a span whose state is `start`
        with the tags applied in `order`, or the first tagger exception. */
    ghost predicate Tagged(r: Outcome<Span>, start: EntityFields, isSegment: bool, order: FillOrder)
      reads this, if r.Started? then {r.value} else {}
      reads if r.Started? && r.value.entity != null then {r.value.entity} else {}
    {
      && (r.Started? ==>
            r.value.entity != null && (r.value.State(), None) == ApplyTags(start, isSegment, order.All())
            && Covers(order, true))
      && (r.Failed? && r.error.TagFailed? ==>
            ApplyTags(start, isSegment, order.All()).1 == Some(r.error.error) && Covers(order, false))
    }

    /** `fillTags` on a new span, as an outcome. */
    method Fill(span: Span) returns (r: Outcome<Span>, ghost order: FillOrder)
      requires span.Valid() && span.entity != null
      modifies span, span.entity
      ensures span.Valid() && (r.Started? ==> r.value == span) && (r.Failed? ==> r.error.TagFailed?)
      ensures Tagged(r, old(span.State()), span.variant == SegmentSpan, order)
      ensures span.TagFrame()
    {
      var err;
      err, order := FillTags(span);
      if err.Some? {
        r := Failed(TagFailed(err.value));
      } else {
        r := Started(span);
      }
    }

    /** The subsegment branch of `startManualXray`: begin a subsegment under
        the thread's current entity, which must exist. */
    method StartSubsegment(t: ThreadId, freshId: string) returns (r: Outcome<Span>, ghost order: FillOrder)
      requires Valid()
      modifies recorder
      ensures Valid()
      ensures recorder.calls == old(recorder.calls) + [BeginSubsegmentCall(name)]
      ensures r == Failed(ContextMissing) <==> old(recorder.Current(t)) == null
      ensures r.Started? ==>
        && fresh(r.value) && r.value.Valid() && r.value.recorder == recorder
        && r.value.variant == SubsegmentSpan && r.value.entity != null && fresh(r.value.entity)
        && r.value.entity.parent == old(recorder.Current(t)) && recorder.Current(t) == r.value.entity
      ensures Tagged(r, InitialFields(name), false, order)
      ensures recorder.current - {t} == old(recorder.current) - {t}
      ensures r.Failed? && r.error.TagFailed? ==> recorder.Current(t) != null && fresh(recorder.Current(t))
      ensures r.Started? ==> !r.value.ended && r.value.spanContext.None?
    {
      var e := recorder.BeginSubsegment(t, name, freshId);
      if e == null {
        return Failed(ContextMissing), FillOrder([], [], []);
      }
      var span := new Span.Of(recorder, e);
      r, order := Fill(span);
    }

    /** The segment branch of `startManualXray`: `createXraySpan`, then the
        tags. */
    method StartSegment(t: ThreadId, c: XRaySpanContext, freshId: string) returns (r: Outcome<Span>, ghost order: FillOrder)
      requires Valid()
      modifies recorder
      ensures Valid()
      ensures var p := SegmentPlanFor(c);
        recorder.calls == old(recorder.calls) + SamplingCalls(c.decision)
          + [if p.SegmentPlan? then BeginSegmentCall(name, c.traceId, c.id) else BeginDummySegmentCall(c.traceId)]
      ensures r.Started? || r.error.TagFailed?
      ensures r.Started? ==>
        && fresh(r.value) && r.value.Valid() && r.value.recorder == recorder
        && r.value.variant == SegmentSpan && r.value.entity != null && fresh(r.value.entity)
        && r.value.entity.traceId == c.traceId && r.value.entity.sampled == SegmentPlanFor(c).SegmentPlan?
        && (SegmentPlanFor(c).SegmentPlan? ==> r.value.entity.parentId == c.id)
        && recorder.Current(t) == r.value.entity
      ensures Tagged(r, InitialFields(EntityName(SegmentPlanFor(c))), true, order)
      ensures recorder.current - {t} == old(recorder.current) - {t}
      ensures r.Failed? && r.error.TagFailed? ==> recorder.Current(t) != null && fresh(recorder.Current(t))
      ensures r.Started? ==> !r.value.ended && r.value.spanContext.None?
    {
      var span := CreateXraySpan(t, c, freshId);
      r, order := Fill(span);
    }

    /** `startManualXray`, for a parent that is absent or an X-Ray context. */
    method StartManualXray(t: ThreadId, parent: Option<SpanContext>, freshTraceId: TraceId, freshId: string)
      returns (r: Outcome<Span>, ghost order: FillOrder)
      requires Valid() && (parent.None? || parent.value.XRay?)
      modifies recorder
      ensures Valid()
      ensures var p := PlanFor(parent, freshTraceId);
        && recorder.calls == old(recorder.calls) + PlanCalls(p, parent, freshTraceId)
        && (p == NoopPlan ==> r.Started? && r.value.variant == NoopSpan && recorder.current == old(recorder.current))
        && (r == Failed(ContextMissing) <==> p == SubsegmentPlan && old(recorder.Current(t)) == null)
        && (r.Started? && p != NoopPlan ==>
              && r.value.entity != null
              && r.value.variant == (if p == SubsegmentPlan then SubsegmentSpan else SegmentSpan)
              && (p == SubsegmentPlan ==> r.value.entity.parent == old(recorder.Current(t)))
              && (p.SegmentPlan? ==> r.value.entity.sampled && r.value.entity.parentId == p.parentId)
              && (p.SegmentPlan? || p.DummyPlan? ==> r.value.entity.traceId == p.traceId)
              && (p.DummyPlan? ==> !r.value.entity.sampled))
        && (p != NoopPlan ==> Tagged(r, InitialFields(EntityName(p)), p != SubsegmentPlan, order))
      ensures r.Started? ==> fresh(r.value) && r.value.Valid() && r.value.recorder == (if r.value.variant == NoopSpan then null else recorder)
      ensures r.Started? && r.value.variant != NoopSpan ==> fresh(r.value.entity) && recorder.Current(t) == r.value.entity
      ensures recorder.current - {t} == old(recorder.current) - {t}
      ensures r.Failed? && r.error.TagFailed? ==> recorder.Current(t) != null && fresh(recorder.Current(t))
      ensures r.Started? ==> !r.value.ended && r.value.spanContext.None?
    {
      if parent.None? && !IsServer() {
        var span := new Span.Noop();
        return Started(span), FillOrder([], [], []);
      }
      if parent.Some? && parent.value.ctx.entity != null {
        r, order := StartSubsegment(t, freshId);
      } else {
        r, order := StartSegment(t, SegmentContext(parent, freshTraceId), freshId);
      }
    }

    /** `startManual`: the no-op span for a parent that is not an X-Ray
        context; otherwise `startManualXray`. */
    method StartManual(t: ThreadId, freshTraceId: TraceId, freshId: string)
      returns (r: Outcome<Span>, ghost order: FillOrder)
      requires Valid()
      modifies recorder
      ensures Valid()
      ensures var p := PlanFor(parentContext, freshTraceId);
        && (p == NoopPlan ==> r.Started? && r.value.variant == NoopSpan)
        && (p == NoopPlan ==> recorder.calls == old(recorder.calls) && recorder.current == old(recorder.current))
        && (p != NoopPlan ==> recorder.calls == old(recorder.calls) + PlanCalls(p, parentContext, freshTraceId))
        && (r == Failed(ContextMissing) <==> p == SubsegmentPlan && old(recorder.Current(t)) == null)
        && (r.Started? && p != NoopPlan ==>
              && r.value.entity != null
              && r.value.variant == (if p == SubsegmentPlan then SubsegmentSpan else SegmentSpan)
              && (p == SubsegmentPlan ==> r.value.entity.parent == old(recorder.Current(t)))
              && (p.SegmentPlan? ==> r.value.entity.sampled && r.value.entity.parentId == p.parentId)
              && (p.SegmentPlan? || p.DummyPlan? ==> r.value.entity.traceId == p.traceId)
              && (p.DummyPlan? ==> !r.value.entity.sampled))
        && (p != NoopPlan ==> Tagged(r, InitialFields(EntityName(p)), p != SubsegmentPlan, order))
      ensures r.Started? ==> fresh(r.value) && r.value.Valid() && r.value.recorder == (if r.value.variant == NoopSpan then null else recorder)
      ensures r.Started? && r.value.variant != NoopSpan ==> fresh(r.value.entity) && recorder.Current(t) == r.value.entity
      ensures recorder.current - {t} == old(recorder.current) - {t}
      ensures r.Failed? && r.error.TagFailed? ==> recorder.Current(t) != null && fresh(recorder.Current(t))
      ensures r.Started? ==> !r.value.ended && r.value.spanContext.None?
    {
      if parentContext.None? || parentContext.value.XRay? {
        r, order := StartManualXray(t, parentContext, freshTraceId, freshId);
      } else {
        var span := new Span.Noop();
        r, order := Started(span), FillOrder([], [], []);
      }
    }

    /** The first step of `startActive`: with no explicit parent and active
        spans not ignored, the active span (if any) becomes the parent. */
    method AdoptActiveParent(t: ThreadId)
      requires Valid()
      modifies this
      ensures Valid()
      ensures parentContext == old(ActiveParent(t))
      ensures ignoreActive == old(ignoreActive) && stringTags == old(stringTags)
      ensures booleanTags == old(booleanTags) && numberTags == old(numberTags)
    {
      if parentContext.None? && !ignoreActive {
        var parent := source.Active(t);
        if parent != null {
          assert parent in source.localStack.Stack(t);
          AsChildOfSpan(parent.span);
        }
      }
    }

    /** `startActive`: adopt the active span as parent when there is no
        explicit parent and active spans are not ignored, start the span as
        `startManual` does, and make it active on the calling thread. */
    method StartActive(t: ThreadId, freshTraceId: TraceId, freshId: string)
      returns (r: Outcome<ActiveSpan>, ghost order: FillOrder)
      requires Valid()
      modifies this, recorder, source.localStack
      ensures Valid()
      ensures parentContext == old(ActiveParent(t))
      ensures ignoreActive == old(ignoreActive) && stringTags == old(stringTags)
      ensures booleanTags == old(booleanTags) && numberTags == old(numberTags)
      ensures var p := PlanFor(parentContext, freshTraceId);
        && (p == NoopPlan ==> r.Started? && r.value.span.variant == NoopSpan)
        && (p == NoopPlan ==> recorder.calls == old(recorder.calls) && recorder.current == old(recorder.current))
        && (p != NoopPlan ==> recorder.calls == old(recorder.calls) + PlanCalls(p, parentContext, freshTraceId))
        && (r == Failed(ContextMissing) <==> p == SubsegmentPlan && old(recorder.Current(t)) == null)
        && (r.Started? && p != NoopPlan ==>
              && r.value.span.entity != null
              && r.value.span.variant == (if p == SubsegmentPlan then SubsegmentSpan else SegmentSpan)
              && (p == SubsegmentPlan ==> r.value.span.entity.parent == old(recorder.Current(t)))
              && (p.SegmentPlan? ==> r.value.span.entity.sampled && r.value.span.entity.parentId == p.parentId)
              && (p.SegmentPlan? || p.DummyPlan? ==> r.value.span.entity.traceId == p.traceId)
              && (p.DummyPlan? ==> !r.value.span.entity.sampled))
        && (p != NoopPlan ==> Tagged(SpanOutcome(r), InitialFields(EntityName(p)), p != SubsegmentPlan, order))
      ensures r.Started? ==>
        && fresh(r.value) && fresh(r.value.span) && r.value.count == 1 && r.value.source == source
        && source.localStack.Stack(t) == old(source.localStack.Stack(t)) + [r.value]
      ensures r.Started? && r.value.span.variant != NoopSpan ==>
        fresh(r.value.span.entity) && recorder.Current(t) == r.value.span.entity
      ensures r.Failed? ==> source.localStack.Stack(t) == old(source.localStack.Stack(t))
      ensures recorder.current - {t} == old(recorder.current) - {t}
      ensures r.Failed? && r.error.TagFailed? ==> recorder.Current(t) != null && fresh(recorder.Current(t))
      ensures source.localStack.stacks - {t} == old(source.localStack.stacks) - {t}
      ensures r.Started? ==> !r.value.span.ended && r.value.span.spanContext.None?
    {
      AdoptActiveParent(t);
      var started;
      started, order := StartManual(t, freshTraceId, freshId);
      if started.Started? {
        var h := source.MakeActive(t, started.value);
        r := Started(h);
      } else {
        r := Failed(started.error);
      }
    }

    /** `start()` is `startManual()`. */
    method Start(t: ThreadId, freshTraceId: TraceId, freshId: string)
      returns (r: Outcome<Span>, ghost order: FillOrder)
      requires Valid()
      modifies recorder
      ensures Valid()
      ensures var p := PlanFor(parentContext, freshTraceId);
        && (p == NoopPlan ==> r.Started? && r.value.variant == NoopSpan)
        && (p == NoopPlan ==> recorder.calls == old(recorder.calls) && recorder.current == old(recorder.current))
        && (p != NoopPlan ==> recorder.calls == old(recorder.calls) + PlanCalls(p, parentContext, freshTraceId))
        && (r == Failed(ContextMissing) <==> p == SubsegmentPlan && old(recorder.Current(t)) == null)
        && (r.Started? && p != NoopPlan ==>
              && r.value.entity != null
              && r.value.variant == (if p == SubsegmentPlan then SubsegmentSpan else SegmentSpan)
              && (p == SubsegmentPlan ==> r.value.entity.parent == old(recorder.Current(t)))
              && (p.SegmentPlan? ==> r.value.entity.sampled && r.value.entity.parentId == p.parentId)
              && (p.SegmentPlan? || p.DummyPlan? ==> r.value.entity.traceId == p.traceId)
              && (p.DummyPlan? ==> !r.value.entity.sampled))
        && (p != NoopPlan ==> Tagged(r, InitialFields(EntityName(p)), p != SubsegmentPlan, order))
      ensures r.Started? ==> fresh(r.value) && r.value.Valid() && r.value.recorder == (if r.value.variant == NoopSpan then null else recorder)
      ensures r.Started? && r.value.variant != NoopSpan ==> fresh(r.value.entity) && recorder.Current(t) == r.value.entity
      ensures recorder.current - {t} == old(recorder.current) - {t}
      ensures r.Failed? && r.error.TagFailed? ==> recorder.Current(t) != null && fresh(recorder.Current(t))
      ensures r.Started? ==> !r.value.ended && r.value.spanContext.None?
    {
      r, order := StartManual(t, freshTraceId, freshId);
    }
  }

  /** The span an active-span outcome wraps. */
  function SpanOutcome(r: Outcome<ActiveSpan>): Outcome<Span>
  {
    if r.Started? then Started(r.value.span) else Failed(r.error)
  }

  /** Building, starting and finishing a span: a started X-Ray span makes
      its plan's recorder calls and then ends its own entity, once. */
  method StartThenFinish(b: SpanBuilder, t: ThreadId, freshTraceId: TraceId, freshId: string)
    returns (r: Outcome<Span>)
    requires b.Valid()
    modifies b.recorder
    ensures var p := b.PlanFor(b.parentContext, freshTraceId);
      r.Started? && p != NoopPlan ==>
        && r.value.ended
        && b.recorder.calls == old(b.recorder.calls) + b.PlanCalls(p, b.parentContext, freshTraceId) + [r.value.EndCall()]
        && (r.value.variant == SegmentSpan ==> b.recorder.Current(t) == null)
        && (r.value.variant == SubsegmentSpan && r.value.entity != null ==> b.recorder.Current(t) == r.value.entity.parent)
  {
    ghost var order;
    r, order := b.Start(t, freshTraceId, freshId);
    if r.Started? {
      r.value.Finish(t);
    }
  }

  /** A parent context of another tracer gives the no-op span. */
  lemma ForeignParentIsNoop(b: SpanBuilder, freshTraceId: TraceId)
    ensures b.PlanFor(Some(Foreign), freshTraceId) == NoopPlan
  {
  }

  /** Without a parent a segment is begun only for a span.kind "server" tag;
      with no string tags at all the span is the no-op span. */
  lemma NoParentNeedsServerKind(b: SpanBuilder, freshTraceId: TraceId)
    ensures b.PlanFor(None, freshTraceId) == NoopPlan <==> !b.IsServer()
    ensures b.stringTags.None? ==> b.PlanFor(None, freshTraceId) == NoopPlan
    ensures b.IsServer() ==>
      (b.PlanFor(None, freshTraceId) ==
         if b.recorder.sampler(b.Request()) then SegmentPlan(Some(freshTraceId), None) else DummyPlan(Some(freshTraceId)))
  {
  }

  /** A parent with a live entity gives a subsegment whatever its decision. */
  lemma LiveParentGivesSubsegment(b: SpanBuilder, c: XRaySpanContext, freshTraceId: TraceId)
    requires c.entity != null
    ensures b.PlanFor(Some(XRay(c)), freshTraceId) == SubsegmentPlan
    ensures b.PlanCalls(SubsegmentPlan, Some(XRay(c)), freshTraceId) == [BeginSubsegmentCall(b.name)]
  {
  }

  /** SAMPLED and NOT_SAMPLED decisions are kept and the strategy is not
      asked; any other decision is settled by the strategy. */
  lemma DecisionKeptOrAsked(b: SpanBuilder, d: Option<SampleDecision>)
    ensures d == Some(Sampled) || d == Some(NotSampled) ==> b.Decision(d) == d.value && b.SamplingCalls(d) == []
    ensures NeedsSampling(d) <==> !(d == Some(Sampled) || d == Some(NotSampled))
    ensures NeedsSampling(d) ==>
      b.Decision(d) == (if b.recorder.sampler(b.Request()) then Sampled else NotSampled)
      && b.SamplingCalls(d) == [ShouldTraceCall(b.Request())]
  {
    match d
    case None =>
    case Some(v) =>
      match v
      case Sampled =>
      case NotSampled =>
      case Requested =>
      case Unknown =>
  }

  /** A detached X-Ray parent gives a segment continuing its trace under its
      id exactly when the settled decision is SAMPLED, and a dummy segment in
      its trace otherwise. */
  lemma DetachedParentGivesSegment(b: SpanBuilder, c: XRaySpanContext, freshTraceId: TraceId)
    requires c.entity == null
    ensures b.Decision(c.decision) == Sampled ==> b.PlanFor(Some(XRay(c)), freshTraceId) == SegmentPlan(c.traceId, c.id)
    ensures b.Decision(c.decision) != Sampled ==> b.PlanFor(Some(XRay(c)), freshTraceId) == DummyPlan(c.traceId)
  {
  }

  /** The sampling request: the service is the peer.service tag or else the
      span name; the method is "GET" only when no string tag exists, and
      otherwise the http.method tag, which may be absent. */
  lemma SamplingRequestFields(b: SpanBuilder)
    ensures b.Request().service == (if b.StringTag(PeerService).Some? then b.StringTag(PeerService).value else b.name)
    ensures b.stringTags.None? ==> b.Request().httpMethod == Some("GET")
    ensures b.stringTags.Some? ==> b.Request().httpMethod == b.StringTag(HttpMethod)
    ensures b.stringTags.Some? && HttpMethod !in b.stringTags.value ==> b.Request().httpMethod.None?
    ensures b.Request().path == b.StringTag(HttpUrl) && b.Request().host == b.StringTag(PeerHostname)
    ensures b.Request().serviceType == b.StringTag(SpanKind)
  {
  }
}

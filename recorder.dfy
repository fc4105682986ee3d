/** The X-Ray recorder and its trace entities, as far as the bridge sees them.
    The recorder's storage and emission of entities are not part of this
    model: it keeps one "current trace entity" per thread and a ghost log of
    the begin/end calls and sampling consultations the bridge makes. */
module Recorders {
  import opened Values
  import opened TraceHeaders

  datatype EntityKind = SegmentEntity | SubsegmentEntity

  /** The request descriptor handed to the sampling strategy. */
  datatype SamplingRequest = SamplingRequest(
    service: string,
    host: Option<string>,
    path: Option<string>,
    httpMethod: Option<string>,
    serviceType: Option<string>)

  /** A trace entity: a segment (trace root) or a subsegment (child). Identity
      fields are fixed at creation; the fields the bridge's taggers update are
      mutable. */
  class Entity {
    const kind: EntityKind
    const traceId: Option<TraceId>
    const id: string
    const parentId: Option<string>
    const sampled: bool
    /** For a subsegment: the entity that was current when it began. */
    const parent: Entity?
    /** For a subsegment: the segment it belongs to. */
    const parentSegment: Entity?
    /** Nesting depth: 0 for a segment, one more than its parent for a subsegment. */
    ghost const depth: nat

    var name: string
    var namespace: Option<string>
    var error: bool
    var throttle: bool
    var fault: bool
    var user: Option<string>
    var metadata: map<string, Obj>
    var http: map<string, map<string, Obj>>
    var exceptions: seq<Throwable>
    /** The keys passed to `putHttp`, in call order. */
    ghost var httpPuts: seq<string>

    /** A subsegment always hangs under a segment and shares its trace. */
    ghost predicate Shaped()
      decreases depth
    {
      kind == SubsegmentEntity ==>
        && parent != null && parent.depth < depth && parent.Shaped()
        && parentSegment != null
        && parentSegment.kind == SegmentEntity
        && traceId == parentSegment.traceId
        && sampled == parentSegment.sampled
    }

    ghost predicate Pristine()
      reads this
    {
      && namespace == None && !error && !throttle && !fault && user == None
      && metadata == map[] && http == map[] && exceptions == [] && httpPuts == []
    }

    /** Every updatable field other than those `addException` writes (the
        recorded exceptions and the fault flag) is as before. */
    twostate predicate KeepsAllButExceptionsAndFault()
      reads this
    {
      && name == old(name) && namespace == old(namespace) && user == old(user)
      && error == old(error) && throttle == old(throttle)
      && metadata == old(metadata) && http == old(http) && httpPuts == old(httpPuts)
    }

    constructor Segment(name: string, traceId: Option<TraceId>, parentId: Option<string>, id: string, sampled: bool)
      ensures kind == SegmentEntity && Shaped() && Pristine()
      ensures this.name == name && this.traceId == traceId && this.parentId == parentId
      ensures this.id == id && this.sampled == sampled
    {
      kind, this.traceId, this.id, this.parentId, this.sampled := SegmentEntity, traceId, id, parentId, sampled;
      parent, parentSegment, depth := null, null, 0;
      this.name, namespace, error, throttle, fault, user := name, None, false, false, false, None;
      metadata, http, exceptions, httpPuts := map[], map[], [], [];
    }

    constructor Subsegment(name: string, id: string, under: Entity)
      requires under.Shaped()
      ensures kind == SubsegmentEntity && Shaped() && Pristine()
      ensures this.name == name && this.id == id && parentId == None && parent == under
      ensures parentSegment == (if under.kind == SegmentEntity then under else under.parentSegment)
    {
      var seg := if under.kind == SegmentEntity then under else under.parentSegment;
      kind, traceId, this.id, parentId, sampled := SubsegmentEntity, seg.traceId, id, None, seg.sampled;
      parent, parentSegment, depth := under, seg, under.depth + 1;
      this.name, namespace, error, throttle, fault, user := name, None, false, false, false, None;
      metadata, http, exceptions, httpPuts := map[], map[], [], [];
    }

    method PutHttp(key: string, value: map<string, Obj>)
      modifies this
      ensures http == old(http)[key := value] && httpPuts == old(httpPuts) + [key]
      ensures name == old(name) && namespace == old(namespace) && user == old(user)
      ensures error == old(error) && throttle == old(throttle) && fault == old(fault)
      ensures metadata == old(metadata) && exceptions == old(exceptions)
    {
      http := http[key := value];
      httpPuts := httpPuts + [key];
    }
  }

  datatype RecorderCall =
    | BeginSegmentCall(name: string, traceId: Option<TraceId>, parentId: Option<string>)
    | BeginDummySegmentCall(traceId: Option<TraceId>)
    | BeginSubsegmentCall(name: string)
    | EndSegmentCall(ended: Entity?)
    | EndSubsegmentCall(ended: Entity?)
    | ShouldTraceCall(request: SamplingRequest)

  class Recorder {
    /** The sampling strategy's verdict, `shouldTrace(request).isSampled()`. */
    const sampler: SamplingRequest -> bool
    var current: map<ThreadId, Entity>
    ghost var calls: seq<RecorderCall>

    /** The thread's current trace entity (`getTraceEntity`), null if none. */
    function Current(t: ThreadId): Entity?
      reads this
    {
      if t in current then current[t] else null
    }

    /** Every current entity is a well-shaped segment or subsegment. */
    ghost predicate Valid()
      reads this
    {
      forall t :: t in current ==> current[t].Shaped()
    }

    constructor (sampler: SamplingRequest -> bool)
      ensures Valid() && this.sampler == sampler && current == map[] && calls == []
    {
      this.sampler := sampler;
      current, calls := map[], [];
    }

    method SetTraceEntity(t: ThreadId, e: Entity?)
      requires Valid() && (e != null ==> e.Shaped())
      modifies this
      ensures Valid()
      ensures Current(t) == e && current - {t} == old(current) - {t} && calls == old(calls)
    {
      if e == null {
        current := current - {t};
      } else {
        current := current[t := e];
      }
    }

    method ShouldTrace(request: SamplingRequest) returns (sampled: bool)
      requires Valid()
      modifies this
      ensures Valid()
      ensures sampled == sampler(request)
      ensures calls == old(calls) + [ShouldTraceCall(request)] && current == old(current)
    {
      sampled := sampler(request);
      calls := calls + [ShouldTraceCall(request)];
    }

    /** Begins a sampled segment and makes it the thread's current entity. */
    method BeginSegment(t: ThreadId, name: string, traceId: Option<TraceId>, parentId: Option<string>, id: string)
      returns (s: Entity)
      requires Valid()
      modifies this
      ensures Valid()
      ensures fresh(s) && s.kind == SegmentEntity && s.Shaped() && s.Pristine()
      ensures s.name == name && s.traceId == traceId && s.parentId == parentId && s.id == id && s.sampled
      ensures Current(t) == s && current - {t} == old(current) - {t}
      ensures calls == old(calls) + [BeginSegmentCall(name, traceId, parentId)]
    {
      s := new Entity.Segment(name, traceId, parentId, id, true);
      current := current[t := s];
      calls := calls + [BeginSegmentCall(name, traceId, parentId)];
    }

    /** Begins an unsampled placeholder segment that only carries the trace id. */
    method BeginDummySegment(t: ThreadId, traceId: Option<TraceId>, id: string) returns (s: Entity)
      requires Valid()
      modifies this
      ensures Valid()
      ensures fresh(s) && s.kind == SegmentEntity && s.Shaped() && s.Pristine()
      ensures s.name == "" && s.traceId == traceId && s.parentId == None && !s.sampled
      ensures Current(t) == s && current - {t} == old(current) - {t}
      ensures calls == old(calls) + [BeginDummySegmentCall(traceId)]
    {
      s := new Entity.Segment("", traceId, None, id, false);
      current := current[t := s];
      calls := calls + [BeginDummySegmentCall(traceId)];
    }

    /** Begins a subsegment under the thread's current entity; with no current
        entity there is nothing to begin under and the result is null. */
    method BeginSubsegment(t: ThreadId, name: string, id: string) returns (s: Entity?)
      requires Valid()
      modifies this
      ensures Valid()
      ensures old(Current(t)) == null ==> s == null && current == old(current)
      ensures old(Current(t)) != null ==>
        && s != null && fresh(s) && s.kind == SubsegmentEntity && s.Shaped() && s.Pristine()
        && s.name == name && s.parent == old(Current(t))
        && Current(t) == s
      ensures current - {t} == old(current) - {t}
      ensures calls == old(calls) + [BeginSubsegmentCall(name)]
    {
      var under := Current(t);
      if under == null {
        s := null;
      } else {
        s := new Entity.Subsegment(name, id, under);
        current := current[t := s];
      }
      calls := calls + [BeginSubsegmentCall(name)];
    }

    /** Ends the thread's current segment; the thread has no current entity after. */
    method EndSegment(t: ThreadId)
      requires Valid()
      modifies this
      ensures Valid()
      ensures calls == old(calls) + [EndSegmentCall(old(Current(t)))]
      ensures Current(t) == null && current - {t} == old(current) - {t}
    {
      calls := calls + [EndSegmentCall(Current(t))];
      current := current - {t};
    }

    /** Ends the thread's current subsegment; its parent becomes current. */
    method EndSubsegment(t: ThreadId)
      requires Valid()
      modifies this
      ensures Valid()
      ensures calls == old(calls) + [EndSubsegmentCall(old(Current(t)))]
      ensures old(Current(t)) != null && old(Current(t)).kind == SubsegmentEntity ==>
        Current(t) == old(Current(t)).parent
      ensures current - {t} == old(current) - {t}
    {
      var e := Current(t);
      calls := calls + [EndSubsegmentCall(e)];
      if e != null && e.kind == SubsegmentEntity && e.parent != null {
        current := current[t := e.parent];
      } else {
        current := current - {t};
      }
    }
  }
}

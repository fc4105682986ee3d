/** `XRaySpan` and `XRayBaseSpan`: a span over one X-Ray entity, plus the
    OpenTracing no-op span the builder hands out when nothing is traced. The
    three Java classes become one class whose `variant` says which of them an
    object is; a no-op span has neither recorder nor entity. */
module Spans {
  import opened Values
  import opened TraceHeaders
  import opened Recorders
  import opened SpanContexts
  import opened Taggers

  datatype SpanVariant = NoopSpan | SegmentSpan | SubsegmentSpan

  /** The throwables among logged fields, in field order (`log(Map)` keeps
      only values that are `Throwable`). */
  function Throwables(fields: seq<(string, Obj)>): seq<Throwable>
  {
    if fields == [] then []
    else
      var last := fields[|fields| - 1];
      Throwables(fields[..|fields| - 1]) + (if last.1.Thrown? then [last.1.t] else [])
  }

  /** `t` is recorded exactly when some field carries it. */
  lemma {:induction false} ThrowablesAreThrownFields(fields: seq<(string, Obj)>, t: Throwable)
    ensures t in Throwables(fields) <==> exists i :: 0 <= i < |fields| && fields[i].1 == Thrown(t)
  {
    if fields != [] {
      var init := fields[..|fields| - 1];
      ThrowablesAreThrownFields(init, t);
      if t in Throwables(init) {
        var i :| 0 <= i < |init| && init[i].1 == Thrown(t);
        assert fields[i] == init[i];
      }
      if exists i :: 0 <= i < |fields| && fields[i].1 == Thrown(t) {
        var i :| 0 <= i < |fields| && fields[i].1 == Thrown(t);
        if i < |init| {
          assert init[i] == fields[i];
        }
      }
    }
  }

  /** One exception per throwable field: fields of other types add nothing. */
  lemma {:induction false} ThrowablesCount(fields: seq<(string, Obj)>)
    ensures |Throwables(fields)| == |set i | 0 <= i < |fields| && fields[i].1.Thrown?|
  {
    if fields != [] {
      var n := |fields| - 1;
      var init := fields[..n];
      ThrowablesCount(init);
      var before := set i | 0 <= i < |init| && init[i].1.Thrown?;
      var after := set i | 0 <= i < |fields| && fields[i].1.Thrown?;
      assert before == set i | 0 <= i < n && fields[i].1.Thrown?;
      if fields[n].1.Thrown? {
        assert after == before + {n};
      } else {
        assert after == before;
      }
    }
  }

  class Span {
    const variant: SpanVariant
    const recorder: Recorder?
    const entity: Entity?
    /** The `finish` latch. */
    var ended: bool
    /** The lazily created HTTP maps; once created, the entity holds the same
        map under "request" / "response". */
    var httpRequest: Option<map<string, Obj>>
    var httpResponse: Option<map<string, Obj>>
    /** The cached context. */
    var spanContext: Option<XRaySpanContext>

    /** The span's variant matches its entity, which is well shaped. */
    ghost predicate WellFormed()
    {
      && (variant == NoopSpan <==> entity == null)
      && (variant == NoopSpan <==> recorder == null)
      && (entity != null ==>
            entity.Shaped() && (variant == SegmentSpan <==> entity.kind == SegmentEntity))
    }

    /** The HTTP maps are shared with the entity and the cache holds the
        context of the span's own entity. */
    ghost predicate Valid()
      reads this, entity
    {
      && WellFormed()
      && (entity == null ==> httpRequest.None? && httpResponse.None? && spanContext.None?)
      && (entity != null ==>
            && (httpRequest.Some? ==> "request" in entity.http && entity.http["request"] == httpRequest.value)
            && (httpResponse.Some? ==> "response" in entity.http && entity.http["response"] == httpResponse.value)
            && (spanContext.Some? ==> spanContext.value == FromEntity(entity)))
    }

    /** The part of the span and its entity that tags change. */
    function State(): EntityFields
      requires entity != null
      reads this, entity
    {
      EntityFields(entity.name, entity.namespace, entity.error, entity.throttle, entity.fault,
                   entity.user, entity.metadata, httpRequest, httpResponse)
    }

    /** `NoopSpan`: no recorder, no entity. */
    constructor Noop()
      ensures variant == NoopSpan && recorder == null && entity == null && Valid()
      ensures !ended && httpRequest.None? && httpResponse.None? && spanContext.None?
    {
      variant, recorder, entity := NoopSpan, null, null;
      ended, httpRequest, httpResponse, spanContext := false, None, None, None;
    }

    /** `XRaySegmentSpan` / `XRaySubsegmentSpan`, chosen by the entity's kind. */
    constructor Of(recorder: Recorder, entity: Entity)
      requires entity.Shaped()
      ensures variant == (if entity.kind == SegmentEntity then SegmentSpan else SubsegmentSpan)
      ensures this.recorder == recorder && this.entity == entity && Valid()
      ensures !ended && httpRequest.None? && httpResponse.None? && spanContext.None?
    {
      variant := if entity.kind == SegmentEntity then SegmentSpan else SubsegmentSpan;
      this.recorder, this.entity := recorder, entity;
      ended, httpRequest, httpResponse, spanContext := false, None, None, None;
    }

    /** The recorder call that ends this span's entity. */
    function EndCall(): RecorderCall
    {
      if variant == SegmentSpan then EndSegmentCall(entity) else EndSubsegmentCall(entity)
    }

    /** What `finish` does: the first call makes the entity current on the
        calling thread and ends it by its kind; later calls, and any call on a
        no-op span, change nothing. */
    twostate predicate FinishEffect(t: ThreadId)
      requires WellFormed()
      reads this, recorder
    {
      if variant == NoopSpan then ended == old(ended)
      else
        && ended
        && (old(ended) ==> recorder.calls == old(recorder.calls) && recorder.current == old(recorder.current))
        && (!old(ended) ==>
              && recorder.calls == old(recorder.calls) + [EndCall()]
              && (variant == SegmentSpan ==> recorder.Current(t) == null)
              && (variant == SubsegmentSpan ==> recorder.Current(t) == entity.parent)
              && recorder.current - {t} == old(recorder.current) - {t})
    }

    method Finish(t: ThreadId)
      requires Valid() && (recorder != null ==> recorder.Valid())
      modifies this, recorder
      ensures Valid() && (recorder != null ==> recorder.Valid())
      ensures FinishEffect(t)
      ensures httpRequest == old(httpRequest) && httpResponse == old(httpResponse)
      ensures spanContext == old(spanContext)
    {
      if variant != NoopSpan && !ended {
        recorder.SetTraceEntity(t, entity);
        if variant == SegmentSpan {
          recorder.EndSegment(t);
        } else {
          recorder.EndSubsegment(t);
        }
        ended := true;
      }
    }

    /** `finish(long)`: the timestamp is ignored. */
    method FinishAt(t: ThreadId, timestamp: int)
      requires Valid() && (recorder != null ==> recorder.Valid())
      modifies this, recorder
      ensures Valid() && (recorder != null ==> recorder.Valid())
      ensures FinishEffect(t)
      ensures httpRequest == old(httpRequest) && httpResponse == old(httpResponse)
      ensures spanContext == old(spanContext)
    {
      Finish(t);
    }

    /** `putHttpRequest`: the first call creates the map and attaches it to
        the entity; every call then puts one key. */
    method PutHttpRequest(key: string, value: Obj)
      requires Valid() && entity != null
      modifies this, entity
      ensures Valid()
      ensures httpRequest == Some((if old(httpRequest).Some? then old(httpRequest).value else map[])[key := value])
      ensures entity.httpPuts == old(entity.httpPuts) + (if old(httpRequest).None? then ["request"] else [])
      ensures entity.http - {"request"} == old(entity.http) - {"request"}
      ensures httpResponse == old(httpResponse) && spanContext == old(spanContext) && ended == old(ended)
      ensures entity.name == old(entity.name) && entity.namespace == old(entity.namespace)
      ensures entity.error == old(entity.error) && entity.throttle == old(entity.throttle)
      ensures entity.fault == old(entity.fault) && entity.user == old(entity.user)
      ensures entity.metadata == old(entity.metadata) && entity.exceptions == old(entity.exceptions)
    {
      if httpRequest.None? {
        httpRequest := Some(map[]);
        entity.PutHttp("request", map[]);
      }
      httpRequest := Some(httpRequest.value[key := value]);
      // The entity holds the very map the span writes to.
      entity.http := entity.http["request" := httpRequest.value];
    }

    /** `putHttpResponse`: as `PutHttpRequest`, under "response". */
    method PutHttpResponse(key: string, value: Obj)
      requires Valid() && entity != null
      modifies this, entity
      ensures Valid()
      ensures httpResponse == Some((if old(httpResponse).Some? then old(httpResponse).value else map[])[key := value])
      ensures entity.httpPuts == old(entity.httpPuts) + (if old(httpResponse).None? then ["response"] else [])
      ensures entity.http - {"response"} == old(entity.http) - {"response"}
      ensures httpRequest == old(httpRequest) && spanContext == old(spanContext) && ended == old(ended)
      ensures entity.name == old(entity.name) && entity.namespace == old(entity.namespace)
      ensures entity.error == old(entity.error) && entity.throttle == old(entity.throttle)
      ensures entity.fault == old(entity.fault) && entity.user == old(entity.user)
      ensures entity.metadata == old(entity.metadata) && entity.exceptions == old(entity.exceptions)
    {
      if httpResponse.None? {
        httpResponse := Some(map[]);
        entity.PutHttp("response", map[]);
      }
      httpResponse := Some(httpResponse.value[key := value]);
      entity.http := entity.http["response" := httpResponse.value];
    }

    /** The context `context()` returns: the one derived from the span's own
        entity, or the no-op span's context, which is not an X-Ray context. */
    function ContextValue(): (c: SpanContext)
      requires WellFormed()
      ensures entity == null <==> c == Foreign
      ensures entity != null ==> c.XRay? && DerivedFrom(c.ctx, entity)
    {
      if entity == null then Foreign
      else
        EntityContextConsistent(entity);
        XRay(FromEntity(entity))
    }

    /** `context()`: created on first use and cached. */
    method Context() returns (c: SpanContext)
      requires Valid()
      modifies this
      ensures Valid()
      ensures c == ContextValue()
      ensures old(spanContext).Some? ==> c == XRay(old(spanContext).value) && spanContext == old(spanContext)
      ensures entity != null ==> spanContext == Some(FromEntity(entity))
      ensures ended == old(ended) && httpRequest == old(httpRequest) && httpResponse == old(httpResponse)
    {
      if entity == null {
        c := Foreign;
      } else {
        if spanContext.None? {
          spanContext := Some(FromEntity(entity));
        }
        c := XRay(spanContext.value);
      }
    }

    /** What a tag handler leaves alone: the latch, the cached context and
        the recorded exceptions. */
    twostate predicate TagFrame()
      reads this, entity
    {
      && ended == old(ended) && spanContext == old(spanContext)
      && (entity != null ==> entity.exceptions == old(entity.exceptions))
    }

    /** `setTag` (string, boolean and number alike): the tagger for `key` if
        there is one, entity metadata otherwise; a tagger's exception is the
        result. A no-op span ignores tags. */
    method SetTag(key: string, value: Obj) returns (err: Option<TagError>)
      requires Valid()
      modifies this, entity
      ensures Valid() && TagFrame()
      ensures entity == null ==> err.None?
      ensures entity != null ==> (State(), err) == TagEffect(old(State()), variant == SegmentSpan, key, value)
    {
      err := None;
      if entity == null {
        return;
      }
      match TaggerFor(key)
      case None =>
        entity.metadata := entity.metadata[key := value];
      case Some(tagger) =>
        err := ApplyTaggerTo(tagger, key, value);
    }

    method ApplyTaggerTo(tagger: Tagger, key: string, value: Obj) returns (err: Option<TagError>)
      requires Valid() && entity != null
      modifies this, entity
      ensures Valid() && TagFrame()
      ensures (State(), err) == ApplyTagger(tagger, old(State()), variant == SegmentSpan, key, value)
    {
      err := None;
      match tagger
      case RequestField(field) =>
        PutHttpRequest(field, value);
      case ResponseField(field) =>
        PutHttpResponse(field, value);
      case StatusTagger =>
        err := TagStatus(key, value);
      case UserTagger =>
        err := TagUser(key, value);
      case SpanKindTagger =>
        TagSpanKind(value);
      case ErrorTagger =>
        err := TagErrorFlag(key, value);
      case PeerHostnameTagger =>
        TagPeerHostname(value);
    }

    method TagUser(key: string, value: Obj) returns (err: Option<TagError>)
      requires Valid() && entity != null
      modifies entity
      ensures Valid() && TagFrame()
      ensures (State(), err) == UserEffect(old(State()), variant == SegmentSpan, key, value)
    {
      err := None;
      if variant == SegmentSpan {
        entity.user := Some(ValueOf(value));
      } else {
        err := Some(ClassCast(key));
      }
    }

    method TagSpanKind(value: Obj)
      requires Valid() && entity != null
      modifies entity
      ensures Valid() && TagFrame()
      ensures State() == SpanKindEffect(old(State()), value)
    {
      if value == Str(SpanKindClient) {
        entity.namespace := Some(RemoteNamespace);
      }
      entity.metadata := entity.metadata[SpanKind := value];
    }

    method TagErrorFlag(key: string, value: Obj) returns (err: Option<TagError>)
      requires Valid() && entity != null
      modifies entity
      ensures Valid() && TagFrame()
      ensures (State(), err) == ErrorEffect(old(State()), key, value)
    {
      err := None;
      match value {
        case Bool(b) =>
          entity.error := b;
        case NullObj =>
          err := Some(NullPointer(key));
        case _ =>
          err := Some(ClassCast(key));
      }
    }

    /** `tryChangeName` followed by the metadata entry. */
    method TagPeerHostname(value: Obj)
      requires Valid() && entity != null
      modifies entity
      ensures Valid() && TagFrame()
      ensures State() == PeerHostnameEffect(old(State()), value)
    {
      if IsHttpMethodName(entity.name) {
        entity.name := ValueOf(value);
      }
      entity.metadata := entity.metadata[PeerHostname := value];
    }

    /** `HTTP_STATUS_TAGGER`: record the status, then cast it to a code. */
    method TagStatus(key: string, value: Obj) returns (err: Option<TagError>)
      requires Valid() && entity != null
      modifies this, entity
      ensures Valid() && TagFrame()
      ensures (State(), err) == StatusEffect(old(State()), key, value)
    {
      err := None;
      PutHttpResponse("status", value);
      match value {
        case Num(code) =>
          SetStatusFlags(code);
        case NullObj =>
          err := Some(NullPointer(key));
        case _ =>
          err := Some(ClassCast(key));
      }
    }

    /** The classification of a numeric status, applied in place. */
    method SetStatusFlags(code: int)
      requires Valid() && entity != null
      modifies entity
      ensures Valid() && TagFrame()
      ensures State() == WithStatusFlags(old(State()), ClassifyStatus(code))
    {
      if code >= 400 {
        if code == 429 {
          entity.error := true;
          entity.throttle := true;
        } else if code >= 500 {
          entity.fault := true;
        } else {
          entity.error := true;
        }
      }
    }

    /** `log(Map)`: one exception recorded per throwable field, in order;
        the SDK's `addException` also marks the entity as a fault. */
    method Log(fields: seq<(string, Obj)>)
      requires Valid()
      modifies entity
      ensures Valid()
      ensures entity != null ==> entity.exceptions == old(entity.exceptions) + Throwables(fields)
      ensures entity != null ==> entity.fault == (old(entity.fault) || Throwables(fields) != [])
      ensures entity != null ==> entity.KeepsAllButExceptionsAndFault()
    {
      if entity == null {
        return;
      }
      var i := 0;
      while i < |fields|
        invariant 0 <= i <= |fields|
        invariant entity.exceptions == old(entity.exceptions) + Throwables(fields[..i])
        invariant entity.fault == (old(entity.fault) || Throwables(fields[..i]) != [])
        invariant entity.KeepsAllButExceptionsAndFault()
      {
        assert fields[..i + 1][..i] == fields[..i];
        if fields[i].1.Thrown? {
          entity.exceptions := entity.exceptions + [fields[i].1.t];
          entity.fault := true;
        }
        i := i + 1;
      }
      assert fields[..i] == fields;
    }

    /** `log(long, Map)`: the timestamp is ignored. */
    method LogAt(timestamp: int, fields: seq<(string, Obj)>)
      requires Valid()
      modifies entity
      ensures Valid()
      ensures entity != null ==> entity.exceptions == old(entity.exceptions) + Throwables(fields)
      ensures entity != null ==> entity.fault == (old(entity.fault) || Throwables(fields) != [])
      ensures entity != null ==> entity.KeepsAllButExceptionsAndFault()
    {
      Log(fields);
    }

    /** `log(String)` and `log(long, String)`: nothing is recorded. */
    method LogEvent(event: string) returns (r: Span)
      ensures r == this
    {
      r := this;
    }

    /** `log(String, Object)` and its timestamped form: nothing is recorded. */
    method LogPayload(eventName: string, payload: Obj) returns (r: Span)
      ensures r == this
    {
      r := this;
    }

    /** Baggage is not supported: setting is ignored ... */
    method SetBaggageItem(key: string, value: string) returns (r: Span)
      ensures r == this
    {
      r := this;
    }

    /** ... and every lookup finds nothing. */
    method GetBaggageItem(key: string) returns (r: Option<string>)
      ensures r == None
    {
      r := None;
    }

    /** The operation name is fixed by the entity. */
    method SetOperationName(name: string) returns (r: Span)
      ensures r == this
    {
      r := this;
    }
  }

  /** `XRaySpan.create`: a span of the entity's kind, or null for no entity. */
  method Create(recorder: Recorder, entity: Entity?) returns (s: Span?)
    requires entity != null ==> entity.Shaped()
    ensures entity == null <==> s == null
    ensures s != null ==> fresh(s) && s.entity == entity && s.recorder == recorder && s.Valid()
    ensures s != null ==> s.variant == (if entity.kind == SegmentEntity then SegmentSpan else SubsegmentSpan)
    ensures s != null ==> !s.ended && s.httpRequest.None? && s.httpResponse.None? && s.spanContext.None?
  {
    if entity == null {
      s := null;
    } else {
      s := new Span.Of(recorder, entity);
    }
  }
}

/** `Taggers`: the table from well-known tag keys to the entity or span field
    each one sets, and what each handler does. The handlers are stated here as
    a pure effect on `EntityFields`, the part of a span and its entity that tags
    can change; `Spans.Span.SetTag` performs them in place and is proved
    against `TagEffect`. */
module Taggers {
  import opened Values

  const HttpUrl := "http.url"
  const HttpMethod := "http.method"
  const HttpUserAgent := "http.user_agent"
  const HttpClientIp := "http.client_ip"
  const HttpForwardedFor := "http.x_forwarded_for"
  const HttpStatus := "http.status_code"
  const HttpContentLength := "http.content_length"
  const UserKey := "user"
  const SpanKind := "span.kind"
  const ErrorKey := "error"
  const PeerHostname := "peer.hostname"
  const PeerService := "peer.service"

  const SpanKindServer := "server"
  const SpanKindClient := "client"
  const RemoteNamespace := "remote"

  datatype Tagger =
    | RequestField(field: string)
    | ResponseField(field: string)
    | StatusTagger
    | UserTagger
    | SpanKindTagger
    | ErrorTagger
    | PeerHostnameTagger

  /** The exceptions a handler can raise: a failed cast, or unboxing null. */
  datatype TagError = ClassCast(key: string) | NullPointer(key: string)

  /** The lookup in the table `createAppliers` builds. */
  function TaggerFor(key: string): Option<Tagger>
  {
    if key == HttpUrl then Some(RequestField("url"))
    else if key == HttpMethod then Some(RequestField("method"))
    else if key == HttpUserAgent then Some(RequestField("user_agent"))
    else if key == HttpClientIp then Some(RequestField("client_ip"))
    else if key == HttpForwardedFor then Some(RequestField("x_forwarded_for"))
    else if key == HttpStatus then Some(StatusTagger)
    else if key == HttpContentLength then Some(ResponseField("content_length"))
    else if key == UserKey then Some(UserTagger)
    else if key == SpanKind then Some(SpanKindTagger)
    else if key == ErrorKey then Some(ErrorTagger)
    else if key == PeerHostname then Some(PeerHostnameTagger)
    else None
  }

  const RegisteredKeys: set<string> := {
    HttpUrl, HttpMethod, HttpUserAgent, HttpClientIp, HttpForwardedFor, HttpStatus,
    HttpContentLength, UserKey, SpanKind, ErrorKey, PeerHostname }

  /** Exactly the eleven registered keys have a handler. */
  lemma TableIsRegisteredKeys(key: string)
    ensures TaggerFor(key).Some? <==> key in RegisteredKeys
    ensures |RegisteredKeys| == 11
  {
  }

  /** What tags can change on a span and its entity. `request`/`response` are
      the span's lazily created HTTP maps, shared with the entity. */
  datatype EntityFields = EntityFields(
    name: string,
    namespace: Option<string>,
    error: bool,
    throttle: bool,
    fault: bool,
    user: Option<string>,
    metadata: map<string, Obj>,
    request: Option<map<string, Obj>>,
    response: Option<map<string, Obj>>)

  function PutRequest(f: EntityFields, field: string, value: Obj): EntityFields
  {
    f.(request := Some((if f.request.Some? then f.request.value else map[])[field := value]))
  }

  function PutResponse(f: EntityFields, field: string, value: Obj): EntityFields
  {
    f.(response := Some((if f.response.Some? then f.response.value else map[])[field := value]))
  }

  datatype StatusFlags = StatusFlags(error: bool, throttle: bool, fault: bool)

  /** `HTTP_STATUS_TAGGER`'s classification of a response code. */
  function ClassifyStatus(code: int): (r: StatusFlags)
    ensures r.throttle <==> code == 429
    ensures r.fault <==> code >= 500
    ensures r.error <==> 400 <= code < 500
    ensures code < 400 ==> r == StatusFlags(false, false, false)
  {
    if code >= 400 then
      if code == 429 then StatusFlags(true, true, false)
      else if code >= 500 then StatusFlags(false, false, true)
      else StatusFlags(true, false, false)
    else StatusFlags(false, false, false)
  }

  /** The `HTTP_METHOD_PATTERN` match: the whole name is one of six spellings. */
  predicate IsHttpMethodName(name: string)
  {
    name in {"GET", "POST", "get", "post", "Get", "Post"}
  }

  /** `tryChangeName`: rename only an entity still named like an HTTP method. */
  function TryChangeName(f: EntityFields, newName: string): EntityFields
  {
    if IsHttpMethodName(f.name) then f.(name := newName) else f
  }

  /** The flags of a status class are set; none is ever cleared. */
  function WithStatusFlags(f: EntityFields, flags: StatusFlags): EntityFields
  {
    f.(error := f.error || flags.error, throttle := f.throttle || flags.throttle, fault := f.fault || flags.fault)
  }

  /** `HTTP_STATUS_TAGGER`: the status goes into the response map first; then
      the value is cast to an `int` code, which fails for null and non-numbers. */
  function StatusEffect(f: EntityFields, key: string, value: Obj): (EntityFields, Option<TagError>)
  {
    var f1 := PutResponse(f, "status", value);
    match value
    case Num(code) => (WithStatusFlags(f1, ClassifyStatus(code)), None)
    case NullObj => (f1, Some(NullPointer(key)))
    case _ => (f1, Some(ClassCast(key)))
  }

  /** The user tagger casts the entity to a segment first. */
  function UserEffect(f: EntityFields, isSegment: bool, key: string, value: Obj): (EntityFields, Option<TagError>)
  {
    if isSegment then (f.(user := Some(ValueOf(value))), None) else (f, Some(ClassCast(key)))
  }

  function SpanKindEffect(f: EntityFields, value: Obj): EntityFields
  {
    var f1 := if value == Str(SpanKindClient) then f.(namespace := Some(RemoteNamespace)) else f;
    f1.(metadata := f1.metadata[SpanKind := value])
  }

  /** The error tagger unboxes a `Boolean`. */
  function ErrorEffect(f: EntityFields, key: string, value: Obj): (EntityFields, Option<TagError>)
  {
    match value
    case Bool(b) => (f.(error := b), None)
    case NullObj => (f, Some(NullPointer(key)))
    case _ => (f, Some(ClassCast(key)))
  }

  function PeerHostnameEffect(f: EntityFields, value: Obj): EntityFields
  {
    var f1 := TryChangeName(f, ValueOf(value));
    f1.(metadata := f1.metadata[PeerHostname := value])
  }

  function ApplyTagger(tagger: Tagger, f: EntityFields, isSegment: bool, key: string, value: Obj)
    : (EntityFields, Option<TagError>)
  {
    match tagger
    case RequestField(field) => (PutRequest(f, field, value), None)
    case ResponseField(field) => (PutResponse(f, field, value), None)
    case StatusTagger => StatusEffect(f, key, value)
    case UserTagger => UserEffect(f, isSegment, key, value)
    case SpanKindTagger => (SpanKindEffect(f, value), None)
    case ErrorTagger => ErrorEffect(f, key, value)
    case PeerHostnameTagger => (PeerHostnameEffect(f, value), None)
  }

  /** `setTagInternal`: the handler for `key` if there is one, otherwise the
      value is stored as entity metadata under `key`. */
  function TagEffect(f: EntityFields, isSegment: bool, key: string, value: Obj): (EntityFields, Option<TagError>)
  {
    match TaggerFor(key)
    case None => (f.(metadata := f.metadata[key := value]), None)
    case Some(tagger) => ApplyTagger(tagger, f, isSegment, key, value)
  }

  /** Tags applied one after another; the first exception stops the rest. */
  function ApplyTags(f: EntityFields, isSegment: bool, tags: seq<(string, Obj)>): (EntityFields, Option<TagError>)
    decreases tags
  {
    if tags == [] then (f, None)
    else
      var r := TagEffect(f, isSegment, tags[0].0, tags[0].1);
      if r.1.Some? then r else ApplyTags(r.0, isSegment, tags[1..])
  }

  lemma {:induction false} ApplyTagsSnoc(f: EntityFields, isSegment: bool, tags: seq<(string, Obj)>, tag: (string, Obj))
    requires ApplyTags(f, isSegment, tags).1.None?
    decreases tags
    ensures ApplyTags(f, isSegment, tags + [tag]) == TagEffect(ApplyTags(f, isSegment, tags).0, isSegment, tag.0, tag.1)
  {
    if tags == [] {
      assert tags + [tag] == [tag];
    } else {
      var r := TagEffect(f, isSegment, tags[0].0, tags[0].1);
      assert (tags + [tag])[0] == tags[0] && (tags + [tag])[1..] == tags[1..] + [tag];
      ApplyTagsSnoc(r.0, isSegment, tags[1..], tag);
    }
  }

  /** Applying `a` then `b` is applying `a + b`, unless `a` already failed. */
  lemma {:induction false} ApplyTagsAppend(f: EntityFields, isSegment: bool, a: seq<(string, Obj)>, b: seq<(string, Obj)>)
    ensures ApplyTags(f, isSegment, a + b) ==
      (var ra := ApplyTags(f, isSegment, a); if ra.1.Some? then ra else ApplyTags(ra.0, isSegment, b))
    decreases a
  {
    if a == [] {
      assert a + b == b;
    } else {
      assert (a + b)[0] == a[0] && (a + b)[1..] == a[1..] + b;
      var r := TagEffect(f, isSegment, a[0].0, a[0].1);
      if r.1.None? {
        ApplyTagsAppend(r.0, isSegment, a[1..], b);
      }
    }
  }

  /** A key without a handler only ever writes metadata under that key. */
  lemma UnregisteredIsMetadata(f: EntityFields, isSegment: bool, key: string, value: Obj)
    requires key !in RegisteredKeys
    ensures TagEffect(f, isSegment, key, value) == (f.(metadata := f.metadata[key := value]), None)
  {
  }

  /** Handlers other than span.kind and peer.hostname never write metadata. */
  lemma RegisteredKeepsMetadata(f: EntityFields, isSegment: bool, key: string, value: Obj)
    requires key in RegisteredKeys && key != SpanKind && key != PeerHostname
    ensures TagEffect(f, isSegment, key, value).0.metadata == f.metadata
  {
    TableIsRegisteredKeys(key);
    TaggerForKinds(key);
    var tagger := TaggerFor(key).value;
    assert TagEffect(f, isSegment, key, value) == ApplyTagger(tagger, f, isSegment, key, value);
    TaggerKeepsMetadata(tagger, f, isSegment, key, value);
  }

  lemma TaggerKeepsMetadata(tagger: Tagger, f: EntityFields, isSegment: bool, key: string, value: Obj)
    requires !tagger.SpanKindTagger? && !tagger.PeerHostnameTagger?
    ensures ApplyTagger(tagger, f, isSegment, key, value).0.metadata == f.metadata
  {
    match tagger
    case RequestField(field) =>
    case ResponseField(field) =>
    case StatusTagger =>
    case UserTagger =>
    case ErrorTagger =>
  }

  /** Only span.kind and peer.hostname are dispatched to their handlers. */
  lemma TaggerForKinds(key: string)
    ensures TaggerFor(key) == Some(SpanKindTagger) ==> key == SpanKind
    ensures TaggerFor(key) == Some(PeerHostnameTagger) ==> key == PeerHostname
  {
  }

  /** http.status always records "status" in the response map; a numeric code
      adds the flags of its class and clears none. */
  lemma StatusTagEffect(f: EntityFields, isSegment: bool, value: Obj)
    ensures var r := TagEffect(f, isSegment, HttpStatus, value);
      && r.0.response.Some? && "status" in r.0.response.value && r.0.response.value["status"] == value
      && (value.Num? ==>
            (&& r.1.None?
             && r.0.throttle == (f.throttle || value.n == 429)
             && r.0.fault == (f.fault || value.n >= 500)
             && r.0.error == (f.error || 400 <= value.n < 500)))
      && (!value.Num? ==> r.1.Some?)
  {
  }

  /** span.kind "client" marks the entity remote; the kind is always kept as
      metadata. */
  lemma SpanKindTagEffect(f: EntityFields, isSegment: bool, value: Obj)
    ensures var r := TagEffect(f, isSegment, SpanKind, value);
      && r.1.None?
      && r.0.metadata == f.metadata[SpanKind := value]
      && r.0.namespace == (if value == Str(SpanKindClient) then Some(RemoteNamespace) else f.namespace)
  {
  }

  /** peer.hostname renames the entity exactly when its name looks like an
      HTTP method; the hostname is always kept as metadata. */
  lemma PeerHostnameTagEffect(f: EntityFields, isSegment: bool, value: Obj)
    ensures var r := TagEffect(f, isSegment, PeerHostname, value);
      && r.1.None?
      && r.0.metadata == f.metadata[PeerHostname := value]
      && r.0.name == (if IsHttpMethodName(f.name) then ValueOf(value) else f.name)
  {
  }

  /** The error tag sets the error flag to the given boolean. */
  lemma ErrorTagEffect(f: EntityFields, isSegment: bool, b: bool)
    ensures TagEffect(f, isSegment, ErrorKey, Bool(b)) == (f.(error := b), None)
  {
  }

  /** The user tag needs a segment; on a subsegment the cast fails. */
  lemma UserTagEffect(f: EntityFields, isSegment: bool, value: Obj)
    ensures TagEffect(f, isSegment, UserKey, value) ==
      if isSegment then (f.(user := Some(ValueOf(value))), None) else (f, Some(ClassCast(UserKey)))
  {
  }
}

# OpenTracing over AWS X-Ray, modelled in Dafny

The library implements the OpenTracing API on top of the AWS X-Ray recorder.
An OpenTracing span is backed by an X-Ray segment (a trace root) or
subsegment (a child). A tracer builds spans from a parent context and a set
of tags. Each thread keeps a stack of reference-counted "active span"
handles. Span contexts travel between processes in the `X-Amzn-Trace-Id`
header.

The model has one Dafny module per Java class of the core:

- **`LocalStacks`** (`LocalStack`): a per-thread stack. Threads are explicit
  thread ids, and the stack is a map from thread id to a sequence whose last
  element is the top.
- **`Recorders`**: the part of the X-Ray recorder the bridge uses.
  - A trace entity is a class with its identity fields and the fields that
    tags change.
  - The recorder keeps one "current trace entity" per thread.
  - A ghost log records every `beginSegment`, `beginDummySegment`,
    `beginSubsegment`, `endSegment`, `endSubsegment` and sampling
    consultation.
  - The sampling strategy is a function value.
- **`TraceHeaders`**: the tracing header value.
  - A concrete `Root=…;Parent=…;Sampled=…` text form and its parser, with a
    proved round trip for identifiers that contain no `;`.
- **`SpanContexts`** (`XRaySpanContext`): the immutable context record and
  its factories from a segment, a subsegment and a header.
- **`Taggers`**: the tag dispatch table.
  - Each handler's effect is a pure function over the tag-visible state of a
    span and its entity.
  - A failed cast or unboxing inside a handler is an error result.
- **`Spans`** (`XRaySpan`, `XRayBaseSpan`, OpenTracing's no-op span): one
  class whose `variant` says which of the three an object is.
  - It provides the `finish` latch, the lazily attached HTTP maps, the cached
    context, tag dispatch and exception logging.
- **`ActiveSpans`** (`XRayActiveSpan`, its continuation,
  `XRayActiveSpanSource`):
  - the handle's reference count;
  - the listeners that push and pop the thread's stack and re-point the
    recorder's current entity;
  - a pure model of the count that proves that a handle finishes exactly once.
- **`SpanBuilders`** (`XRaySpanBuilder`): the parent and tag setters, and
  the choice between the no-op span, a subsegment, a sampled segment and a
  dummy segment.
  - Tags are applied string, then boolean, then numeric, each map in an
    unconstrained iteration order.
- **`HttpSpanContextConverters`, `TextMapUtils`, `StringUtils`**: `inject`
  and `extract` of the tracing header, the lower-casing carrier copy and the
  blank test.
- **`Tracers`** (`XRayTracer`), **`TracingUtils`** and
  **`ExceptionUtils`**: converter selection by format, the active-span
  helpers, and exception wrapping.

## Model

| member | source | states |
|---|---|---|
| LocalStacks.LocalStack.constructor | src/main/java/com/wongnai/common/LocalStack.java:14 | every thread starts with an empty stack |
| LocalStacks.LocalStack.Get | src/main/java/com/wongnai/common/LocalStack.java:21-23 | on a non-empty stack, returns the most recently pushed element; an empty stack is excluded as `peek` throws there |
| LocalStacks.LocalStack.IsEmpty | src/main/java/com/wongnai/common/LocalStack.java:30-32 | true exactly when the calling thread's stack has no element |
| LocalStacks.LocalStack.Push | src/main/java/com/wongnai/common/LocalStack.java:40-42 | the element goes on top of the calling thread's stack; every other thread's stack is unchanged |
| LocalStacks.LocalStack.Pop | src/main/java/com/wongnai/common/LocalStack.java:49-56 | an empty stack gives null and stays empty; otherwise the top is returned and removed; other threads unchanged |
| LocalStacks.LocalStack.Remove | src/main/java/com/wongnai/common/LocalStack.java:61-63 | the thread's storage is discarded, so the next access sees an empty stack; other threads unchanged |
| LocalStacks.LocalStack.RemoveIfEmpty | src/main/java/com/wongnai/common/LocalStack.java:68-72 | storage is discarded only when the stack is already empty; the contents never change |
| LocalStacks.PushThenPop | src/main/java/com/wongnai/common/LocalStack.java:40-56 | push then get returns the element, and a following pop returns it and restores every stack |
| Recorders.Recorder.SetTraceEntity | src/main/java/com/wongnai/tracing/xray/XRayActiveSpanSource.java:57-63 | the thread's current entity becomes the given one (null clears it); no other thread and no log entry changes |
| Recorders.Recorder.ShouldTrace | src/main/java/com/wongnai/tracing/xray/XRaySpanBuilder.java:177-185 | returns the strategy's verdict for the request and logs the consultation |
| Recorders.Recorder.BeginSegment | src/main/java/com/wongnai/tracing/xray/XRaySpanBuilder.java:169-170 | a fresh sampled segment with the given name, trace id and parent id becomes the thread's current entity; the call is logged |
| Recorders.Recorder.BeginDummySegment | src/main/java/com/wongnai/tracing/xray/XRaySpanBuilder.java:171-173 | a fresh unsampled, unnamed segment in the given trace becomes current; the call is logged |
| Recorders.Recorder.BeginSubsegment | src/main/java/com/wongnai/tracing/xray/XRaySpanBuilder.java:150-151 | with a current entity, a fresh subsegment under it becomes current; without one, null and nothing changes; the call is always logged |
| Recorders.Recorder.EndSegment | src/main/java/com/wongnai/tracing/xray/XRaySpan.java:105-108 | logs the end of the current entity and leaves the thread without one |
| Recorders.Recorder.EndSubsegment | src/main/java/com/wongnai/tracing/xray/XRaySpan.java:147-150 | logs the end of the current entity; a subsegment's parent becomes current |
| Recorders.Entity.PutHttp | src/main/java/com/wongnai/tracing/xray/XRayBaseSpan.java:60 | stores the map under the key, records the put, and changes nothing else on the entity |
| TraceHeaders.HeaderRoundTrip | src/main/java/com/wongnai/tracing/xray/HttpSpanContextConverter.java:28-31 | parsing the text of a header whose ids contain no `;` gives the same header |
| TraceHeaders.TextEmptyIffNothingSet | src/main/java/com/wongnai/tracing/xray/HttpSpanContextConverter.java:31 | the text is empty exactly when no root, no parent and an UNKNOWN decision; otherwise it starts with a letter, not whitespace |
| SpanContexts.NewRootContext | src/main/java/com/wongnai/tracing/xray/XRaySpanContext.java:28-30 | the default context has the fresh trace id and no parent id, id, decision or entity |
| SpanContexts.DecisionOf | src/main/java/com/wongnai/tracing/xray/XRaySpanContext.java:67-73 | true maps to SAMPLED, false to NOT_SAMPLED, absent to absent, in both directions |
| SpanContexts.EntityContextConsistent | src/main/java/com/wongnai/tracing/xray/XRaySpanContext.java:62-92 | the context of any entity carries that entity and agrees with it on trace id, id and decision |
| SpanContexts.SubsegmentContextInSegmentTrace | src/main/java/com/wongnai/tracing/xray/XRaySpanContext.java:82-92 | a subsegment's context has its segment's trace id and decision, and the segment's id as parent id when it has none of its own |
| SpanContexts.HeaderContextDetached | src/main/java/com/wongnai/tracing/xray/XRaySpanContext.java:101-103 | a header's context takes the root as trace id and the header's parent as id, with no parent id and no entity |
| Taggers.TableIsRegisteredKeys | src/main/java/com/wongnai/tracing/xray/Taggers.java:54-83 | exactly the eleven registered keys have a handler |
| Taggers.ClassifyStatus | src/main/java/com/wongnai/tracing/xray/Taggers.java:28-37 | throttle iff 429, fault iff at least 500, error iff 400 to 499; nothing below 400 |
| Taggers.UnregisteredIsMetadata | src/main/java/com/wongnai/tracing/xray/XRayBaseSpan.java:112-116 | a key without a handler is stored as metadata and nothing else changes |
| Taggers.RegisteredKeepsMetadata | src/main/java/com/wongnai/tracing/xray/Taggers.java:108-118 | a handled key other than span.kind and peer.hostname never writes metadata |
| Taggers.StatusTagEffect | src/main/java/com/wongnai/tracing/xray/Taggers.java:25-38 | http.status always records "status" in the response map; a number ORs in its class's flags; anything else fails |
| Taggers.SpanKindTagEffect | src/main/java/com/wongnai/tracing/xray/Taggers.java:70-75 | "client" sets the namespace to "remote"; the kind is always kept as metadata |
| Taggers.PeerHostnameTagEffect | src/main/java/com/wongnai/tracing/xray/Taggers.java:77-93 | the entity is renamed only when its name is one of the six GET/POST spellings; the host is always kept as metadata |
| Taggers.ErrorTagEffect | src/main/java/com/wongnai/tracing/xray/Taggers.java:76 | the error flag becomes the given boolean |
| Taggers.UserTagEffect | src/main/java/com/wongnai/tracing/xray/Taggers.java:68-69 | a segment takes the value as user; on a subsegment the cast fails and nothing changes |
| Taggers.ApplyTagsSnoc | src/main/java/com/wongnai/tracing/xray/XRaySpanBuilder.java:230-246 | applying one more tag after a sequence is applying it to the sequence's result, unless the sequence already failed |
| Taggers.ApplyTagsAppend | src/main/java/com/wongnai/tracing/xray/XRaySpanBuilder.java:230-246 | applying two sequences in turn is applying their concatenation, stopping at the first failure |
| Spans.ThrowablesAreThrownFields | src/main/java/com/wongnai/tracing/xray/XRayBaseSpan.java:133-141 | a throwable is recorded exactly when some logged field carries it |
| Spans.ThrowablesCount | src/main/java/com/wongnai/tracing/xray/XRayBaseSpan.java:133-141 | one exception is recorded per throwable-valued field, and other fields add none |
| Spans.Span.Finish | src/main/java/com/wongnai/tracing/xray/XRaySpan.java:56-62 | the first call makes the entity current and ends it, with endSegment for a segment and endSubsegment for a subsegment; later calls and the no-op span change nothing |
| Spans.Span.FinishAt | src/main/java/com/wongnai/tracing/xray/XRaySpan.java:51-53 | the same effect as `finish()` |
| Spans.Span.PutHttpRequest | src/main/java/com/wongnai/tracing/xray/XRayBaseSpan.java:57-63 | the first call creates the request map and attaches it under "request" once; every call adds or overwrites the key in that shared map; every other key of the entity's HTTP data is kept |
| Spans.Span.PutHttpResponse | src/main/java/com/wongnai/tracing/xray/XRayBaseSpan.java:73-79 | the same for the response map under "response"; every other key of the entity's HTTP data is kept |
| Spans.Span.ContextValue | src/main/java/com/wongnai/tracing/xray/XRaySpan.java:101-103 | a span with an entity has an X-Ray context derived from that entity; the no-op span has a foreign context |
| Spans.Span.Context | src/main/java/com/wongnai/tracing/xray/XRayBaseSpan.java:91-96 | computed once and cached; a cached context is returned unchanged |
| Spans.Span.SetTag | src/main/java/com/wongnai/tracing/xray/XRayBaseSpan.java:105-130 | the new state and error are the dispatch table's effect for the key, metadata for an unhandled key |
| Spans.Span.ApplyTaggerTo | src/main/java/com/wongnai/tracing/xray/Taggers.java:108-118 | runs the key's handler: the new state and error are that handler's effect |
| Spans.Span.TagStatus | src/main/java/com/wongnai/tracing/xray/Taggers.java:25-38 | the response "status" entry, then the flags of a numeric code, or a failed cast or unboxing |
| Spans.Span.SetStatusFlags | src/main/java/com/wongnai/tracing/xray/Taggers.java:28-37 | sets exactly the flags of the code's class and clears none |
| Spans.Span.TagUser | src/main/java/com/wongnai/tracing/xray/Taggers.java:68-69 | the user of a segment, or a failed cast on a subsegment |
| Spans.Span.TagSpanKind | src/main/java/com/wongnai/tracing/xray/Taggers.java:70-75 | the span.kind handler's effect |
| Spans.Span.TagErrorFlag | src/main/java/com/wongnai/tracing/xray/Taggers.java:76 | the error flag, or a failed unboxing for a null or non-boolean value |
| Spans.Span.TagPeerHostname | src/main/java/com/wongnai/tracing/xray/Taggers.java:77-80 | the peer.hostname handler's effect |
| Spans.Span.Log | src/main/java/com/wongnai/tracing/xray/XRayBaseSpan.java:133-141 | appends the throwables among the fields, in field order; the entity becomes a fault exactly when one was recorded (the SDK's `addException` sets fault); every other entity field is kept |
| Spans.Span.LogAt | src/main/java/com/wongnai/tracing/xray/XRayBaseSpan.java:144-148 | the same effect as `log(fields)`: the throwables appended, fault set when there was one, every other entity field kept |
| Spans.Span.LogEvent | src/main/java/com/wongnai/tracing/xray/XRayBaseSpan.java:150-158 | returns the span and records nothing |
| Spans.Span.LogPayload | src/main/java/com/wongnai/tracing/xray/XRayBaseSpan.java:175-183 | returns the span and records nothing |
| Spans.Span.SetBaggageItem | src/main/java/com/wongnai/tracing/xray/XRayBaseSpan.java:160-163 | returns the span and records nothing |
| Spans.Span.GetBaggageItem | src/main/java/com/wongnai/tracing/xray/XRayBaseSpan.java:165-168 | always null |
| Spans.Span.SetOperationName | src/main/java/com/wongnai/tracing/xray/XRayBaseSpan.java:170-173 | returns the span and records nothing |
| Spans.Create | src/main/java/com/wongnai/tracing/xray/XRaySpan.java:40-48 | a segment span for a segment, a subsegment span for a subsegment, null for no entity |
| ActiveSpans.Step | src/main/java/com/wongnai/tracing/xray/XRayActiveSpan.java:38-59 | a capture adds one to the count; a deactivation subtracts one and finishes exactly when the count was 1 |
| ActiveSpans.DeactivationsBelowOneNeverFire | src/main/java/com/wongnai/tracing/xray/XRayActiveSpan.java:38-42 | once the count is 0 or below, no deactivation finishes the span again |
| ActiveSpans.DeactivationsFromCount | src/main/java/com/wongnai/tracing/xray/XRayActiveSpan.java:38-42 | from count c, only the c-th deactivation finishes the span |
| ActiveSpans.CapturesThenOps | src/main/java/com/wongnai/tracing/xray/XRayActiveSpan.java:52-59 | captures never finish the span and raise the count by their number |
| ActiveSpans.CapturesThenDeactivations | src/main/java/com/wongnai/tracing/xray/XRayActiveSpan.java:16-59 | with n captures, the (n+1)-th deactivation finishes the span and no other does |
| ActiveSpans.ActiveSpan.constructor | src/main/java/com/wongnai/tracing/xray/XRayActiveSpan.java:16 | a new handle has count 1, is active and has no continuation |
| ActiveSpans.ActiveSpan.Deactivate | src/main/java/com/wongnai/tracing/xray/XRayActiveSpan.java:38-44 | the count drops by one, the span finishes when it reaches 0, and the deactivate listener always runs; other threads' stacks and current entities, and the span's HTTP maps and cached context, are kept |
| ActiveSpans.ActiveSpan.Close | src/main/java/com/wongnai/tracing/xray/XRayActiveSpan.java:47-49 | the same effect as `deactivate()`, with the same frames |
| ActiveSpans.ActiveSpan.Capture | src/main/java/com/wongnai/tracing/xray/XRayActiveSpan.java:52-59 | the count rises by exactly one, and every capture returns the same continuation, created on the first |
| ActiveSpans.ActiveSpan.SetTag | src/main/java/com/wongnai/tracing/xray/XRayActiveSpan.java:67-86 | forwards the tag to the span with the span's effect |
| ActiveSpans.ActiveSpan.Log | src/main/java/com/wongnai/tracing/xray/XRayActiveSpan.java:88-100 | forwards the fields to the span: their throwables are appended, fault is set when there was one, and every other entity field is kept |
| ActiveSpans.ActiveSpan.LogPayload | src/main/java/com/wongnai/tracing/xray/XRayActiveSpan.java:134-139 | logs the event/payload map, so only a throwable payload is recorded and makes the entity a fault; every other entity field is kept |
| ActiveSpans.ActiveSpan.Context | src/main/java/com/wongnai/tracing/xray/XRayActiveSpan.java:62-65 | the span's context, cached from its entity once and kept thereafter; the finish latch and the HTTP maps are untouched |
| ActiveSpans.CreateLogs | src/main/java/com/wongnai/tracing/xray/XRayActiveSpan.java:141-146 | exactly the two keys "event" and "payload", holding the name and the payload |
| ActiveSpans.PayloadThrowables | src/main/java/com/wongnai/tracing/xray/XRayActiveSpan.java:134-146 | the throwables logged by `log(event, payload)` are the payload if it is one, else none |
| ActiveSpans.Continuation.Activate | src/main/java/com/wongnai/tracing/xray/XRayActiveSpan.java:173-179 | runs the activate listener (the handle pushed and its entity current on this thread, other threads' stacks and entities kept, no recorder call) and returns the same handle with its count unchanged |
| ActiveSpans.ActiveSpanSource.TraceEntity | src/main/java/com/wongnai/tracing/xray/XRayActiveSpanSource.java:70-79 | the handle's span entity through an X-Ray context, null for a no-op span |
| ActiveSpans.ActiveSpanSource.Active | src/main/java/com/wongnai/tracing/xray/XRayActiveSpanSource.java:41-53 | null for an empty stack; otherwise the top handle exactly when its count is positive |
| ActiveSpans.ActiveSpanSource.MakeActive | src/main/java/com/wongnai/tracing/xray/XRayActiveSpanSource.java:56-67 | pushes exactly one new handle of count 1 and returns it; the recorder's current entity is untouched |
| ActiveSpans.ActiveSpanSource.OnActivate | src/main/java/com/wongnai/tracing/xray/XRayActiveSpanSource.java:57-59 | pushes the handle on the activating thread and makes its entity current there |
| ActiveSpans.ActiveSpanSource.OnDeactivate | src/main/java/com/wongnai/tracing/xray/XRayActiveSpanSource.java:60-63 | pops one handle and makes the new top's entity current, or none when the stack is now empty |
| ActiveSpans.ActivateThenClose | src/main/java/com/wongnai/tracing/xray/XRayActiveSpanSource.java:56-67 | making a span active and closing the handle restores the stack and finishes the span once |
| SpanBuilders.FillFrom | src/main/java/com/wongnai/tracing/xray/XRaySpanBuilder.java:232-234 | applies one map's entries in some iteration order that visits each key once, stopping at the first failure |
| SpanBuilders.SpanBuilder.AsChildOf | src/main/java/com/wongnai/tracing/xray/XRaySpanBuilder.java:53-57 | the parent becomes the given context |
| SpanBuilders.SpanBuilder.AsChildOfSpan | src/main/java/com/wongnai/tracing/xray/XRaySpanBuilder.java:60-64 | the parent becomes the span's context |
| SpanBuilders.SpanBuilder.AddReference | src/main/java/com/wongnai/tracing/xray/XRaySpanBuilder.java:67-73 | only "child_of" and "follows_from" set the parent |
| SpanBuilders.SpanBuilder.IgnoreActiveSpan | src/main/java/com/wongnai/tracing/xray/XRaySpanBuilder.java:76-80 | sets the ignore flag only |
| SpanBuilders.SpanBuilder.WithStringTag | src/main/java/com/wongnai/tracing/xray/XRaySpanBuilder.java:83-90 | creates the string map on first use and puts the tag, a null value included; nothing else changes |
| SpanBuilders.SpanBuilder.WithBooleanTag | src/main/java/com/wongnai/tracing/xray/XRaySpanBuilder.java:93-100 | creates the boolean map on first use and puts the tag |
| SpanBuilders.SpanBuilder.WithNumberTag | src/main/java/com/wongnai/tracing/xray/XRaySpanBuilder.java:103-110 | creates the number map on first use and puts the tag, a null value included; nothing else changes |
| SpanBuilders.SpanBuilder.WithStartTimestamp | src/main/java/com/wongnai/tracing/xray/XRaySpanBuilder.java:113-115 | returns the builder unchanged |
| SpanBuilders.SpanBuilder.FillTags | src/main/java/com/wongnai/tracing/xray/XRaySpanBuilder.java:230-246 | the span's new state is the tags applied string, then boolean, then numeric, each map fully and in its own order, up to the first failure |
| SpanBuilders.SpanBuilder.CreateXraySpan | src/main/java/com/wongnai/tracing/xray/XRaySpanBuilder.java:161-175 | asks the strategy only for an absent, REQUESTED or UNKNOWN decision, then begins a segment (SAMPLED) or a dummy segment in the parent's trace; the new span is unfinished and its context not yet cached |
| SpanBuilders.SpanBuilder.Fill | src/main/java/com/wongnai/tracing/xray/XRaySpanBuilder.java:146-155 | the tagged span, or the first tagger failure; the finish latch, cached context and exceptions are untouched |
| SpanBuilders.SpanBuilder.StartSubsegment | src/main/java/com/wongnai/tracing/xray/XRaySpanBuilder.java:150-155 | a subsegment under the current entity, tagged; with no current entity the start fails; other threads' current entities are kept, and after a tagger failure the newly begun entity stays current on the thread; a started span is unfinished |
| SpanBuilders.SpanBuilder.StartSegment | src/main/java/com/wongnai/tracing/xray/XRaySpanBuilder.java:153-155 | the segment or dummy segment of the parent's settled decision, tagged; other threads' current entities are kept, and after a tagger failure the newly begun entity stays current on the thread; a started span is unfinished |
| SpanBuilders.SpanBuilder.StartManualXray | src/main/java/com/wongnai/tracing/xray/XRaySpanBuilder.java:137-159 | with no parent and no "server" kind, the no-op span and no recorder call; under a live entity, a tagged subsegment; otherwise the tagged segment or dummy segment of the parent's settled decision; other threads' current entities are kept, and after a tagger failure the newly begun entity stays current on the thread; a started span is unfinished |
| SpanBuilders.SpanBuilder.StartManual | src/main/java/com/wongnai/tracing/xray/XRaySpanBuilder.java:129-135 | the recorder calls, the entity begun and its tagged state are those of the parent's plan; a foreign parent, or no parent without a "server" kind, gives the no-op span and no recorder call; other threads' current entities are kept, and after a tagger failure the newly begun entity stays current on the thread; a started span is unfinished |
| SpanBuilders.SpanBuilder.AdoptActiveParent | src/main/java/com/wongnai/tracing/xray/XRaySpanBuilder.java:119-124 | the parent becomes the active span's context only when no parent was set, active spans are not ignored and a span is active; nothing else changes |
| SpanBuilders.SpanBuilder.StartActive | src/main/java/com/wongnai/tracing/xray/XRaySpanBuilder.java:118-126 | adopts the active span as parent only when no parent was set and active spans are not ignored; then the recorder calls, the entity begun and its tagged state are those of `startManual` for that parent (no call for the no-op span); a started span gets one fresh handle of count 1 pushed on the thread's stack; other threads' stacks and current entities are kept, and after a tagger failure the newly begun entity stays current on the thread; the handle's span is unfinished |
| SpanBuilders.SpanBuilder.Start | src/main/java/com/wongnai/tracing/xray/XRaySpanBuilder.java:249-251 | the same effect as `startManual()`: the plan's recorder calls, the entity begun and its tagged state, and the no-op span with no call; other threads' current entities are kept, and after a tagger failure the newly begun entity stays current on the thread; a started span is unfinished |
| SpanBuilders.StartThenFinish | src/main/java/com/wongnai/tracing/xray/XRaySpanBuilder.java:249-251 | starting an X-Ray span and finishing it makes the plan's recorder calls, then one end call for its own entity, after which a segment leaves no current entity and a subsegment leaves its parent current |
| SpanBuilders.ForeignParentIsNoop | src/main/java/com/wongnai/tracing/xray/XRaySpanBuilder.java:129-135 | a parent context of another tracer gives the no-op span |
| SpanBuilders.NoParentNeedsServerKind | src/main/java/com/wongnai/tracing/xray/XRaySpanBuilder.java:140-147 | without a parent, the no-op span exactly when span.kind is not "server" (always with no string tags); otherwise a new trace's segment or dummy segment by the strategy |
| SpanBuilders.LiveParentGivesSubsegment | src/main/java/com/wongnai/tracing/xray/XRaySpanBuilder.java:149-151 | a parent with a live entity gives `beginSubsegment(name)` whatever its decision |
| SpanBuilders.DecisionKeptOrAsked | src/main/java/com/wongnai/tracing/xray/XRaySpanBuilder.java:162-166 | the strategy is consulted exactly for an absent, REQUESTED or UNKNOWN decision; SAMPLED and NOT_SAMPLED are kept |
| SpanBuilders.DetachedParentGivesSegment | src/main/java/com/wongnai/tracing/xray/XRaySpanBuilder.java:168-174 | a SAMPLED decision gives `beginSegment(name, traceId, parent id)`, any other a dummy segment in the parent's trace |
| SpanBuilders.SamplingRequestFields | src/main/java/com/wongnai/tracing/xray/XRaySpanBuilder.java:187-228 | the service is peer.service or else the name; the method is "GET" only with no string tags at all, otherwise http.method, possibly absent; path, host and type are their tags |
| HttpSpanContextConverters.TraceIdHeaderIsLowerCase | src/main/java/com/wongnai/tracing/xray/HttpSpanContextConverter.java:17 | the header key is "x-amzn-trace-id", already lower case |
| HttpSpanContextConverters.HeaderOf | src/main/java/com/wongnai/tracing/xray/HttpSpanContextConverter.java:23-29 | an absent decision is written as UNKNOWN, and the span id is the header's parent only for SAMPLED |
| HttpSpanContextConverters.HttpSpanContextConverter.Inject | src/main/java/com/wongnai/tracing/xray/HttpSpanContextConverter.java:20-32 | appends exactly one carrier entry, under "x-amzn-trace-id", holding the header text |
| HttpSpanContextConverters.HttpSpanContextConverter.Extract | src/main/java/com/wongnai/tracing/xray/HttpSpanContextConverter.java:35-46 | the context parsed from the header, or none when it is missing or blank; it never has an entity or parent id |
| HttpSpanContextConverters.ExtractCaseInsensitive | src/main/java/com/wongnai/tracing/xray/HttpSpanContextConverter.java:38-42 | an entry under any capitalisation of the header name is found, and the last such entry wins |
| HttpSpanContextConverters.ExtractMissingHeader | src/main/java/com/wongnai/tracing/xray/HttpSpanContextConverter.java:40-45 | no entry under the header name in any case gives no context |
| HttpSpanContextConverters.ExtractBlankHeader | src/main/java/com/wongnai/tracing/xray/HttpSpanContextConverter.java:41-45 | a blank header value gives no context, not an error |
| HttpSpanContextConverters.InjectExtractRoundTrip | src/main/java/com/wongnai/tracing/xray/HttpSpanContextConverter.java:20-46 | extracting what inject wrote keeps the trace id and decision (absent becomes UNKNOWN), keeps the id only for SAMPLED, and has no parent id and no entity |
| TextMapUtils.Lower | src/main/java/com/wongnai/tracing/TextMapUtils.java:21 | keeps the length and lower-cases each character |
| TextMapUtils.ToMap | src/main/java/com/wongnai/tracing/TextMapUtils.java:19-24 | the loop builds the lower-cased map, each later entry overwriting |
| TextMapUtils.ToMapKeys | src/main/java/com/wongnai/tracing/TextMapUtils.java:19-24 | a key is present exactly when some carrier key lower-cases to it |
| TextMapUtils.ToMapLastWins | src/main/java/com/wongnai/tracing/TextMapUtils.java:21 | of entries whose keys differ only in case, the last one's value is kept |
| TextMapUtils.ToMapValuesFromEntries | src/main/java/com/wongnai/tracing/TextMapUtils.java:21 | every value is copied unchanged from an entry under that key |
| StringUtils.IsBlank | src/main/java/com/wongnai/common/StringUtils.java:18-30 | the loop answers the blank predicate: null and empty are blank, and any non-whitespace character makes a string not blank |
| StringUtils.NullAndEmptyAreBlank | src/main/java/com/wongnai/common/StringUtils.java:20-30 | null and "" are blank |
| StringUtils.NotBlankIffVisibleChar | src/main/java/com/wongnai/common/StringUtils.java:21-27 | a string is not blank exactly when it has a non-whitespace character |
| ExceptionUtils.Wrap | src/main/java/com/wongnai/common/ExceptionUtils.java:35-43 | the result is always unchecked |
| ExceptionUtils.RuntimeExceptionUnchanged | src/main/java/com/wongnai/common/ExceptionUtils.java:36-37 | a runtime exception is returned as it is |
| ExceptionUtils.CheckedIsWrapped | src/main/java/com/wongnai/common/ExceptionUtils.java:38-41 | a checked throwable is wrapped as its cause, with the message if it is not blank and otherwise with the cause's description |
| ExceptionUtils.WrapIdempotent | src/main/java/com/wongnai/common/ExceptionUtils.java:35-43 | wrapping a wrapped result returns it unchanged |
| ExceptionUtils.WrapThrowableIsWrapWithoutMessage | src/main/java/com/wongnai/common/ExceptionUtils.java:20-22 | `wrap(t)` equals `wrap(null, t)` |
| Tracers.Tracer.constructor | src/main/java/com/wongnai/tracing/xray/XRayTracer.java:26-33 | exactly TEXT_MAP and HTTP_HEADERS are registered, both with the same converter, and every stack starts empty |
| Tracers.Tracer.BuildSpan | src/main/java/com/wongnai/tracing/xray/XRayTracer.java:36-38 | a builder with the given name on this tracer and its recorder, with nothing set |
| Tracers.Tracer.Inject | src/main/java/com/wongnai/tracing/xray/XRayTracer.java:41-46 | writes the header only for an X-Ray context and a registered format, and otherwise leaves the carrier alone |
| Tracers.Tracer.Extract | src/main/java/com/wongnai/tracing/xray/XRayTracer.java:49-56 | null for an unregistered format, otherwise the converter's result |
| Tracers.TracerRoundTrip | src/main/java/com/wongnai/tracing/xray/XRayTracer.java:29-56 | through either text format a context comes back with its trace id, settled decision and (for SAMPLED) id; the binary format has no converter |
| TracingUtils.ErrorFields | src/main/java/com/wongnai/tracing/TracingUtils.java:49-50 | the single entry "error" holding the throwable, which is the one throwable it logs |
| TracingUtils.Execute | src/main/java/com/wongnai/tracing/TracingUtils.java:93-100 | no span without a tracer or without an active span; otherwise the active span, which the callback is run on once |
| TracingUtils.AddException | src/main/java/com/wongnai/tracing/TracingUtils.java:47-53 | a null throwable does nothing; otherwise it is recorded once on the span's entity and the entity becomes a fault; no other entity field changes |
| TracingUtils.AddExceptionToActive | src/main/java/com/wongnai/tracing/TracingUtils.java:63-69 | the same through an active-span handle: at most the one throwable recorded and fault set with it, no other entity field changed |
| TracingUtils.AddExceptionInActive | src/main/java/com/wongnai/tracing/TracingUtils.java:35-37 | records the throwable on the active span's entity of the given tracer, if any, and marks it a fault, changing no other field of it and nothing else at all |
| TracingUtils.SetUserId | src/main/java/com/wongnai/tracing/TracingUtils.java:120-122 | the "user" tag's effect on the active span, if any, a null id included, with the finish latch, cached context and exceptions kept; no error otherwise |
| TracingUtils.SetUserIdEffect | src/main/java/com/wongnai/tracing/TracingUtils.java:24 | the user id reaches a segment, a null id as the text "null"; on a subsegment the cast fails and nothing changes |

## Left out

- XRayTracerBuilder (configuration, EC2 metadata, sampling-rule files, global registration) and ResourceUtils (class-path I/O) are not part of this model.
- XRaySpanContextConverter is an interface with one implementation; the tracer's table holds that class directly.
- The one-argument `addException(Throwable)` and `setUserId(String)` read the global tracer; here the tracer is a parameter (`AddExceptionInActive`, `SetUserId`).
- Threads are explicit ids. Thread-local storage, concurrency and the atomicity of the reference count are not modelled.
- The X-Ray recorder's internals are not modelled: entity emission, context-missing strategies, trace id generation and the sampling rules. The recorder is its per-thread current entity, a log of calls and a sampling function. Fresh trace ids and entity ids are parameters.
- Recorders.Recorder.BeginDummySegment: the SDK's dummy segment also ignores later writes; here it is an ordinary unsampled, unnamed segment.
- Recorders.Recorder.BeginSubsegment: with no current entity the SDK's behaviour depends on its context-missing strategy; here the start of the span fails with `ContextMissing`.
- TraceHeaders: the SDK's header text grammar is replaced by a concrete `Root=…;Parent=…;Sampled=…` form whose round trip is proved for identifiers without `;`.
- TextMapUtils.Lower: lower-cases ASCII letters only, not all of Unicode.
- Values: a Java `Number` tag value is an integer; floating-point numbers are not modelled. Timestamps are accepted and ignored, as in the source.
- The regular expression and reflection in the peer.hostname handler are modelled as membership in the six literal method names and a field update.
- SpanBuilders.SpanBuilder.AsChildOfSpan and StartActive: the parent span's context is computed but not stored in that span's cache.
- ActiveSpans.ActiveSpanSource.TraceEntity, OnActivate and OnDeactivate: `getTraceEntity` goes through `span.context()`, which fills the span's context cache; here the context is computed without being stored, so these members leave the cache as it was.
- OpenTracing's `NoopSpan.INSTANCE` is a singleton; the model allocates a fresh no-op span per use.
- The no-op forwarding methods of the active-span handle (`log(String)`, `setOperationName`, `setBaggageItem`, `getBaggageItem`) are not modelled separately; they forward to the span's no-op methods.
- A log's field map is a sequence of entries, so its iteration order is fixed by the caller rather than by a hash map.
- LocalStacks: storage is allocated only by `push`; a read of a thread without storage sees an empty stack without allocating.
- TracingUtils.SetUserId and AddExceptionInActive require the active handle to be consistent (its span's HTTP maps and cache agree with its entity), which every handle the model creates is.

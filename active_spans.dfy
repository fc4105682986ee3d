/** `XRayActiveSpan` and `XRayActiveSpanSource`: reference-counted handles on
    a span, kept on a per-thread stack. The listeners the source gives each
    handle are the source's `OnActivate` / `OnDeactivate`, reached through the
    handle's `source`. Threads are explicit ids. */
module ActiveSpans {
  import opened Values
  import opened Recorders
  import opened SpanContexts
  import opened Spans
  import opened LocalStacks

  /** What a handle's reference count sees: a capture or a deactivation. */
  datatype RefOp = CaptureOp | DeactivateOp

  /** One step of the counter: the new count, and whether `finish` is called.
      The count is a plain `int` and may go below zero. */
  function Step(count: int, op: RefOp): (r: (int, bool))
    ensures op == CaptureOp ==> r == (count + 1, false)
    ensures op == DeactivateOp ==> r.0 == count - 1 && (r.1 <==> count == 1)
  {
    match op
    case CaptureOp => (count + 1, false)
    case DeactivateOp => (count - 1, count - 1 == 0)
  }

  /** For each operation in turn, whether it called `finish`. */
  function Fires(count: int, ops: seq<RefOp>): (r: seq<bool>)
    ensures |r| == |ops|
    decreases ops
  {
    if ops == [] then [] else [Step(count, ops[0]).1] + Fires(Step(count, ops[0]).0, ops[1..])
  }

  function Repeat<T>(x: T, n: nat): (r: seq<T>)
    ensures |r| == n && forall i :: 0 <= i < n ==> r[i] == x
  {
    if n == 0 then [] else [x] + Repeat(x, n - 1)
  }

  /** Deactivations from a count at or below zero never finish. */
  lemma {:induction false} DeactivationsBelowOneNeverFire(count: int, m: nat)
    requires count <= 0
    ensures Fires(count, Repeat(DeactivateOp, m)) == Repeat(false, m)
    decreases m
  {
    if m > 0 {
      assert Repeat(DeactivateOp, m)[1..] == Repeat(DeactivateOp, m - 1);
      DeactivationsBelowOneNeverFire(count - 1, m - 1);
    }
  }

  /** From count `c >= 1`, `c` deactivations fire only on the last; any further
      ones never fire. */
  lemma {:induction false} DeactivationsFromCount(c: nat, m: nat)
    requires c >= 1
    ensures Fires(c, Repeat(DeactivateOp, c + m)) == Repeat(false, c - 1) + [true] + Repeat(false, m)
  {
    var ops := Repeat(DeactivateOp, c + m);
    assert ops[1..] == Repeat(DeactivateOp, c - 1 + m);
    if c == 1 {
      DeactivationsBelowOneNeverFire(0, m);
    } else {
      DeactivationsFromCount(c - 1, m);
      assert [false] + (Repeat(false, c - 2) + [true] + Repeat(false, m))
          == Repeat(false, c - 1) + [true] + Repeat(false, m);
    }
  }

  /** Captures never fire and raise the count by one each. */
  lemma {:induction false} CapturesThenOps(count: int, n: nat, rest: seq<RefOp>)
    ensures Fires(count, Repeat(CaptureOp, n) + rest) == Repeat(false, n) + Fires(count + n, rest)
    decreases n
  {
    if n > 0 {
      var ops := Repeat(CaptureOp, n) + rest;
      assert ops[0] == CaptureOp;
      assert ops[1..] == Repeat(CaptureOp, n - 1) + rest;
      CapturesThenOps(count + 1, n - 1, rest);
    } else {
      assert Repeat(CaptureOp, n) + rest == rest;
    }
  }

  /** A new handle (count 1) captured `n` times and then deactivated
      `n + 1 + m` times calls `finish` exactly once, on deactivation `n + 1`. */
  lemma CapturesThenDeactivations(n: nat, m: nat)
    ensures Fires(1, Repeat(CaptureOp, n) + Repeat(DeactivateOp, n + 1 + m))
         == Repeat(false, 2 * n) + [true] + Repeat(false, m)
  {
    CapturesThenOps(1, n, Repeat(DeactivateOp, n + 1 + m));
    DeactivationsFromCount(n + 1, m);
    assert Repeat(false, n) + Repeat(false, n) == Repeat(false, 2 * n);
  }

  class ActiveSpan {
    const span: Span
    /** The source whose listeners this handle calls. */
    const source: ActiveSpanSource
    var count: int
    /** The continuation, created on first capture. */
    var continuation: Continuation?
    /** How many times this handle has called `span.finish()`. */
    ghost var finishCalls: nat

    /** The span is usable and finishes through the source's recorder. */
    ghost predicate Valid()
      reads this, span, span.entity, source, source.localStack, source.recorder
    {
      && span.Valid() && (span.recorder == null || span.recorder == source.recorder)
      && source.Valid() && Owned()
    }

    /** The continuation, once created, belongs to this handle. */
    ghost predicate Owned()
      reads this
    {
      continuation != null ==> continuation.handle == this
    }

    constructor (span: Span, source: ActiveSpanSource)
      ensures this.span == span && this.source == source
      ensures count == 1 && IsActive() && continuation == null && finishCalls == 0 && Owned()
    {
      this.span, this.source := span, source;
      count, continuation, finishCalls := 1, null, 0;
    }

    /** `isActive()`: some activation has not been deactivated yet. */
    predicate IsActive()
      reads this
    {
      count > 0
    }

    /** `deactivate()`: drop one reference; the last one finishes the span.
        The deactivate listener runs every time, whatever the count. */
    method Deactivate(t: ThreadId)
      requires Valid()
      modifies this, span, source.localStack, source.recorder
      ensures Valid()
      ensures count == Step(old(count), DeactivateOp).0 && continuation == old(continuation)
      ensures finishCalls == old(finishCalls) + (if Step(old(count), DeactivateOp).1 then 1 else 0)
      ensures old(count) == 1 ==> span.ended || span.variant == NoopSpan
      ensures old(count) != 1 ==> span.ended == old(span.ended)
      ensures source.recorder.calls == old(source.recorder.calls)
        + (if old(count) == 1 && !old(span.ended) && span.variant != NoopSpan then [span.EndCall()] else [])
      ensures source.Popped(t, old(source.localStack.Stack(t)))
      ensures source.recorder.current - {t} == old(source.recorder.current) - {t}
      ensures source.localStack.stacks - {t} == old(source.localStack.stacks) - {t}
      ensures span.httpRequest == old(span.httpRequest) && span.httpResponse == old(span.httpResponse)
      ensures span.spanContext == old(span.spanContext)
    {
      count := count - 1;
      if count == 0 {
        finishCalls := finishCalls + 1;
        span.Finish(t);
      }
      source.OnDeactivate(t);
    }

    /** `close()` is `deactivate()`. */
    method Close(t: ThreadId)
      requires Valid()
      modifies this, span, source.localStack, source.recorder
      ensures Valid()
      ensures count == Step(old(count), DeactivateOp).0 && continuation == old(continuation)
      ensures finishCalls == old(finishCalls) + (if Step(old(count), DeactivateOp).1 then 1 else 0)
      ensures old(count) == 1 ==> span.ended || span.variant == NoopSpan
      ensures old(count) != 1 ==> span.ended == old(span.ended)
      ensures source.recorder.calls == old(source.recorder.calls)
        + (if old(count) == 1 && !old(span.ended) && span.variant != NoopSpan then [span.EndCall()] else [])
      ensures source.Popped(t, old(source.localStack.Stack(t)))
      ensures source.recorder.current - {t} == old(source.recorder.current) - {t}
      ensures source.localStack.stacks - {t} == old(source.localStack.stacks) - {t}
      ensures span.httpRequest == old(span.httpRequest) && span.httpResponse == old(span.httpResponse)
      ensures span.spanContext == old(span.spanContext)
    {
      Deactivate(t);
    }

    /** `capture()`: one more reference; every capture hands out the same
        continuation. */
    method Capture() returns (c: Continuation)
      requires Owned()
      modifies this
      ensures Owned()
      ensures count == Step(old(count), CaptureOp).0 && finishCalls == old(finishCalls)
      ensures c == continuation && c.handle == this
      ensures old(continuation) != null ==> c == old(continuation)
      ensures old(continuation) == null ==> fresh(c)
    {
      if continuation == null {
        continuation := new Continuation(this);
      }
      count := count + 1;
      c := continuation;
    }

    method SetTag(key: string, value: Obj) returns (err: Option<Taggers.TagError>)
      requires Valid()
      modifies span, span.entity
      ensures Valid() && span.TagFrame()
      ensures span.entity == null ==> err.None?
      ensures span.entity != null ==>
        (span.State(), err) == Taggers.TagEffect(old(span.State()), span.variant == SegmentSpan, key, value)
    {
      err := span.SetTag(key, value);
    }

    method Log(fields: seq<(string, Obj)>)
      requires Valid()
      modifies span.entity
      ensures Valid()
      ensures span.entity != null ==> span.entity.exceptions == old(span.entity.exceptions) + Throwables(fields)
      ensures span.entity != null ==> span.entity.fault == (old(span.entity.fault) || Throwables(fields) != [])
      ensures span.entity != null ==> span.entity.KeepsAllButExceptionsAndFault()
    {
      span.Log(fields);
    }

    /** `log(eventName, payload)`: the pair is logged as a two-field map. */
    method LogPayload(eventName: string, payload: Obj)
      requires Valid()
      modifies span.entity
      ensures Valid()
      ensures span.entity != null ==>
        span.entity.exceptions == old(span.entity.exceptions) + (if payload.Thrown? then [payload.t] else [])
      ensures span.entity != null ==> span.entity.fault == (old(span.entity.fault) || payload.Thrown?)
      ensures span.entity != null ==> span.entity.KeepsAllButExceptionsAndFault()
    {
      var fields := CreateLogs(eventName, payload);
      PayloadThrowables(eventName, payload);
      span.Log(fields);
    }

    method Context() returns (c: SpanContext)
      requires Valid()
      modifies span
      ensures Valid() && c == span.ContextValue()
      ensures old(span.spanContext).Some? ==> span.spanContext == old(span.spanContext)
      ensures span.entity != null ==> span.spanContext == Some(FromEntity(span.entity))
      ensures span.ended == old(span.ended)
      ensures span.httpRequest == old(span.httpRequest) && span.httpResponse == old(span.httpResponse)
    {
      c := span.Context();
    }
  }

  /** `createLogs`: the map with exactly the keys "event" and "payload".
      The sequence gives one iteration order of that map. */
  function CreateLogs(eventName: string, payload: Obj): (r: seq<(string, Obj)>)
    ensures |r| == 2 && r[0].0 != r[1].0
    ensures (set i | 0 <= i < |r| :: r[i].0) == {"event", "payload"}
    ensures forall i :: 0 <= i < |r| && r[i].0 == "event" ==> r[i].1 == Str(eventName)
    ensures forall i :: 0 <= i < |r| && r[i].0 == "payload" ==> r[i].1 == payload
  {
    var r := [("event", Str(eventName)), ("payload", payload)];
    assert (set i | 0 <= i < |r| :: r[i].0) == {"event", "payload"} by {
      assert r[0].0 == "event" && r[1].0 == "payload";
    }
    r
  }

  /** Logging an event with a payload records the payload if, and only if, it
      is a throwable; the event name never is. */
  lemma PayloadThrowables(eventName: string, payload: Obj)
    ensures Throwables(CreateLogs(eventName, payload)) == if payload.Thrown? then [payload.t] else []
  {
    var r := CreateLogs(eventName, payload);
    assert r[..1][..0] == [];
    assert r[..|r| - 1] == r[..1];
    assert r[0].1 == Str(eventName);
    assert Throwables(r[..1]) == [];
  }

  /** `C`: the continuation of one handle. */
  class Continuation {
    const handle: ActiveSpan

    constructor (handle: ActiveSpan)
      ensures this.handle == handle
    {
      this.handle := handle;
    }

    /** `activate()`: run the activate listener and hand back the same handle;
        the count does not change. */
    method Activate(t: ThreadId) returns (h: ActiveSpan)
      requires handle.Valid()
      modifies handle.source.localStack, handle.source.recorder
      ensures handle.Valid()
      ensures h == handle && h.count == old(h.count)
      ensures handle.source.localStack.Stack(t) == old(handle.source.localStack.Stack(t)) + [handle]
      ensures handle.source.recorder.Current(t) == handle.span.entity
      ensures handle.source.recorder.calls == old(handle.source.recorder.calls)
      ensures handle.source.localStack.stacks - {t} == old(handle.source.localStack.stacks) - {t}
      ensures handle.source.recorder.current - {t} == old(handle.source.recorder.current) - {t}
    {
      handle.source.OnActivate(t, handle);
      h := handle;
    }
  }

  class ActiveSpanSource {
    const recorder: Recorder
    const localStack: LocalStack<ActiveSpan>

    /** The recorder is consistent and every handle on any stack holds a
        well-formed span. */
    ghost predicate Valid()
      reads this, localStack, recorder
    {
      && recorder.Valid()
      && forall t, h :: h in localStack.Stack(t) ==> h.span.WellFormed()
    }

    constructor (recorder: Recorder)
      requires recorder.Valid()
      ensures Valid() && this.recorder == recorder && fresh(localStack)
      ensures forall t :: localStack.Stack(t) == []
    {
      this.recorder := recorder;
      localStack := new LocalStack<ActiveSpan>();
    }

    function Top(t: ThreadId): ActiveSpan
      requires localStack.Stack(t) != []
      reads this, localStack
    {
      localStack.Stack(t)[|localStack.Stack(t)| - 1]
    }

    /** After a pop on thread `t`, from the stack `before`: the top is gone and
        the recorder's entity is the new top's, or none. */
    ghost predicate Popped(t: ThreadId, before: seq<ActiveSpan>)
      reads this, localStack, recorder
    {
      && localStack.Stack(t) == (if before == [] then [] else before[..|before| - 1])
      && recorder.Current(t) == (if localStack.Stack(t) == [] then null else Top(t).span.entity)
    }

    /** `getTraceEntity`: the entity of the handle's span context when that is
        an X-Ray context, and null for any other (a no-op span's). */
    function TraceEntity(h: ActiveSpan): (e: Entity?)
      requires h.span.WellFormed()
      ensures e == h.span.entity
      ensures e != null ==> e.Shaped()
    {
      var c := h.span.ContextValue();
      if c.XRay? then c.ctx.entity else null
    }

    /** The handle `activeSpan()` returns on thread `t`. */
    function ActiveOf(t: ThreadId): ActiveSpan?
      reads this, localStack, localStack.Stack(t)
    {
      if localStack.Stack(t) != [] && Top(t).IsActive() then Top(t) else null
    }

    /** `activeSpan()`: the top handle of the thread's stack if it is still
        active, otherwise null. */
    method Active(t: ThreadId) returns (r: ActiveSpan?)
      ensures r == ActiveOf(t)
      ensures localStack.Stack(t) == [] ==> r == null
      ensures localStack.Stack(t) != [] ==> (r != null <==> Top(t).count > 0)
      ensures r != null ==> r == Top(t)
    {
      var empty := localStack.IsEmpty(t);
      if empty {
        r := null;
      } else {
        var h := localStack.Get(t);
        if h.IsActive() {
          r := h;
        } else {
          r := null;
        }
      }
    }

    /** `makeActive(span)`: push a new handle with count 1. The recorder's
        current entity is left as it is. */
    method MakeActive(t: ThreadId, span: Span) returns (h: ActiveSpan)
      requires Valid() && span.WellFormed()
      modifies localStack
      ensures Valid()
      ensures fresh(h) && h.span == span && h.source == this
      ensures h.count == 1 && h.continuation == null && h.finishCalls == 0
      ensures localStack.Stack(t) == old(localStack.Stack(t)) + [h]
      ensures localStack.stacks - {t} == old(localStack.stacks) - {t}
      ensures recorder.current == old(recorder.current) && recorder.calls == old(recorder.calls)
    {
      h := new ActiveSpan(span, this);
      localStack.Push(t, h);
    }

    /** The activate listener: push the handle and make its entity current. */
    method OnActivate(t: ThreadId, h: ActiveSpan)
      requires Valid() && h.span.WellFormed()
      modifies localStack, recorder
      ensures Valid()
      ensures localStack.Stack(t) == old(localStack.Stack(t)) + [h]
      ensures localStack.stacks - {t} == old(localStack.stacks) - {t}
      ensures recorder.Current(t) == h.span.entity && recorder.calls == old(recorder.calls)
      ensures recorder.current - {t} == old(recorder.current) - {t}
    {
      localStack.Push(t, h);
      recorder.SetTraceEntity(t, TraceEntity(h));
    }

    /** The deactivate listener: pop the top (whichever handle it is) and make
        the new top's entity current, or clear it. */
    method OnDeactivate(t: ThreadId)
      requires Valid()
      modifies localStack, recorder
      ensures Valid()
      ensures Popped(t, old(localStack.Stack(t)))
      ensures localStack.stacks - {t} == old(localStack.stacks) - {t}
      ensures recorder.calls == old(recorder.calls)
      ensures recorder.current - {t} == old(recorder.current) - {t}
    {
      var _ := localStack.Pop(t);
      var empty := localStack.IsEmpty(t);
      if empty {
        recorder.SetTraceEntity(t, null);
      } else {
        var top := localStack.Get(t);
        recorder.SetTraceEntity(t, TraceEntity(top));
      }
    }
  }

  /** LIFO: activating a span and closing the returned handle leaves the
      thread's stack as it was, and finishes the span. */
  method ActivateThenClose(source: ActiveSpanSource, t: ThreadId, span: Span) returns (h: ActiveSpan)
    requires source.Valid() && span.Valid() && (span.recorder == null || span.recorder == source.recorder)
    modifies source.localStack, source.recorder, span
    ensures source.localStack.Stack(t) == old(source.localStack.Stack(t))
    ensures h.count == 0 && h.finishCalls == 1
    ensures span.ended || span.variant == NoopSpan
  {
    ghost var before := source.localStack.Stack(t);
    h := source.MakeActive(t, span);
    ghost var pushed := source.localStack.Stack(t);
    assert pushed == before + [h];
    h.Close(t);
    assert pushed[..|pushed| - 1] == before;
  }
}

/** `TracingUtils`: helpers that record an exception or the user id on the
    active span of a tracer, doing nothing when there is none. The global
    tracer the one-argument forms look up is passed in explicitly. */
module TracingUtils {
  import opened Values
  import opened Taggers
  import opened Spans
  import opened ActiveSpans
  import opened Tracers

  /** The map `addException` logs: the throwable under "error". */
  function ErrorFields(thr: Throwable): (r: seq<(string, Obj)>)
    ensures |r| == 1 && r[0] == ("error", Thrown(thr))
    ensures Throwables(r) == [thr]
  {
    var r := [("error", Thrown(thr))];
    assert r[..0] == [];
    r
  }

  /** The throwables an `addException` call records: none for null. */
  function Recorded(thr: Option<Throwable>): seq<Throwable>
  {
    if thr.Some? then [thr.value] else []
  }

  /** `execute(tracer, f)`: the active span `f` runs on, or null when there
      is no tracer or no active span, in which case `f` does not run. */
  method Execute(tracer: Tracer?, t: ThreadId) returns (a: ActiveSpan?)
    requires tracer != null ==> tracer.Valid()
    ensures tracer == null ==> a == null
    ensures tracer != null ==> a == tracer.source.ActiveOf(t)
    ensures a != null ==> a.IsActive() && a == tracer.source.Top(t)
  {
    if tracer == null {
      return null;
    }
    a := tracer.source.Active(t);
  }

  /** `addException(Span, Throwable)`: a non-null throwable is logged under
      "error" and lands in the entity's exceptions. */
  method AddException(span: Span, thr: Option<Throwable>)
    requires span.Valid()
    modifies span.entity
    ensures span.Valid()
    ensures span.entity != null ==> span.entity.exceptions == old(span.entity.exceptions) + Recorded(thr)
    ensures span.entity != null ==> span.entity.fault == (old(span.entity.fault) || thr.Some?)
    ensures span.entity != null ==> span.entity.KeepsAllButExceptionsAndFault()
  {
    if thr.Some? {
      span.Log(ErrorFields(thr.value));
    }
  }

  /** `addException(ActiveSpan, Throwable)`: the same, through the handle. */
  method AddExceptionToActive(h: ActiveSpan, thr: Option<Throwable>)
    requires h.Valid()
    modifies h.span.entity
    ensures h.Valid()
    ensures h.span.entity != null ==> h.span.entity.exceptions == old(h.span.entity.exceptions) + Recorded(thr)
    ensures h.span.entity != null ==> h.span.entity.fault == (old(h.span.entity.fault) || thr.Some?)
    ensures h.span.entity != null ==> h.span.entity.KeepsAllButExceptionsAndFault()
  {
    if thr.Some? {
      h.Log(ErrorFields(thr.value));
    }
  }

  /** The entity of the thread's active span, if any. */
  function ActiveEntity(tracer: Tracer, t: ThreadId): Recorders.Entity?
    reads tracer, tracer.source, tracer.source.localStack, tracer.source.localStack.Stack(t)
  {
    var a := tracer.source.ActiveOf(t);
    if a == null then null else a.span.entity
  }

  /** The span of the thread's active span, if any. */
  function ActiveSpanOf(tracer: Tracer, t: ThreadId): Span?
    reads tracer, tracer.source, tracer.source.localStack, tracer.source.localStack.Stack(t)
  {
    var a := tracer.source.ActiveOf(t);
    if a == null then null else a.span
  }

  /** `addException(Throwable)`: record it on the active span of the global
      tracer, if there is one. */
  method AddExceptionInActive(tracer: Tracer?, t: ThreadId, thr: Option<Throwable>)
    requires tracer != null ==> tracer.Valid()
    requires tracer != null && tracer.source.ActiveOf(t) != null ==> tracer.source.ActiveOf(t).Valid()
    modifies if tracer != null && ActiveEntity(tracer, t) != null then {ActiveEntity(tracer, t)} else {}
    ensures tracer != null && old(ActiveEntity(tracer, t)) != null ==>
      var e := old(ActiveEntity(tracer, t));
      && e.exceptions == old(e.exceptions) + Recorded(thr)
      && e.fault == (old(e.fault) || thr.Some?)
      && e.KeepsAllButExceptionsAndFault()
  {
    var a := Execute(tracer, t);
    if a != null {
      AddExceptionToActive(a, thr);
    }
  }

  /** The tag value a user id is set as; `None` stands for a null id. */
  function UserValue(userId: Option<string>): Obj
  {
    if userId.Some? then Str(userId.value) else NullObj
  }

  /** `setUserId(tracer, userId)`: the "user" tag on the active span, which
      sets the user of a segment and fails with a class cast on a
      subsegment. `None` stands for a null id. */
  method SetUserId(tracer: Tracer?, t: ThreadId, userId: Option<string>) returns (err: Option<TagError>)
    requires tracer != null ==> tracer.Valid()
    requires tracer != null && tracer.source.ActiveOf(t) != null ==> tracer.source.ActiveOf(t).Valid()
    modifies if tracer != null && ActiveSpanOf(tracer, t) != null then {ActiveSpanOf(tracer, t)} else {}
    modifies if tracer != null && ActiveEntity(tracer, t) != null then {ActiveEntity(tracer, t)} else {}
    ensures tracer == null || old(ActiveEntity(tracer, t)) == null ==> err.None?
    ensures tracer != null && old(ActiveSpanOf(tracer, t)) != null ==> old(ActiveSpanOf(tracer, t)).TagFrame()
    ensures tracer != null && old(ActiveEntity(tracer, t)) != null ==>
      var s := old(ActiveSpanOf(tracer, t));
      && s.entity != null
      && (s.State(), err) == TagEffect(old(s.State()), s.variant == SegmentSpan, UserKey, UserValue(userId))
  {
    err := None;
    var a := Execute(tracer, t);
    if a != null {
      err := a.SetTag(UserKey, UserValue(userId));
    }
  }

  /** The user id reaches the entity exactly when the active span is a
      segment, a null id as the text "null"; on a subsegment nothing changes
      and the cast fails. */
  lemma SetUserIdEffect(f: EntityFields, isSegment: bool, userId: Option<string>)
    ensures var r := TagEffect(f, isSegment, UserKey, UserValue(userId));
      && (isSegment ==> r.1.None? && r.0 == f.(user := Some(if userId.Some? then userId.value else "null")))
      && (!isSegment ==> r.1 == Some(ClassCast(UserKey)) && r.0 == f)
  {
    UserTagEffect(f, isSegment, UserValue(userId));
  }
}

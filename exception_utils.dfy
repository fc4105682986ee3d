/** `ExceptionUtils.wrap`: turn any throwable into an unchecked one. */
module ExceptionUtils {
  import opened Values
  import StringUtils

  const RuntimeExceptionClass := "java.lang.RuntimeException"

  /** `new RuntimeException(message, cause)`. */
  function NewRuntimeException(message: Option<string>, cause: Option<Throwable>): Throwable
  {
    Throwable(RuntimeExceptionClass, RuntimeKind, message, cause)
  }

  /** The message `new RuntimeException(cause)` takes: `cause.toString()`,
      or null when there is no cause. */
  function CauseMessage(cause: Option<Throwable>): Option<string>
  {
    if cause.Some? then Some(ThrowableToString(cause.value)) else None
  }

  /** `wrap(message, throwable)`: a `RuntimeException` is returned as it is;
      anything else (a checked exception, an `Error`, or null) becomes the
      cause of a new `RuntimeException` that carries `message` when it is not
      blank. */
  function Wrap(message: Option<string>, throwable: Option<Throwable>): (r: Throwable)
    ensures r.kind == RuntimeKind
  {
    if throwable.Some? && throwable.value.kind == RuntimeKind then
      throwable.value
    else if !StringUtils.Blank(message) then
      NewRuntimeException(message, throwable)
    else
      NewRuntimeException(CauseMessage(throwable), throwable)
  }

  /** `wrap(throwable)`, which delegates to `wrap(null, throwable)`. */
  function WrapThrowable(throwable: Option<Throwable>): (r: Throwable)
    ensures r.kind == RuntimeKind
  {
    Wrap(None, throwable)
  }

  lemma RuntimeExceptionUnchanged(message: Option<string>, t: Throwable)
    requires t.kind == RuntimeKind
    ensures Wrap(message, Some(t)) == t
  {
  }

  /** A checked throwable (or an `Error`) is wrapped: the cause is kept, and
      the message is the given one exactly when it is not blank. */
  lemma CheckedIsWrapped(message: Option<string>, t: Throwable)
    requires t.kind != RuntimeKind
    ensures Wrap(message, Some(t)).cause == Some(t)
    ensures Wrap(message, Some(t)).className == RuntimeExceptionClass
    ensures !StringUtils.Blank(message) ==> Wrap(message, Some(t)).message == message
    ensures StringUtils.Blank(message) ==> Wrap(message, Some(t)).message == Some(ThrowableToString(t))
  {
  }

  /** Wrapping twice is wrapping once: the result is already unchecked. */
  lemma WrapIdempotent(m1: Option<string>, m2: Option<string>, t: Option<Throwable>)
    ensures Wrap(m2, Some(Wrap(m1, t))) == Wrap(m1, t)
  {
  }

  lemma WrapThrowableIsWrapWithoutMessage(t: Option<Throwable>)
    ensures WrapThrowable(t) == Wrap(None, t)
    ensures t.Some? && t.value.kind != RuntimeKind ==> WrapThrowable(t).message == Some(ThrowableToString(t.value))
  {
  }
}

/** Values shared by the whole model: optional values (Java's null), thread
    identities, Java throwables and the dynamically typed `Object` values that
    tags and log fields carry. */
module Values {

  /** `None` stands for Java's `null`. */
  datatype Option<+T> = None | Some(value: T)

  /** Threads are explicit: every per-thread operation names its caller. */
  type ThreadId = nat

  /** How a throwable relates to `RuntimeException`: a `RuntimeException`
      (or subclass), a `java.lang.Error`, or a checked exception. */
  datatype ThrowableKind = RuntimeKind | ErrorKind | CheckedKind

  datatype Throwable = Throwable(
    className: string,
    kind: ThrowableKind,
    message: Option<string>,
    cause: Option<Throwable>)

  /** `Throwable.toString()`: the class name, then ": message" when there is one. */
  function ThrowableToString(t: Throwable): string
  {
    if t.message.Some? then t.className + ": " + t.message.value else t.className
  }

  /** A Java `Object` as it reaches a tag or a log field. */
  datatype Obj = Str(s: string) | Bool(b: bool) | Num(n: int) | Thrown(t: Throwable) | NullObj

  function DigitChar(d: nat): char
    requires d < 10
  {
    "0123456789"[d]
  }

  function NatToString(n: nat): (r: string)
    ensures |r| > 0
  {
    if n < 10 then [DigitChar(n)] else NatToString(n / 10) + [DigitChar(n % 10)]
  }

  /** `Integer.toString`. */
  function IntToString(n: int): string
  {
    if n < 0 then "-" + NatToString(-n) else NatToString(n)
  }

  /** `String.valueOf(Object)`. */
  function ValueOf(o: Obj): string
  {
    match o
    case Str(s) => s
    case Bool(b) => if b then "true" else "false"
    case Num(n) => IntToString(n)
    case Thrown(t) => ThrowableToString(t)
    case NullObj => "null"
  }
}

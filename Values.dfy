/**
 * The Java runtime notions shared by every part of the model: `null`, `int`,
 * the `Object` values held in a `Map<String, Object>` snapshot, `LocalDate`,
 * and the exceptions the core throws.
 */
module Values {

  datatype Option<+T> = None | Some(value: T)

  /** Either a value or the exception that was thrown instead of producing it. */
  datatype Result<+T, +E> = Ok(value: T) | Err(error: E) {
    predicate IsFailure() { Err? }

    function PropagateFailure<U>(): Result<U, E>
      requires Err?
    {
      Err(error)
    }

    function Extract(): T
      requires Ok?
    {
      value
    }
  }

  /** A Java `int`. */
  type Int32 = x: int | -0x8000_0000 <= x < 0x8000_0000

  /**
   * A value of a snapshot map: `null`, a `String`, an `Integer` or a `List`.
   * Equality of two values is Java's `equals` on them (`Objects.equals` when
   * either may be `null`).
   */
  datatype Value =
    | Null
    | Str(s: string)
    | Int(i: Int32)
    | List(items: seq<Value>)

  /** `Map.get`: `null` both for an absent key and for a key mapped to `null`. */
  function Get(m: map<string, Value>, key: string): Value
  {
    if key in m then m[key] else Null
  }

  /** A `String` field or getter result as a value: `null` stays `null`. */
  function StrOrNull(s: Option<string>): Value
  {
    match s
    case None => Null
    case Some(t) => Str(t)
  }

  /** `java.time.LocalDate`, compared only for equality. */
  datatype LocalDate = LocalDate(year: int, month: int, day: int)

  /**
   * Why an argument was refused: by a validating setter, or (`EmptyKey`) by
   * the JDK's `System.getProperty`, which refuses an empty key.
   */
  datatype Rejection = LengthOutOfRange | PatternMismatch | NegativeId | EmptyKey

  datatype Exception =
    | IllegalArgument(reason: Rejection)
    | IllegalState(message: string)
    | NullPointer
    | ClassCast
    | Runtime(message: string)
    | IO

  /** How a `void` Java method ended: normally or by throwing. */
  datatype Outcome = Normal | Threw(exception: Exception)
}

/** Values shared by every module: Python's `X | None`, a success-or-error
    result for validators that raise, and the plain data that appears as a
    parameter default, a tool-call argument or entry metadata. */
module Common {

  /** `X | None`: `None` is absence, `Some(v)` a present value. */
  datatype Option<+T> = None | Some(value: T) {

    /** `x if x is not None else default` */
    function GetOr(default: T): T {
      match this
      case Some(v) => v
      case None => default
    }
  }

  /** The outcome of a validator: the validated value, or the message of the
      `ValueError` it raises. */
  datatype Result<+T, +E> = Success(value: T) | Failure(error: E)

  /** A Python value as far as the modelled code looks at it. Defaults are
      stored and handed on, never inspected, so any object other than these
      is represented by `ObjectValue`. */
  datatype Value =
    | NoneValue
    | BoolValue(b: bool)
    | IntValue(i: int)
    | StrValue(s: string)
    | ListValue(items: seq<Value>)
    | DictValue(entries: map<string, Value>)
    | ObjectValue(repr: string)
}

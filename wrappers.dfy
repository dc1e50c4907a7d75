/** Option and Result values used where the TypeScript code returns `null`/`undefined`
    or throws an `Error`. */
module Wrappers {

  /** A value that may be absent (`T | null` or `T | undefined`). */
  datatype Option<+T> = None | Some(value: T)

  /** The outcome of code that may throw: the value, or the thrown error's message. */
  datatype Result<+T> = Ok(value: T) | Err(error: string)

  /** `a || b` on values that are objects or null: the first one present. */
  function OrElse<T>(a: Option<T>, b: Option<T>): Option<T>
  {
    if a.Some? then a else b
  }

  /** The value as a list of zero or one elements (`if (x) out.push(x)`). */
  function OptionToSeq<T>(o: Option<T>): seq<T>
  {
    if o.Some? then [o.value] else []
  }
}

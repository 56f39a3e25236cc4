/** Outcome types shared by every module of the model. */
module Wrappers {

  datatype Option<+T> = None | Some(value: T)

  /** The outcome of a fallible step: a value, an `anyhow` error handed back
      to the caller (the `?` operator), or a panic (`unwrap` on a failure,
      `assert!`, `unimplemented!`, an index out of bounds), after which the
      calling task does nothing more. */
  datatype Result<+T> = Ok(value: T) | Err(msg: string) | Panic(reason: string)

  /** The failure of `r` carried over to another value type. */
  function Propagate<T, U>(r: Result<T>): (p: Result<U>)
    requires !r.Ok?
    ensures p.Err? <==> r.Err?
    ensures p.Err? ==> p.msg == r.msg
    ensures p.Panic? ==> p.reason == r.reason
  {
    match r
    case Err(m) => Err(m)
    case Panic(p) => Panic(p)
  }

  const UNWRAP_PANIC := "called `Result::unwrap()` on an `Err` value"
  const UNWRAP_NONE_PANIC := "called `Option::unwrap()` on a `None` value"

  /** `.unwrap()` on an outcome: every failure becomes a panic. */
  function Unwrap<T>(r: Result<T>): (u: Result<T>)
    ensures r.Ok? ==> u == r
    ensures !r.Ok? ==> u.Panic?
  {
    match r
    case Ok(v) => Ok(v)
    case Err(_) => Panic(UNWRAP_PANIC)
    case Panic(p) => Panic(p)
  }
}

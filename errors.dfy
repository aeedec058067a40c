/** The error model shared by every component: JavaScript `null`/`undefined`
    becomes `Option`, a thrown `Error` becomes `Result.Err` carrying its message,
    and the three assertion helpers of packages/daimo-common/src/assert.ts. */
module Errors {

  datatype Option<+T> = None | Some(value: T) {
    function GetOr(default: T): T {
      match this
      case Some(v) => v
      case None => default
    }
  }

  /** A computation that either returns a value or throws an `Error(msg)`. */
  datatype Result<+T> = Ok(value: T) | Err(msg: string)

  const AssertionFailed: string := "Assertion failed"
  const Unreachable: string := "Unreachable"

  /** `msg || "Assertion failed"`: an absent or empty message is falsy. */
  function ErrorMessage(msg: Option<string>): (m: string)
    ensures m != ""
    ensures msg.Some? && msg.value != "" ==> m == msg.value
  {
    if msg.Some? && msg.value != "" then msg.value else AssertionFailed
  }

  /** `assert(condition, msg?)`: returns normally iff the condition holds. */
  function Assert(condition: bool, msg: Option<string>): (r: Result<()>)
    ensures r.Ok? <==> condition
    ensures !condition ==> r.msg == ErrorMessage(msg)
    ensures !condition && msg.None? ==> r.msg == AssertionFailed
  {
    if condition then Ok(()) else Err(ErrorMessage(msg))
  }

  /** `assertNotNull(value, msg?)`: null and undefined are both `None`. */
  function AssertNotNull<T>(value: Option<T>, msg: Option<string>): (r: Result<T>)
    ensures r.Ok? <==> value.Some?
    ensures value.Some? ==> r.value == value.value
    ensures value.None? ==> r.msg == ErrorMessage(msg)
  {
    match Assert(value.Some?, msg)
    case Err(m) => Err(m)
    case Ok(_) => Ok(value.value)
  }

  /** `assertUnreachable(_: never): never` throws whatever it is given. */
  function AssertUnreachable<T>(): (r: Result<T>)
    ensures r.Err? && r.msg == Unreachable
  {
    Err(Unreachable)
  }
}

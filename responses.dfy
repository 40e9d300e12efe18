/** What a component's `fetch` can come back with, seen from the handler that awaits it.

    The request itself is not modelled: each state transition takes the outcome as a
    parameter. */
module Responses {
  import opened JsValues

  /** A value caught by `catch (error)`: an `Error` instance carries its `message`. */
  datatype Thrown = ErrorInstance(message: string) | NonError

  /** The outcome of one request. `Unreadable` also covers a non-ok response whose body is
      `null`: reading `errorData.error` then throws a TypeError, and the catch shows its message. */
  datatype Response<T> =
    | Ok(body: T)                       // `response.ok`, and the body the handler reads parsed
    | NotOk(errorText: Option<string>)  // not ok; `String(body.error)` when that field is truthy
    | Unreadable(message: string)       // a response arrived but `response.json()` threw
    | Threw(thrown: Thrown)             // `fetch` itself rejected

  /** `error instanceof Error ? error.message : fallback`. */
  function CaughtMessage(t: Thrown, fallback: string): (m: string)
    ensures t.ErrorInstance? ==> m == t.message
    ensures t.NonError? ==> m == fallback
  {
    match t
    case ErrorInstance(msg) => msg
    case NonError => fallback
  }

  /** The message a handler shows when it reads the error body of a failed response and
      rethrows `new Error(errorData.error || notOkText)`. */
  function FailureMessage<T>(r: Response<T>, notOkText: string, nonErrorText: string): (m: string)
    requires !r.Ok?
    ensures r.NotOk? ==> m == r.errorText.GetOr(notOkText)
    ensures r.NotOk? && r.errorText.None? ==> m == notOkText
    ensures r.Unreadable? ==> m == r.message
    ensures r.Threw? ==> m == CaughtMessage(r.thrown, nonErrorText)
  {
    match r
    case NotOk(text) => text.GetOr(notOkText)
    case Unreadable(msg) => msg
    case Threw(t) => CaughtMessage(t, nonErrorText)
  }

  /** The message a handler shows when a non-ok status throws a fixed message without
      reading the body; the same text stands in for a thrown non-`Error`. */
  function FixedFailureMessage<T>(r: Response<T>, fixed: string): (m: string)
    requires !r.Ok?
    ensures r.NotOk? ==> m == fixed
    ensures r.Unreadable? ==> m == r.message
    ensures r.Threw? ==> m == CaughtMessage(r.thrown, fixed)
  {
    match r
    case NotOk(_) => fixed
    case Unreadable(msg) => msg
    case Threw(t) => CaughtMessage(t, fixed)
  }
}

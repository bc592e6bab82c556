/** Values shared by the host process and the renderer: the payloads that cross
    the transport, what a handler may throw, the response envelope
    (`IPCResponse`) and the identities of handler functions. */
module Shared {

  datatype Option<+T> = None | Some(value: T) {
    function GetOr(default: T): T {
      match this
      case Some(v) => v
      case None => default
    }
  }

  /** A payload as the structured-clone transport carries it. Numbers are
      modelled as integers. */
  datatype Value =
    | Undefined
    | Null
    | Bool(b: bool)
    | Number(n: int)
    | Str(s: string)
    | List(items: seq<Value>)
    | Object(fields: map<string, Value>)

  /** What a handler may throw: an `Error` instance, which carries a message,
      or any other value. */
  datatype Thrown = ErrorObject(message: string) | NonError(value: Value)

  /** How one run of a handler ends (the handler itself is code the model
      cannot see, so its outcome is an input). */
  datatype Outcome = Returned(result: Value) | Threw(thrown: Thrown)

  /** `IPCResponse<T>`: `{ success, data?, error? }`; an absent field is `None`. */
  datatype Envelope = Envelope(success: bool, data: Option<Value>, error: Option<string>)

  /** The shape the envelope is meant to have: a success carries no error, a
      failure carries an error and no data. */
  predicate WellFormed(e: Envelope) {
    if e.success then e.error.None? else e.data.None? && e.error.Some?
  }

  const UnknownError: string := "Unknown error"

  /** The identity of a handler function: a decorated method's
      `descriptor.value` (or any function passed to `handle`), the same
      function bound to its window controller, or the implicit close
      handler. */
  datatype Handler = Fn(id: nat) | Bound(target: Handler) | CloseWindow
}

/**
 * The exceptions the crawler can meet, and the shape of a mutating step
 * that may be interrupted by one of them.
 */
module Failures {
  import opened Wrappers

  /** Exceptions `requests.post` can raise. The first four belong to the
      `RequestException` family; `Foreign` stands for anything else. */
  datatype Exc = HttpError | Timeout | ConnectionError | OtherRequestError | Foreign

  /** `HTTPError`, `Timeout` and `ConnectionError` all derive from `RequestException`. */
  predicate IsRequestException(e: Exc) {
    !e.Foreign?
  }

  /** An exception that leaves a fetch, a pass or the constructor. */
  datatype Fault =
    | Uncaught(exc: Exc)      // raised by the transport and not caught by post_uri
    | NoResponse              // AttributeError: `None.json()` after a caught transport failure
    | Undecodable             // the body is not JSON, so `.json()` raises
    | NotIterable             // TypeError: the JSON body is a number, a boolean or null
    | NotSubscriptable        // TypeError: an iterated unit is not a JSON object
    | MissingKey(key: string) // KeyError on a unit's field

  /** The outcome of a Python method that mutates its receiver: either it
      returned with the receiver in its new state, or it raised with the
      receiver in whatever state it had reached (appends already done stay). */
  datatype Step<T> = Done(value: T) | Aborted(fault: Fault, partial: T) {

    /** The receiver's state after the call, however the call ended. */
    function State(): T {
      match this
      case Done(v) => v
      case Aborted(_, p) => p
    }

    /** The exception that ended the call, if any. */
    function Thrown(): Option<Fault> {
      match this
      case Done(_) => None
      case Aborted(f, _) => Some(f)
    }
  }

  /** Turns a final state and an optional pending exception into a step. */
  function Settle<T>(state: T, thrown: Option<Fault>): (r: Step<T>)
    ensures r.State() == state
    ensures r.Thrown() == thrown
  {
    match thrown
    case None => Done(state)
    case Some(f) => Aborted(f, state)
  }
}

/** Error values and the failure-compatible wrappers the query layer returns. */
module Results {

  /** The failures a query can end in.  The two the application throws
      itself carry fixed messages; everything raised by the wallet provider
      or by the RPC client is passed through as an opaque rejection. */
  datatype Error =
    | InvalidAddress
    | NoAddressReturned
    | Rejected(reason: string)

  /** The message the application attaches to the errors it throws. */
  function Message(e: Error): (m: string)
    ensures e.InvalidAddress? ==> m == "Invalid address"
    ensures e.NoAddressReturned? ==> m == "No address returned"
    ensures e.Rejected? ==> m == e.reason
  {
    match e
    case InvalidAddress => "Invalid address"
    case NoAddressReturned => "No address returned"
    case Rejected(reason) => reason
  }

  /** A value that may be absent (`undefined` / `null`). */
  datatype Option<+T> = None | Some(value: T)

  /** Either a value or the error that stopped the computation; usable with `:-`. */
  datatype Result<+T> = Ok(value: T) | Err(error: Error) {

    predicate IsFailure() {
      Err?
    }

    function PropagateFailure<U>(): Result<U>
      requires Err?
    {
      Err(error)
    }

    function Extract(): T
      requires Ok?
    {
      value
    }
  }
}

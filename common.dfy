/** Values shared by the validators, the signed-request client and the order
    composition: Python's dynamically typed dictionary values, the raw numeric
    input that `float()` is applied to, and the exceptions the core raises. */
module Common {

  datatype Option<+T> = None | Some(value: T)

  /** The exceptions the core raises or lets through, named after the Python
      exception classes. */
  datatype Error =
    | ValueError(msg: string)
    | TypeError(msg: string)
    | AttributeError(msg: string)
    // `raise_for_status` on a 4xx/5xx reply: the status and the reply body
    | HTTPError(status: int, body: string)
    // the body of a 2xx reply that `response.json()` cannot decode
    | JSONDecodeError(body: string)
    // any other transport failure (DNS, timeout, connection reset)
    | RequestException(cause: string)

  /** A Python call that either returns a value or raises. */
  datatype Result<+T> = Success(value: T) | Failure(error: Error) {
    predicate IsFailure() { Failure? }
    function PropagateFailure<U>(): Result<U>
      requires Failure?
    {
      Failure(error)
    }
    function Extract(): T
      requires Success?
    {
      value
    }
  }

  /** A dictionary value as the core stores it: strings, Python ints (the
      timestamp, the mock's order id), floats (quantity, price) and booleans. */
  datatype Value = Text(s: string) | Int(i: int) | Float(x: real) | Bool(b: bool)

  /** A raw argument as Python's `float()` sees it. Parsing itself is not
      modelled: an argument is `Missing` (Python `None`), text that `float()`
      rejects, or something `float()` turns into the real `x`. */
  datatype RawNumber = Missing | Unparsable(text: string) | Parsed(x: real)

  /** The dictionary value a raw argument becomes when it is stored as is. */
  function RawValue(n: RawNumber): (v: Option<Value>)
    ensures v.None? <==> n.Missing?
  {
    match n
    case Missing => None
    case Unparsable(t) => Some(Text(t))
    case Parsed(x) => Some(Float(x))
  }
}

/** The Python values and exceptions the device servers work with. */
module Python {

  /** An attribute that may still hold `None`. */
  datatype Option<+T> = None | Some(value: T)

  /** The exceptions the modelled code raises or lets through. */
  datatype Error =
    | GCSError        // the controller link failed, or the controller reported an error
    | AttributeError  // an attribute that `init_device` never assigned
    | TypeError       // subscripting a cached dictionary that is still None
    | KeyError        // an axis missing from a cached dictionary
    | IndexError      // a string too short for the character it indexes
    | ValueError      // a malformed number or command string, an unreachable target

  /** A value, or the exception raised while computing it. */
  datatype Result<+T> = Ok(value: T) | Raise(error: Error) {
    predicate IsFailure() { Raise? }

    function PropagateFailure<U>(): Result<U>
      requires Raise?
    {
      Raise(error)
    }

    function Extract(): T
      requires Ok?
    {
      value
    }
  }

  /** A statement that either completes or raises. */
  datatype Outcome = Pass | Fail(error: Error)

  /** Whether computing `r` raised. */
  function Status<T>(r: Result<T>): Outcome {
    if r.Ok? then Pass else Fail(r.error)
  }

  /** `d[key]` where `d` is a dictionary attribute that may still be None. */
  function Subscript<V>(d: Option<map<string, V>>, key: string): (r: Result<V>)
    ensures r.Ok? <==> d.Some? && key in d.value
    ensures r.Ok? ==> r.value == d.value[key]
  {
    match d
    case None => Raise(TypeError)
    case Some(m) => if key in m then Ok(m[key]) else Raise(KeyError)
  }

}

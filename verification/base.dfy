/** Small failure-compatible wrappers and the configuration-time error taxonomy.
    The Go code reports every configuration error with a panic; the model returns
    a `Failure` carrying one of the `ConfigError` values instead. */
module Base {

  datatype Option<+T> = None | Some(value: T) {
    predicate IsFailure() {
      None?
    }

    function PropagateFailure<U>(): Option<U>
      requires None?
    {
      None
    }

    function Extract(): T
      requires Some?
    {
      value
    }

    function ToResult<E>(error: E): Result<T, E> {
      match this
      case Some(v) => Success(v)
      case None => Failure(error)
    }
  }

  datatype Result<+R, +E> = Success(value: R) | Failure(error: E) {
    predicate IsFailure() {
      Failure?
    }

    function PropagateFailure<U>(): Result<U, E>
      requires Failure?
    {
      Failure(error)
    }

    function Extract(): R
      requires Success?
    {
      value
    }
  }

  /** Every panic the configuration DSL can raise before a request is served. */
  datatype ConfigError =
    | InvalidPattern(pattern: string)           // http.ServeMux rejects an empty pattern
    | DuplicatePattern(pattern: string)         // http.ServeMux rejects a second registration
    | InvalidRegex(regex: string)               // regexp.MustCompile
    | MarshalFailed                             // "unable to marshal Body to json!"
    | CaseOutsideSwitch                         // nil dereference of the current switch
    | DurationParse(op: string, param: string)  // time.ParseDuration failed for `param` of `op`
    | NonStringHeaderValue(name: string)        // failed `v.(string)` on a mapping's response header

  /** Regrouping a wrapped middle part of a concatenation. */
  lemma Regroup<T>(a: seq<T>, b: seq<T>, c: seq<T>, d: seq<T>, e: seq<T>)
    ensures a + (b + c + d) + e == (a + b) + c + (d + e)
  {
  }
}

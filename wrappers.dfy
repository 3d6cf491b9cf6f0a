/** Option stands for a C# reference that may be null; Result for a call that
    either returns or throws. Fault names the exceptions the modelled code raises. */
module Wrappers {

  datatype Option<+T> = None | Some(value: T)

  datatype Result<+T, +E> = Success(value: T) | Failure(error: E) {
    predicate IsFailure() { Failure? }

    function PropagateFailure<U>(): Result<U, E>
      requires Failure?
    {
      Failure(error)
    }

    function Extract(): T
      requires Success?
    {
      value
    }
  }

  /** The exceptions raised while reading response tokens. */
  datatype Fault =
    | NullReference                  // member access through null (`x!.Member`, `foreach` over null)
    | ArgumentNull                   // a LINQ query over a null source, `DateTime.Parse(null)`
    | InvalidKeyAccess               // `token[key]` on a token that is not an object
    | InvalidCast                    // `(JProperty)token` on a token that is not a property
    | UnknownEnumName(name: string)  // `Enum.Parse` on a name the enum does not declare
    | DuplicateKey(key: string)      // `Dictionary.Add` with a key that is already present
    | MalformedDate                  // `DateTime.Parse` on text it does not recognise

  type Outcome<T> = Result<T, Fault>
}

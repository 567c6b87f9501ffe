/** Exceptions of the persistence chain as values. Each layer reports its outcome as a `Result`;
    an exception that a layer does not catch travels upward unchanged, exactly as a raised
    Python exception would. */
module Errors {
  import opened Entities

  /** One constructor per exception class that can reach a caller of the chain. A layer that
      re-raises passes the caught exception as the new exception's single argument (`arg`), so
      the whole chain of re-raises stays visible. */
  datatype Error =
      // raised by the runtime: `in` or `[]` on a store that is None
    | TypeError
      // raised by the runtime: `[]` with a key the store does not hold
    | KeyError(key: Option<int>)
      // raised by the model library: assignment to a field the record type does not declare
    | ValueError
      // mapper layer
    | EntityNotFoundMapperError(identifier: int)
    | CreateMapperError(arg: Error)
    | UpdateMapperError(arg: Error)
      // repository layer
    | EntityNotFoundError(arg: Error)
    | CreateError(arg: Error)
    | UpdateError(arg: Error)
      // use-case layer; NotFoundError specialises UseCaseError
    | UseCaseError(arg: Error)
    | NotFoundError(arg: Error)

  /** A call either returns a value or raises an exception. */
  datatype Result<+T> = Ok(value: T) | Raised(error: Error)
}

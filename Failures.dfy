/** Optional values, results and the exception chains the services raise.
    A C# exception is modelled by its family and its inner exception; message
    texts are not modelled. */
module Failures {

  datatype Option<+T> = None | Some(value: T)

  /** The three domain exception classes (ProductException, BasketException,
      OrderException). */
  datatype Family = ProductErr | BasketErr | OrderErr

  /** What a service call can throw:
      - StoreFault: any exception raised by the key-value store client;
      - NullReference: a member access on a null reference;
      - DomainError: one of the domain exceptions, with its inner exception
        (None when it was constructed from a message alone). */
  datatype Exception =
    | StoreFault
    | NullReference
    | DomainError(family: Family, inner: Option<Exception>)

  /** Either the value an operation returns or the exception it throws. */
  datatype Result<+T> = Ok(value: T) | Err(error: Exception)

  /** The outcome of a store call that returns nothing. */
  datatype Outcome = Pass | Fail(error: Exception)

  /** `new XException(message, cause)` inside a catch block. */
  function Wrap(family: Family, cause: Exception): Exception
  {
    DomainError(family, Some(cause))
  }

  /** `new XException(message)`: the "not found" exceptions raised inside a try. */
  function Raised(family: Family): Exception
  {
    DomainError(family, None)
  }
}

/** The exceptions the backend services throw, as values. */
module Failures {

  /** An exception a service operation ends with; the message is the text the
      service puts in it. */
  datatype Failure =
    | ResourceNotFound(message: string)
    | OrderStatusError(message: string)
    | InsufficientStock(message: string)
    | ShippingInfoNotFound(message: string)
    | ShippingInfoAlreadyExists(message: string)
    | AccessDenied(message: string)
    /** `UserNotFoundException`. */
    | NoSuchUser(message: string)
    /** `UserAuthenticationException`. */
    | UserAuthentication(message: string)
    /** A `RuntimeException` (or an unchecked exception of the JDK) that no
        handler distinguishes. */
    | Runtime(message: string)
    /** A `NullPointerException`: a null number unboxed or a null reference
        followed. */
    | NullPointer
}

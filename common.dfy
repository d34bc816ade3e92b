/** Shared vocabulary of the model: optional values, results and the service errors. */
module Common {

  /** Generated identities (JPA `Long` ids). */
  type Id = int

  /** Money in cents: `BigDecimal` with two decimals is exact, so integer cents are too. */
  type Money = int

  /** A Java reference that may be null. */
  datatype Option<+T> = None | Some(value: T)

  /** The entity a not-found error is about. */
  datatype Entity = CustomerEntity | ProductEntity | OrderEntity

  /** The `RuntimeException`s the services throw, told apart by their message. */
  datatype Error =
    | NotFound(entity: Entity, id: Id)           // "<Entity> not found with id: <id>"
    | InsufficientStock(productName: string)     // "Insufficient stock for product: <name>"
    | NotCancellable                             // "Cannot cancel delivered order"
    | DuplicateEmail                             // "Email is already in use!"
    | BadRequest(message: string)                // rejected request (unknown status name, missing field)
    | NullValue                                  // a NullPointerException

  datatype Result<+T> = Ok(value: T) | Err(error: Error)
}

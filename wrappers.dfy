/** Optional values, handler outcomes and the errors the backend's handlers throw. */
module Wrappers {

  datatype Option<+T> = None | Some(value: T)

  /** Why a query, mutation or action threw. */
  datatype Error =
    | StripeCustomerNotCreated      // ERRORS.STRIPE_CUSTOMER_NOT_CREATED
    | StripeSomethingWentWrong      // ERRORS.STRIPE_SOMETHING_WENT_WRONG
    | SubscriptionAlreadyExists     // "Subscription already exists"
    | UserNotFound                  // "User not found"
    | AppNotFoundOrUnauthorized     // "App not found or unauthorized"
    | PlanNotFound                  // "Plan not found"
    | NotUnique                     // `.unique()` met more than one document
    | MissingDocument               // `db.patch` on an id with no document
    | UnsupportedInterval           // `priceMap[interval]` is undefined, so the assignment throws
    | SchemaMismatch                // a written document does not match the table's validator

  /** The outcome of a handler: its return value, or the error it threw. */
  datatype Result<+T> = Ok(value: T) | Err(error: Error)
}

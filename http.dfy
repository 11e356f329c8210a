/** What a route handler sends back: a success body with its status, an error
    status with its `error` message, or the 400 reply of `handleValidation`. */
module Http {
  import Validators

  datatype Reply<+T> =
    | Ok(status: nat, value: T)
    | Fail(status: nat, error: string)
    | Invalid(details: seq<Validators.FieldError>)

  /** The reply when the validation chains collected `errors`, if any. */
  function ValidationReply<T>(errors: seq<Validators.FieldError>): (r: Reply<T>)
    requires errors != []
    ensures r.Invalid? && r.details == errors
    ensures Validators.HandleValidation(errors) == Validators.Reject(400, "Validation failed", r.details)
  {
    Invalid(errors)
  }
}

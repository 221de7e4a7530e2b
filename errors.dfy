/**
 * The error taxonomy of src/errors.js. `BaseError` has no instances of its own;
 * `RequestDenied` extends `FatalError`, which `IsFatal` records.
 */
module Errors {

  datatype Error =
    /** A configuration or transport failure, carrying its message. */
    | FatalError(message: string)
    /** The hub answered an outbound request with a status other than 202. */
    | RequestDenied(status: int)
    /** A failure while processing a notification, carrying its message. */
    | WebhookError(message: string)

  /** True of every error that is an instance of `FatalError`, subclasses included. */
  predicate IsFatal(e: Error)
    ensures IsFatal(e) <==> !e.WebhookError?
  {
    e.FatalError? || e.RequestDenied?
  }

  const MissingClientId := "Twitch Client ID not provided!"
  const MissingCallback := "Callback URL not provided!"
}

// The option and result types and the error surface shared by every module.
module Prelude {
  datatype Option<+T> = None | Some(value: T)

  datatype Result<+T> = Ok(value: T) | Err(error: PortalError)

  // A 128-bit identifier.
  type Uuid = n: nat | n < 0x1_0000_0000_0000_0000_0000_0000_0000_0000 witness 0

  // What an internal error, a refused input and a missing record say of
  // themselves. `detail` is the text of the part that failed.
  datatype Cause = OutOfRange | VerifierFailed(detail: string) | SignupRaceLost

  datatype Fault =
    | EmailRequired
    | RecipientRequired
    | NoFieldSet
    | TooLong(column: string, limit: nat)
    | NotAUuid
    | UnknownEvent

  datatype Missing = LiveBearer(id: Uuid) | PendingInvite(id: Uuid) | Principal(id: Uuid)

  // The typed refusals of the services.
  datatype PortalError =
    | Db(detail: string)
    | Internal(cause: Cause)
    | BearerSecretNotConfigured
    | RecipientSecretNotConfigured
    | CredentialRefused
    | InvalidCredentials
    | TooManyAttempts(retryAfterSeconds: int)
    | SignupClosed
    | CredentialPortNotComposed
    | InvalidInput(fault: Fault)
    | NotFound(missing: Missing)

  // The server's own failures.
  predicate ServerSide(err: PortalError) {
    err.Db? || err.Internal? || err == BearerSecretNotConfigured || err == RecipientSecretNotConfigured
  }
}

/**
 Shared vocabulary of the model: optional values, results, and the HTTP
 errors the service raises (FastAPI's HTTPException with a status code and
 a detail message, the detail abstracted to a reason).
 */
module Common {

  datatype Option<+T> = None | Some(value: T)

  datatype Result<+T, +E> = Ok(value: T) | Err(error: E)

  /** The detail of an HTTP error, one constructor per message the service emits. */
  datatype Reason =
    | TagEmpty | TagTooLong | TagNotAlphanumeric
    | PasswordTooShort | PasswordTooLong | PasswordNoUppercase
    | PasswordNoLowercase | PasswordNoDigit | PasswordNoSpecial
    | ClanNotFound | PlayerNotFound | ResourceNotFound | AccessDenied
    | UpstreamFailure(text: string) | UpstreamTimeout | UpstreamUnreachable
    | RateLimitExceeded | TooManyAuthAttempts
    | NoMembersForClanTag | NoCloseMatch | NoClansFound | PlayerNotInAnyClan
    | InvalidGameMode | NoBattlesForMode | NoValidDeckData
    | InvalidTimePeriod | ClanNotTracked

  /** An HTTPException: the status code and what its detail says. */
  datatype Error = Error(status: int, reason: Reason)

  /** A fraction kept exact where the source computes a float. */
  datatype Ratio = Ratio(num: int, den: int)
}

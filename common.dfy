/** Values shared by every part of the model: optional values, identifiers,
    timestamps, HTTP-style replies and the "session has an email" test. */
module Common {

  datatype Option<+T> = None | Some(value: T)

  /** Record identifiers are opaque strings generated by the database; the
      model only compares them for equality, so naturals stand in for them. */
  type Id = nat

  /** Instants in milliseconds since the epoch. */
  type Timestamp = int

  const Day: int := 86_400_000

  /** A new account's trial runs for two days from its creation. */
  const TrialDays: int := 2

  function TrialEnd(now: Timestamp): (t: Timestamp)
    ensures t > now
  {
    now + TrialDays * Day
  }

  /** `session?.user?.email` is truthy: present and not the empty string. */
  predicate HasEmail(email: Option<string>)
  {
    email.Some? && email.value != ""
  }

  /** A route handler's answer: a JSON body with status 200, or an error
      status with the `error` message of the JSON error body. */
  datatype Reply<+T> = Ok(body: T) | Fail(status: int, error: string)

  const NotAuthenticated := "Not authenticated"
  const UserNotFound := "User not found"
  const InternalServerError := "Internal server error"
}

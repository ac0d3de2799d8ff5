/** What the server's handlers share: the reply they send, the two roles an
    account can hold and the authenticated caller the route middleware
    attaches to a request. */
module Http {

  type UserId = string

  datatype Role = UserRole | AdminRole

  /** The authenticated caller (`req.user`). */
  datatype Caller = Caller(id: UserId, role: Role)

  /** An HTTP reply: a status with a body, or a status with a message. */
  datatype Reply<T> = Ok(status: int, value: T) | Fail(status: int, message: string)
}

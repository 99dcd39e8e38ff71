/** An optional value: a JSON property that may be undefined, or a lookup that may miss. */
module Wrappers {
  datatype Option<+T> = None | Some(value: T)
}

/** The shapes of the HTTP replies that the route handlers send. */
module Http {
  /** One entry of the `errors` array of a JSON error body. */
  datatype ErrorItem =
    | FieldError(param: string, msg: string)  // produced by express-validator for one request field
    | Plain(msg: string)                       // written by a handler itself: `{ msg: ... }`

  /** A handler's reply: the status code and the body sent with it. */
  datatype Response<B> = Response(status: nat, body: B)

  /** The text body of every 500 reply (`res.status(500).send(...)`). */
  const ServerErrorText: string := "Server error"

  /** express-validator's default message for a failed check. */
  const InvalidValue: string := "Invalid value"
}

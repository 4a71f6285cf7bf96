/** Responses as the handlers send them: a status code and a JSON object. */
module Http {

  /** The JSON bodies the auth routes and the middleware send, one constructor per shape. */
  datatype Body =
    | Msg(msg: string)                                                // { msg }
    | Failed(msg: string, error: string)                              // { msg, error }
    | Registered(msg: string, token: string)                          // { msg, token }
    | LoggedIn(msg: string, token: string, userId: string, role: string) // { msg, token, userId, role }
    | Notice(message: string)                                         // { message }, the rate limiter's body

  datatype Response = Response(status: int, body: Body)
}

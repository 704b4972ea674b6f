/** The JSON replies the route handlers send: a status with a body, or `{error: true, message}`. */
module Http {

  const OK := 200
  const CREATED := 201
  const BAD_REQUEST := 400
  const UNAUTHORIZED := 401
  const NOT_FOUND := 404

  datatype Reply<+T> =
    | Ok(status: int, value: T)
    | Err(status: int, message: string)

  /** The `{success: true, message}` body of logout and delete. */
  datatype Ack = Ack(success: bool, message: string)
}

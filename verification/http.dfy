/** The shape of what a route handler answers: a JSON body with status 200,
    or an error object `{ error, details? }` with an HTTP status. */
module Http {
  import opened Wrappers

  const BadRequest: nat := 400
  const InternalServerError: nat := 500

  datatype Response<+T> =
    | Ok(body: T)
    | Error(status: nat, message: string, details: Option<string>)
}

/**
 * The HTTP vocabulary shared by the controller, the user service and the
 * application's error handler: thrown errors (as the `http-errors` package
 * builds them), the JSON bodies the service sends, and response cookies.
 */
module Http {
  import opened Wrappers

  /**
   * Anything thrown inside a request, seen through the three properties the
   * error handler reads. `statusCode` is `None` for a plain `Error` (one not
   * built by `http-errors`), whose `statusCode` property is `undefined`.
   */
  datatype HttpError = HttpError(statusCode: Option<int>, name: string, message: string)

  /** `createHttpError(400, message)`: the `http-errors` class for 400 is named BadRequestError. */
  function BadRequest(message: string): (err: HttpError)
    ensures err.statusCode == Some(400) && err.name == "BadRequestError" && err.message == message
  {
    HttpError(Some(400), "BadRequestError", message)
  }

  /** `createHttpError(500, message)`: the `http-errors` class for 500 is named InternalServerError. */
  function InternalServerError(message: string): (err: HttpError)
    ensures err.statusCode == Some(500) && err.name == "InternalServerError" && err.message == message
  {
    HttpError(Some(500), "InternalServerError", message)
  }

  /** One entry of an `errors` array, in the shape express-validator reports. */
  datatype ErrorEntry = ErrorEntry(errorType: string, msg: string, path: string, location: string)

  /** The bodies the service sends: `{id}`, `{errors: [...]}`, or plain text. */
  datatype Body =
    | IdBody(id: nat)
    | ErrorsBody(errors: seq<ErrorEntry>)
    | TextBody(text: string)

  /** A complete response as the client receives it. */
  datatype Reply = Reply(status: int, body: Body)

  datatype SameSite = Strict

  datatype CookieOptions = CookieOptions(domain: string, sameSite: SameSite, maxAge: int, httpOnly: bool)

  /** One `res.cookie(name, value, options)` call. */
  datatype Cookie = Cookie(name: string, value: string, options: CookieOptions)
}

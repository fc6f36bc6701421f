/** The shapes of the errors the services throw: Nest HTTP exceptions and plain JavaScript errors. */
module Errors {
  import opened Wrappers

  /** Which class an error is an instance of. */
  datatype Kind =
    | BadRequest           // BadRequestException, HTTP 400
    | PayloadTooLarge      // PayloadTooLargeException, HTTP 413
    | NotFound             // NotFoundException, HTTP 404
    | InternalServerError  // InternalServerErrorException, HTTP 500
    | OtherError           // Error or any other class (a driver's QueryFailedError, ...)

  /** A thrown value: its class, its `name` property and its `message` property (which may be missing). */
  datatype Exception = Exception(kind: Kind, name: string, message: Option<string>)

  function BadRequestException(message: string): Exception {
    Exception(BadRequest, "BadRequestException", Some(message))
  }

  function PayloadTooLargeException(message: string): Exception {
    Exception(PayloadTooLarge, "PayloadTooLargeException", Some(message))
  }

  function NotFoundException(message: string): Exception {
    Exception(NotFound, "NotFoundException", Some(message))
  }

  function InternalServerErrorException(message: string): Exception {
    Exception(InternalServerError, "InternalServerErrorException", Some(message))
  }

  /** `new Error(message)`. */
  function PlainError(message: string): Exception {
    Exception(OtherError, "Error", Some(message))
  }
}

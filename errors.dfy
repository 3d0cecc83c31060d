/** The exceptions the services throw, by HTTP kind, with their messages. */
module Errors {

  datatype Failure =
    | Unauthorized(message: string)   // UnauthorizedException
    | BadRequest(message: string)     // HttpException with HttpStatus.BAD_REQUEST
    | NotFound(message: string)       // NotFoundException
    | Conflict(message: string)       // ConflictException
    | Internal(message: string)       // a plain Error, or the store's own error

  /** The store's error when `update` or `delete` names an id that does not
      exist. */
  const RECORD_NOT_FOUND := "Record to update not found."

  /** The store's error when a write would give two rows the same value of
      a unique column. */
  const UNIQUE_CONSTRAINT_FAILED := "Unique constraint failed"
}

/** The ways a modelled operation can fail: an error handed to its callback
    (a ClientError or a database error passed through), or an exception
    thrown synchronously, in which case the callback is never called. */
module Failures {
  import opened ErrorDefinitions

  /** An error reported by the database driver, passed through unchanged. */
  datatype DbError = DbError(message: string)

  /** A JavaScript exception thrown by the modelled code itself. */
  datatype Exception =
    | TypeError            // a property read on `null` or `undefined`
    | ReferenceError(name: string)  // an undeclared identifier

  datatype Failure =
    | Client(error: ClientError)
    | Database(cause: DbError)
    | Thrown(exception: Exception)
}

/**
 * Error values of the catalog service (internal/service/impl/errors.go), plus the
 * errors that the service passes through unchanged from its collaborators.
 */
module Errors {

  /** Why a call into the database failed. */
  datatype DbError =
    | NoRows          // a single-row read found nothing (sql.ErrNoRows)
    | DuplicateKey    // an insert hit an existing primary key
    | Unavailable     // the table could not be reached
    | UnknownColumn   // an update named a column the table does not have
    | BadValue        // an update gave a column a value of the wrong kind

  datatype Error =
    | InvalidInput
    | InvalidProductType
    | Unauthorized
    | NotFound
    | ServerError
      // passed through from auth.ExtractUserID: no usable caller identity
    | IdentityError
      // raised only by the role check of the duplicate service, which is switched on
    | NotAuthorizedToCreate
      // passed through from the repository
    | StoreError(cause: DbError)
}

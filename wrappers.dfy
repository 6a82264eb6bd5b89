/** Nullable values and the HTTP replies the controllers return. */
module Wrappers {

  /** A C# nullable value (`int?`, `string?`, a reference that may be null). */
  datatype Option<+T> = None | Some(value: T)

  /** The database tables, used to say which foreign key or row was missing. */
  datatype Table =
    | Users | Shops | Orders | Services | Posts | Comments | Reviews | Conversations | Messages

  /** Why a request was refused: the text of the error reply, reduced to its meaning. */
  datatype Detail =
    | InputRequired            // "... is required" / "cannot be null or empty"
    | Missing(table: Table)    // "User not found.", "Shop with ID .. does not exist.", ...
    | NoRows                   // "No messages found ...", "No shops found ..."
    | IdMismatch               // "Shop ID in the URL does not match the ID in the body."
    | InvalidServiceType       // "Invalid service type: .."

  /** An action result: 200 with a value, 201 with the created row, 204, 400, 404, 409 or 500. */
  datatype Reply<+T> =
    | Ok(value: T)
    | Created(value: T)
    | NoContent
    | BadRequest(detail: Detail)
    | NotFound(detail: Detail)
    | Conflict
    | ServerError
}

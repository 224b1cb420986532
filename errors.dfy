/** The exceptions the client raises, as values. */
module Errors {

  datatype Error =
    /** `request` was given a name that is not a key of the endpoint table. */
    | UnknownEndpoint(name: string)
    /** `str.format` met placeholder `{index}` with only `supplied` path arguments (IndexError). */
    | MalformedPathArguments(index: nat, supplied: nat)
    /** A keyword option collides with a named parameter of the call it is passed to (TypeError). */
    | ArgumentClash
    /** The effective HTTP verb is not one of get, post, delete. */
    | InvalidMethod(verb: string)
    /** The server answered with a status other than 200, 201 or 301. */
    | UnexpectedStatus(status: int)
    /** The body is not JSON, or the decoded value does not have the shape the caller indexes or hydrates. */
    | MalformedResponse
    /** No city of the listing has this name, compared case-insensitively (KeyError). */
    | UnknownCity(name: string)
    /** An entity lacks an attribute the operation reads (AttributeError). */
    | MissingAttribute(attribute: string)
    /** An entity's id is a JSON object, or an array holding arrays or objects. */
    | UnsupportedId

  datatype Result<+T> = Ok(value: T) | Err(error: Error)

  datatype Option<+T> = None | Some(value: T)
}

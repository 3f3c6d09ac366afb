/** The exceptions the customer services throw. */
module Errors {

  /** An exception message. `WithId(p, id, s)` is the message the Java code
      builds with `(p + "%s" + s).formatted(id)`; the decimal rendering of
      the id is left abstract. */
  datatype Message =
    | Text(text: string)
    | WithId(prefix: string, id: int, suffix: string)

  datatype Error =
    /** `ResourceNotFoundException` (in the legacy service: `ResourceNotFound`) */
    | ResourceNotFound(message: Message)
    /** `DuplicateResourceException` */
    | DuplicateResource(message: Message)
    /** `RequestValidationException` */
    | RequestValidation(message: Message)
    /** the `RuntimeException` that wraps an `IOException` while reading an upload */
    | UploadFailed(message: Message)
    /** the blob store has no object under the requested key */
    | NoSuchObject
}

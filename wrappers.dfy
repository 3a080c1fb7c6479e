/** Optional values and the error outcomes of the story core. */
module Wrappers {

  /** A value that may be absent: a nullable field, or a lookup that found nothing. */
  datatype Option<T> = None | Some(value: T)

  /** The exceptions the core raises.
      - ValueError: `Story.save` found neither a user nor a name and an email.
      - PermissionDenied: a view refused the requesting user.
      - NotFound: `get_object` found no story with the requested primary key (Http404). */
  datatype Error = ValueError | PermissionDenied | NotFound

  /** The outcome of an operation that either returns a value or raises one of the errors above. */
  datatype Result<T> = Ok(value: T) | Err(error: Error)
}

/** Small wrapper datatypes shared by the server and the browser-client model. */
module Common {

  /** A value that may be absent: an omitted JSON field, a null global. */
  datatype Option<+T> = None | Some(value: T)

  /** The result of a step that either yields a value or fails with a message. */
  datatype Result<+T> = Ok(value: T) | Err(message: string)

  /** What an opaque call into the FTP library (or the network) reports back:
      it completes with a value, or it throws an error carrying `cause` as its
      message. The model never performs the call; the outcome is an input. */
  datatype Remote<+T> = Done(value: T) | Failed(cause: string)
}

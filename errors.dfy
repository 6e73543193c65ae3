/** Values shared by every layer of the client: bytes, the optional and
    fallible wrappers, and the error kinds of `AGError`. */
module Errors {

  /** One octet on the wire. */
  newtype byte = x: int | 0 <= x < 256

  /** Rust's `u32`, the coordinate and key-code type of the device actions. */
  newtype u32 = x: int | 0 <= x < 0x1_0000_0000

  datatype Option<T> = None | Some(value: T)
  {
    /** `Option::unwrap_or`. */
    function GetOr(default: T): T
    {
      match this
      case Some(v) => v
      case None => default
    }
  }

  /** The `std::io::ErrorKind`s the client can meet. */
  datatype IoKind =
    | ConnectionRefused   // nothing listens at the dialed address
    | NotFound            // the daemon executable cannot be spawned
    | BrokenPipe          // the peer no longer accepts writes
    | UnexpectedEof       // the peer closed the stream before `read_exact` was satisfied
    | ConnectionReset     // the connection broke while reading
    | InvalidInput        // a zero timeout was given to `set_read_timeout`

  /** `AGError`: an I/O failure, a malformed length prefix, an image that
      cannot be decoded, or a message of the client's own. */
  datatype Error = Io(kind: IoKind) | Decode | Image | Custom(message: string)

  /** `AGResult<T>`. */
  datatype Result<T> = Ok(value: T) | Err(error: Error)
}

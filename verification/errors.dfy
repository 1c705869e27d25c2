/** Optional values, as the crate uses `Option` for absent fields. */
module Wrappers {

  datatype Option<+T> = None | Some(value: T)
}

/** The crate's error kinds and its `Result` alias (src/error.rs). */
module Errors {

  /** The kinds the crate distinguishes: a local I/O failure, an image
      format that could not be recognised, anything the Algorithmia client
      reports (transport, authentication, remote failure, response decoding),
      and a plain message raised by the crate itself. */
  datatype Error =
    | IoError(detail: string)
    | ImageError(detail: string)
    | AlgorithmiaError(detail: string)
    | Msg(text: string)

  datatype Result<+T> = Ok(value: T) | Err(error: Error)
}

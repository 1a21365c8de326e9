/** Result and error types shared by every component (src/foundation/error). */
module Foundation {

  datatype Option<+T> = None | Some(value: T)

  /** The error codes the modelled functions return. */
  datatype ErrorCode =
    | InvalidArgument
    | NotInitialized
    | AlreadyInitialized
    | Timeout
    | Busy
    | IoError
    | ParseError
    | ConfigError
    | Unsupported
    | UnsupportedWorkMode
    | VisibleCameraOffline
    | CompositeCameraOffline
    | SerialOpenFailed
    | SerialWriteFailed
    | SerialReadTimeout
    | SerialAckInvalid
    | CompositeModeSwitchFailed
    | PipelineBuildFailed
    | PipelineStartFailed
    | MjpegDecodeFailed
    | EncoderInitFailed
    | MainStreamNotReady

  /** A value or an error code; the message text of the source is not modelled. */
  datatype Result<+T> = Ok(value: T) | Err(code: ErrorCode)

  datatype Unit = Unit

  /** A queue is what is left at the end of everything pushed. */
  predicate IsTail<T(==)>(queue: seq<T>, pushed: seq<T>) {
    |queue| <= |pushed| && queue == pushed[|pushed| - |queue|..]
  }

  function Min(a: int, b: int): int { if a < b then a else b }

  function Max(a: int, b: int): int { if a < b then b else a }

  function Abs(a: int): int { if a < 0 then -a else a }
}

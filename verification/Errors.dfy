/** Error codes of the session layer and of the transfer layer
    (include/cpptcpduplex/errors.hpp:9-25, include/cpptcpduplex/transfer/transfer.hpp:43-54). */
module Errors {
  datatype Option<+T> = None | Some(value: T)

  datatype Result<+T, +E> = Ok(value: T) | Err(error: E)

  /** BadRecord is the session layer's bad_frame, a different code from the transfer layer's. */
  datatype ConnErr =
    | Closed | ReceiveDisabled | MessageTooLarge | InboundDropped | SlowConsumer
    | UnsupportedProtocol | HandshakeAuthentication | PeerFingerprintMismatch
    | BadHandshake | BadRecord | Canceled | TimedOut | IoError | OtherConn

  datatype Err =
    | BadFrame | Rejected | Aborted | SizeMismatch | HashMismatch
    | ResumePastEnd | ClosedDuring | TooManyRetries | Other
    | FromConn(code: ConnErr)

  /** An empty std::error_code is success. */
  datatype Outcome = Success | Failure(error: Err)

  function MapConnErr(e: ConnErr): Err {
    if e == Closed then ClosedDuring else FromConn(e)
  }

  predicate IsRetriable(e: Err) {
    e !in {Rejected, HashMismatch, SizeMismatch, ResumePastEnd, BadFrame,
           FromConn(Canceled), FromConn(TimedOut)}
  }
}

/** The exception classes the library throws (namespace `Stream\Exception`).
    Message texts are not modelled; a plain `StreamException` carries instead
    the reason that tells its throw sites apart. */
module Exceptions {

  /** Why a plain `StreamException` was thrown. */
  datatype Reason =
    | NotOpened           // Stream::isOpened(true) on a closed stream
    | InvalidSeconds      // Validator::validateSeconds
    | InvalidMicroSeconds // Validator::validateMicroSeconds
    | SelectFailed        // stream_select returned false
    | SendFailed          // stream_socket_sendto sent nothing
    | CloseFailed         // fclose returned false
    | InvalidInt          // AbstractMethod::validateInt

  datatype Exception =
    | StreamException(reason: Reason)
    | ConnectionStreamException
    | PortValidateStreamException
    | ProtocolValidateStreamException
    | PathValidateStreamException
    | ReadStreamException
    | ReceiveMethodStreamException
    | NotStringStreamException
}

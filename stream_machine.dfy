/** The lifecycle of class `Stream` as pure transitions over its fields. Each
    operation is given what the operating system answers (connect, select,
    read, send, fclose, feof) and returns the new fields, its result or
    exception, and the OS calls it made, in order. Class `Stream.Stream`
    is proved against these functions. */
module StreamMachine {
  import opened Wrappers
  import opened Exceptions
  import opened PhpValues
  import opened Validator
  import Connection
  import DataHandler
  import opened ReceiveMethod

  /** An open stream resource returned by `stream_socket_client`. */
  datatype Handle = Handle(id: nat)

  /** A call into PHP's stream layer, named after the PHP function called. */
  datatype OsCall =
    | StreamSocketClient(url: string)
    | StreamSelect(stream: Option<Handle>, seconds: int, microSeconds: int)
    | Read(handle: Handle, call: ReadCall)   // the receive method's primitive
    | StreamSocketSendto(handle: Handle, data: string)
    | Fclose(handle: Handle)
    | StreamSetTimeout(handle: Handle, timeout: int)
    | StreamSetBlocking(handle: Handle, blocking: bool)
    | Feof(handle: Handle)
    | StreamGetMetaData(handle: Handle)

  /** The mutable fields of a `Stream`: the handle (null when closed), the
      receive method and the read timeouts. */
  datatype State = State(
    stream: Option<Handle>,
    receiveMethod: Option<ReceiveMethod>,
    readTimeOutSeconds: int,
    readTimeOutMicroSeconds: int)

  /** The fields of a newly constructed `Stream`. */
  const Initial: State := State(None, None, 0, 0)

  /** The read timeouts are never negative. */
  predicate Valid(s: State)
  {
    s.readTimeOutSeconds >= 0 && s.readTimeOutMicroSeconds >= 0
  }

  /** What one operation does: the new fields, what it returns or throws, and
      the OS calls it made. */
  datatype Step<T> = Step(state: State, result: Result<T, Exception>, calls: seq<OsCall>)

  /** Only the handle may differ between the two states. */
  predicate SameSettings(s: State, t: State)
  {
    s.receiveMethod == t.receiveMethod && s.readTimeOutSeconds == t.readTimeOutSeconds
      && s.readTimeOutMicroSeconds == t.readTimeOutMicroSeconds
  }

  /** `isOpened($exceptionThrow)`. */
  function IsOpened(s: State, exceptionThrow: bool): (r: Result<bool, Exception>)
    ensures r.Failure? <==> exceptionThrow && s.stream.None?
    ensures r.Success? ==> (r.value <==> s.stream.Some?)
    ensures r.Failure? ==> r.error == StreamException(NotOpened)
  {
    var isStreamAlive := s.stream.Some?;
    if exceptionThrow && !isStreamAlive then Failure(StreamException(NotOpened)) else Success(isStreamAlive)
  }

  /** `open()`: connects only when closed. */
  function Open(c: Connection.Connection, s: State, connectResult: Option<Handle>): (r: Step<bool>)
    ensures s.stream.Some? ==> r == Step(s, Success(true), [])
    ensures s.stream.None? ==> r.calls == [StreamSocketClient(Connection.GetUrlConnection(c))]
    ensures r.result.Success? <==> s.stream.Some? || connectResult.Some?
    ensures r.result.Success? ==> r.result.value && r.state.stream.Some? && SameSettings(s, r.state)
    ensures s.stream.None? && connectResult.Some? ==> r.state.stream == connectResult
    ensures r.result.Failure? ==> r.state == s && r.result.error == ConnectionStreamException
  {
    if IsOpened(s, false).value then Step(s, Success(true), [])
    else
      var calls := [StreamSocketClient(Connection.GetUrlConnection(c))];
      match connectResult
      case None => Step(s, Failure(ConnectionStreamException), calls)
      case Some(handle) => Step(s.(stream := Some(handle)), Success(true), calls)
  }

  /** `isReadyForReading()`: polls the handle with the stored read timeouts.
      With no handle the read set holds only `null`, which stream_select
      skips; given no stream at all it returns false, whatever the system
      would answer, so the oracle is consulted only for an open stream. */
  function IsReadyForReading(s: State, selectResult: Option<nat>): (r: Step<bool>)
    ensures r.state == s
    ensures r.calls == [StreamSelect(s.stream, s.readTimeOutSeconds, s.readTimeOutMicroSeconds)]
    ensures r.result.Failure? <==> s.stream.None? || selectResult.None?
    ensures r.result.Failure? ==> r.result.error == StreamException(SelectFailed)
    ensures r.result.Success? ==> (r.result.value <==> selectResult.value > 0)
  {
    var calls := [StreamSelect(s.stream, s.readTimeOutSeconds, s.readTimeOutMicroSeconds)];
    if s.stream.None? then Step(s, Failure(StreamException(SelectFailed)), calls)
    else
      match selectResult
      case None => Step(s, Failure(StreamException(SelectFailed)), calls)
      case Some(countChanged) => Step(s, Success(countChanged > 0), calls)
  }

  /** `setTimeOut($seconds)`: validates, then requires an open stream. */
  function SetTimeOut(s: State, seconds: Value): (r: Step<()>)
    ensures r.state == s
    ensures r.result.Success? <==> ValidateSeconds(seconds).Pass? && s.stream.Some?
    ensures ValidateSeconds(seconds).Fail? ==> r.result == Failure(StreamException(InvalidSeconds))
    ensures ValidateSeconds(seconds).Pass? && s.stream.None? ==> r.result == Failure(StreamException(NotOpened))
    ensures r.result.Success? ==> r.calls == [StreamSetTimeout(s.stream.value, seconds.i)]
    ensures r.result.Failure? ==> r.calls == []
  {
    if ValidateSeconds(seconds).Fail? then Step(s, Failure(ValidateSeconds(seconds).error), [])
    else if IsOpened(s, true).Failure? then Step(s, Failure(IsOpened(s, true).error), [])
    else Step(s, Success(()), [StreamSetTimeout(s.stream.value, seconds.i)])
  }

  /** `setBlocking($blocking)`, called by `setBlockingOn` and `setBlockingOff`.
      The argument is a boolean, so its `is_bool` check always passes. */
  function SetBlocking(s: State, blocking: bool): (r: Step<()>)
    ensures r.state == s
    ensures r.result.Success? <==> s.stream.Some?
    ensures r.result.Failure? ==> r.result.error == StreamException(NotOpened) && r.calls == []
    ensures r.result.Success? ==> r.calls == [StreamSetBlocking(s.stream.value, blocking)]
  {
    if IsOpened(s, true).Failure? then Step(s, Failure(IsOpened(s, true).error), [])
    else Step(s, Success(()), [StreamSetBlocking(s.stream.value, blocking)])
  }

  /** `setReadTimeOut($seconds, $microSeconds)`: validates seconds, then
      microseconds, then requires an open stream; stores both only when all
      three checks pass. */
  function SetReadTimeOut(s: State, seconds: Value, microSeconds: Value): (r: Step<()>)
    ensures r.calls == []
    ensures r.result.Success? <==>
      ValidateSeconds(seconds).Pass? && ValidateMicroSeconds(microSeconds).Pass? && s.stream.Some?
    ensures ValidateSeconds(seconds).Fail? ==> r.result == Failure(StreamException(InvalidSeconds))
    ensures ValidateSeconds(seconds).Pass? && ValidateMicroSeconds(microSeconds).Fail? ==>
              r.result == Failure(StreamException(InvalidMicroSeconds))
    ensures ValidateSeconds(seconds).Pass? && ValidateMicroSeconds(microSeconds).Pass? && s.stream.None? ==>
              r.result == Failure(StreamException(NotOpened))
    ensures r.result.Failure? ==> r.state == s
    ensures r.result.Success? ==>
              r.state == s.(readTimeOutSeconds := seconds.i, readTimeOutMicroSeconds := microSeconds.i)
  {
    if ValidateSeconds(seconds).Fail? then Step(s, Failure(ValidateSeconds(seconds).error), [])
    else if ValidateMicroSeconds(microSeconds).Fail? then Step(s, Failure(ValidateMicroSeconds(microSeconds).error), [])
    else if IsOpened(s, true).Failure? then Step(s, Failure(IsOpened(s, true).error), [])
    else
      MicroSecondsAcceptLikeSeconds(microSeconds);
      Step(s.(readTimeOutSeconds := seconds.i, readTimeOutMicroSeconds := microSeconds.i), Success(()), [])
  }

  /** `setReceiveMethod($method)`. */
  function SetReceiveMethod(s: State, m: ReceiveMethod): (r: State)
    ensures r.receiveMethod == Some(m) && r.stream == s.stream
    ensures r.readTimeOutSeconds == s.readTimeOutSeconds && r.readTimeOutMicroSeconds == s.readTimeOutMicroSeconds
  {
    s.(receiveMethod := Some(m))
  }

  /** `getReceiveMethodName()`: null, or the class name of the method. */
  function GetReceiveMethodName(s: State): (r: Option<string>)
    ensures r.Some? <==> s.receiveMethod.Some?
    ensures r.Some? ==> r.value == ClassName(s.receiveMethod.value)
  {
    match s.receiveMethod
    case None => None
    case Some(m) => Some(ClassName(m))
  }

  /** `getContents()`: needs a receive method, opens, reads with the method's
      primitive, rejects a falsy result and passes the rest to the data
      handler. After a successful open the handle is present, so the
      `getExistedStream` check cannot fail here. */
  function GetContents(c: Connection.Connection, h: DataHandler.DataHandler, s: State,
                       connectResult: Option<Handle>, readResult: Option<string>): (r: Step<Value>)
    ensures s.receiveMethod.None? ==> r == Step(s, Failure(ReceiveMethodStreamException), [])
    ensures s.receiveMethod.Some? ==> r.state == Open(c, s, connectResult).state
    ensures s.receiveMethod.Some? && Open(c, s, connectResult).result.Failure? ==>
              r == Step(s, Failure(ConnectionStreamException), Open(c, s, connectResult).calls)
    ensures s.receiveMethod.Some? && Open(c, s, connectResult).result.Success? ==>
              r.calls == Open(c, s, connectResult).calls
                           + [Read(r.state.stream.value, ReadStream(s.receiveMethod.value))]
    ensures r.result.Success? <==>
      s.receiveMethod.Some? && (s.stream.Some? || connectResult.Some?)
        && readResult.Some? && !IsFalsyString(readResult.value)
    ensures r.result.Success? ==> r.result.value == DataHandler.PrepareReceiveData(h, readResult.value)
  {
    if s.receiveMethod.None? then Step(s, Failure(ReceiveMethodStreamException), [])
    else
      var o := Open(c, s, connectResult);
      if o.result.Failure? then Step(o.state, Failure(o.result.error), o.calls)
      else
        var calls := o.calls + [Read(o.state.stream.value, ReadStream(s.receiveMethod.value))];
        match readResult
        case None => Step(o.state, Failure(ReadStreamException), calls)
        case Some(receiveMessage) =>
          if IsFalsyString(receiveMessage) then Step(o.state, Failure(ReadStreamException), calls)
          else Step(o.state, Success(DataHandler.PrepareReceiveData(h, receiveMessage)), calls)
  }

  /** `getMetaData()`: false (here `None`) when closed, else what the OS
      reports. */
  function GetMetaData(s: State, metaData: Value): (r: Step<Option<Value>>)
    ensures r.state == s && r.result.Success?
    ensures s.stream.None? ==> r.result.value.None? && r.calls == []
    ensures s.stream.Some? ==> r.result.value == Some(metaData) && r.calls == [StreamGetMetaData(s.stream.value)]
  {
    if !IsOpened(s, false).value then Step(s, Success(None), [])
    else Step(s, Success(Some(metaData)), [StreamGetMetaData(s.stream.value)])
  }

  /** `sendContents($contents)`: opens, prepares the data, sends it, and
      rejects a send that reports nothing sent. */
  function SendContents(c: Connection.Connection, h: DataHandler.DataHandler, s: State,
                        connectResult: Option<Handle>, contents: Value, bytesSent: Option<int>): (r: Step<int>)
    ensures r.state == Open(c, s, connectResult).state
    ensures Open(c, s, connectResult).result.Failure? ==>
              r == Step(s, Failure(ConnectionStreamException), Open(c, s, connectResult).calls)
    ensures Open(c, s, connectResult).result.Success? && DataHandler.PrepareSendData(h, contents).Failure? ==>
              r == Step(r.state, Failure(NotStringStreamException), Open(c, s, connectResult).calls)
    ensures Open(c, s, connectResult).result.Success? && DataHandler.PrepareSendData(h, contents).Success? ==>
              r.calls == Open(c, s, connectResult).calls
                           + [StreamSocketSendto(r.state.stream.value, DataHandler.PrepareSendData(h, contents).value)]
    ensures r.result.Success? <==>
      (s.stream.Some? || connectResult.Some?) && DataHandler.PrepareSendData(h, contents).Success?
        && bytesSent.Some? && bytesSent.value != 0
    ensures Open(c, s, connectResult).result.Success? && DataHandler.PrepareSendData(h, contents).Success?
              && (bytesSent.None? || bytesSent.value == 0) ==>
              r.result == Failure(StreamException(SendFailed))
    ensures r.result.Success? ==> r.result.value == bytesSent.value
  {
    var o := Open(c, s, connectResult);
    if o.result.Failure? then Step(o.state, Failure(o.result.error), o.calls)
    else
      var prepared := DataHandler.PrepareSendData(h, contents);
      if prepared.Failure? then Step(o.state, Failure(prepared.error), o.calls)
      else
        var calls := o.calls + [StreamSocketSendto(o.state.stream.value, prepared.value)];
        match bytesSent
        case None => Step(o.state, Failure(StreamException(SendFailed)), calls)
        case Some(n) =>
          if n == 0 then Step(o.state, Failure(StreamException(SendFailed)), calls)
          else Step(o.state, Success(n), calls)
  }

  /** `close()`: a stream with no handle is left closed; otherwise the handle
      is cleared only when fclose succeeds. */
  function Close(s: State, fcloseResult: bool): (r: Step<()>)
    ensures SameSettings(s, r.state)
    ensures s.stream.None? ==> r == Step(s, Success(()), [])
    ensures s.stream.Some? ==> r.calls == [Fclose(s.stream.value)]
    ensures r.result.Success? <==> s.stream.None? || fcloseResult
    ensures r.result.Success? ==> r.state.stream.None?
    ensures r.result.Failure? ==> r.state == s && r.result.error == StreamException(CloseFailed)
  {
    match s.stream
    case None => Step(s.(stream := None), Success(()), [])
    case Some(handle) =>
      if !fcloseResult then Step(s, Failure(StreamException(CloseFailed)), [Fclose(handle)])
      else Step(s.(stream := None), Success(()), [Fclose(handle)])
  }

  /** `isEof()`: true with no handle, else what feof reports. */
  function IsEof(s: State, feofResult: bool): (r: Step<bool>)
    ensures r.state == s && r.result.Success?
    ensures s.stream.None? ==> r.result.value && r.calls == []
    ensures s.stream.Some? ==> r.result.value == feofResult && r.calls == [Feof(s.stream.value)]
  {
    match s.stream
    case None => Step(s, Success(true), [])
    case Some(handle) => Step(s, Success(feofResult), [Feof(handle)])
  }
}

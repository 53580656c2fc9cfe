/** Class `Stream`: one connection whose handle is opened lazily and cleared
    on a successful close. What the operating system answers is passed in to
    each method; every call the method makes is appended to the ghost log
    `calls`. Each method is proved to change the fields exactly as the
    matching transition of `StreamMachine` does. */
module Stream {
  import opened Wrappers
  import opened Exceptions
  import opened PhpValues
  import opened Validator
  import Connection
  import DataHandler
  import opened ReceiveMethod
  import opened StreamMachine

  class Stream {
    const connection: Connection.Connection
    const dataHandler: DataHandler.DataHandler

    var stream: Option<Handle>
    var receiveMethod: Option<ReceiveMethod>
    var readTimeOutSeconds: int
    var readTimeOutMicroSeconds: int

    /** The OS calls made so far, oldest first. */
    ghost var calls: seq<OsCall>

    /** The mutable fields as one value. */
    function State(): State
      reads this
    {
      StreamMachine.State(stream, receiveMethod, readTimeOutSeconds, readTimeOutMicroSeconds)
    }

    /** The stored read timeouts are never negative and the connection
        passed the constructor's checks; every method keeps this. */
    ghost predicate Valid()
      reads this
    {
      StreamMachine.Valid(State()) && Connection.Valid(connection)
    }

    /** The part of `new Stream(...)` after the connection has been
        validated: a closed stream with no receive method. */
    constructor (connection: Connection.Connection, driver: Option<DataHandler.Driver>)
      requires Connection.Valid(connection)
      ensures Valid()
      ensures State() == Initial && calls == []
      ensures this.connection == connection && dataHandler == DataHandler.DataHandler(driver)
    {
      this.connection := connection;
      this.dataHandler := DataHandler.DataHandler(driver);
      stream := None;
      receiveMethod := None;
      readTimeOutSeconds := 0;
      readTimeOutMicroSeconds := 0;
      calls := [];
    }

    method IsOpened(exceptionThrow: bool) returns (r: Result<bool, Exception>)
      ensures r == StreamMachine.IsOpened(State(), exceptionThrow)
    {
      var isStreamAlive := stream.Some?;
      if exceptionThrow && !isStreamAlive {
        return Failure(StreamException(NotOpened));
      }
      return Success(isStreamAlive);
    }

    method Open(connectResult: Option<Handle>) returns (r: Result<bool, Exception>)
      requires Valid()
      modifies this
      ensures Valid()
      ensures var step := StreamMachine.Open(connection, old(State()), connectResult);
        State() == step.state && r == step.result && calls == old(calls) + step.calls
    {
      if stream.None? {
        calls := calls + [StreamSocketClient(Connection.GetUrlConnection(connection))];
        if connectResult.None? {
          return Failure(ConnectionStreamException);
        }
        stream := connectResult;
      }
      return Success(true);
    }

    method IsReadyForReading(selectResult: Option<nat>) returns (r: Result<bool, Exception>)
      requires Valid()
      modifies this`calls
      ensures Valid()
      ensures var step := StreamMachine.IsReadyForReading(old(State()), selectResult);
        r == step.result && calls == old(calls) + step.calls
      ensures calls[|calls| - 1].seconds >= 0 && calls[|calls| - 1].microSeconds >= 0
    {
      calls := calls + [StreamSelect(stream, readTimeOutSeconds, readTimeOutMicroSeconds)];
      if stream.None? || selectResult.None? {
        return Failure(StreamException(SelectFailed));
      }
      if selectResult.value > 0 {
        return Success(true);
      }
      return Success(false);
    }

    method SetTimeOut(seconds: Value) returns (r: Result<(), Exception>)
      requires Valid()
      modifies this`calls
      ensures Valid()
      ensures var step := StreamMachine.SetTimeOut(old(State()), seconds);
        r == step.result && calls == old(calls) + step.calls
    {
      var valid := ValidateSeconds(seconds);
      if valid.Fail? {
        return Failure(valid.error);
      }
      var isOpened := IsOpened(true);
      if isOpened.Failure? {
        return Failure(isOpened.error);
      }
      calls := calls + [StreamSetTimeout(stream.value, seconds.i)];
      return Success(());
    }

    method SetBlockingOn() returns (r: Result<(), Exception>)
      requires Valid()
      modifies this`calls
      ensures Valid()
      ensures var step := StreamMachine.SetBlocking(old(State()), true);
        r == step.result && calls == old(calls) + step.calls
    {
      r := SetBlocking(true);
    }

    method SetBlockingOff() returns (r: Result<(), Exception>)
      requires Valid()
      modifies this`calls
      ensures Valid()
      ensures var step := StreamMachine.SetBlocking(old(State()), false);
        r == step.result && calls == old(calls) + step.calls
    {
      r := SetBlocking(false);
    }

    method SetBlocking(blocking: bool) returns (r: Result<(), Exception>)
      requires Valid()
      modifies this`calls
      ensures Valid()
      ensures var step := StreamMachine.SetBlocking(old(State()), blocking);
        r == step.result && calls == old(calls) + step.calls
    {
      var isOpened := IsOpened(true);
      if isOpened.Failure? {
        return Failure(isOpened.error);
      }
      calls := calls + [StreamSetBlocking(stream.value, blocking)];
      return Success(());
    }

    method SetReadTimeOut(seconds: Value, microSeconds: Value) returns (r: Result<(), Exception>)
      requires Valid()
      modifies this`readTimeOutSeconds, this`readTimeOutMicroSeconds
      ensures Valid()
      ensures var step := StreamMachine.SetReadTimeOut(old(State()), seconds, microSeconds);
        State() == step.state && r == step.result
    {
      var validSeconds := ValidateSeconds(seconds);
      if validSeconds.Fail? {
        return Failure(validSeconds.error);
      }
      var validMicroSeconds := ValidateMicroSeconds(microSeconds);
      if validMicroSeconds.Fail? {
        return Failure(validMicroSeconds.error);
      }
      var isOpened := IsOpened(true);
      if isOpened.Failure? {
        return Failure(isOpened.error);
      }
      MicroSecondsAcceptLikeSeconds(microSeconds);
      readTimeOutSeconds := seconds.i;
      readTimeOutMicroSeconds := microSeconds.i;
      return Success(());
    }

    method SetReceiveMethod(m: ReceiveMethod)
      requires Valid()
      modifies this`receiveMethod
      ensures Valid()
      ensures State() == StreamMachine.SetReceiveMethod(old(State()), m)
    {
      receiveMethod := Some(m);
    }

    method GetReceiveMethodName() returns (r: Option<string>)
      ensures r == StreamMachine.GetReceiveMethodName(State())
    {
      if receiveMethod.None? {
        return None;
      }
      return Some(ClassName(receiveMethod.value));
    }

    method GetContents(connectResult: Option<Handle>, readResult: Option<string>) returns (r: Result<Value, Exception>)
      requires Valid()
      modifies this
      ensures Valid()
      ensures var step := StreamMachine.GetContents(connection, dataHandler, old(State()), connectResult, readResult);
        State() == step.state && r == step.result && calls == old(calls) + step.calls
    {
      if receiveMethod.None? {
        return Failure(ReceiveMethodStreamException);
      }
      var isOpened := Open(connectResult);
      if isOpened.Failure? {
        return Failure(isOpened.error);
      }
      calls := calls + [Read(stream.value, ReadStream(receiveMethod.value))];
      if readResult.None? || IsFalsyString(readResult.value) {
        return Failure(ReadStreamException);
      }
      return Success(DataHandler.PrepareReceiveData(dataHandler, readResult.value));
    }

    method GetMetaData(metaData: Value) returns (r: Option<Value>)
      requires Valid()
      modifies this`calls
      ensures Valid()
      ensures var step := StreamMachine.GetMetaData(old(State()), metaData);
        Success(r) == step.result && calls == old(calls) + step.calls
    {
      if stream.None? {
        return None;
      }
      calls := calls + [StreamGetMetaData(stream.value)];
      return Some(metaData);
    }

    method SendContents(connectResult: Option<Handle>, contents: Value, bytesSent: Option<int>)
      returns (r: Result<int, Exception>)
      requires Valid()
      modifies this
      ensures Valid()
      ensures var step := StreamMachine.SendContents(connection, dataHandler, old(State()), connectResult, contents, bytesSent);
        State() == step.state && r == step.result && calls == old(calls) + step.calls
    {
      var isOpened := Open(connectResult);
      if isOpened.Failure? {
        return Failure(isOpened.error);
      }
      var prepared := DataHandler.PrepareSendData(dataHandler, contents);
      if prepared.Failure? {
        return Failure(prepared.error);
      }
      calls := calls + [StreamSocketSendto(stream.value, prepared.value)];
      if bytesSent.None? || bytesSent.value == 0 {
        return Failure(StreamException(SendFailed));
      }
      return Success(bytesSent.value);
    }

    method Close(fcloseResult: bool) returns (r: Result<(), Exception>)
      requires Valid()
      modifies this`stream, this`calls
      ensures Valid()
      ensures var step := StreamMachine.Close(old(State()), fcloseResult);
        State() == step.state && r == step.result && calls == old(calls) + step.calls
    {
      if stream.Some? {
        calls := calls + [Fclose(stream.value)];
        if !fcloseResult {
          return Failure(StreamException(CloseFailed));
        }
      }
      stream := None;
      return Success(());
    }

    method IsEof(feofResult: bool) returns (r: bool)
      requires Valid()
      modifies this`calls
      ensures Valid()
      ensures var step := StreamMachine.IsEof(old(State()), feofResult);
        Success(r) == step.result && calls == old(calls) + step.calls
    {
      if stream.None? {
        return true;
      }
      calls := calls + [Feof(stream.value)];
      return feofResult;
    }
  }

  /** `new Stream($path, $protocol, $port, $driver)`: the connection is
      validated first; a failure throws before any stream exists. */
  method NewStream(path: Value, protocol: string, port: int, driver: Option<DataHandler.Driver>)
    returns (r: Result<Stream, Exception>)
    ensures r.Success? <==> Connection.New(path, protocol, port).Success?
    ensures r.Failure? ==> r.error == Connection.New(path, protocol, port).error
    ensures r.Success? ==> && fresh(r.value) && r.value.Valid()
                           && r.value.State() == Initial && r.value.calls == []
                           && r.value.connection == Connection.New(path, protocol, port).value
                           && r.value.dataHandler == DataHandler.DataHandler(driver)
  {
    var connection := Connection.New(path, protocol, port);
    if connection.Failure? {
      return Failure(connection.error);
    }
    var s := new Stream(connection.value, driver);
    return Success(s);
  }

  /** The scenario of the test suite's receive test: send a request on a new
      stream, set a read timeout, switch blocking off, poll, then read. The
      stream connects once and every later call uses the same handle. */
  method ReceiveScenario(s: Stream, handle: Handle, query: string, bytesSent: int, m: ReceiveMethod, reply: string)
    requires s.Valid() && s.State() == Initial && s.dataHandler.driver.None?
    requires bytesSent != 0 && !IsFalsyString(reply)
    modifies s
    ensures s.calls == old(s.calls) + [
      StreamSocketClient(Connection.GetUrlConnection(s.connection)),
      StreamSocketSendto(handle, query),
      StreamSetBlocking(handle, false),
      StreamSelect(Some(handle), 2, 0),
      Read(handle, ReadStream(m))]
    ensures s.stream == Some(handle)
  {
    var sent := s.SendContents(Some(handle), VStr(query), Some(bytesSent));
    assert sent == Success(bytesSent);
    var timeout := s.SetReadTimeOut(VInt(2), VInt(0));
    assert timeout.Success?;
    var blocking := s.SetBlockingOff();
    var ready := s.IsReadyForReading(Some(1));
    assert ready == Success(true);
    s.SetReceiveMethod(m);
    var contents := s.GetContents(None, Some(reply));
    assert contents == Success(VStr(reply));
  }
}

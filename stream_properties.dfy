/** Properties of the `Stream` lifecycle that relate several operations. */
module StreamProperties {
  import opened Wrappers
  import opened Exceptions
  import opened PhpValues
  import opened Validator
  import Connection
  import DataHandler
  import opened ReceiveMethod
  import opened StreamMachine

  /** A second `open()` after a successful one makes no call and changes
      nothing, whatever the OS would answer. */
  lemma OpenIsIdempotent(c: Connection.Connection, s: State, first: Option<Handle>, second: Option<Handle>)
    requires Open(c, s, first).result.Success?
    ensures Open(c, Open(c, s, first).state, second) == Step(Open(c, s, first).state, Success(true), [])
  {
  }

  /** A second `close()` after a successful one makes no call and succeeds. */
  lemma CloseIsIdempotent(s: State, first: bool, second: bool)
    requires Close(s, first).result.Success?
    ensures Close(Close(s, first).state, second) == Step(Close(s, first).state, Success(()), [])
  {
  }

  /** A failed `close()` keeps the handle, so the next `close()` calls fclose
      on the same handle again. */
  lemma FailedCloseIsRetried(s: State, second: bool)
    requires s.stream.Some?
    ensures Close(s, false).result == Failure(StreamException(CloseFailed))
    ensures Close(Close(s, false).state, second).calls == [Fclose(s.stream.value)]
  {
  }

  /** Opening and closing never touch the receive method or the read
      timeouts. */
  lemma LifecycleKeepsSettings(c: Connection.Connection, s: State, connectResult: Option<Handle>, fcloseResult: bool)
    ensures SameSettings(s, Close(Open(c, s, connectResult).state, fcloseResult).state)
  {
  }

  /** `sendContents` opens a closed stream before it looks at the data: a
      payload that is not a string is refused only after the connection has
      been made, and the stream stays open. */
  lemma SendOpensBeforePreparing(c: Connection.Connection, h: DataHandler.DataHandler, s: State,
                                 handle: Handle, contents: Value, bytesSent: Option<int>)
    requires s.stream.None?
    ensures var r := SendContents(c, h, s, Some(handle), contents, bytesSent);
      && r.calls[0] == StreamSocketClient(Connection.GetUrlConnection(c))
      && r.state.stream == Some(handle)
      && (DataHandler.PrepareSendData(h, contents).Failure? ==> r.result == Failure(NotStringStreamException))
  {
  }

  /** With no driver an array payload is refused (and never sent), whatever
      the OS would answer. */
  lemma SendArrayWithoutDriver(c: Connection.Connection, s: State, connectResult: Option<Handle>,
                               items: seq<Value>, bytesSent: Option<int>)
    requires s.stream.Some? || connectResult.Some?
    ensures var r := SendContents(c, DataHandler.DataHandler(None), s, connectResult, VArray(items), bytesSent);
      r.result == Failure(NotStringStreamException) && forall k :: 0 <= k < |r.calls| ==> !r.calls[k].StreamSocketSendto?
  {
  }

  /** `getContents` without a receive method fails before any open: no
      connect is attempted even on a closed stream. */
  lemma ReceiveNeedsMethodFirst(c: Connection.Connection, h: DataHandler.DataHandler, s: State,
                                connectResult: Option<Handle>, readResult: Option<string>)
    requires s.receiveMethod.None?
    ensures GetContents(c, h, s, connectResult, readResult).calls == []
    ensures GetContents(c, h, s, connectResult, readResult).state == s
    ensures GetContents(c, h, s, connectResult, readResult).result == Failure(ReceiveMethodStreamException)
  {
  }

  /** After `setReceiveMethod(m)`, `getContents` opens a closed stream and
      reads with the primitive and arguments of `m`. */
  lemma ReceiveUsesMethod(c: Connection.Connection, h: DataHandler.DataHandler, s: State, m: ReceiveMethod,
                          handle: Handle, readResult: Option<string>)
    requires s.stream.None?
    ensures GetContents(c, h, SetReceiveMethod(s, m), Some(handle), readResult).calls
              == [StreamSocketClient(Connection.GetUrlConnection(c)), Read(handle, ReadStream(m))]
  {
  }

  /** The falsy read results `false`, `""` and `"0"` are refused. */
  lemma FalsyReadsAreRefused(c: Connection.Connection, h: DataHandler.DataHandler, s: State,
                             connectResult: Option<Handle>, readResult: Option<string>)
    requires s.receiveMethod.Some? && (s.stream.Some? || connectResult.Some?)
    requires readResult == None || readResult == Some("") || readResult == Some("0")
    ensures GetContents(c, h, s, connectResult, readResult).result == Failure(ReadStreamException)
  {
  }

  /** The read timeouts `setReadTimeOut` stores are those `isReadyForReading`
      polls with. */
  lemma ReadTimeOutFeedsSelect(s: State, seconds: int, microSeconds: int, selectResult: Option<nat>)
    requires SetReadTimeOut(s, VInt(seconds), VInt(microSeconds)).result.Success?
    ensures IsReadyForReading(SetReadTimeOut(s, VInt(seconds), VInt(microSeconds)).state, selectResult).calls
              == [StreamSelect(s.stream, seconds, microSeconds)]
  {
  }

  /** The arguments are validated before the stream is required to be open:
      on a closed stream a bad timeout is reported as such. */
  lemma ValidationBeforeOpenCheck(s: State, t: int)
    requires s.stream.None? && t < 0
    ensures SetTimeOut(s, VInt(t)).result == Failure(StreamException(InvalidSeconds))
    ensures SetReadTimeOut(s, VInt(t), VInt(0)).result == Failure(StreamException(InvalidSeconds))
    ensures SetReadTimeOut(s, VInt(0), VInt(t)).result == Failure(StreamException(InvalidMicroSeconds))
    ensures SetReadTimeOut(s, VInt(0), VInt(0)).result == Failure(StreamException(NotOpened))
  {
  }

  /** No operation makes a read timeout negative. */
  lemma OperationsPreserveValid(c: Connection.Connection, h: DataHandler.DataHandler, s: State,
                                                   connectResult: Option<Handle>, readResult: Option<string>,
                                                   seconds: Value, microSeconds: Value, m: ReceiveMethod,
                                                   contents: Value, bytesSent: Option<int>, answer: bool)
    requires Valid(s)
    ensures Valid(Open(c, s, connectResult).state)
    ensures Valid(SetReadTimeOut(s, seconds, microSeconds).state)
    ensures Valid(SetReceiveMethod(s, m))
    ensures Valid(GetContents(c, h, s, connectResult, readResult).state)
    ensures Valid(SendContents(c, h, s, connectResult, contents, bytesSent).state)
    ensures Valid(Close(s, answer).state)
  {
  }

  /** Lazy opening connects once per session: a send on a closed stream
      opens it, and a later receive reuses the handle without connecting. */
  lemma SessionConnectsOnce(c: Connection.Connection, h: DataHandler.DataHandler, s: State, m: ReceiveMethod,
                            handle: Handle, query: string, bytesSent: int, reply: string, unused: Option<Handle>)
    requires s.stream.None? && s.receiveMethod == Some(m)
    requires bytesSent != 0 && !IsFalsyString(reply) && h.driver.None?
    ensures var sent := SendContents(c, h, s, Some(handle), VStr(query), Some(bytesSent));
            var got := GetContents(c, h, sent.state, unused, Some(reply));
      && sent.result == Success(bytesSent)
      && got.result == Success(VStr(reply))
      && sent.calls + got.calls == [StreamSocketClient(Connection.GetUrlConnection(c)),
                                    StreamSocketSendto(handle, query), Read(handle, ReadStream(m))]
  {
  }
}

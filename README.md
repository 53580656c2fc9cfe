# StreamLibrary in Dafny

A model of the PHP library `Stream`, a thin object layer over PHP's stream
sockets (TCP, UDP and Unix). It covers what the library decides itself:

- the validated connection target and the `protocol://path[:port]` URL it opens;
- the optional driver that transforms outgoing and incoming data;
- the receive strategies, which check their parameters once, at construction;
- the lifecycle of a `Stream`: lazy opening, the receive-method check,
  refusal of falsy reads and empty sends, and a close that keeps the handle
  when `fclose` fails.

The operating system is not modelled. Each PHP stream call is an input to
the operation that makes it: what `stream_socket_client`, `stream_select`,
the read primitive, `stream_socket_sendto`, `fclose`, `feof` and
`stream_get_meta_data` return. Every call an operation makes is recorded,
with its arguments, in the order it is made.

Layout, one module per source file or concern:

- `wrappers.dfy`: `Option`, `Result` and `Check`, standing in for PHP's
  `null`s and exceptions.
- `exceptions.dfy`: the exception classes. A plain `StreamException` carries
  a reason that tells its throw sites apart.
- `php_values.dfy`: untyped PHP values, decimal printing of integers, the
  `(string)` cast, `implode` and string falsiness.
- `validator.dfy`: `Validator`.
- `connection.dfy`: `Connection`.
- `data_handler.dfy`: `DataHandler`, plus the test suite's `TestDriver`.
- `receive_method.dfy`: `AbstractMethod::validateInt` and the five receive methods.
- `stream_machine.dfy`: the fields of `Stream` as a value, with each
  operation as a pure transition.
- `stream_properties.dfy`: lemmas that relate several operations.
- `stream.dfy`: class `Stream`. Its methods update the fields in place and
  are proved to do exactly what the matching transition states.

The code and its own message disagree about the port range. The model's
constructor `Connection.New` makes the check as the code writes it, and the
rest of the model builds on it. `Connection.NewCorrected` makes the check
the message describes; see "## Findings".

## Model

| member | source | states |
|---|---|---|
| `PhpValues.NatToDecimal` | src/Stream/Connection.php:73 | PHP prints a port as decimal digits: the result is non-empty, all digits, and has no leading zero unless the number is 0 |
| `PhpValues.DecimalRoundTrip` | src/Stream/Connection.php:73 | reading back the printed digits gives the original number |
| `PhpValues.ToPhpString` | src/Stream/Connection.php:73 | PHP's string cast: a string is itself; exactly `null` and `false` give `""` among non-strings; an integer gives its decimal digits with no leading zero (`NatToDecimal`), after a `-` when negative, and they read back as its value |
| `PhpValues.IsFalsyString` | src/Stream/Stream.php:227-229 | the strings PHP treats as false are exactly those of at most one character, all `0`s, that is `""` and `"0"`; every longer string is true |
| `PhpValues.Implode` | tests/GetContentsTest.php:20-21 | a one-item array joins to that item's string form; with empty glue the length is the sum of the items' lengths |
| `PhpValues.ImplodeAppend` | tests/GetContentsTest.php:20-21 | joining `a + b` (both non-empty) is joining `a`, the glue, then joining `b`; with the one-item case this fixes the items' strings and their order |
| `Validator.ValidateProtocol` | src/Stream/Validator.php:27-40 | accepts exactly `tcp`, `udp` and `unix`, returning true; anything else raises `ProtocolValidateStreamException` |
| `Validator.ValidatePortAsWritten` | src/Stream/Validator.php:47-54 | the code as written: passes exactly the integers 1..65635, otherwise raises `PortValidateStreamException` |
| `Validator.ValidatePort` | src/Stream/Validator.php:47-54 | the corrected check: a passing port fits in 16 bits and is non-zero; a failure is `PortValidateStreamException` |
| `Validator.ValidatePortAcceptsExactlyPorts` | src/Stream/Validator.php:49-51 | the corrected check passes exactly the ports 1..65535 |
| `Validator.PortAsWrittenAcceptsNonPort` | src/Stream/Validator.php:49-51 | port 65536 passes the check as written, is not a 16-bit port, and fails the corrected check |
| `Validator.ValidatePath` | src/Stream/Validator.php:61-66 | passes exactly the strings of length at least 1; non-strings and `""` raise `PathValidateStreamException` |
| `Validator.IntVal` | src/Stream/Validator.php:75 | `intVal`, taken to accept PHP integers and nothing else, yields the integer |
| `Validator.ValidateSeconds` | src/Stream/Validator.php:73-80 | passes exactly the integers >= 0, 0 included; otherwise a `StreamException` |
| `Validator.ValidateMicroSeconds` | src/Stream/Validator.php:87-94 | the integer 0 always passes; every failure is a `StreamException` |
| `Validator.MicroSecondsAcceptLikeSeconds` | src/Stream/Validator.php:73-94 | microseconds pass exactly when they would pass as seconds, that is exactly the integers >= 0 |
| `Connection.Build` | src/Stream/Connection.php:30-40 | given the outcome of the port check: succeeds exactly when the protocol, port (skipped for `unix`) and path checks pass; a protocol failure is reported first, then a port failure; on success the getters return the arguments |
| `Connection.New` | src/Stream/Connection.php:27-40 | the code as written: succeeds exactly when the protocol is known, the port is in 1..65635 unless the protocol is `unix`, and the path check passes; on success the getters return the arguments and the connection is valid |
| `Connection.NewCorrected` | src/Stream/Connection.php:27-40 | the corrected constructor: succeeds exactly when the protocol is known, the port is a non-zero 16-bit number unless the protocol is `unix`, and the path check passes |
| `Connection.CorrectedAgreesOnPorts` | src/Stream/Validator.php:49-51 | the two constructors agree on every port except 65536..65635 |
| `Connection.NewAcceptsNonPort` | src/Stream/Validator.php:49-51 | `tcp` to `h` on port 65600 builds a connection as written, and is refused with `PortValidateStreamException` by the corrected constructor |
| `Connection.FirstFailure` | src/Stream/Connection.php:30-35 | reports no error exactly when every check passes, else the error of a failing check with only passing checks before it |
| `Connection.ErrorPrecedence` | src/Stream/Connection.php:30-35 | the constructor fails exactly when one of the checks protocol, port, path fails, and it reports the earliest failing one |
| `Connection.UnixIgnoresPort` | src/Stream/Connection.php:31-34 | for `unix` the port never changes whether construction succeeds or which error it raises |
| `Connection.ValidIsConstructible` | src/Stream/Connection.php:37-64 | every valid connection is what the constructor builds from its own getter values |
| `Connection.ConstructorTestCases` | tests/ConstructorTest.php:14-48 | an unknown protocol raises `ProtocolValidateStreamException`; `tcp` with port 0 raises `PortValidateStreamException` |
| `Connection.GetUrlConnection` | src/Stream/Connection.php:69-77 | the URL starts with `protocol://path`, and nothing follows it when the port is not positive |
| `Connection.LastColon` | src/Stream/Connection.php:71-74 | the URL reader used by the round-trip lemma, not code of the library: finds the last `:` of a string, or reports that there is none |
| `Connection.LastColonBeforeDigits` | src/Stream/Connection.php:73 | about the URL reader used by the round-trip lemma: in `prefix:digits` the last colon is the one in front of the digits |
| `Connection.UrlPortRoundTrip` | src/Stream/Connection.php:69-77 | a positive port can be read back from the URL, after the last colon, with `protocol://path` in front of it; what follows the colon is exactly the port's decimal digits, with no leading zero |
| `Connection.InetUrlCarriesPort` | src/Stream/Connection.php:32-33 | a valid `tcp` or `udp` connection always carries its port in its URL |
| `Connection.UrlExamples` | src/Stream/Connection.php:69-77 | `tcp` to `h` on port 80 gives `tcp://h:80`; `unix` with port 0 gives `unix:///tmp/s` with no port |
| `DataHandler.PrepareReceiveData` | src/Stream/DataHandler.php:24-31 | without a driver, incoming data is returned unchanged; with one, the driver's result is returned unchanged |
| `DataHandler.PrepareSendData` | src/Stream/DataHandler.php:39-50 | without a driver it succeeds exactly on strings and returns them unchanged; with one, exactly when the driver's output is a string, which is returned; the only error is `NotStringStreamException` |
| `DataHandler.SendReceiveRoundTrip` | src/Stream/DataHandler.php:24-50 | receiving what was sent gives back the payload, for a driver whose two methods undo each other, or for a string with no driver |
| `DataHandler.TestDriver` | tests/GetContentsTest.php:13-34 | the test suite's driver sends an array as its items joined with no glue and anything else as `""`, and receives data unchanged |
| `DataHandler.SendArray` | tests/GetContentsTest.php:41-65 | with the test driver an array is sent as its items joined; without a driver it raises `NotStringStreamException` |
| `DataHandler.TestDriverSendsQuery` | tests/GetContentsTest.php:54-65 | with the test driver, `(array)$query` is sent as the query itself |
| `ReceiveMethod.Between` | src/Stream/ReceiveMethod/AbstractMethod.php:24 | with no bounds every integer is accepted; an accepted integer lies within the closed range; a strict check refuses the bounds themselves and accepts every integer strictly between them; an inclusive one accepts the whole closed range |
| `ReceiveMethod.ValidateInt` | src/Stream/ReceiveMethod/AbstractMethod.php:22-38 | returns true exactly for an integer within the bounds (a null bound is no bound; strict unless inclusive); otherwise a `StreamException` |
| `ReceiveMethod.ZeroLowerBound` | src/Stream/ReceiveMethod/AbstractMethod.php:22-24 | `validateInt($v, 0)` accepts exactly the positive integers; with `inclusive` it accepts exactly the integers >= 0 |
| `ReceiveMethod.BoundsMonotone` | src/Stream/ReceiveMethod/AbstractMethod.php:22-24 | the inclusive check accepts all the strict one does; with no bounds every integer passes; a non-integer never passes |
| `ReceiveMethod.NewFgetc` | src/Stream/ReceiveMethod/FgetcMethod.php:16-19 | the parameterless strategy reads with `fgetc` |
| `ReceiveMethod.NewFgets` | src/Stream/ReceiveMethod/FgetsMethod.php:17-24 | null is stored without a check; any other length succeeds exactly when it is a positive integer, and is stored |
| `ReceiveMethod.NewFread` | src/Stream/ReceiveMethod/FreadMethod.php:17-21 | succeeds exactly for a positive integer length and stores it; otherwise the constructor throws and produces no strategy |
| `ReceiveMethod.NewStreamGetContents` | src/Stream/ReceiveMethod/StreamGetContentsMethod.php:21-33 | succeeds exactly when the length is the default 1024 or positive, and the offset is the default -1 or >= 0; stores both |
| `ReceiveMethod.NegativeOffsetOnlyDefault` | src/Stream/ReceiveMethod/StreamGetContentsMethod.php:26-29 | every negative offset other than the sentinel -1 is refused |
| `ReceiveMethod.NewStreamGetLine` | src/Stream/ReceiveMethod/StreamGetLineMethod.php:21-27 | succeeds exactly for a positive integer length; the ending is stored unchecked |
| `ReceiveMethod.ReadStream` | src/Stream/ReceiveMethod/FgetsMethod.php:31-34 | the read call determines the strategy: the primitive named after its class, with every argument it holds (also `FgetcMethod.php:16-19`, `FreadMethod.php:28-31`, `StreamGetContentsMethod.php:40-43`, `StreamGetLineMethod.php:34-37`) |
| `ReceiveMethod.ReadForwardsConstructorArguments` | src/Stream/ReceiveMethod/StreamGetContentsMethod.php:40-43 | each constructed strategy passes the arguments it was constructed with to its read primitive (also `FgetsMethod.php:31-34`, `FreadMethod.php:28-31`, `StreamGetLineMethod.php:34-37`) |
| `ReceiveMethod.DefaultsAreAccepted` | src/Stream/ReceiveMethod/StreamGetContentsMethod.php:21-32 | the default constructions of `StreamGetContentsMethod` and `FgetsMethod` succeed and store 1024, -1 and null |
| `ReceiveMethod.ClassName` | src/Stream/Stream.php:192-199 | `get_class` of a strategy lies in namespace `Stream\ReceiveMethod\` |
| `ReceiveMethod.ClassNameIdentifiesClass` | src/Stream/Stream.php:192-199 | strategies of different classes have different class names |
| `StreamMachine.IsOpened` | src/Stream/Stream.php:126-134 | reports whether a handle is present; throws "not opened" exactly when asked to and the stream is closed |
| `StreamMachine.Open` | src/Stream/Stream.php:62-82 | on an open stream: no call, nothing changed, true. On a closed one: one connect to the URL; success stores the returned handle; failure raises `ConnectionStreamException` and leaves the stream closed |
| `StreamMachine.IsReadyForReading` | src/Stream/Stream.php:88-118 | polls with the stored read timeouts; it raises "select failed" exactly when the stream is closed (stream_select then has no stream to poll) or the select fails; otherwise the result is true exactly when the count is positive |
| `StreamMachine.SetTimeOut` | src/Stream/Stream.php:141-146 | validates the seconds first, then requires an open stream, then sets the timeout on the handle; nothing changes |
| `StreamMachine.SetBlocking` | src/Stream/Stream.php:151-162 | requires an open stream, then sets blocking on the handle; nothing changes |
| `StreamMachine.SetReadTimeOut` | src/Stream/Stream.php:170-179 | validates seconds, then microseconds, then requires an open stream, each failure with its own reason (invalid seconds, invalid microseconds, not opened); stores both values exactly when all three pass, and changes nothing otherwise |
| `StreamMachine.SetReceiveMethod` | src/Stream/Stream.php:184-187 | stores the method and leaves the handle and timeouts alone |
| `StreamMachine.GetReceiveMethodName` | src/Stream/Stream.php:192-199 | null exactly when no method is set, else the method's class name |
| `StreamMachine.GetContents` | src/Stream/Stream.php:204-232 | no method: `ReceiveMethodStreamException` before any open. Otherwise it opens, reads once with the method's primitive, and succeeds exactly when the read is truthy, returning the prepared data |
| `StreamMachine.GetMetaData` | src/Stream/Stream.php:238-245 | false when closed, else the OS's metadata for the handle |
| `StreamMachine.SendContents` | src/Stream/Stream.php:259-273 | opens first, then prepares the data, then sends it; succeeds exactly when opening and preparing succeed and the count is neither false nor 0, and returns the count; a failed open raises `ConnectionStreamException`, a failed preparation `NotStringStreamException`, and a send of nothing "send failed" |
| `StreamMachine.Close` | src/Stream/Stream.php:278-290 | no handle: no call, stays closed. Otherwise fclose on the handle: success clears it, failure raises and keeps it. The method and timeouts are never reset |
| `StreamMachine.IsEof` | src/Stream/Stream.php:295-302 | true with no handle and no call, else what feof reports for the handle |
| `StreamProperties.OpenIsIdempotent` | src/Stream/Stream.php:62-82 | after a successful open, a second open makes no call, changes nothing and returns true |
| `StreamProperties.CloseIsIdempotent` | src/Stream/Stream.php:278-290 | after a successful close, a second close makes no call and succeeds |
| `StreamProperties.FailedCloseIsRetried` | src/Stream/Stream.php:280-289 | a failed fclose keeps the handle, so the next close calls fclose on it again |
| `StreamProperties.LifecycleKeepsSettings` | src/Stream/Stream.php:62-82 | opening then closing never changes the receive method or the read timeouts |
| `StreamProperties.SendOpensBeforePreparing` | src/Stream/Stream.php:259-262 | a send on a closed stream connects first; a non-string payload is refused only after that, and the stream stays open |
| `StreamProperties.SendArrayWithoutDriver` | tests/GetContentsTest.php:41-52 | with no driver, an array payload raises `NotStringStreamException` and nothing is sent |
| `StreamProperties.ReceiveNeedsMethodFirst` | src/Stream/Stream.php:220-223 | with no receive method, `getContents` makes no call, changes nothing and raises `ReceiveMethodStreamException` |
| `StreamProperties.ReceiveUsesMethod` | src/Stream/Stream.php:184-187 | after `setReceiveMethod(m)`, `getContents` on a closed stream connects, then reads with `m`'s primitive and arguments |
| `StreamProperties.FalsyReadsAreRefused` | src/Stream/Stream.php:225-229 | the read results `false`, `""` and `"0"` raise `ReadStreamException` |
| `StreamProperties.ReadTimeOutFeedsSelect` | src/Stream/Stream.php:94-100 | the timeouts `setReadTimeOut` stores are the ones `isReadyForReading` polls with |
| `StreamProperties.ValidationBeforeOpenCheck` | src/Stream/Stream.php:141-179 | on a closed stream, a bad timeout is reported as invalid seconds or microseconds, not as "not opened" |
| `StreamProperties.OperationsPreserveValid` | src/Stream/Stream.php:170-179 | no operation makes a stored read timeout negative |
| `StreamProperties.SessionConnectsOnce` | src/Stream/Stream.php:223-264 | a send on a closed stream connects; a later receive reuses the handle; connect runs once in all |
| `Stream.Stream.constructor` | src/Stream/Stream.php:46-54 | a new stream is closed, has no receive method, has zero read timeouts, and keeps the given connection and driver |
| `Stream.NewStream` | src/Stream/Stream.php:46-54 | construction succeeds exactly when the connection is valid, and otherwise raises the connection's error |
| `Stream.Stream.IsOpened` | src/Stream/Stream.php:126-134 | as `StreamMachine.IsOpened` on the current fields |
| `Stream.Stream.Open` | src/Stream/Stream.php:62-82 | fields, result and OS calls exactly as `StreamMachine.Open` |
| `Stream.Stream.IsReadyForReading` | src/Stream/Stream.php:88-118 | result and calls as `StreamMachine.IsReadyForReading`; the fields do not change, and the select is made with non-negative timeouts |
| `Stream.Stream.SetTimeOut` | src/Stream/Stream.php:141-146 | result and calls as `StreamMachine.SetTimeOut`; the fields do not change |
| `Stream.Stream.SetBlockingOn` | src/Stream/Stream.php:151-154 | as `StreamMachine.SetBlocking` with true |
| `Stream.Stream.SetBlockingOff` | src/Stream/Stream.php:159-162 | as `StreamMachine.SetBlocking` with false |
| `Stream.Stream.SetBlocking` | src/Stream/Stream.php:353-362 | result and calls as `StreamMachine.SetBlocking`; the fields do not change |
| `Stream.Stream.SetReadTimeOut` | src/Stream/Stream.php:170-179 | fields and result as `StreamMachine.SetReadTimeOut` |
| `Stream.Stream.SetReceiveMethod` | src/Stream/Stream.php:184-187 | fields as `StreamMachine.SetReceiveMethod` |
| `Stream.Stream.GetReceiveMethodName` | src/Stream/Stream.php:192-199 | as `StreamMachine.GetReceiveMethodName` on the current fields |
| `Stream.Stream.GetContents` | src/Stream/Stream.php:204-232 | fields, result and calls as `StreamMachine.GetContents` |
| `Stream.Stream.GetMetaData` | src/Stream/Stream.php:238-245 | result and calls as `StreamMachine.GetMetaData` |
| `Stream.Stream.SendContents` | src/Stream/Stream.php:259-273 | fields, result and calls as `StreamMachine.SendContents` |
| `Stream.Stream.Close` | src/Stream/Stream.php:278-290 | fields, result and calls as `StreamMachine.Close` |
| `Stream.Stream.IsEof` | src/Stream/Stream.php:295-302 | result and calls as `StreamMachine.IsEof` |
| `Stream.ReceiveScenario` | tests/GetContentsTest.php:67-86 | the receive test's sequence (send, read timeout 2s, blocking off, poll, read) connects once and uses one handle throughout |

## Left out

- Real I/O: the stream calls are inputs to the model, not performed. Blocking, timeouts, partial reads and what the primitives would actually read are not modelled.
- `Validator.IntVal`: `intVal` also accepts numeric strings and integral floats. The model has no floats and treats every string as a non-integer, so such a port, timeout or length is refused.
- `Validator.ValidateProtocol`: PHP's loose `==` is taken as string equality. The protocol is a string; other PHP types are not modelled.
- `Connection.New`: the port is an integer. For `unix` the source stores a port of any PHP type; only integers are modelled.
- PHP arrays are modelled as sequences of values. Their keys are dropped, and floats and objects are not values in the model.
- Exception messages (`sprintf`, `gettype`, error number and text from connect) are left out. An exception is its class, plus a reason for plain `StreamException`.
- `AbstractMethod::validateInt` imports `StreamException` from `Stream\Exceptions`, while every other file uses namespace `Stream\Exception`. The model raises the one `StreamException`.
- The `Respect\Validation` library is not part of this model. `between($min, $max)` is taken as Respect's `Between` rule: a null limit is no bound, and the third argument `inclusive` defaults to true. So `validatePort` accepts 1..65635 with both ends included, while `validateInt` always passes its own `$inclusive`, false unless the caller says otherwise. `int()` is taken as "is a PHP int".
- `StreamMachine.IsReadyForReading`: on a closed stream PHP 7's stream_select warns and returns false, which the model follows; PHP 8 throws a `ValueError` instead, which is not modelled.
- `Stream::setBlocking` has an `is_bool` check. It is only ever called with `true` or `false`, so the parameter is a `bool`, the check cannot fail, and its exception has no reason in the model.
- `Stream::getExistedStream` is called only after a successful open, when a handle is always present. Its "Stream is null" exception therefore cannot occur and is neither a branch nor a reason in the model.
- `Stream::__destruct`: closing at object destruction is a runtime concern and is left out. `Stream::getConnection` and the `Connection` getters are the fields of the model's datatypes.
- The constructor's assignment to an undeclared `$this->driver` field has no effect on behaviour and is left out.
- The interfaces `MethodInterface` and `StreamDriverInterface` become a closed datatype of strategies and a datatype of two functions.
- The network tests are used only as evidence. Their calls to `getContentsByStreamGetContents` and `Stream::PROTOCOL_TCP`, which do not exist in `Stream.php`, are not modelled.

## Findings

| source | as written | input that shows it | evidently intended | confidence | as-written member | corrected member |
|---|---|---|---|---|---|---|
| src/Stream/Validator.php:49-51 | `between(1, 65635)` | port 65536, refused by the message's own range 1-65535, passes the check | ports 1-65535, as the exception message says | high; not executed | `Validator.ValidatePortAsWritten`, `Validator.PortAsWrittenAcceptsNonPort`, `Connection.New`, `Connection.NewAcceptsNonPort` | `Validator.ValidatePort`, `Validator.ValidatePortAcceptsExactlyPorts`, `Connection.NewCorrected`, `Connection.CorrectedAgreesOnPorts` |

/** The static checks of class `Validator`: each either returns or throws, and
    none of them has any other effect. */
module Validator {
  import opened Wrappers
  import opened Exceptions
  import opened PhpValues

  /** The protocol names of class `Connection`. */
  const PROTOCOL_TCP: string := "tcp"
  const PROTOCOL_UDP: string := "udp"
  const PROTOCOL_UNIX: string := "unix"

  /** The largest TCP/UDP port: a port is a 16-bit number. */
  const MAX_PORT: int := 65535
  /** The upper bound the port check is written with. */
  const MAX_PORT_AS_WRITTEN: int := 65635

  function ValidateProtocol(protocol: string): (r: Result<bool, Exception>)
    ensures r.Success? <==> protocol == PROTOCOL_TCP || protocol == PROTOCOL_UDP || protocol == PROTOCOL_UNIX
    ensures r.Success? ==> r.value
    ensures r.Failure? ==> r.error == ProtocolValidateStreamException
  {
    if protocol == PROTOCOL_TCP then Success(true)
    else if protocol == PROTOCOL_UDP then Success(true)
    else if protocol == PROTOCOL_UNIX then Success(true)
    else Failure(ProtocolValidateStreamException)
  }

  /** The port check as the code writes it: `between(1, 65635)`. */
  function ValidatePortAsWritten(port: int): (r: Check<Exception>)
    ensures r.Pass? <==> 1 <= port <= MAX_PORT_AS_WRITTEN
    ensures r.Fail? ==> r.error == PortValidateStreamException
  {
    if 1 <= port <= MAX_PORT_AS_WRITTEN then Pass else Fail(PortValidateStreamException)
  }

  /** The port check as its message states it: the range 1-65535. */
  function ValidatePort(port: int): (r: Check<Exception>)
    ensures r.Pass? ==> 0 < port < 0x1_0000
    ensures r.Fail? ==> r.error == PortValidateStreamException
  {
    if 1 <= port <= MAX_PORT then Pass else Fail(PortValidateStreamException)
  }

  /** The corrected check accepts exactly the non-zero 16-bit ports. */
  lemma ValidatePortAcceptsExactlyPorts(port: int)
    ensures ValidatePort(port).Pass? <==> 0 < port < 0x1_0000
  {
  }

  /** The check as written lets through ports that do not fit in 16 bits,
      for instance 65536. */
  lemma PortAsWrittenAcceptsNonPort()
    ensures ValidatePortAsWritten(65536).Pass?
    ensures !(65536 < 0x1_0000)
    ensures ValidatePort(65536).Fail?
  {
  }

  function ValidatePath(path: Value): (r: Check<Exception>)
    ensures r.Pass? <==> path.VStr? && |path.s| >= 1
    ensures r.Fail? ==> r.error == PathValidateStreamException
  {
    if !path.VStr? || |path.s| < 1 then Fail(PathValidateStreamException) else Pass
  }

  /** `v::intVal()`, taken to accept PHP integers and nothing else. */
  function IntVal(v: Value): (r: Option<int>)
    ensures r.Some? <==> v.VInt?
    ensures r.Some? ==> r.value == v.i
  {
    if v.VInt? then Some(v.i) else None
  }

  /** `v::intVal()->min(0, true)`: an integer no smaller than 0. */
  predicate IsNonNegativeInt(v: Value)
  {
    match IntVal(v)
    case Some(i) => i >= 0
    case None => false
  }

  function ValidateSeconds(seconds: Value): (r: Check<Exception>)
    ensures r.Pass? <==> seconds.VInt? && seconds.i >= 0
    ensures r.Fail? ==> r.error == StreamException(InvalidSeconds)
  {
    if !IsNonNegativeInt(seconds) then Fail(StreamException(InvalidSeconds)) else Pass
  }

  /** The integer 0 is let through before the range check is made. */
  function ValidateMicroSeconds(microSeconds: Value): (r: Check<Exception>)
    ensures microSeconds == VInt(0) ==> r.Pass?
    ensures r.Fail? ==> r.error == StreamException(InvalidMicroSeconds)
  {
    if microSeconds != VInt(0) && !IsNonNegativeInt(microSeconds) then
      Fail(StreamException(InvalidMicroSeconds))
    else
      Pass
  }

  /** The shortcut for 0 changes nothing: microseconds are accepted exactly
      when they would be accepted as seconds. */
  lemma MicroSecondsAcceptLikeSeconds(v: Value)
    ensures ValidateMicroSeconds(v).Pass? <==> ValidateSeconds(v).Pass?
    ensures ValidateMicroSeconds(v).Pass? <==> v.VInt? && v.i >= 0
  {
  }
}

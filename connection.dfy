/** Class `Connection`: a validated connection target and the URL it is
    opened with. Its fields are assigned once, by the constructor. */
module Connection {
  import opened Wrappers
  import opened Exceptions
  import opened PhpValues
  import opened Validator

  /** A constructed `Connection`; the getters are the field selectors. */
  datatype Connection = Connection(path: string, protocol: string, port: int)

  /** What a successfully constructed connection satisfies: the port check
      is the one the code makes, `between(1, 65635)`. */
  predicate Valid(c: Connection)
  {
    && ValidateProtocol(c.protocol).Success?
    && (c.protocol != PROTOCOL_UNIX ==> ValidatePortAsWritten(c.port).Pass?)
    && |c.path| >= 1
  }

  /** The constructor's three checks given the outcome of its port check:
      the protocol first, then the port unless the protocol is `unix`, then
      the path. */
  function Build(path: Value, protocol: string, port: int, portCheck: Check<Exception>): (r: Result<Connection, Exception>)
    ensures r.Success? <==>
      && ValidateProtocol(protocol).Success?
      && (protocol != PROTOCOL_UNIX ==> portCheck.Pass?)
      && ValidatePath(path).Pass?
    ensures r.Success? ==> path.VStr? && r.value == Connection(path.s, protocol, port)
    ensures r.Failure? && ValidateProtocol(protocol).Failure? ==> r.error == ProtocolValidateStreamException
    ensures r.Failure? && ValidateProtocol(protocol).Success? && protocol != PROTOCOL_UNIX && portCheck.Fail? ==>
              r.error == portCheck.error
  {
    if ValidateProtocol(protocol).Failure? then Failure(ValidateProtocol(protocol).error)
    else if protocol != PROTOCOL_UNIX && portCheck.Fail? then Failure(portCheck.error)
    else if ValidatePath(path).Fail? then Failure(ValidatePath(path).error)
    else Success(Connection(path.s, protocol, port))
  }

  /** `new Connection($path, $protocol, $port)`, with the port check as the
      code writes it. */
  function New(path: Value, protocol: string, port: int): (r: Result<Connection, Exception>)
    ensures r.Success? <==>
      && ValidateProtocol(protocol).Success?
      && (protocol != PROTOCOL_UNIX ==> 1 <= port <= MAX_PORT_AS_WRITTEN)
      && ValidatePath(path).Pass?
    ensures r.Success? ==> path.VStr? && r.value == Connection(path.s, protocol, port) && Valid(r.value)
  {
    Build(path, protocol, port, ValidatePortAsWritten(port))
  }

  /** The constructor with the port check its message describes, 1-65535:
      every connection it accepts has a 16-bit port unless it is `unix`. */
  function NewCorrected(path: Value, protocol: string, port: int): (r: Result<Connection, Exception>)
    ensures r.Success? <==>
      && ValidateProtocol(protocol).Success?
      && (protocol != PROTOCOL_UNIX ==> 0 < port < 0x1_0000)
      && ValidatePath(path).Pass?
    ensures r.Success? ==> path.VStr? && r.value == Connection(path.s, protocol, port) && Valid(r.value)
    ensures r.Success? && protocol != PROTOCOL_UNIX ==> r.value.port <= MAX_PORT
  {
    ValidatePortAcceptsExactlyPorts(port);
    Build(path, protocol, port, ValidatePort(port))
  }

  /** The two constructors differ only on ports above 65535 that the code's
      bound still lets through. */
  lemma CorrectedAgreesOnPorts(path: Value, protocol: string, port: int)
    requires port <= MAX_PORT || port > MAX_PORT_AS_WRITTEN
    ensures NewCorrected(path, protocol, port) == New(path, protocol, port)
  {
  }

  /** Port 65600 is accepted by the constructor as written and refused by
      the corrected one. */
  lemma NewAcceptsNonPort()
    ensures New(VStr("h"), PROTOCOL_TCP, 65600) == Success(Connection("h", PROTOCOL_TCP, 65600))
    ensures NewCorrected(VStr("h"), PROTOCOL_TCP, 65600) == Failure(PortValidateStreamException)
  {
  }

  /** The constructor's checks in the order they run; the port check is
      skipped, that is passes, for `unix`. */
  function Checks(path: Value, protocol: string, port: int): seq<Check<Exception>>
  {
    [ if ValidateProtocol(protocol).Success? then Pass else Fail(ValidateProtocol(protocol).error),
      if protocol == PROTOCOL_UNIX then Pass else ValidatePortAsWritten(port),
      ValidatePath(path) ]
  }

  /** The error of the earliest failing check, if any. */
  function FirstFailure(checks: seq<Check<Exception>>): (r: Option<Exception>)
    ensures r.None? <==> forall k :: 0 <= k < |checks| ==> checks[k].Pass?
    ensures r.Some? ==> exists k :: 0 <= k < |checks| && checks[k] == Fail(r.value)
                          && forall j :: 0 <= j < k ==> checks[j].Pass?
  {
    if checks == [] then None
    else if checks[0].Fail? then Some(checks[0].error)
    else
      var rest := FirstFailure(checks[1..]);
      if rest.Some? then
        ghost var k :| 0 <= k < |checks[1..]| && checks[1..][k] == Fail(rest.value)
                        && forall j :: 0 <= j < k ==> checks[1..][j].Pass?;
        assert checks[k + 1] == Fail(rest.value);
        rest
      else rest
  }

  /** An input that fails several checks reports the earliest failing one. */
  lemma ErrorPrecedence(path: Value, protocol: string, port: int)
    ensures New(path, protocol, port).Failure? <==> FirstFailure(Checks(path, protocol, port)).Some?
    ensures New(path, protocol, port).Failure? ==>
              New(path, protocol, port).error == FirstFailure(Checks(path, protocol, port)).value
  {
    var cs := Checks(path, protocol, port);
    assert cs[1..][1..] == [cs[2]];
  }

  /** For `unix` the port is never looked at: any two ports give the same
      outcome, up to the port that is stored. */
  lemma UnixIgnoresPort(path: Value, port1: int, port2: int)
    ensures New(path, PROTOCOL_UNIX, port1).Success? == New(path, PROTOCOL_UNIX, port2).Success?
    ensures New(path, PROTOCOL_UNIX, port1).Failure? ==>
              New(path, PROTOCOL_UNIX, port1) == New(path, PROTOCOL_UNIX, port2)
  {
  }

  /** Every valid connection is what the constructor builds from its fields. */
  lemma ValidIsConstructible(c: Connection)
    requires Valid(c)
    ensures New(VStr(c.path), c.protocol, c.port) == Success(c)
  {
  }

  /** The constructor test cases: an unknown protocol, and `tcp` with port 0. */
  lemma ConstructorTestCases()
    ensures New(VStr("path"), "missed", 20) == Failure(ProtocolValidateStreamException)
    ensures New(VStr("path"), PROTOCOL_TCP, 0) == Failure(PortValidateStreamException)
  {
  }

  /** `getUrlConnection()`: `protocol://path`, with `:port` appended when the
      port is positive. */
  function GetUrlConnection(c: Connection): (u: string)
    ensures |c.protocol| + 3 + |c.path| <= |u|
    ensures u[..|c.protocol| + 3 + |c.path|] == c.protocol + "://" + c.path
    ensures c.port <= 0 ==> |u| == |c.protocol| + 3 + |c.path|
  {
    var url := c.protocol + "://" + c.path;
    if c.port > 0 then url + ":" + IntToString(c.port) else url
  }

  /** The position of the last `:` in a string. */
  function LastColon(s: string): (r: Option<nat>)
    ensures r.None? <==> forall k :: 0 <= k < |s| ==> s[k] != ':'
    ensures r.Some? ==> r.value < |s| && s[r.value] == ':'
                         && forall k :: r.value < k < |s| ==> s[k] != ':'
  {
    if s == [] then None
    else if s[|s| - 1] == ':' then Some(|s| - 1)
    else LastColon(s[..|s| - 1])
  }

  /** The port a URL names: the digits after its last `:`, if there are any
      and nothing else follows. */
  function PortOfUrl(u: string): Option<nat>
  {
    match LastColon(u)
    case None => None
    case Some(k) =>
      var d := u[k + 1..];
      if |d| > 0 && AllDigits(d) then Some(DecimalValue(d)) else None
  }

  /** The colon in front of a string of digits is the last colon. */
  lemma LastColonBeforeDigits(p: string, d: string)
    requires AllDigits(d)
    ensures LastColon(p + ":" + d) == Some(|p|)
  {
    var s := p + ":" + d;
    assert s[|p|] == ':';
    var r := LastColon(s);
    if r.value < |p| {
      assert false;
    } else if r.value > |p| {
      assert false;
    }
  }

  /** A positive port can be read back from the URL, and the part in front
      of its colon is `protocol://path`. */
  lemma {:induction false} UrlPortRoundTrip(c: Connection)
    requires c.port > 0
    ensures PortOfUrl(GetUrlConnection(c)) == Some(c.port)
    ensures LastColon(GetUrlConnection(c)) == Some(|c.protocol| + 3 + |c.path|)
    ensures GetUrlConnection(c)[|c.protocol| + 4 + |c.path|..] == NatToDecimal(c.port)
  {
    var p := c.protocol + "://" + c.path;
    var d := NatToDecimal(c.port);
    LastColonBeforeDigits(p, d);
    assert GetUrlConnection(c) == p + ":" + d;
    assert (p + ":" + d)[|p| + 1..] == d;
    DecimalRoundTrip(c.port);
  }

  /** A valid `tcp` or `udp` connection always carries its port in its URL,
      because the validated port is at least 1. */
  lemma InetUrlCarriesPort(c: Connection)
    requires Valid(c) && c.protocol != PROTOCOL_UNIX
    ensures PortOfUrl(GetUrlConnection(c)) == Some(c.port)
  {
    UrlPortRoundTrip(c);
  }

  /** Two sample URLs: with port 80, and with no port. */
  lemma UrlExamples()
    ensures GetUrlConnection(Connection("h", PROTOCOL_TCP, 80)) == "tcp://h:80"
    ensures GetUrlConnection(Connection("/tmp/s", PROTOCOL_UNIX, 0)) == "unix:///tmp/s"
  {
    assert NatToDecimal(80) == NatToDecimal(8) + [DigitChar(0)];
  }
}

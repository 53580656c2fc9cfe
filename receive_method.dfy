/** The receive strategies of namespace `Stream\ReceiveMethod`: each checks
    its parameters once, when it is constructed, and a read only forwards the
    stored parameters to one PHP read primitive. */
module ReceiveMethod {
  import opened Wrappers
  import opened Exceptions
  import opened PhpValues

  /** `v::int()->between($min, $max, $inclusive)`, taken to mean: no bound on
      a side whose limit is null, strict bounds unless `inclusive` is set. */
  function Between(i: int, min: Option<int>, max: Option<int>, inclusive: bool): (r: bool)
    ensures min.None? && max.None? ==> r
    ensures r ==> (min.Some? ==> min.value <= i) && (max.Some? ==> i <= max.value)
    ensures !inclusive && r ==> (min.Some? ==> i != min.value) && (max.Some? ==> i != max.value)
    ensures inclusive && (min.Some? ==> min.value <= i) && (max.Some? ==> i <= max.value) ==> r
    ensures !inclusive && (min.Some? ==> min.value < i) && (max.Some? ==> i < max.value) ==> r
  {
    && (min.Some? ==> if inclusive then min.value <= i else min.value < i)
    && (max.Some? ==> if inclusive then i <= max.value else i < max.value)
  }

  /** `AbstractMethod::validateInt`. */
  function ValidateInt(value: Value, min: Option<int>, max: Option<int>, inclusive: bool): (r: Result<bool, Exception>)
    ensures r.Success? <==> value.VInt? && Between(value.i, min, max, inclusive)
    ensures r.Success? ==> r.value
    ensures r.Failure? ==> r.error == StreamException(InvalidInt)
  {
    if !(value.VInt? && Between(value.i, min, max, inclusive)) then Failure(StreamException(InvalidInt))
    else Success(true)
  }

  /** `validateInt($v, 0)` accepts exactly the positive integers, and
      `validateInt($v, 0, null, true)` exactly the integers from 0 up. */
  lemma ZeroLowerBound(v: Value)
    ensures ValidateInt(v, Some(0), None, false).Success? <==> v.VInt? && v.i > 0
    ensures ValidateInt(v, Some(0), None, true).Success? <==> v.VInt? && v.i >= 0
  {
  }

  /** Allowing equality only widens what is accepted, and a null bound
      accepts every integer on its side. */
  lemma BoundsMonotone(v: Value, min: Option<int>, max: Option<int>)
    ensures ValidateInt(v, min, max, false).Success? ==> ValidateInt(v, min, max, true).Success?
    ensures v.VInt? ==> ValidateInt(v, None, None, false).Success?
    ensures !v.VInt? ==> ValidateInt(v, min, max, true).Failure?
  {
  }

  /** A constructed strategy with the parameters it stores. */
  datatype ReceiveMethod =
    | Fgetc
    | Fgets(maybeLength: Option<int>)
    | Fread(maxLength: int)
    | StreamGetContents(maxLength: int, offset: int)
    | StreamGetLine(length: int, ending: Value)

  /** A call of a PHP read primitive with its arguments. */
  datatype ReadCall =
    | FgetcCall
    | FgetsCall(maybeLength: Option<int>)
    | FreadCall(maxLength: int)
    | StreamGetContentsCall(maxLength: int, offset: int)
    | StreamGetLineCall(length: int, ending: Value)

  /** `new FgetcMethod()`: nothing to check. */
  function NewFgetc(): (r: ReceiveMethod)
    ensures ReadStream(r) == FgetcCall
  {
    Fgetc
  }

  /** `new FgetsMethod($length = null)`: null is stored unchecked, anything
      else must be a positive integer. */
  function NewFgets(length: Value): (r: Result<ReceiveMethod, Exception>)
    ensures length == VNull ==> r == Success(Fgets(None))
    ensures length != VNull ==> (r.Success? <==> length.VInt? && length.i > 0)
    ensures r.Success? && length != VNull ==> r.value == Fgets(Some(length.i))
    ensures r.Failure? ==> r.error == StreamException(InvalidInt)
  {
    if length != VNull && ValidateInt(length, Some(0), None, false).Failure? then
      Failure(ValidateInt(length, Some(0), None, false).error)
    else
      Success(Fgets(if length.VInt? then Some(length.i) else None))
  }

  /** `new FreadMethod($maxLength)`: the length must be a positive integer. */
  function NewFread(maxLength: Value): (r: Result<ReceiveMethod, Exception>)
    ensures r.Success? <==> maxLength.VInt? && maxLength.i > 0
    ensures r.Success? ==> r.value == Fread(maxLength.i)
    ensures r.Failure? ==> r.error == StreamException(InvalidInt)
  {
    if ValidateInt(maxLength, Some(0), None, false).Failure? then
      Failure(ValidateInt(maxLength, Some(0), None, false).error)
    else
      Success(Fread(maxLength.i))
  }

  /** The defaults of `StreamGetContentsMethod`. */
  const DEFAULT_MAX_LENGTH: int := 1024
  const DEFAULT_OFFSET: int := -1

  /** `new StreamGetContentsMethod($maxLength = 1024, $offset = -1)`: the
      defaults are stored unchecked; another length must be positive, another
      offset at least 0. */
  function NewStreamGetContents(maxLength: Value, offset: Value): (r: Result<ReceiveMethod, Exception>)
    ensures r.Success? <==>
      && (maxLength == VInt(DEFAULT_MAX_LENGTH) || (maxLength.VInt? && maxLength.i > 0))
      && (offset == VInt(DEFAULT_OFFSET) || (offset.VInt? && offset.i >= 0))
    ensures r.Success? ==> r.value == StreamGetContents(maxLength.i, offset.i)
    ensures r.Failure? ==> r.error == StreamException(InvalidInt)
  {
    if maxLength != VInt(DEFAULT_MAX_LENGTH) && ValidateInt(maxLength, Some(0), None, false).Failure? then
      Failure(ValidateInt(maxLength, Some(0), None, false).error)
    else if offset != VInt(DEFAULT_OFFSET) && ValidateInt(offset, Some(0), None, true).Failure? then
      Failure(ValidateInt(offset, Some(0), None, true).error)
    else
      Success(StreamGetContents(maxLength.i, offset.i))
  }

  /** The only negative offset accepted is the default -1. */
  lemma NegativeOffsetOnlyDefault(maxLength: Value, offset: int)
    requires offset < 0
    ensures NewStreamGetContents(maxLength, VInt(offset)).Success? ==> offset == DEFAULT_OFFSET
    ensures NewStreamGetContents(VInt(DEFAULT_MAX_LENGTH), VInt(offset)).Success? <==> offset == DEFAULT_OFFSET
  {
  }

  /** `new StreamGetLineMethod($length, $ending = null)`: the length must be a
      positive integer; the ending is stored unchecked. */
  function NewStreamGetLine(length: Value, ending: Value): (r: Result<ReceiveMethod, Exception>)
    ensures r.Success? <==> length.VInt? && length.i > 0
    ensures r.Success? ==> r.value == StreamGetLine(length.i, ending)
    ensures r.Failure? ==> r.error == StreamException(InvalidInt)
  {
    if ValidateInt(length, Some(0), None, false).Failure? then
      Failure(ValidateInt(length, Some(0), None, false).error)
    else
      Success(StreamGetLine(length.i, ending))
  }

  /** `readStream($resource)`: the primitive a strategy calls, and the
      arguments it passes; the primitive's result is returned as it is. */
  function ReadStream(m: ReceiveMethod): (r: ReadCall)
    ensures StrategyOf(r) == m
  {
    match m
    case Fgetc => FgetcCall
    case Fgets(length) => FgetsCall(length)
    case Fread(maxLength) => FreadCall(maxLength)
    case StreamGetContents(maxLength, offset) => StreamGetContentsCall(maxLength, offset)
    case StreamGetLine(length, ending) => StreamGetLineCall(length, ending)
  }

  /** The strategy a read call is made by: the call is named after the
      class, and carries every argument the strategy was constructed with. */
  function StrategyOf(call: ReadCall): ReceiveMethod
  {
    match call
    case FgetcCall => Fgetc
    case FgetsCall(length) => Fgets(length)
    case FreadCall(maxLength) => Fread(maxLength)
    case StreamGetContentsCall(maxLength, offset) => StreamGetContents(maxLength, offset)
    case StreamGetLineCall(length, ending) => StreamGetLine(length, ending)
  }

  /** Every constructed strategy hands the arguments it was constructed with
      to its read primitive. */
  lemma ReadForwardsConstructorArguments(a: Value, b: Value)
    ensures NewFgets(a).Success? ==>
              ReadStream(NewFgets(a).value) == FgetsCall(if a == VNull then None else Some(a.i))
    ensures NewFread(a).Success? ==> ReadStream(NewFread(a).value) == FreadCall(a.i)
    ensures NewStreamGetContents(a, b).Success? ==>
              ReadStream(NewStreamGetContents(a, b).value) == StreamGetContentsCall(a.i, b.i)
    ensures NewStreamGetLine(a, b).Success? ==>
              ReadStream(NewStreamGetLine(a, b).value) == StreamGetLineCall(a.i, b)
  {
  }

  /** The defaults: `new StreamGetContentsMethod()` and `new FgetsMethod()`
      always succeed. */
  lemma DefaultsAreAccepted()
    ensures NewStreamGetContents(VInt(DEFAULT_MAX_LENGTH), VInt(DEFAULT_OFFSET))
              == Success(StreamGetContents(1024, -1))
    ensures NewFgets(VNull) == Success(Fgets(None))
  {
  }

  const NAMESPACE: string := "Stream\\ReceiveMethod\\"

  /** `get_class($method)`: the fully qualified class name; no two strategies
      of different classes share it. */
  function ClassName(m: ReceiveMethod): (r: string)
    ensures |NAMESPACE| < |r| && r[..|NAMESPACE|] == NAMESPACE
  {
    NAMESPACE +
      match m
      case Fgetc => "FgetcMethod"
      case Fgets(_) => "FgetsMethod"
      case Fread(_) => "FreadMethod"
      case StreamGetContents(_, _) => "StreamGetContentsMethod"
      case StreamGetLine(_, _) => "StreamGetLineMethod"
  }

  /** Strategies of different classes have different class names. */
  lemma ClassNameIdentifiesClass(m1: ReceiveMethod, m2: ReceiveMethod)
    requires ClassName(m1) == ClassName(m2)
    ensures m1.Fgetc? == m2.Fgetc?
    ensures m1.Fgets? == m2.Fgets? && m1.Fread? == m2.Fread?
    ensures m1.StreamGetContents? == m2.StreamGetContents? && m1.StreamGetLine? == m2.StreamGetLine?
  {
    var n := |NAMESPACE|;
    assert ClassName(m1)[n..] == ClassName(m2)[n..];
  }
}

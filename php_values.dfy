/** The PHP values the library passes around untyped, with the parts of PHP's
    conversions the library relies on: integers printed in decimal, the
    `(string)` cast used by `implode`, and the falsiness of strings. */
module PhpValues {

  /** A PHP value. Arrays keep their values in order; their keys are dropped. */
  datatype Value =
    | VNull
    | VBool(b: bool)
    | VInt(i: int)
    | VStr(s: string)
    | VArray(items: seq<Value>)

  predicate IsDigit(c: char) { '0' <= c <= '9' }

  predicate AllDigits(s: string) { forall k :: 0 <= k < |s| ==> IsDigit(s[k]) }

  function DigitValue(c: char): (d: nat)
    requires IsDigit(c)
    ensures d < 10
  {
    (c as int) - ('0' as int)
  }

  function DigitChar(d: nat): (c: char)
    requires d < 10
    ensures IsDigit(c) && DigitValue(c) == d
  {
    (('0' as int) + d) as char
  }

  /** The decimal digits of `n`, most significant first, as PHP prints an
      integer: at least one digit and no leading zero. */
  function NatToDecimal(n: nat): (s: string)
    ensures |s| > 0 && AllDigits(s)
    ensures s[0] == '0' <==> n == 0
    decreases n
  {
    if n < 10 then [DigitChar(n)] else NatToDecimal(n / 10) + [DigitChar(n % 10)]
  }

  /** The number a string of decimal digits denotes. */
  function DecimalValue(s: string): nat
    requires AllDigits(s)
  {
    if s == [] then 0 else 10 * DecimalValue(s[..|s| - 1]) + DigitValue(s[|s| - 1])
  }

  /** Reading back the digits PHP prints gives the number printed. */
  lemma {:induction false} DecimalRoundTrip(n: nat)
    ensures DecimalValue(NatToDecimal(n)) == n
  {
    if n >= 10 {
      var p := NatToDecimal(n / 10);
      DecimalRoundTrip(n / 10);
      assert (p + [DigitChar(n % 10)])[..|p|] == p;
    }
  }

  /** PHP's string form of an integer. */
  function IntToString(i: int): string
  {
    if i < 0 then "-" + NatToDecimal(-i) else NatToDecimal(i)
  }

  /** PHP's `(string)` cast of a value (floats and objects are not modelled). */
  function ToPhpString(v: Value): (r: string)
    ensures v.VStr? ==> r == v.s
    ensures v == VNull || v == VBool(false) <==> !v.VStr? && r == ""
    ensures v.VInt? && v.i >= 0 ==> AllDigits(r) && DecimalValue(r) == v.i
    ensures v.VInt? && v.i < 0 ==> r[0] == '-' && AllDigits(r[1..]) && DecimalValue(r[1..]) == -v.i
    ensures v.VInt? && v.i >= 0 ==> r == NatToDecimal(v.i)
    ensures v.VInt? && v.i < 0 ==> r == "-" + NatToDecimal(-v.i)
  {
    match v
    case VNull => ""
    case VBool(b) => if b then "1" else ""
    case VInt(i) =>
      DecimalRoundTrip(if i < 0 then -i else i);
      IntToString(i)
    case VStr(s) => s
    case VArray(_) => "Array"
  }

  /** PHP's `implode($glue, $items)`: the string forms of the items, in order,
      separated by the glue. */
  function Implode(glue: string, items: seq<Value>): (r: string)
    ensures |items| == 1 ==> r == ToPhpString(items[0])
    ensures glue == "" ==> |r| == TotalLength(items)
  {
    if |items| == 0 then ""
    else if |items| == 1 then ToPhpString(items[0])
    else ToPhpString(items[0]) + glue + Implode(glue, items[1..])
  }

  /** Joining two non-empty arrays one after the other is joining each and
      putting the glue between them; with the one-item case this fixes which
      strings appear in the join, and in what order. */
  lemma {:induction false} ImplodeAppend(glue: string, a: seq<Value>, b: seq<Value>)
    requires |a| > 0 && |b| > 0
    ensures Implode(glue, a + b) == Implode(glue, a) + glue + Implode(glue, b)
    decreases |a|
  {
    if |a| == 1 {
      assert (a + b)[1..] == b;
    } else {
      assert (a + b)[1..] == a[1..] + b;
      ImplodeAppend(glue, a[1..], b);
    }
  }

  /** The summed lengths of the string forms of the items. */
  function TotalLength(items: seq<Value>): nat
  {
    if items == [] then 0 else |ToPhpString(items[0])| + TotalLength(items[1..])
  }

  /** A string PHP treats as false in a boolean context: the empty string
      and "0"; every longer string, "00" included, is true. */
  function IsFalsyString(s: string): (r: bool)
    ensures |s| > 1 ==> !r
    ensures r <==> |s| <= 1 && forall k :: 0 <= k < |s| ==> s[k] == '0'
  {
    s == "" || s == "0"
  }
}

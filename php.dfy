/**
 * The fragment of PHP's value semantics the integration code relies on:
 * loose truthiness (`false == $x`, `if ($x)`, `empty($x)`), conversion of a
 * value to a string by the `.` operator, and the `%d` conversion of `sprintf`.
 */
module Php {

  import opened Wrappers

  /** Keys of a PHP array, as produced by `json_decode($s, true)`. */
  datatype Key = IntKey(i: int) | StrKey(s: string)

  /**
   * A decoded JSON value. JSON objects and lists both decode to PHP arrays;
   * the model keeps an array's key/value pairs, not their order.
   */
  datatype Value =
    | Null
    | Bool(b: bool)
    | Int(i: int)
    | Str(s: string)
    | Arr(entries: map<Key, Value>)

  /** PHP's conversion to boolean, used by `if`, `false == $x` and `!empty($x)`. */
  predicate Truthy(v: Value)
  {
    match v
    case Null => false
    case Bool(b) => b
    case Int(i) => i != 0
    case Str(s) => s != "" && s != "0"
    case Arr(m) => |m| > 0
  }

  /** `empty($s)` on a console option: null, "" and "0" are empty. */
  predicate EmptyOption(s: Option<string>)
  {
    !Truthy(if s.Some? then Str(s.value) else Null)
  }

  lemma EmptyOptionCases(s: Option<string>)
    ensures EmptyOption(s) <==> s.None? || s.value == "" || s.value == "0"
  {
  }

  // ---------------------------------------------------------------------
  // Decimal printing (`%d`, and the `.` operator on integers) and its inverse.

  predicate IsDigit(c: char) { '0' <= c <= '9' }

  function DigitChar(d: nat): (c: char)
    requires d < 10
    ensures IsDigit(c) && (c as int) - ('0' as int) == d
  {
    (('0' as int) + d) as char
  }

  function DigitValue(c: char): (d: nat)
    requires IsDigit(c)
    ensures d < 10 && DigitChar(d) == c
  {
    (c as int) - ('0' as int)
  }

  /** The shortest decimal representation of `n`. */
  function NatToString(n: nat): (s: string)
    ensures |s| >= 1
    ensures forall k :: 0 <= k < |s| ==> IsDigit(s[k])
    ensures s[0] == '0' ==> n == 0 && |s| == 1
    decreases n
  {
    if n < 10 then [DigitChar(n)] else NatToString(n / 10) + [DigitChar(n % 10)]
  }

  /** How PHP prints an integer: an optional minus sign, then the digits. */
  function IntToString(i: int): (s: string)
    ensures IsIntString(s)
    ensures i < 0 <==> s[0] == '-'
  {
    if i < 0 then "-" + NatToString(-i) else NatToString(i)
  }

  /** The value of a string of decimal digits. */
  function ParseNat(s: string): nat
    requires forall k :: 0 <= k < |s| ==> IsDigit(s[k])
  {
    if |s| == 0 then 0 else ParseNat(s[..|s| - 1]) * 10 + DigitValue(s[|s| - 1])
  }

  /** An optional minus sign followed by at least one digit. */
  predicate IsIntString(s: string)
  {
    && |s| >= 1
    && (s[0] == '-' || IsDigit(s[0]))
    && (s[0] == '-' ==> |s| >= 2)
    && forall k :: 0 < k < |s| ==> IsDigit(s[k])
  }

  /** The value of an optionally signed decimal string. */
  function ParseInt(s: string): int
    requires IsIntString(s)
  {
    if s[0] == '-' then -(ParseNat(s[1..]) as int) else ParseNat(s)
  }

  lemma {:induction false} ParseNatOfNatToString(n: nat)
    ensures ParseNat(NatToString(n)) == n
    decreases n
  {
    if n >= 10 {
      var s := NatToString(n / 10) + [DigitChar(n % 10)];
      assert s[..|s| - 1] == NatToString(n / 10);
      ParseNatOfNatToString(n / 10);
    }
  }

  /** Printing an integer loses nothing: reading it back gives the same integer. */
  lemma {:induction false} IntToStringRoundTrip(i: int)
    ensures ParseInt(IntToString(i)) == i
  {
    if i < 0 {
      var t := NatToString(-i);
      assert IntToString(i) == "-" + t;
      assert ("-" + t)[1..] == t;
      ParseNatOfNatToString(-i);
    } else {
      ParseNatOfNatToString(i);
    }
  }

  /** Distinct integers print differently (a consequence of the round trip). */
  lemma IntToStringInjective(i: int, j: int)
    requires IntToString(i) == IntToString(j)
    ensures i == j
  {
    IntToStringRoundTrip(i);
    IntToStringRoundTrip(j);
  }

  /**
   * The string that PHP's `.` operator makes of a value. Arrays print as
   * "Array" (with a notice); `true` as "1"; `false` and `null` as "".
   */
  function ToPhpString(v: Value): (s: string)
    ensures v.Str? ==> s == v.s
    ensures v.Int? ==> IsIntString(s) && ParseInt(s) == v.i
    ensures v.Bool? ==> (s == "1" <==> v.b)
  {
    match v
    case Null => ""
    case Bool(b) => if b then "1" else ""
    case Int(i) => IntToStringRoundTrip(i); IntToString(i)
    case Str(s) => s
    case Arr(_) => "Array"
  }

  /** The index of the first occurrence of `ch`, or the length when there is none. */
  function IndexOf(s: string, ch: char): (k: nat)
    ensures k <= |s|
    ensures k < |s| ==> s[k] == ch
    ensures forall j :: 0 <= j < k ==> s[j] != ch
    decreases |s|
  {
    if s == [] then 0
    else if s[0] == ch then 0
    else 1 + IndexOf(s[1..], ch)
  }

  /** A word free of `ch` followed by `ch` ends exactly where the first `ch` is. */
  lemma IndexOfAfter(x: string, ch: char, y: string)
    requires ch !in x
    ensures IndexOf(x + [ch] + y, ch) == |x|
  {
    var s := x + [ch] + y;
    assert s[|x|] == ch;
  }
}

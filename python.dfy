/** The pieces of Python's semantics that PhishLearn's views depend on: `None`,
    the objects `json.loads` builds, truthiness (`if not x:`), `dict.get`,
    `str()` of integers and booleans, and the built-in `round()`. */
module Python {

  datatype Option<T> = None | Some(value: T)

  /** The value of a Python expression, or the `str()` of the exception it raised. */
  datatype Result<T> = Ok(value: T) | Err(error: string)

  /** A Python object as `json.loads` builds it and as the GoPhish helpers
      return it (JSON numbers are modelled as integers). */
  datatype Value =
    | PyNone
    | PyBool(b: bool)
    | PyInt(i: int)
    | PyStr(s: string)
    | PyList(items: seq<Value>)
    | PyDict(entries: map<string, Value>)

  /** How Python evaluates `bool(v)`: None, False, 0 and empty containers are falsy. */
  predicate Truthy(v: Value)
  {
    match v
    case PyNone => false
    case PyBool(b) => b
    case PyInt(i) => i != 0
    case PyStr(s) => s != ""
    case PyList(items) => items != []
    case PyDict(entries) => entries != map[]
  }

  /** `type(v).__name__`. */
  function TypeName(v: Value): string
  {
    match v
    case PyNone => "NoneType"
    case PyBool(_) => "bool"
    case PyInt(_) => "int"
    case PyStr(_) => "str"
    case PyList(_) => "list"
    case PyDict(_) => "dict"
  }

  /** `d.get(k, default)`; `d.get(k)` is `DictGet(d, k, PyNone)`. */
  function DictGet(d: map<string, Value>, k: string, default: Value): (r: Value)
    ensures k in d ==> r == d[k]
    ensures k !in d ==> r == default
  {
    if k in d then d[k] else default
  }

  /** The message of the AttributeError raised by `v.get` when `v` is not a dict. */
  function NoGetAttribute(v: Value): string
  {
    "'" + TypeName(v) + "' object has no attribute 'get'"
  }

  // ---------------------------------------------------------------------------
  // str() of integers and booleans, with int() as its inverse

  function DigitChar(d: nat): (c: char)
    requires d < 10
    ensures '0' <= c <= '9'
  {
    "0123456789"[d]
  }

  predicate IsDigit(c: char)
  {
    '0' <= c <= '9'
  }

  function DigitValue(c: char): (d: nat)
    requires IsDigit(c)
    ensures d < 10
  {
    (c as int - '0' as int) as nat
  }

  lemma DigitRoundTrip(d: nat)
    requires d < 10
    ensures IsDigit(DigitChar(d)) && DigitValue(DigitChar(d)) == d
  {
  }

  /** Decimal digits of `n`, most significant first, without leading zeros. */
  function NatToString(n: nat): (s: string)
    ensures |s| >= 1
    ensures forall i :: 0 <= i < |s| ==> IsDigit(s[i])
    decreases n
  {
    if n < 10 then [DigitChar(n)] else NatToString(n / 10) + [DigitChar(n % 10)]
  }

  /** `str(n)` for a Python int. */
  function IntToString(n: int): string
  {
    if n < 0 then "-" + NatToString(-n) else NatToString(n)
  }

  /** `str(b)` for a Python bool. */
  function BoolToString(b: bool): string
  {
    if b then "True" else "False"
  }

  /** The value of a non-empty string of decimal digits. */
  function ParseNat(s: string): Option<nat>
    decreases |s|
  {
    if |s| == 0 || !IsDigit(s[|s| - 1]) then None
    else if |s| == 1 then Some(DigitValue(s[0]))
    else match ParseNat(s[..|s| - 1])
      case None => None
      case Some(high) => Some(high * 10 + DigitValue(s[|s| - 1]))
  }

  /** `int(s)` on an optionally signed string of decimal digits; None where Python raises ValueError. */
  function ParseInt(s: string): Option<int>
  {
    if |s| > 0 && s[0] == '-' then
      match ParseNat(s[1..])
      case None => None
      case Some(n) => Some(-(n as int))
    else
      match ParseNat(s)
      case None => None
      case Some(n) => Some(n)
  }

  lemma {:induction false} ParseNatToString(n: nat)
    ensures ParseNat(NatToString(n)) == Some(n)
    decreases n
  {
    var s := NatToString(n);
    if n < 10 {
      DigitRoundTrip(n);
    } else {
      ParseNatToString(n / 10);
      DigitRoundTrip(n % 10);
      assert s[..|s| - 1] == NatToString(n / 10);
      assert s[|s| - 1] == DigitChar(n % 10);
    }
  }

  lemma ParseIntNegative(digits: string, m: nat)
    requires ParseNat(digits) == Some(m)
    ensures ParseInt("-" + digits) == Some(-(m as int))
  {
    assert ("-" + digits)[1..] == digits;
  }

  lemma ParseIntUnsigned(digits: string, m: nat)
    requires ParseNat(digits) == Some(m) && |digits| > 0 && IsDigit(digits[0])
    ensures ParseInt(digits) == Some(m)
  {
  }

  /** `int(str(n)) == n`: the decimal rendering loses nothing. */
  lemma IntToStringRoundTrip(n: int)
    ensures ParseInt(IntToString(n)) == Some(n)
  {
    if n < 0 {
      ParseNatToString(-n);
      ParseIntNegative(NatToString(-n), -n);
    } else {
      ParseNatToString(n);
      ParseIntUnsigned(NatToString(n), n);
    }
  }

  // ---------------------------------------------------------------------------
  // round()

  /** Python 3's `round(x)` to an int: the nearest integer, ties going to the even one. */
  function Round(x: real): (r: int)
    ensures r as real - 0.5 <= x <= r as real + 0.5
    ensures (x == r as real - 0.5 || x == r as real + 0.5) ==> r % 2 == 0
  {
    var f := x.Floor;
    var frac := x - f as real;
    if frac < 0.5 then f
    else if frac > 0.5 then f + 1
    else if f % 2 == 0 then f
    else f + 1
  }
}

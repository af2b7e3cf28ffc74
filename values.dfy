/** JavaScript values as the relay sees them after JSON.parse, and the few
    language operations the relay applies to them: truthiness, integer to
    decimal string conversion, object spread and a property read. */
module Values {

  datatype Option<+T> = None | Some(value: T)

  /** A thrown error is carried as its `message` string. */
  datatype Result<+T> = Ok(value: T) | Err(message: string)

  /** A JSON-shaped JavaScript value. Numbers are integers here. */
  datatype Value =
    | Undefined
    | Null
    | Bool(b: bool)
    | Num(n: int)
    | Str(s: string)
    | Arr(items: seq<Value>)
    | Obj(fields: map<string, Value>)

  /** JavaScript's ToBoolean: only undefined, null, false, 0 and "" are falsy. */
  predicate Truthy(v: Value)
  {
    match v
    case Undefined => false
    case Null => false
    case Bool(b) => b
    case Num(n) => n != 0
    case Str(s) => s != ""
    case Arr(_) => true
    case Obj(_) => true
  }

  /** `a || b` */
  function Or(a: Value, b: Value): Value
  {
    if Truthy(a) then a else b
  }

  predicate IsDigit(c: char)
  {
    '0' <= c <= '9'
  }

  function DigitChar(d: nat): (c: char)
    requires d < 10
    ensures IsDigit(c) && DigitValue(c) == d
  {
    ('0' as int + d) as char
  }

  /** The decimal digits of `n`, without leading zeros ("0" for zero). */
  function NatToDecimal(n: nat): (s: string)
    ensures 1 <= |s|
    ensures forall i :: 0 <= i < |s| ==> IsDigit(s[i])
    ensures |s| > 1 ==> s[0] != '0'
    decreases n
  {
    if n < 10 then [DigitChar(n)] else NatToDecimal(n / 10) + [DigitChar(n % 10)]
  }

  function DigitValue(c: char): (d: nat)
    requires IsDigit(c)
    ensures d < 10
  {
    (c as int) - ('0' as int)
  }

  /** The number a string of decimal digits denotes. */
  function DecimalValue(s: string): nat
    requires forall i :: 0 <= i < |s| ==> IsDigit(s[i])
  {
    if s == [] then 0
    else 10 * DecimalValue(s[..|s| - 1]) + DigitValue(s[|s| - 1])
  }

  lemma {:induction false} NatToDecimalRoundTrip(n: nat)
    ensures DecimalValue(NatToDecimal(n)) == n
    decreases n
  {
    if n >= 10 {
      var s := NatToDecimal(n);
      assert s[..|s| - 1] == NatToDecimal(n / 10);
      NatToDecimalRoundTrip(n / 10);
    }
  }

  /** `String(n)` for an integer `n`. */
  function IntToDecimal(n: int): (s: string)
    ensures 1 <= |s|
    ensures n < 0 <==> s[0] == '-'
  {
    if n < 0 then "-" + NatToDecimal(-n) else NatToDecimal(n)
  }

  /** Distinct integers print as distinct strings. */
  lemma IntToDecimalInjective(a: int, b: int)
    requires IntToDecimal(a) == IntToDecimal(b)
    ensures a == b
  {
    NatToDecimalRoundTrip(if a < 0 then -a else a);
    NatToDecimalRoundTrip(if b < 0 then -b else b);
    if a < 0 {
      var d := IntToDecimal(a);
      assert d[1..] == NatToDecimal(-a);
      assert d[1..] == NatToDecimal(-b);
    }
  }

  /** The own enumerable properties of a sequence of items, keyed by index. */
  function Indexed(items: seq<Value>): (m: map<string, Value>)
    ensures forall i :: 0 <= i < |items| ==> IntToDecimal(i) in m && m[IntToDecimal(i)] == items[i]
    ensures forall k :: k in m ==> exists i :: 0 <= i < |items| && k == IntToDecimal(i)
  {
    forall i, j | 0 <= i < |items| && 0 <= j < |items| && IntToDecimal(i) == IntToDecimal(j)
      ensures i == j
    {
      IntToDecimalInjective(i, j);
    }
    map i | 0 <= i < |items| :: IntToDecimal(i) := items[i]
  }

  /** The properties `{...v}` copies into an object literal: an object's own
      fields, the elements of an array or the characters of a string under their
      indices, and nothing for any other value. */
  function Spread(v: Value): (m: map<string, Value>)
    ensures v.Obj? ==> m == v.fields
    ensures !v.Obj? && !v.Arr? && !v.Str? ==> m == map[]
  {
    match v
    case Obj(fields) => fields
    case Arr(items) => Indexed(items)
    case Str(s) => Indexed(seq(|s|, i requires 0 <= i < |s| => Str([s[i]])))
    case _ => map[]
  }

  /** The message V8 gives the TypeError of reading `key` from null or undefined. */
  function NullReadMessage(v: Value, key: string): string
    requires v.Null? || v.Undefined?
  {
    "Cannot read properties of " + (if v.Null? then "null" else "undefined")
    + " (reading '" + key + "')"
  }

  /** `v[key]` for a key that names no built-in property (no `length`, no
      prototype member): null and undefined throw; any other value yields its
      own property of that name, or undefined when it has none. */
  function ReadProperty(v: Value, key: string): (r: Result<Value>)
    ensures r.Err? <==> v.Null? || v.Undefined?
    ensures v.Obj? && key in v.fields ==> r == Ok(v.fields[key])
    ensures v.Obj? && key !in v.fields ==> r == Ok(Undefined)
  {
    match v
    case Null => Err(NullReadMessage(v, key))
    case Undefined => Err(NullReadMessage(v, key))
    case Obj(fields) => Ok(if key in fields then fields[key] else Undefined)
    case _ => Ok(if key in Spread(v) then Spread(v)[key] else Undefined)
  }
}

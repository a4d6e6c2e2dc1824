/** The decoded JSON values the bot receives from the homework API, together
    with the bits of Python's data model the bot relies on: `type(x)`,
    truthiness (`if x:`), `str(x)` and the `in` operator on a string key. */
module Json {

  /** A value as `response.json()` decodes it: `null`, `true`/`false`,
      integers, strings, arrays (Python lists) and objects (Python dicts). */
  datatype Json =
    | JNull
    | JBool(b: bool)
    | JInt(i: int)
    | JString(s: string)
    | JArray(items: seq<Json>)
    | JObject(fields: map<string, Json>)

  /** The Python classes the decoded values belong to. */
  datatype PyType = NoneType | BoolType | IntType | StrType | ListType | DictType

  function TypeOf(j: Json): (t: PyType)
    ensures t == DictType <==> j.JObject?
    ensures t == ListType <==> j.JArray?
  {
    match j
    case JNull => NoneType
    case JBool(_) => BoolType
    case JInt(_) => IntType
    case JString(_) => StrType
    case JArray(_) => ListType
    case JObject(_) => DictType
  }

  /** The class's `__name__`. */
  function TypeName(t: PyType): string
  {
    match t
    case NoneType => "NoneType"
    case BoolType => "bool"
    case IntType => "int"
    case StrType => "str"
    case ListType => "list"
    case DictType => "dict"
  }

  /** `str(type(x))`, e.g. `<class 'list'>`. */
  function ClassRepr(t: PyType): string
  {
    "<class '" + TypeName(t) + "'>"
  }

  /** Python truthiness (`if x:`): `None`, `False`, `0` and empty strings,
      lists and dicts are false; everything else is true. */
  predicate Truthy(j: Json)
  {
    match j
    case JNull => false
    case JBool(b) => b
    case JInt(i) => i != 0
    case JString(s) => s != ""
    case JArray(items) => items != []
    case JObject(fields) => fields != map[]
  }

  /** `sub in s` for two Python strings: `sub` occurs somewhere in `s`. */
  predicate Contains(s: string, sub: string)
    decreases |s|
  {
    sub <= s || (s != [] && Contains(s[1..], sub))
  }

  lemma {:induction false} ContainsAt(s: string, sub: string, k: nat)
    requires k + |sub| <= |s| && s[k..k + |sub|] == sub
    ensures Contains(s, sub)
  {
    if k == 0 {
      assert sub <= s;
    } else {
      assert s[1..][k - 1..k - 1 + |sub|] == s[k..k + |sub|];
      ContainsAt(s[1..], sub, k - 1);
    }
  }

  /** The decimal digit for `d`. */
  function Digit(d: nat): (c: char)
    requires d < 10
  {
    "0123456789"[d]
  }

  lemma DigitInjective(d: nat, e: nat)
    requires d < 10 && e < 10 && Digit(d) == Digit(e)
    ensures d == e
  {
  }

  /** `str(n)` for a non-negative integer: its decimal digits, most
      significant first, without leading zeros. */
  function NatToDecimal(n: nat): (s: string)
    ensures |s| >= 1
    ensures s[0] != '-'
    ensures n >= 10 ==> |s| >= 2 && s[0] != '0'
  {
    if n < 10 then [Digit(n)] else NatToDecimal(n / 10) + [Digit(n % 10)]
  }

  /** `str(i)` for any integer: a minus sign before the digits of `|i|`. */
  function IntToDecimal(i: int): (s: string)
    ensures |s| >= 1
    ensures s[0] == '-' <==> i < 0
  {
    if i < 0 then "-" + NatToDecimal(-i) else NatToDecimal(i)
  }

  /** Different non-negative integers are written differently. */
  lemma {:induction false} NatToDecimalInjective(a: nat, b: nat)
    requires NatToDecimal(a) == NatToDecimal(b)
    ensures a == b
  {
    var s := NatToDecimal(a);
    if a < 10 && b < 10 {
      DigitInjective(a, b);
    } else if a >= 10 && b >= 10 {
      assert s[|s| - 1] == Digit(a % 10) == Digit(b % 10);
      DigitInjective(a % 10, b % 10);
      assert s[..|s| - 1] == NatToDecimal(a / 10) == NatToDecimal(b / 10);
      NatToDecimalInjective(a / 10, b / 10);
    }
  }

  /** Different integers are written differently, so an integer can be read
      back from its text. */
  lemma {:induction false} IntToDecimalInjective(a: int, b: int)
    requires IntToDecimal(a) == IntToDecimal(b)
    ensures a == b
  {
    var s := IntToDecimal(a);
    if a < 0 {
      assert s[1..] == NatToDecimal(-a) == NatToDecimal(-b);
      NatToDecimalInjective(-a, -b);
    } else {
      NatToDecimalInjective(a, b);
    }
  }

  /** `str(x)` as an f-string renders it: exact for `None`, booleans,
      integers and strings; lists and dicts are abbreviated. */
  function Str(j: Json): (s: string)
    ensures j.JString? ==> s == j.s
    ensures j.JInt? ==> s == IntToDecimal(j.i)
  {
    match j
    case JNull => "None"
    case JBool(b) => if b then "True" else "False"
    case JInt(i) => IntToDecimal(i)
    case JString(s) => s
    case JArray(_) => "[...]"
    case JObject(_) => "{...}"
  }
}

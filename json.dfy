/**
 * Decoded JSON values, as `json.loads` hands them to the server, and the few pieces of
 * Python's object behaviour the server's messages depend on: the type name of a value and
 * what `str()` makes of it.
 */
module Json {

  /** A decoded JSON value. Numbers are integers only (see README, "Left out"). */
  datatype Value =
    | Null
    | Bool(b: bool)
    | Int(i: int)
    | Str(s: string)
    | Arr(items: seq<Value>)
    | Obj(fields: map<string, Value>)

  /** `d.get(key, default)` on a decoded object. */
  function Lookup(fields: map<string, Value>, key: string, default: Value): Value
  {
    if key in fields then fields[key] else default
  }

  /** Python's `type(v).__name__` for the value `json.loads` produces. */
  function TypeName(v: Value): string
  {
    match v
    case Null => "NoneType"
    case Bool(_) => "bool"
    case Int(_) => "int"
    case Str(_) => "str"
    case Arr(_) => "list"
    case Obj(_) => "dict"
  }

  /** Values Python can use as a dictionary key: everything but lists and dicts. */
  predicate Hashable(v: Value)
  {
    !v.Arr? && !v.Obj?
  }

  /** The decimal digits of a natural number. */
  function NatDigits(n: nat): (s: string)
    ensures |s| > 0
    ensures forall k :: 0 <= k < |s| ==> '0' <= s[k] <= '9'
  {
    var d := [(n % 10) as char + '0'];
    if n < 10 then d else NatDigits(n / 10) + d
  }

  /** The number a string of decimal digits denotes. */
  function DigitsValue(s: string): nat
    requires forall k :: 0 <= k < |s| ==> '0' <= s[k] <= '9'
  {
    if s == [] then 0 else DigitsValue(s[..|s| - 1]) * 10 + (s[|s| - 1] - '0') as nat
  }

  /** Reading the digits back gives the number they were written from. */
  lemma {:induction false} NatDigitsValue(n: nat)
    ensures DigitsValue(NatDigits(n)) == n
  {
    var s := NatDigits(n);
    if n >= 10 {
      NatDigitsValue(n / 10);
      assert s[..|s| - 1] == NatDigits(n / 10);
    }
  }

  /** Python's `str(n)` for an integer. */
  function IntText(n: int): string
  {
    if n < 0 then "-" + NatDigits(-n) else NatDigits(n)
  }

  /** Python's `str(v)`, as an f-string interpolates it, for a scalar value; lists and dicts
      are rendered by a placeholder. */
  function Show(v: Value): string
  {
    match v
    case Null => "None"
    case Bool(b) => if b then "True" else "False"
    case Int(n) => IntText(n)
    case Str(s) => s
    case Arr(_) => "[...]"
    case Obj(_) => "{...}"
  }

  /** The message of the AttributeError Python raises for `v.<attribute>` on a value without it. */
  function NoAttributeMessage(v: Value, attribute: string): string
  {
    "'" + TypeName(v) + "' object has no attribute '" + attribute + "'"
  }

  /** The message of the TypeError Python raises when `v` is used as a dictionary key. */
  function UnhashableMessage(v: Value): string
  {
    "unhashable type: '" + TypeName(v) + "'"
  }
}

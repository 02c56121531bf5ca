/** Optional values, as Python's `None`-or-value. */
module Wrappers {

  datatype Option<+T> = None | Some(value: T) {

    /** The value, or `default` when there is none (Python's `x if x is not None else default`). */
    function GetOr(default: T): T {
      match this
      case Some(v) => v
      case None => default
    }

    /** This option when it holds a value, otherwise `other`. */
    function Or(other: Option<T>): Option<T> {
      match this
      case Some(_) => this
      case None => other
    }
  }
}

/**
 * Decoded live-timing message content: a JSON-like value together with the
 * handful of Python built-ins the collection applies to it (`dict.get`,
 * `in`, `int()`, `str()`, `bool()`, `==` against an integer, and substring
 * containment on text).
 */
module JsonValues {
  import opened Wrappers

  /** A decoded JSON value. Objects keep their keys in insertion order, as Python dicts do. */
  datatype Json =
    | JNull
    | JBool(b: bool)
    | JInt(i: int)
    | JReal(r: real)
    | JStr(s: string)
    | JList(items: seq<Json>)
    | JObj(fields: seq<(string, Json)>)

  type JsonObject = seq<(string, Json)>

  /** Index of the first field named `key`. */
  function KeyIndex(obj: JsonObject, key: string): (r: Option<nat>)
    ensures r.Some? ==> r.value < |obj| && obj[r.value].0 == key
    ensures r.Some? ==> forall j :: 0 <= j < r.value ==> obj[j].0 != key
    ensures r.None? ==> forall j :: 0 <= j < |obj| ==> obj[j].0 != key
  {
    if obj == [] then None
    else if obj[0].0 == key then Some(0)
    else match KeyIndex(obj[1..], key)
      case None => None
      case Some(k) => Some(k + 1)
  }

  /** Python's `key in obj`. */
  predicate HasKey(obj: JsonObject, key: string) {
    KeyIndex(obj, key).Some?
  }

  /** Python's `obj.get(key)`: the field's value, `None` when it is absent. */
  function Get(obj: JsonObject, key: string): Json {
    match KeyIndex(obj, key)
    case Some(i) => obj[i].1
    case None => JNull
  }

  /** Python's `obj.get(key, default)`. */
  function GetOr(obj: JsonObject, key: string, default: Json): Json {
    if HasKey(obj, key) then Get(obj, key) else default
  }

  /** Python's `bool(j)`. */
  predicate Truthy(j: Json) {
    match j
    case JNull => false
    case JBool(b) => b
    case JInt(i) => i != 0
    case JReal(r) => r != 0.0
    case JStr(s) => s != ""
    case JList(items) => items != []
    case JObj(fields) => fields != []
  }

  /** Python's `j == n` for an integer literal `n` (`True == 1`, `2.0 == 2`). */
  predicate PyEqInt(j: Json, n: int) {
    match j
    case JBool(b) => (if b then 1 else 0) == n
    case JInt(i) => i == n
    case JReal(r) => r == n as real
    case _ => false
  }

  predicate IsDigit(c: char) {
    '0' <= c <= '9'
  }

  function DigitValue(c: char): (r: nat)
    requires IsDigit(c)
    ensures r < 10
  {
    c as int - '0' as int
  }

  function DigitChar(d: nat): (c: char)
    requires d < 10
    ensures IsDigit(c) && DigitValue(c) == d
  {
    ('0' as int + d) as char
  }

  /** A non-empty run of ASCII decimal digits, read as a natural number. */
  function ParseNat(s: string): Option<nat>
    decreases |s|
  {
    if s == [] || !IsDigit(s[|s| - 1]) then None
    else if |s| == 1 then Some(DigitValue(s[0]))
    else match ParseNat(s[..|s| - 1])
      case None => None
      case Some(n) => Some(10 * n + DigitValue(s[|s| - 1]))
  }

  /** Python's `int(s)` on a string: an optional sign followed by ASCII digits. */
  function ParseInt(s: string): Option<int> {
    if |s| > 0 && s[0] == '-' then
      match ParseNat(s[1..])
      case None => None
      case Some(n) => Some(-(n as int))
    else if |s| > 0 && s[0] == '+' then
      match ParseNat(s[1..])
      case None => None
      case Some(n) => Some(n)
    else
      match ParseNat(s)
      case None => None
      case Some(n) => Some(n)
  }

  /** Decimal rendering of a natural number, without leading zeros. */
  function NatToString(n: nat): (s: string)
    ensures |s| > 0 && IsDigit(s[0])
  {
    if n < 10 then [DigitChar(n)] else NatToString(n / 10) + [DigitChar(n % 10)]
  }

  /** Python's `str(i)` for an integer. */
  function IntToString(i: int): string {
    if i < 0 then "-" + NatToString(-i) else NatToString(i)
  }

  lemma {:induction false} ParseNatToString(n: nat)
    ensures ParseNat(NatToString(n)) == Some(n)
  {
    if n >= 10 {
      ParseNatToString(n / 10);
      var s := NatToString(n / 10) + [DigitChar(n % 10)];
      assert s[..|s| - 1] == NatToString(n / 10);
    }
  }

  /** `int(str(i)) == i`: a driver number survives rendering as a dictionary key and parsing back. */
  lemma ParseIntToString(i: int)
    ensures ParseInt(IntToString(i)) == Some(i)
  {
    if i < 0 {
      ParseNatToString(-i);
      assert ("-" + NatToString(-i))[1..] == NatToString(-i);
    } else {
      ParseNatToString(i);
    }
  }

  /** The integral part of a non-negative real, counted down one unit at a time. */
  function IntegralPart(r: real): nat
    requires r >= 0.0
    decreases r.Floor
  {
    if r < 1.0 then 0 else 1 + IntegralPart(r - 1.0)
  }

  /** `IntegralPart` is the floor: Python's `int()` truncates a non-negative float to it. */
  lemma {:induction false} IntegralPartIsFloor(r: real)
    requires r >= 0.0
    ensures IntegralPart(r) as real <= r < IntegralPart(r) as real + 1.0
    ensures IntegralPart(r) == r.Floor
    decreases r.Floor
  {
    if r >= 1.0 {
      IntegralPartIsFloor(r - 1.0);
    }
  }

  /** Python's `int()` on a float: truncation toward zero. */
  function Truncate(r: real): int {
    if r >= 0.0 then IntegralPart(r) else -(IntegralPart(-r) as int)
  }

  /** Python's `int(j)`: `None` where Python raises. */
  function ToInt(j: Json): Option<int> {
    match j
    case JBool(b) => Some(if b then 1 else 0)
    case JInt(i) => Some(i)
    case JReal(r) => Some(Truncate(r))
    case JStr(s) => ParseInt(s)
    case _ => None
  }

  /** Python's `str(j)`; `repr` renders the cases whose text Python derives from floats and containers. */
  function PyStr(repr: Json -> string, j: Json): string {
    match j
    case JNull => "None"
    case JBool(b) => if b then "True" else "False"
    case JInt(i) => IntToString(i)
    case JStr(s) => s
    case _ => repr(j)
  }

  predicate IsPrefix(p: string, s: string) {
    |p| <= |s| && s[..|p|] == p
  }

  /** Python's `sub in s` on strings. */
  predicate Contains(s: string, sub: string)
    decreases |s|
  {
    IsPrefix(sub, s) || (|s| > 0 && Contains(s[1..], sub))
  }

  /** Text that contains `sub` contains every prefix of `sub`. */
  lemma {:induction false} ContainsPrefix(s: string, sub: string, p: string)
    requires IsPrefix(p, sub) && Contains(s, sub)
    ensures Contains(s, p)
    decreases |s|
  {
    if IsPrefix(sub, s) {
      assert s[..|p|] == sub[..|p|];
    } else {
      ContainsPrefix(s[1..], sub, p);
    }
  }
}

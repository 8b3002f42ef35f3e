/**
 * The slice of JavaScript semantics that the gateway's handlers rely on:
 * JSON values as a request body carries them, truthiness (`||`, `!x`),
 * nullishness (`??`, `?.`), object spread, template-literal stringification,
 * and the few string operations the handlers perform (`trim`, a trailing-slash
 * strip, `includes`, `join`).
 *
 * `undefined` is not a value here: it is the absence of a key, written `None`
 * wherever a property is read.
 */
module Js {

  datatype Option<+T> = None | Some(value: T)

  datatype Result<+T, +E> = Ok(value: T) | Err(error: E)

  /** A JSON value. Numbers are reals: NaN and the infinities are not values. */
  datatype Value =
    | Null
    | Bool(b: bool)
    | Num(n: real)
    | Str(s: string)
    | Arr(items: seq<Value>)
    | Obj(fields: map<string, Value>)

  /** ToBoolean: `undefined`, `null`, `false`, `0` and `""` are falsy. */
  predicate Truthy(v: Option<Value>)
  {
    match v
    case None => false
    case Some(Null) => false
    case Some(Bool(b)) => b
    case Some(Num(n)) => n != 0.0
    case Some(Str(s)) => s != ""
    case Some(_) => true
  }

  /** `v === undefined || v === null`, the test behind `??` and `?.`. */
  predicate Nullish(v: Option<Value>)
  {
    v.None? || v.value.Null?
  }

  /** `a ?? b` */
  function Coalesce(a: Option<Value>, b: Option<Value>): (r: Option<Value>)
    ensures !Nullish(a) ==> r == a
    ensures Nullish(a) ==> r == b
  {
    if Nullish(a) then b else a
  }

  /** `a || b` */
  function Or(a: Option<Value>, b: Option<Value>): (r: Option<Value>)
    ensures Truthy(a) ==> r == a
    ensures !Truthy(a) ==> r == b
  {
    if Truthy(a) then a else b
  }

  /**
   * `v?.k` for a key that is neither an array index nor `length` nor inherited
   * from `Object.prototype` (every key the handlers read is of that kind).
   */
  function Prop(v: Option<Value>, k: string): (r: Option<Value>)
    ensures r.Some? <==> v.Some? && v.value.Obj? && k in v.value.fields
  {
    if v.Some? && v.value.Obj? && k in v.value.fields then Some(v.value.fields[k]) else None
  }

  /** `map[k]`, with `undefined` for an absent key. */
  function Get(m: map<string, Value>, k: string): (r: Option<Value>)
    ensures r.Some? <==> k in m
  {
    if k in m then Some(m[k]) else None
  }

  /** `typeof v === 'object'` for a non-null value. */
  predicate IsObject(v: Value)
  {
    v.Obj? || v.Arr?
  }

  /** Decimal digits of a natural number, as `String(n)` writes them. */
  function NatText(n: nat): (r: string)
    ensures |r| >= 1
    decreases n
  {
    var d := [(('0' as int) + n % 10) as char];
    if n < 10 then d else NatText(n / 10) + d
  }

  /** `String(i)` for an integer. */
  function IntText(i: int): (r: string)
    ensures |r| >= 1
  {
    if i < 0 then "-" + NatText(-i) else NatText(i)
  }

  /** The own enumerable keys of an array: its indices, as strings. */
  function IndexMap(items: seq<Value>): (r: map<string, Value>)
    decreases |items|
  {
    if items == [] then map[]
    else IndexMap(items[..|items| - 1])[NatText(|items| - 1) := items[|items| - 1]]
  }

  /** The characters of a string as one-character strings, keyed by index. */
  function CharMap(s: string): (r: map<string, Value>)
    decreases |s|
  {
    if s == [] then map[]
    else CharMap(s[..|s| - 1])[NatText(|s| - 1) := Str([s[|s| - 1]])]
  }

  /**
   * The own enumerable properties that `{...v}` copies: an object's fields, an
   * array's indices, a string's characters; nothing for other primitives.
   */
  function Spread(v: Value): (r: map<string, Value>)
    ensures v.Obj? ==> r == v.fields
  {
    match v
    case Obj(m) => m
    case Arr(items) => IndexMap(items)
    case Str(s) => CharMap(s)
    case _ => map[]
  }

  /**
   * Number.prototype.toString: integers below 1e21 in magnitude are written in
   * decimal; every other number goes to `fmt`, which the model leaves open.
   */
  function NumberText(n: real, fmt: real -> string): string
  {
    if n.Floor as real == n && -1000000000000000000000.0 < n < 1000000000000000000000.0
    then IntText(n.Floor)
    else fmt(n)
  }

  /** What a template literal `${v}` writes for `v`. */
  function Text(v: Option<Value>, fmt: real -> string): string
  {
    match v
    case None => "undefined"
    case Some(w) => ValueText(w, fmt)
  }

  function ValueText(v: Value, fmt: real -> string): string
  {
    match v
    case Null => "null"
    case Bool(b) => if b then "true" else "false"
    case Num(n) => NumberText(n, fmt)
    case Str(s) => s
    case Arr(items) => JoinItems(items, fmt)
    case Obj(_) => "[object Object]"
  }

  /** Array.prototype.join(","): `null` elements are written as nothing. */
  function JoinItems(items: seq<Value>, fmt: real -> string): string
    decreases items
  {
    if items == [] then ""
    else
      var head := if items[0].Null? then "" else ValueText(items[0], fmt);
      if |items| == 1 then head else head + "," + JoinItems(items[1..], fmt)
  }

  /** `parts.join(sep)` */
  function Join(parts: seq<string>, sep: string): (r: string)
    ensures parts == [] ==> r == ""
    ensures |parts| == 1 ==> r == parts[0]
  {
    if parts == [] then ""
    else if |parts| == 1 then parts[0]
    else parts[0] + sep + Join(parts[1..], sep)
  }

  /** `s.replace(/\/$/, '')`: drops one '/' at the very end, if there is one. */
  function StripTrailingSlash(s: string): (r: string)
    ensures |s| > 0 && s[|s| - 1] == '/' ==> r + "/" == s
    ensures (|s| == 0 || s[|s| - 1] != '/') ==> r == s
  {
    if |s| > 0 && s[|s| - 1] == '/' then s[..|s| - 1] else s
  }

  /** `s.includes(sub)` */
  predicate Contains(s: string, sub: string)
    decreases |s|
  {
    sub <= s || (s != [] && Contains(s[1..], sub))
  }

  /**
   * The characters of ECMAScript's WhiteSpace and LineTerminator productions:
   * what `trim` removes and what `\s` matches in a regular expression.
   */
  predicate IsSpace(c: char)
  {
    c == '\t' || c == '\n' || c == '\U{000B}' || c == '\U{000C}' || c == '\r' || c == ' '
    || c == '\U{00A0}' || c == '\U{1680}' || ('\U{2000}' <= c <= '\U{200A}')
    || c == '\U{2028}' || c == '\U{2029}' || c == '\U{202F}' || c == '\U{205F}'
    || c == '\U{3000}' || c == '\U{FEFF}'
  }

  function TrimStart(s: string): (r: string)
    ensures |r| <= |s| && r == s[|s| - |r|..]
    ensures r != [] ==> !IsSpace(r[0])
    ensures forall i :: 0 <= i < |s| - |r| ==> IsSpace(s[i])
    decreases |s|
  {
    if s != [] && IsSpace(s[0]) then TrimStart(s[1..]) else s
  }

  function TrimEnd(s: string): (r: string)
    ensures |r| <= |s| && r == s[..|r|]
    ensures r != [] ==> !IsSpace(r[|r| - 1])
    ensures forall i :: |r| <= i < |s| ==> IsSpace(s[i])
    decreases |s|
  {
    if s != [] && IsSpace(s[|s| - 1]) then TrimEnd(s[..|s| - 1]) else s
  }

  /** `s.trim()` */
  function Trim(s: string): (r: string)
  {
    TrimEnd(TrimStart(s))
  }

  /** `s.trim()` removes only white space, from both ends, and leaves no white space there. */
  lemma TrimIsInfix(s: string)
    ensures exists a, b ::
              && 0 <= a <= b <= |s| && Trim(s) == s[a..b]
              && (forall i :: 0 <= i < a ==> IsSpace(s[i]))
              && (forall i :: b <= i < |s| ==> IsSpace(s[i]))
    ensures Trim(s) != [] ==> !IsSpace(Trim(s)[0]) && !IsSpace(Trim(s)[|Trim(s)| - 1])
  {
    var a, b := TrimBounds(s);
    var r := Trim(s);
    if r != [] {
      assert r[0] == TrimStart(s)[0];
    }
  }

  /** Where `s.trim()` starts and ends within `s`. */
  lemma TrimBounds(s: string) returns (a: nat, b: nat)
    ensures a <= b <= |s| && Trim(s) == s[a..b]
    ensures forall i :: 0 <= i < a ==> IsSpace(s[i])
    ensures forall i :: b <= i < |s| ==> IsSpace(s[i])
  {
    var t := TrimStart(s);
    a := |s| - |t|;
    var r := TrimEnd(t);
    b := a + |r|;
    PrefixOfSuffix(s, t, r, a);
  }

  /** A prefix `r` of the suffix `t` of `s` that starts at `a`, and what lies after it. */
  lemma PrefixOfSuffix(s: string, t: string, r: string, a: nat)
    requires a <= |s| && t == s[a..] && |r| <= |t| && r == t[..|r|]
    requires forall i :: |r| <= i < |t| ==> IsSpace(t[i])
    ensures r == s[a..a + |r|]
    ensures forall i :: a + |r| <= i < |s| ==> IsSpace(s[i])
  {
    forall i | a + |r| <= i < |s| ensures IsSpace(s[i]) {
      assert s[i] == t[i - a];
    }
  }
}

/** The slice of Python semantics the connector relies on: decoded JSON
    values (`json.loads` / `response.json()` results), their truth value,
    `dict.get`, subscripting, the `in` operator, iteration and `str(int)`. */
module PyValues {
  import opened Wrappers

  /** A decoded JSON value. Objects keep their key order, as Python dicts do;
      a decoded object never repeats a key. Numbers are integers here. */
  datatype Json =
    | JNull
    | JBool(b: bool)
    | JInt(n: int)
    | JStr(s: string)
    | JArr(items: seq<Json>)
    | JObj(fields: seq<(string, Json)>)

  /** The built-in exceptions the connector code can raise on unexpected data. */
  datatype PyError =
    | JsonDecodeError   // the response body is not JSON
    | AttributeError    // `.get` on a value that is not a dict
    | TypeError         // `in`, subscript, iteration or join on the wrong type
    | KeyError(key: string)

  /** Python's truth value of a JSON value: `None`, `False`, `0`, `""`, `[]`
      and `{}` are false, everything else is true. */
  predicate Truthy(j: Json)
  {
    match j
    case JNull => false
    case JBool(b) => b
    case JInt(n) => n != 0
    case JStr(s) => |s| > 0
    case JArr(xs) => |xs| > 0
    case JObj(fs) => |fs| > 0
  }

  /** True when `key` is one of the object's keys. */
  predicate HasKey(fields: seq<(string, Json)>, key: string)
  {
    exists i :: 0 <= i < |fields| && fields[i].0 == key
  }

  /** The value stored under `key`, if any. */
  function Lookup(fields: seq<(string, Json)>, key: string): (r: Option<Json>)
    ensures r.Some? <==> HasKey(fields, key)
    ensures r.Some? ==> exists i :: 0 <= i < |fields| && fields[i] == (key, r.value)
  {
    if |fields| == 0 then None
    else if fields[0].0 == key then Some(fields[0].1)
    else
      var r := Lookup(fields[1..], key);
      assert r.Some? ==> exists i :: 0 <= i < |fields[1..]| && fields[1..][i] == (key, r.value);
      assert HasKey(fields, key) ==> HasKey(fields[1..], key) by {
        if HasKey(fields, key) {
          var i :| 0 <= i < |fields| && fields[i].0 == key;
          assert fields[1..][i - 1].0 == key;
        }
      }
      r
  }

  /** `d.get(key, default)`: the stored value (even `null`) when the key is
      present, the default otherwise. */
  function GetOr(fields: seq<(string, Json)>, key: string, default: Json): Json
  {
    match Lookup(fields, key)
    case Some(v) => v
    case None => default
  }

  /** `v.get(key, default)` on a JSON value, which must be a dict. */
  function DictGet(v: Json, key: string, default: Json): (r: Result<Json, PyError>)
    ensures r.Failure? <==> !v.JObj?
    ensures r.Failure? ==> r.error == AttributeError
    ensures r.Success? && HasKey(v.fields, key) ==> Lookup(v.fields, key) == Some(r.value)
    ensures r.Success? && !HasKey(v.fields, key) ==> r.value == default
  {
    match v
    case JObj(fs) => Success(GetOr(fs, key, default))
    case _ => Failure(AttributeError)
  }

  /** `d[key]` on a JSON value. */
  function Subscript(container: Json, key: string): (r: Result<Json, PyError>)
    ensures r.Success? <==> container.JObj? && HasKey(container.fields, key)
    ensures r.Success? ==> Lookup(container.fields, key) == Some(r.value)
    ensures r.Failure? && container.JObj? ==> r.error == KeyError(key)
    ensures r.Failure? && !container.JObj? ==> r.error == TypeError
  {
    match container
    case JObj(fs) =>
      (match Lookup(fs, key)
       case Some(v) => Success(v)
       case None => Failure(KeyError(key)))
    case _ => Failure(TypeError)
  }

  /** `needle` occurs at the very start of `hay`. */
  predicate IsPrefix(needle: string, hay: string)
  {
    |needle| <= |hay| && hay[..|needle|] == needle
  }

  /** `needle in hay` on strings: `needle` occurs somewhere in `hay`. */
  predicate IsSubstring(needle: string, hay: string)
    decreases |hay|
  {
    IsPrefix(needle, hay) || (|hay| > 0 && IsSubstring(needle, hay[1..]))
  }

  /** `key in container` for a string `key`: key membership for a dict,
      substring search for a string, element equality for a list; any
      other operand is not a container. */
  function Contains(container: Json, key: string): (r: Result<bool, PyError>)
    ensures r.Failure? <==> container.JNull? || container.JBool? || container.JInt?
    ensures r.Failure? ==> r.error == TypeError
    ensures container.JObj? ==> (r.value <==> Lookup(container.fields, key).Some?)
    ensures container.JStr? ==>
              (r.value <==> exists i :: 0 <= i <= |container.s| && IsPrefix(key, container.s[i..]))
    ensures container.JArr? ==>
              (r.value <==> exists i :: 0 <= i < |container.items| && container.items[i] == JStr(key))
  {
    match container
    case JObj(fs) => Success(HasKey(fs, key))
    case JStr(s) =>
      SubstringAtSomeOffset(key, s);
      Success(IsSubstring(key, s))
    case JArr(xs) => Success(JStr(key) in xs)
    case _ => Failure(TypeError)
  }

  /** The recursive substring search finds `needle` exactly when it starts
      at some offset of `hay`. */
  lemma {:induction false} SubstringAtSomeOffset(needle: string, hay: string)
    ensures IsSubstring(needle, hay) <==> exists i :: 0 <= i <= |hay| && IsPrefix(needle, hay[i..])
    decreases |hay|
  {
    if |hay| > 0 {
      SubstringAtSomeOffset(needle, hay[1..]);
      if exists i :: 0 <= i <= |hay| && IsPrefix(needle, hay[i..]) {
        var i :| 0 <= i <= |hay| && IsPrefix(needle, hay[i..]);
        if i > 0 {
          assert hay[1..][i - 1..] == hay[i..];
        } else {
          assert hay[0..] == hay;
        }
      }
      if IsSubstring(needle, hay[1..]) {
        var i :| 0 <= i <= |hay[1..]| && IsPrefix(needle, hay[1..][i..]);
        assert hay[1..][i..] == hay[i + 1..];
      }
      assert hay[0..] == hay;
    } else {
      assert hay[0..] == hay;
      if IsPrefix(needle, hay) {
        assert IsPrefix(needle, hay[0..]);
      }
    }
  }

  /** The keys of an object, in order, as JSON strings. */
  function Keys(fields: seq<(string, Json)>): (r: seq<Json>)
    ensures |r| == |fields|
    ensures forall i :: 0 <= i < |fields| ==> r[i] == JStr(fields[i].0)
  {
    if |fields| == 0 then [] else [JStr(fields[0].0)] + Keys(fields[1..])
  }

  /** The one-character strings of `s`, in order. */
  function Chars(s: string): (r: seq<Json>)
    ensures |r| == |s|
    ensures forall i :: 0 <= i < |s| ==> r[i] == JStr([s[i]])
  {
    if |s| == 0 then [] else [JStr([s[0]])] + Chars(s[1..])
  }

  /** `for x in v`: a list yields its items, a dict its keys, a string its
      characters; `None`, booleans and numbers are not iterable. */
  function Iterate(v: Json): (r: Result<seq<Json>, PyError>)
    ensures r.Failure? <==> v.JNull? || v.JBool? || v.JInt?
    ensures r.Failure? ==> r.error == TypeError
    ensures v.JArr? ==> r == Success(v.items)
    ensures v.JObj? ==> r == Success(Keys(v.fields))
    ensures v.JStr? ==> r == Success(Chars(v.s))
    ensures r.Success? ==> (|r.value| > 0 <==> Truthy(v))
  {
    match v
    case JArr(xs) => Success(xs)
    case JObj(fs) => Success(Keys(fs))
    case JStr(s) => Success(Chars(s))
    case _ => Failure(TypeError)
  }

  /** The strings of a sequence of JSON values, provided every one is a
      string (`str.join` raises `TypeError` otherwise). */
  function AsStrings(vs: seq<Json>): (r: Result<seq<string>, PyError>)
    ensures r.Success? <==> forall i :: 0 <= i < |vs| ==> vs[i].JStr?
    ensures r.Success? ==> |r.value| == |vs| && forall i :: 0 <= i < |vs| ==> vs[i] == JStr(r.value[i])
    ensures r.Failure? ==> r.error == TypeError
  {
    if |vs| == 0 then Success([])
    else if !vs[0].JStr? then Failure(TypeError)
    else
      match AsStrings(vs[1..])
      case Failure(e) => Failure(e)
      case Success(rest) => Success([vs[0].s] + rest)
  }

  /** The decimal digit character for `d`. */
  function DigitChar(d: nat): char
    requires d < 10
  {
    "0123456789"[d]
  }

  /** The value of a decimal digit character. */
  function DigitValue(c: char): nat
  {
    if '0' <= c <= '9' then (c - '0') as nat else 0
  }

  /** `str(n)` for a non-negative integer: its decimal digits, without
      leading zeros. */
  function NatToString(n: nat): (r: string)
    ensures |r| > 0
    ensures forall i :: 0 <= i < |r| ==> '0' <= r[i] <= '9'
    ensures |r| > 1 ==> r[0] != '0'
    decreases n
  {
    if n < 10 then [DigitChar(n)] else NatToString(n / 10) + [DigitChar(n % 10)]
  }

  /** The number a string of decimal digits denotes. */
  function ParseNat(s: string): nat
    decreases |s|
  {
    if |s| == 0 then 0 else ParseNat(s[..|s| - 1]) * 10 + DigitValue(s[|s| - 1])
  }

  /** Reading back the digits `str(n)` writes gives `n`. */
  lemma {:induction false} ParseNatToString(n: nat)
    ensures ParseNat(NatToString(n)) == n
    decreases n
  {
    var s := NatToString(n);
    if n >= 10 {
      ParseNatToString(n / 10);
      assert s[..|s| - 1] == NatToString(n / 10);
    }
  }

  /** `str(n)` for any integer: a minus sign before the digits of `|n|`. */
  function IntToString(n: int): string
  {
    if n < 0 then "-" + NatToString(-n) else NatToString(n)
  }
}

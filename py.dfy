/**
 * The slice of Python semantics both servers rely on: the JSON values that
 * tool arguments and REST responses carry, the exceptions a handler can
 * raise, and the built-in operations the handlers apply to those values
 * (subscripting, `dict.get`, `in`, `for` iteration, `str.lower`,
 * `str.join` and the `str()` conversion an f-string performs).
 */
module Py {

  /** A JSON value as Python's json module decodes it. */
  datatype Value =
    | Null
    | Bool(b: bool)
    | Int(i: int)
    | Str(s: string)
    | List(items: seq<Value>)
    | Dict(entries: map<string, Value>)

  /** The exceptions a handler can raise. */
  datatype Exception =
    | KeyError(key: string)
    | TypeError(message: string)
    | AttributeError(message: string)
    | ValueError(message: string)
      /** pydantic's error for a model field whose input is not acceptable */
    | ValidationError(model: string, fields: seq<string>)
      /** whatever the remote client library raises (HTTP or network failure) */
    | RemoteError(message: string)

  /** Either a value or the exception that was raised instead. */
  datatype Result<+T> = Success(value: T) | Failure(error: Exception)
  {
    predicate IsFailure() { Failure? }

    function PropagateFailure<U>(): Result<U>
      requires Failure?
    {
      Failure(error)
    }

    function Extract(): T
      requires Success?
    {
      value
    }
  }

  datatype Option<+T> = None | Some(value: T)

  /** What a tool call does as seen by the transport: it answers, or it lets an exception escape. */
  datatype Outcome<+R> = Answered(reply: R) | Raised(error: Exception)

  const EmptyDict: Value := Dict(map[])

  /** `type(v).__name__` */
  function TypeName(v: Value): string
  {
    match v
    case Null => "NoneType"
    case Bool(_) => "bool"
    case Int(_) => "int"
    case Str(_) => "str"
    case List(_) => "list"
    case Dict(_) => "dict"
  }

  /** Python truthiness: `None`, `False`, `0`, `""`, `[]` and `{}` are false. */
  predicate Truthy(v: Value)
  {
    match v
    case Null => false
    case Bool(b) => b
    case Int(i) => i != 0
    case Str(s) => s != ""
    case List(xs) => xs != []
    case Dict(m) => m != map[]
  }

  /** `v[key]` for a string key. */
  function Index(v: Value, key: string): Result<Value>
  {
    match v
    case Dict(m) => if key in m then Success(m[key]) else Failure(KeyError(key))
    case List(_) => Failure(TypeError("list indices must be integers or slices, not str"))
    case Str(_) => Failure(TypeError("string indices must be integers, not 'str'"))
    case _ => Failure(TypeError("'" + TypeName(v) + "' object is not subscriptable"))
  }

  /** `v.get(key, default)` */
  function GetOr(v: Value, key: string, default: Value): Result<Value>
  {
    match v
    case Dict(m) => Success(if key in m then m[key] else default)
    case _ => Failure(AttributeError("'" + TypeName(v) + "' object has no attribute 'get'"))
  }

  /** `v.get(outer, {}).get(inner, default)` */
  function GetNested(v: Value, outer: string, inner: string, default: Value): Result<Value>
  {
    var o :- GetOr(v, outer, EmptyDict);
    GetOr(o, inner, default)
  }

  /** The value reached by subscripting `v` with each key of `path` in turn, if every step finds a dict entry. */
  function At(v: Value, path: seq<string>): Option<Value>
    decreases |path|
  {
    if path == [] then Some(v)
    else if v.Dict? && path[0] in v.entries then At(v.entries[path[0]], path[1..])
    else None
  }

  /** `args[key]` on the tool-argument dict. */
  function Arg(args: map<string, Value>, key: string): Result<Value>
  {
    if key in args then Success(args[key]) else Failure(KeyError(key))
  }

  /** `d.get(key, default)` on a dict's entries (the tool arguments among them). */
  function ArgOr(args: map<string, Value>, key: string, default: Value): Value
  {
    if key in args then args[key] else default
  }

  /** `needle` occurs as a contiguous part of `hay`. */
  predicate IsInfix(needle: string, hay: string)
    decreases |hay|
  {
    |needle| <= |hay| &&
    (hay[..|needle|] == needle || (|hay| > 0 && IsInfix(needle, hay[1..])))
  }

  /** `key in v` for a string key. */
  function Contains(v: Value, key: string): Result<bool>
  {
    match v
    case Dict(m) => Success(key in m)
    case List(xs) => Success(Str(key) in xs)
    case Str(s) => Success(IsInfix(key, s))
    case _ => Failure(TypeError("argument of type '" + TypeName(v) + "' is not iterable"))
  }

  /**
   * The elements a `for` loop over `v` visits, in order. A dict yields its
   * keys; since a Dafny map keeps no insertion order, the model yields one
   * `Str("")` per key instead (every loop body in the servers fails on the
   * first string element with a message that does not depend on the string).
   */
  function Iterate(v: Value): Result<seq<Value>>
  {
    match v
    case List(xs) => Success(xs)
    case Str(s) => Success(seq(|s|, i requires 0 <= i < |s| => Str([s[i]])))
    case Dict(m) => Success(seq(|m.Keys|, _ => Str("")))
    case _ => Failure(TypeError("'" + TypeName(v) + "' object is not iterable"))
  }

  function LowerChar(c: char): char
  {
    if 'A' <= c <= 'Z' then (c as int + 32) as char else c
  }

  predicate IsUpper(c: char)
  {
    'A' <= c <= 'Z'
  }

  /**
   * ASCII case folding (Python's `str.lower` restricted to ASCII letters): no
   * upper-case letter is left, every other character is kept, and each
   * upper-case letter becomes its lower-case partner.
   */
  function LowerAscii(s: string): (r: string)
    ensures |r| == |s|
    ensures forall i :: 0 <= i < |r| ==> !IsUpper(r[i])
    ensures forall i :: 0 <= i < |s| && !IsUpper(s[i]) ==> r[i] == s[i]
    ensures forall i :: 0 <= i < |s| && IsUpper(s[i]) ==> r[i] as int == s[i] as int + 32
  {
    seq(|s|, i requires 0 <= i < |s| => LowerChar(s[i]))
  }

  /** Two characters that are equal once ASCII letters are folded to one case. */
  predicate SameIgnoringCase(c: char, d: char)
  {
    || c == d
    || (IsUpper(c) && d as int == c as int + 32)
    || (IsUpper(d) && c as int == d as int + 32)
  }

  /** Folding twice is folding once. */
  lemma LowerAsciiIdempotent(s: string)
    ensures LowerAscii(LowerAscii(s)) == LowerAscii(s)
  {
    var r := LowerAscii(s);
    assert forall i :: 0 <= i < |r| ==> LowerAscii(r)[i] == r[i];
  }

  /** `a.lower() == b.lower()` holds exactly when `a` and `b` agree position by position, ignoring ASCII case. */
  lemma LowerAsciiEqualIff(a: string, b: string)
    ensures LowerAscii(a) == LowerAscii(b) <==>
              |a| == |b| && forall i :: 0 <= i < |a| ==> SameIgnoringCase(a[i], b[i])
  {
    if LowerAscii(a) == LowerAscii(b) {
      forall i | 0 <= i < |a| ensures SameIgnoringCase(a[i], b[i]) {
        assert LowerAscii(a)[i] == LowerAscii(b)[i];
      }
    }
    if |a| == |b| && forall i :: 0 <= i < |a| ==> SameIgnoringCase(a[i], b[i]) {
      forall i | 0 <= i < |a| ensures LowerAscii(a)[i] == LowerAscii(b)[i] {
        assert SameIgnoringCase(a[i], b[i]);
      }
    }
  }

  /** `v.lower()` */
  function Lower(v: Value): Result<string>
  {
    match v
    case Str(s) => Success(LowerAscii(s))
    case _ => Failure(AttributeError("'" + TypeName(v) + "' object has no attribute 'lower'"))
  }

  function DigitsOf(n: nat): string
    decreases n
  {
    if n < 10 then [('0' as int + n) as char]
    else DigitsOf(n / 10) + [('0' as int + n % 10) as char]
  }

  /** `str(i)` for an int */
  function IntToString(i: int): string
  {
    if i < 0 then "-" + DigitsOf(-i) else DigitsOf(i)
  }

  /** `str(v)`, as an f-string renders a value (lists and dicts as placeholders). */
  function Show(v: Value): string
  {
    match v
    case Null => "None"
    case Bool(b) => if b then "True" else "False"
    case Int(i) => IntToString(i)
    case Str(s) => s
    case List(_) => "[...]"
    case Dict(_) => "{...}"
  }

  /** `sep.join(ss)` over strings. */
  function JoinStrings(sep: string, ss: seq<string>): string
  {
    if |ss| == 0 then ""
    else if |ss| == 1 then ss[0]
    else ss[0] + sep + JoinStrings(sep, ss[1..])
  }

  /** The position of the first element that is not a string. */
  function FirstNonStr(items: seq<Value>): (k: nat)
    requires exists i :: 0 <= i < |items| && !items[i].Str?
    ensures k < |items| && !items[k].Str?
    ensures forall j :: 0 <= j < k ==> items[j].Str?
  {
    if !items[0].Str? then 0
    else
      assert exists i :: 0 <= i < |items[1..]| && !items[1..][i].Str? by {
        var i :| 0 <= i < |items| && !items[i].Str?;
        assert i > 0 && items[1..][i - 1] == items[i];
      }
      1 + FirstNonStr(items[1..])
  }

  /** `sep.join(items)`: every item must be a str. */
  function Join(sep: string, items: seq<Value>): Result<string>
  {
    if forall i :: 0 <= i < |items| ==> items[i].Str? then
      Success(JoinStrings(sep, seq(|items|, i requires 0 <= i < |items| => items[i].s)))
    else
      var k := FirstNonStr(items);
      Failure(TypeError("sequence item " + IntToString(k) + ": expected str instance, "
                        + TypeName(items[k]) + " found"))
  }

  /** `str(e)`: the text an `Error: {str(e)}` reply carries. */
  function Message(e: Exception): string
  {
    match e
    case KeyError(k) => "'" + k + "'"
    case TypeError(m) => m
    case AttributeError(m) => m
    case ValueError(m) => m
    case ValidationError(model, fields) =>
      IntToString(|fields|) + (if |fields| == 1 then " validation error" else " validation errors")
      + " for " + model + FieldErrors(fields)
    case RemoteError(m) => m
  }

  function FieldErrors(fields: seq<string>): string
  {
    if fields == [] then ""
    else "\n" + fields[0] + "\n  Input should be a valid string" + FieldErrors(fields[1..])
  }
}

/** Decoded JSON values as the Python code sees them, Python truthiness,
    the few built-in conversions the dashboard relies on (`float`, `int`,
    arithmetic operands, `dict.get`, iteration), and small string helpers. */
module PyJson {

  /** A decoded JSON value. Objects keep their key order, as Python dicts do. */
  datatype Json =
    | Null
    | Bool(b: bool)
    | Num(n: real)
    | Str(s: string)
    | Arr(items: seq<Json>)
    | Obj(fields: seq<(string, Json)>)

  /** The outcome of a Python expression: a value, or an exception that the
      enclosing `try` catches. */
  datatype Result<T> = Ok(value: T) | Raised

  datatype Option<T> = None | Some(value: T)

  /** Python truthiness: `None`, `False`, `0`, `""`, `[]` and `{}` are falsy. */
  predicate Truthy(j: Json)
  {
    match j
    case Null => false
    case Bool(b) => b
    case Num(n) => n != 0.0
    case Str(s) => s != []
    case Arr(a) => a != []
    case Obj(f) => f != []
  }

  /** `k in d` for a dict `d`. */
  predicate HasKey(fields: seq<(string, Json)>, k: string)
  {
    exists i :: 0 <= i < |fields| && fields[i].0 == k
  }

  /** `d[k]`: the value of the first entry with key `k`. */
  function Field(fields: seq<(string, Json)>, k: string): (v: Json)
    requires HasKey(fields, k)
    ensures exists i :: 0 <= i < |fields| && fields[i].0 == k && fields[i].1 == v
  {
    if fields[0].0 == k then fields[0].1
    else
      assert HasKey(fields[1..], k) by {
        var i :| 0 <= i < |fields| && fields[i].0 == k;
        assert fields[1..][i - 1].0 == k;
      }
      Field(fields[1..], k)
  }

  /** `d.get(k)` on a dict: the value of the first entry with key `k`, or
      `None` when the key is absent. */
  function DictGet(fields: seq<(string, Json)>, k: string): Json
  {
    if fields == [] then Null
    else if fields[0].0 == k then fields[0].1
    else DictGet(fields[1..], k)
  }

  /** `d.get(k)` agrees with `k in d` and `d[k]`. */
  lemma {:induction false} DictGetField(fields: seq<(string, Json)>, k: string)
    ensures HasKey(fields, k) ==> DictGet(fields, k) == Field(fields, k)
    ensures !HasKey(fields, k) ==> DictGet(fields, k) == Null
  {
    if fields != [] && fields[0].0 != k {
      DictGetField(fields[1..], k);
      if HasKey(fields, k) {
        var i :| 0 <= i < |fields| && fields[i].0 == k;
        assert fields[1..][i - 1].0 == k;
      } else {
        forall i | 0 <= i < |fields[1..]| ensures fields[1..][i].0 != k {
          assert fields[1..][i] == fields[i + 1];
        }
      }
    }
  }

  /** `a or b`: `a` when it is truthy, else `b`. */
  function Or(a: Json, b: Json): Json
  {
    if Truthy(a) then a else b
  }

  /** The operand value of a number in Python arithmetic (`bool` is an `int`);
      `None` where `+`, `*` or `/` would raise `TypeError`. */
  function Numeric(j: Json): Option<real>
  {
    match j
    case Num(n) => Some(n)
    case Bool(b) => Some(if b then 1.0 else 0.0)
    case _ => None
  }

  /** `float(j)`; `strToFloat` is Python's parsing of a numeric string,
      `None` where `float` raises `ValueError`. */
  function ToFloat(j: Json, strToFloat: string -> Option<real>): Option<real>
  {
    match j
    case Str(s) => strToFloat(s)
    case _ => Numeric(j)
  }

  /** `int(x)` for a float: truncation toward zero. */
  function Trunc(x: real): (i: int)
    ensures x >= 0.0 ==> 0.0 <= i as real <= x < i as real + 1.0
    ensures x < 0.0 ==> i as real - 1.0 < x <= i as real <= 0.0
  {
    if x >= 0.0 then x.Floor else -((-x).Floor)
  }

  /** `for item in j`: lists yield their elements, dicts their keys and
      strings their characters; anything else raises `TypeError`. */
  function Iterate(j: Json): (r: Result<seq<Json>>)
    ensures j.Arr? ==> r == Ok(j.items)
    ensures r.Ok? && !Truthy(j) ==> r.value == []
  {
    match j
    case Arr(a) => Ok(a)
    case Obj(f) => Ok(seq(|f|, i requires 0 <= i < |f| => Str(f[i].0)))
    case Str(s) => Ok(seq(|s|, i requires 0 <= i < |s| => Str([s[i]])))
    case _ => Raised
  }

  /** Values usable as dict keys: lists and dicts are unhashable. */
  predicate Hashable(j: Json)
  {
    !j.Arr? && !j.Obj?
  }

  /** `s.lower()` on ASCII letters. */
  function Lower(s: string): (r: string)
    ensures |r| == |s|
    ensures forall i :: 0 <= i < |s| && !('A' <= s[i] <= 'Z') ==> r[i] == s[i]
    ensures forall i :: 0 <= i < |s| && 'A' <= s[i] <= 'Z' ==> r[i] == (s[i] as int + 32) as char
  {
    if s == [] then []
    else
      var c := s[0];
      [if 'A' <= c <= 'Z' then (c as int + 32) as char else c] + Lower(s[1..])
  }

  /** `t in s` for strings: `t` occurs as a contiguous substring of `s`. */
  predicate Contains(s: string, t: string)
  {
    t <= s || (s != [] && Contains(s[1..], t))
  }
}

/**
 * JSON values as the core sees them after `json.loads`/`jwt.decode`, with the
 * Python operations the core applies to them: truthiness, `dict.get`, numeric
 * comparison and `str()`.
 */
module JsonValues {
  import opened Wrappers
  import Strings

  datatype Json =
    | JNull
    | JBool(b: bool)
    | JInt(i: int)
    | JFloat(f: real)
    | JStr(s: string)
    | JArr(items: seq<Json>)
    | JObj(fields: map<string, Json>)

  /** A decoded JSON object (a Python dict with string keys). */
  type Object = map<string, Json>

  /** Python truthiness of a JSON value. */
  predicate Truthy(j: Json)
  {
    match j
    case JNull => false
    case JBool(b) => b
    case JInt(i) => i != 0
    case JFloat(f) => f != 0.0
    case JStr(s) => s != []
    case JArr(xs) => xs != []
    case JObj(m) => m != map[]
  }

  /** `d.get(k)` */
  function Get(d: Object, k: string): (r: Option<Json>)
    ensures r.Some? <==> k in d
    ensures r.Some? ==> r.value == d[k]
  {
    if k in d then Some(d[k]) else None
  }

  /** Truthiness of the result of `d.get(k)`: `None` is falsy. */
  predicate TruthyAt(d: Object, k: string)
  {
    k in d && Truthy(d[k])
  }

  /** `d.get(k) == JStr(s)` */
  predicate HasString(d: Object, k: string, s: string)
  {
    k in d && d[k] == JStr(s)
  }

  /** The numeric value of a JSON value in a Python comparison (`bool` is an `int`). */
  function Number(j: Json): (r: Option<real>)
    ensures r.Some? <==> (j.JInt? || j.JFloat? || j.JBool?)
  {
    match j
    case JInt(i) => Some(i as real)
    case JFloat(f) => Some(f)
    case JBool(b) => Some(if b then 1.0 else 0.0)
    case _ => None
  }

  /**
   * Python `a == b` on decoded JSON values: numbers compare by value whatever
   * their type (`1 == 1.0 == True`), lists element by element, dicts key by
   * key, and anything else only with a value of its own kind.
   */
  predicate PyEq(a: Json, b: Json)
    decreases a
  {
    match a
    case JArr(xs) => b.JArr? && |xs| == |b.items| && forall i :: 0 <= i < |xs| ==> PyEq(xs[i], b.items[i])
    case JObj(m) => b.JObj? && m.Keys == b.fields.Keys && forall k :: k in m ==> PyEq(m[k], b.fields[k])
    case _ => if Number(a).Some? && Number(b).Some? then Number(a) == Number(b) else a == b
  }

  /** Every value equals itself. */
  lemma {:induction false} PyEqReflexive(a: Json)
    ensures PyEq(a, a)
    decreases a
  {
    match a
    case JArr(xs) =>
      forall i | 0 <= i < |xs| ensures PyEq(xs[i], xs[i]) {
        PyEqReflexive(xs[i]);
      }
    case JObj(m) =>
      forall k | k in m ensures PyEq(m[k], m[k]) {
        PyEqReflexive(m[k]);
      }
    case _ =>
  }

  /**
   * Strings equal only strings, and only the same text; numbers of any type
   * are equal exactly when their values are.
   */
  lemma PyEqScalars(s: string, b: Json, x: Json, y: Json)
    ensures PyEq(JStr(s), b) <==> b == JStr(s)
    ensures Number(x).Some? && Number(y).Some? ==> (PyEq(x, y) <==> Number(x) == Number(y))
    ensures PyEq(JInt(1), JFloat(1.0)) && PyEq(JBool(true), JInt(1)) && !PyEq(JStr("1"), JInt(1))
  {
  }

  /** A value equals a string exactly when the string equals it. */
  lemma PyEqSymmetricString(s: string, b: Json)
    ensures PyEq(b, JStr(s)) <==> PyEq(JStr(s), b)
  {
  }

  /** The Python type name of a decoded JSON value, as error messages print it. */
  function TypeName(j: Json): string
  {
    match j
    case JNull => "NoneType"
    case JBool(_) => "bool"
    case JInt(_) => "int"
    case JFloat(_) => "float"
    case JStr(_) => "str"
    case JArr(_) => "list"
    case JObj(_) => "dict"
  }

  /** The values Python's `in` can search: strings, lists and dicts. */
  predicate Iterable(j: Json)
  {
    j.JStr? || j.JArr? || j.JObj?
  }

  /** `needle in j`: a substring of a string, an element of a list, a key of a dict. */
  predicate Includes(j: Json, needle: string)
    requires Iterable(j)
  {
    match j
    case JStr(s) => Strings.Contains(s, needle)
    case JArr(xs) => JStr(needle) in xs
    case JObj(m) => needle in m
  }

  /** The text of the `TypeError` that `in` raises on a value it cannot search. */
  function NotIterable(j: Json): string
  {
    "argument of type '" + TypeName(j) + "' is not iterable"
  }

  /** `needle in j`, or the `TypeError` it raises. */
  function In(j: Json, needle: string): (r: Result<bool>)
    ensures r.Ok? <==> Iterable(j)
  {
    if Iterable(j) then Ok(Includes(j, needle)) else Raised(NotIterable(j))
  }

  /** The text of the `AttributeError` for a missing attribute or method. */
  function NoAttribute(typeName: string, attr: string): string
  {
    "'" + typeName + "' object has no attribute '" + attr + "'"
  }

  /** Python `str(x)` of a JSON value (see README for the approximated cases). */
  function Str(j: Json): string
    decreases j, 1
  {
    match j
    case JNull => "None"
    case JBool(b) => if b then "True" else "False"
    case JInt(i) => Strings.IntToString(i)
    case JFloat(f) => if f == f.Floor as real then Strings.IntToString(f.Floor) + ".0" else "<float>"
    case JStr(s) => s
    case JArr(xs) => "[" + ReprList(xs) + "]"
    case JObj(_) => "{...}"
  }

  /** `str()` of `d.get(k)`: `"None"` when the key is absent. */
  function StrOpt(o: Option<Json>): string
  {
    match o
    case None => "None"
    case Some(j) => Str(j)
  }

  function Repr(j: Json): string
    decreases j, 2
  {
    match j
    case JStr(s) => "'" + s + "'"
    case JArr(xs) => "[" + ReprList(xs) + "]"
    case _ => Str(j)
  }

  function ReprList(xs: seq<Json>): string
    decreases xs, 0
  {
    if xs == [] then "" else if |xs| == 1 then Repr(xs[0]) else Repr(xs[0]) + ", " + ReprList(xs[1..])
  }

  /** The repr of a list of strings, as in an f-string of a Python list. */
  function StringListRepr(names: seq<string>): string
  {
    Str(JArr(seq(|names|, i requires 0 <= i < |names| => JStr(names[i]))))
  }
}

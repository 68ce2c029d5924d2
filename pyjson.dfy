/**
  JSON values as Python's `json.loads` hands them to the application, and
  the Python semantics the application applies to them: truthiness,
  `dict.get`, `str()` inside an f-string, and iteration in a `for` loop.
 */
module PyJson {
  import opened PyStrings

  /**
    A decoded JSON document. Objects are Python dicts keyed by strings; the
    order in which their keys were inserted is not recorded. Non-integral
    numbers are held as exact reals.
   */
  datatype Json =
    | JNull
    | JBool(b: bool)
    | JInt(i: int)
    | JReal(r: real)
    | JStr(s: string)
    | JArr(items: seq<Json>)
    | JObj(fields: map<string, Json>)

  /** What `json.loads(text)` did: raised `JSONDecodeError`, or returned a value. */
  datatype ParseOutcome = DecodeError | Parsed(value: Json)

  /**
    The Python exceptions the modelled code can raise, and one outcome that
    is not a Python exception: `KeyOrderNotModelled` marks the point where
    the model stops, a loop over a non-empty dict, whose key order a `map`
    does not record.
   */
  datatype PyError =
    | AttributeError(typeName: string, attribute: string)  // `'list' object has no attribute 'get'`
    | TypeError(typeName: string)                          // `'int' object is not iterable`
    | NameError(name: string)                              // `name 'x' is not defined`
    | KeyOrderNotModelled                                  // a limit of the model, not an exception

  datatype Result<T> = Ok(value: T) | Err(error: PyError)

  datatype Option<T> = None | Some(value: T)

  /** `type(j).__name__`. */
  function TypeName(j: Json): string {
    match j
    case JNull => "NoneType"
    case JBool(_) => "bool"
    case JInt(_) => "int"
    case JReal(_) => "float"
    case JStr(_) => "str"
    case JArr(_) => "list"
    case JObj(_) => "dict"
  }

  /** `bool(j)`: Python's truthiness. */
  predicate Truthy(j: Json) {
    match j
    case JNull => false
    case JBool(b) => b
    case JInt(i) => i != 0
    case JReal(r) => r != 0.0
    case JStr(s) => s != []
    case JArr(items) => items != []
    case JObj(fields) => fields != map[]
  }

  /** Python's falsy values are exactly `None`, `False`, `0`, `0.0`, `""`, `[]` and `{}`. */
  lemma FalsyValues(j: Json)
    ensures !Truthy(j) <==> j in [JNull, JBool(false), JInt(0), JReal(0.0), JStr(""), JArr([]), JObj(map[])]
  {
    match j
    case JNull =>
    case JBool(b) =>
    case JInt(i) =>
    case JReal(r) =>
    case JStr(s) =>
    case JArr(items) =>
    case JObj(fields) =>
  }

  /** `m.get(key, default)`: the value stored under `key`, or `default` when there is none. */
  function Get(m: map<string, Json>, key: string, default: Json): (r: Json)
    ensures key in m ==> r == m[key]
    ensures key !in m ==> r == default
  {
    if key in m then m[key] else default
  }

  /**
    `str(j)`, as an f-string placeholder renders it. Strings, `None`, booleans
    and integers are written out; Python's `repr` of floats, lists and dicts
    is the parameter `show`.
   */
  function Str(j: Json, show: Json -> string): (r: string)
    ensures j.JStr? ==> r == j.s
    ensures j.JNull? ==> r == "None"
    ensures j.JBool? ==> r == if j.b then "True" else "False"
    ensures j.JInt? && j.i >= 0 ==> r != [] && AllDigits(r) && DecimalValue(r) == j.i && (r[0] != '0' || r == "0")
    ensures j.JInt? && j.i < 0 ==>
              |r| >= 2 && r[0] == '-' && AllDigits(r[1..]) && DecimalValue(r[1..]) == -j.i && r[1] != '0'
    ensures j.JReal? || j.JArr? || j.JObj? ==> r == show(j)
  {
    match j
    case JStr(s) => s
    case JNull => "None"
    case JBool(b) => if b then "True" else "False"
    case JInt(i) => IntToDecimal(i)
    case _ => show(j)
  }

  /** A dict with one key has exactly that key. */
  lemma SingleKey(m: map<string, Json>)
    requires |m| == 1
    ensures exists k :: m.Keys == {k}
  {
    var k :| k in m;
    assert |m.Keys - {k}| == |m.Keys| - 1 == 0;
    assert m.Keys == {k};
  }

  /**
    The elements a `for` loop visits: a list's items, a string's characters
    (as one-character strings), a dict's keys (as strings). The keys of a
    dict with no key or one key come in the only order there is; a dict
    with two or more keys is visited in insertion order, which a `map` does
    not record, so that loop is `KeyOrderNotModelled`. Other scalars raise
    `TypeError`.
   */
  function Iterate(j: Json): (r: Result<seq<Json>>)
    ensures j.JArr? ==> r == Ok(j.items)
    ensures j.JStr? ==> r.Ok? && |r.value| == |j.s| && forall k :: 0 <= k < |j.s| ==> r.value[k] == JStr([j.s[k]])
    ensures r.Err? <==> (j.JObj? && |j.fields| >= 2) || j.JNull? || j.JBool? || j.JInt? || j.JReal?
    ensures j.JObj? && j.fields == map[] ==> r == Ok([])
    ensures j.JObj? && |j.fields| == 1 ==> exists k :: j.fields.Keys == {k} && r == Ok([JStr(k)])
    ensures j.JObj? && |j.fields| >= 2 ==> r == Err(KeyOrderNotModelled)
    ensures j.JNull? || j.JBool? || j.JInt? || j.JReal? ==> r == Err(TypeError(TypeName(j)))
  {
    match j
    case JArr(items) => Ok(items)
    case JStr(s) => Ok(seq(|s|, k requires 0 <= k < |s| => JStr([s[k]])))
    case JObj(fields) =>
      if fields == map[] then Ok([])
      else if |fields| == 1 then
        SingleKey(fields);
        var k :| k in fields;
        Ok([JStr(k)])
      else Err(KeyOrderNotModelled)
    case _ => Err(TypeError(TypeName(j)))
  }
}

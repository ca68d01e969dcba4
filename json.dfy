/**
  JSON values as the source-list handler sees them once decoded into Python
  objects, with the few Python operations the handler applies to them:
  truthiness, `d[key]`, `d.get(key, default)`, `len(x)`, `x in container`
  and iteration in a `for` loop. Operations that raise in Python return a
  `Failure` carrying the name of the exception.
*/
module Json {
  import opened Common
  import Strings

  datatype Json =
    | Null
    | Bool(b: bool)
    | Num(n: int)
    | Str(s: string)
    | Arr(items: seq<Json>)
    | Obj(fields: map<string, Json>)

  const KeyError := "KeyError"
  const TypeError := "TypeError"

  /** Python truthiness: `None`, `False`, `0` and empty containers are false. */
  predicate Truthy(j: Json) {
    match j
    case Null => false
    case Bool(b) => b
    case Num(n) => n != 0
    case Str(s) => s != []
    case Arr(items) => items != []
    case Obj(fields) => fields != map[]
  }

  /** `j[key]` with a text key: a `KeyError` when absent, a `TypeError` on a non-dictionary. */
  function Field(j: Json, key: string): (r: Result<Json, string>)
    ensures r.Success? <==> j.Obj? && key in j.fields
    ensures r.Success? ==> r.value == j.fields[key]
    ensures r.Failure? ==> r.error == (if j.Obj? then KeyError else TypeError)
  {
    match j
    case Obj(fields) => if key in fields then Success(fields[key]) else Failure(KeyError)
    case _ => Failure(TypeError)
  }

  /** `d.get(key, default)` on a request dictionary. */
  function Get(d: map<string, Json>, key: string, default: Json): (r: Json)
    ensures key in d ==> r == d[key]
    ensures key !in d ==> r == default
  {
    if key in d then d[key] else default
  }

  /** `len(j)`: defined on text, lists and dictionaries only. */
  function Len(j: Json): (r: Result<nat, string>)
    ensures r.Success? <==> j.Str? || j.Arr? || j.Obj?
    ensures r.Success? ==> (r.value == 0 <==> !Truthy(j))
    ensures r.Failure? ==> r.error == TypeError
  {
    match j
    case Str(s) => Success(|s|)
    case Arr(items) => Success(|items|)
    case Obj(fields) => Success(|fields|)
    case _ => Failure(TypeError)
  }

  /**
    `x in container`: element equality for a list, key membership for a
    dictionary (only text keys can match; a list or dictionary needle is
    unhashable), substring search for text (needle must be text); other
    containers are not iterable.
  */
  function In(x: Json, container: Json): (r: Result<bool, string>)
    ensures container.Arr? ==> r == Success(x in container.items)
    ensures container.Obj? && x.Str? ==> r == Success(x.s in container.fields)
    ensures container.Str? && x.Str? ==> r == Success(Strings.Contains(container.s, x.s))
    ensures r.Failure? ==> r.error == TypeError
  {
    match container
    case Arr(items) => Success(x in items)
    case Obj(fields) =>
      if x.Arr? || x.Obj? then Failure(TypeError)
      else Success(x.Str? && x.s in fields)
    case Str(s) => if x.Str? then Success(Strings.Contains(s, x.s)) else Failure(TypeError)
    case _ => Failure(TypeError)
  }

  /**
    The items a `for` loop visits, for a loop whose body first indexes the
    item by a text key. A list yields its items. Iterating text or a
    dictionary yields text, which that first indexing rejects with a
    `TypeError` before anything else happens, so only the empty cases
    succeed. Numbers, booleans and `None` are not iterable.
  */
  function ObjectItems(j: Json): (r: Result<seq<Json>, string>)
    ensures j.Arr? ==> r == Success(j.items)
    ensures r.Success? ==> |r.value| == 0 || j.Arr?
    ensures r.Failure? ==> r.error == TypeError
    ensures !j.Arr? ==> (r.Success? <==> (j.Str? || j.Obj?) && !Truthy(j))
  {
    match j
    case Arr(items) => Success(items)
    case Str(s) => if s == [] then Success([]) else Failure(TypeError)
    case Obj(fields) => if fields == map[] then Success([]) else Failure(TypeError)
    case _ => Failure(TypeError)
  }

}

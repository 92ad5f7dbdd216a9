// The Python values the server handles: what `response.json()` and the tool
// arguments decode to, how Python tests them for truth, how `dict.get`,
// subscripting and `for` loops behave on them, and what an f-string prints.
module PyValues {
  import opened Text

  /** A value as Python's json module decodes it: None, bool, int, str, list or dict. */
  datatype Json =
    | JNull
    | JBool(b: bool)
    | JInt(i: int)
    | JStr(s: string)
    | JArr(items: seq<Json>)
    | JObj(fields: map<string, Json>)

  /** A Python value that may be None (the server's `Optional[...]` returns). */
  datatype Option<+T> = None | Some(value: T)

  /** Evaluating a Python expression: a value, or an exception that propagates to the caller. */
  datatype Py<+T> = Value(value: T) | Raised
  {
    predicate IsFailure() { Raised? }

    function PropagateFailure<U>(): Py<U>
      requires Raised?
    {
      Raised
    }

    function Extract(): T
      requires Value?
    {
      value
    }
  }

  const EmptyDict: Json := JObj(map[])

  /** Python truthiness: None, False, 0, "", [] and {} are false. */
  predicate Truthy(j: Json) {
    match j
    case JNull => false
    case JBool(b) => b
    case JInt(i) => i != 0
    case JStr(s) => s != ""
    case JArr(items) => items != []
    case JObj(fields) => |fields| > 0
  }

  /** `d.get(key, default)` on a dictionary. */
  function Lookup(d: map<string, Json>, key: string, default: Json): Json {
    if key in d then d[key] else default
  }

  /** `j.get(key, default)`: only a dict has `get`; on anything else it raises AttributeError. */
  function Field(j: Json, key: string, default: Json): (r: Py<Json>)
    ensures r.Value? <==> j.JObj?
    ensures j.JObj? ==> r.value == Lookup(j.fields, key, default)
  {
    if j.JObj? then Value(Lookup(j.fields, key, default)) else Raised
  }

  /** `j[key]` with a str key: a dict without the key raises KeyError, any other value TypeError. */
  function Index(j: Json, key: string): (r: Py<Json>)
    ensures r.Value? <==> j.JObj? && key in j.fields
  {
    if j.JObj? && key in j.fields then Value(j.fields[key]) else Raised
  }

  /**
   * The elements a `for` loop of the server visits in j. Every such loop body calls
   * `.get` on the element or subscripts it with a str, which raises on a str. A list
   * gives its items; a str or a dict yields strs (its characters or its keys), so only
   * an empty one gets through; None, bools and ints are not iterable (TypeError).
   */
  function LoopItems(j: Json): (r: Py<seq<Json>>)
    ensures r.Value? && !j.JArr? ==> r.value == []
    ensures j.JArr? ==> r == Value(j.items)
  {
    match j
    case JArr(items) => Value(items)
    case JStr(s) => if s == "" then Value([]) else Raised
    case JObj(fields) => if |fields| == 0 then Value([]) else Raised
    case _ => Raised
  }

  /**
   * What the model takes as given from Python's library: parsing and formatting a date
   * (`datetime.fromisoformat` then `strftime`, Raised when parsing fails) and `repr` of a
   * list or dict, which is what an f-string prints for one.
   */
  datatype Renderer = Renderer(formatDate: string -> Py<string>, repr: Json -> string)

  /** `str(j)`: what an f-string substitutes for j. */
  function Show(R: Renderer, j: Json): string {
    match j
    case JNull => "None"
    case JBool(b) => if b then "True" else "False"
    case JInt(i) => IntToString(i)
    case JStr(s) => s
    case _ => R.repr(j)
  }

  /**
   * Applying f to each element in order, as a loop that appends each result or a list
   * comprehension does: the first element on which f raises makes the whole raise.
   */
  function MapAll(xs: seq<Json>, f: Json -> Py<string>): (r: Py<seq<string>>)
    ensures r.Value? <==> forall i :: 0 <= i < |xs| ==> f(xs[i]).Value?
    ensures r.Value? ==> |r.value| == |xs| && forall i :: 0 <= i < |xs| ==> r.value[i] == f(xs[i]).value
    decreases |xs|
  {
    if xs == [] then Value([])
    else
      var first :- f(xs[0]);
      var rest :- MapAll(xs[1..], f);
      Value([first] + rest)
  }
}

// JSON values as the Python and JavaScript code handles them after decoding:
// the six kinds json.loads produces (floating point numbers are not modelled).
// Objects are maps from their keys to their values.

module Json {
  import opened Wrappers

  datatype Json =
    | Null
    | Bool(b: bool)
    | Int(i: int)
    | Str(s: string)
    | List(items: seq<Json>)
    | Dict(fields: map<string, Json>)

  /** Python's truth value of a decoded JSON value (`bool(value)`). */
  predicate Truthy(j: Json)
  {
    match j
    case Null => false
    case Bool(b) => b
    case Int(i) => i != 0
    case Str(s) => |s| > 0
    case List(items) => |items| > 0
    case Dict(fields) => |fields| > 0
  }

  /** A value Python can use as a dictionary key (it is hashable). */
  predicate Hashable(j: Json)
  {
    !j.List? && !j.Dict?
  }

  /** Python's `x in lst` for a JSON list: some element compares equal. Python
      compares 1 == True and 0 == False, so booleans and integers meet. */
  predicate PyEquals(a: Json, b: Json)
  {
    a == b
    || (a.Bool? && b.Int? && b.i == (if a.b then 1 else 0))
    || (a.Int? && b.Bool? && a.i == (if b.b then 1 else 0))
  }

  predicate ListContains(items: seq<Json>, x: Json)
  {
    exists i :: 0 <= i < |items| && PyEquals(items[i], x)
  }
}

/** JSON-like values as the Python code handles them after decoding:
    None, booleans, integers, strings, lists and dicts; Python truthiness,
    `x or default`, and str() of a value. */
module Json {
  import opened Text

  datatype Json = Null | Bool(b: bool) | Int(n: int) | Str(s: string) | List(items: seq<Json>) | Object(fields: map<string, Json>)

  const EmptyObject := Object(map[])
  const EmptyList := List([])

  /** bool(v) in Python: None, False, 0, "", [] and {} are false. */
  predicate Truthy(v: Json) {
    match v
    case Null => false
    case Bool(b) => b
    case Int(n) => n != 0
    case Str(s) => s != ""
    case List(xs) => xs != []
    case Object(m) => m != map[]
  }

  /** `v or dflt`: v when it is truthy, otherwise the default. */
  function Or(v: Json, dflt: Json): (r: Json)
    ensures Truthy(v) ==> r == v
    ensures !Truthy(v) ==> r == dflt
  {
    if Truthy(v) then v else dflt
  }

  /** d.get(key, dflt) */
  function Get(m: map<string, Json>, key: string, dflt: Json): Json {
    if key in m then m[key] else dflt
  }

  function Join(parts: seq<string>): string
    decreases |parts|
  {
    if parts == [] then "" else if |parts| == 1 then parts[0] else parts[0] + ", " + Join(parts[1..])
  }

  /** str(v): a string is its own text; other values are rendered as
      Python's repr, with strings inside containers in single quotes. */
  function PyStr(v: Json): string {
    match v
    case Str(s) => s
    case _ => Repr(v)
  }

  function Repr(v: Json): string
    decreases v, 1
  {
    match v
    case Null => "None"
    case Bool(b) => if b then "True" else "False"
    case Int(n) => IntToString(n)
    case Str(s) => "'" + s + "'"
    case List(xs) => "[" + Join(ReprAll(v, xs)) + "]"
    case Object(m) => "{" + Join(ReprEntries(v, m, SortedStrings(m.Keys))) + "}"
  }

  function ReprAll(parent: Json, xs: seq<Json>): seq<string>
    requires forall x :: x in xs ==> x < parent
    decreases parent, 0, |xs|
  {
    if xs == [] then []
    else
      assert xs[0] in xs;
      assert forall x :: x in xs[1..] ==> x in xs;
      [Repr(xs[0])] + ReprAll(parent, xs[1..])
  }

  function ReprEntries(parent: Json, m: map<string, Json>, keys: seq<string>): seq<string>
    requires forall k :: k in m ==> m[k] < parent
    requires forall k :: k in keys ==> k in m
    decreases parent, 0, |keys|
  {
    if keys == [] then []
    else
      assert keys[0] in keys;
      ["'" + keys[0] + "': " + Repr(m[keys[0]])] + ReprEntries(parent, m, keys[1..])
  }
}

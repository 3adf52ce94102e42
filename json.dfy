/**
 * The values `json.loads` produces, as the modelled code sees them: objects are Python
 * dictionaries (insertion-ordered, keys distinct), arrays are lists. Floating-point numbers
 * are not part of this model.
 */
module Json {
  import opened Wrappers
  import opened Dicts
  import opened PyText

  datatype Json =
    | Null
    | Bool(b: bool)
    | Int(i: int)
    | Str(s: string)
    | Arr(items: seq<Json>)
    | Obj(fields: Dict<string, Json>)

  /** `obj.get(key, default)` on a parsed object. */
  function GetOr(fields: Dict<string, Json>, key: string, default: Json): Json {
    match Get(fields, key)
    case Some(v) => v
    case None => default
  }

  /** `bool(v)`: Python truthiness of a parsed value. */
  predicate Truthy(v: Json) {
    match v
    case Null => false
    case Bool(b) => b
    case Int(i) => i != 0
    case Str(s) => s != ""
    case Arr(items) => items != []
    case Obj(fields) => fields != []
  }

  /** A list of message strings as a list of parsed values. */
  function Strs(msgs: seq<string>): (r: seq<Json>)
    ensures |r| == |msgs|
    ensures forall i :: 0 <= i < |msgs| ==> r[i] == Str(msgs[i])
  {
    seq(|msgs|, i requires 0 <= i < |msgs| => Str(msgs[i]))
  }

  /**
   * `str(v)`. Scalars are exact; lists and dictionaries use `repr` of their elements,
   * with strings put in single quotes and not escaped.
   */
  function PyStr(v: Json): string {
    match v
    case Str(s) => s
    case _ => Repr(v)
  }

  function Repr(v: Json): string
    decreases v, 1
  {
    match v
    case Null => "None"
    case Bool(b) => if b then "True" else "False"
    case Int(i) => IntToString(i)
    case Str(s) => "'" + s + "'"
    case Arr(items) => "[" + ReprItems(v, items) + "]"
    case Obj(fields) => "{" + ReprFields(v, fields) + "}"
  }

  function ReprItems(parent: Json, items: seq<Json>): string
    requires forall x :: x in items ==> x < parent
    decreases parent, 0, |items|
  {
    if items == [] then ""
    else
      assert items[0] in items;
      assert forall x :: x in items[1..] ==> x in items;
      Repr(items[0]) + (if |items| == 1 then "" else ", " + ReprItems(parent, items[1..]))
  }

  function ReprFields(parent: Json, fields: seq<(string, Json)>): string
    requires forall f :: f in fields ==> f.1 < parent
    decreases parent, 0, |fields|
  {
    if fields == [] then ""
    else
      assert fields[0] in fields;
      assert forall f :: f in fields[1..] ==> f in fields;
      "'" + fields[0].0 + "': " + Repr(fields[0].1)
      + (if |fields| == 1 then "" else ", " + ReprFields(parent, fields[1..]))
  }
}

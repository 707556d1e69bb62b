/** JSON documents as Python's `json.load` hands them over: objects keep their
    key order (they are dicts), numbers are `int` or `float`. */
module JsonValue {
  import opened Common

  datatype Json =
    | JNull
    | JBool(b: bool)
    | JInt(i: int)
    | JFloat(text: string)          // a float, kept as its decimal text
    | JStr(s: string)
    | JArr(items: seq<Json>)
    | JObj(members: seq<(string, Json)>)

  /** `isinstance(v, dict)` */
  predicate IsObject(v: Json) { v.JObj? }

  /** `key in v` for a str key, as Python evaluates it on each kind of value:
      a dict tests its keys, a str tests for a substring, a list tests for an
      equal element; any other value raises TypeError (None here). */
  function PyIn(key: string, v: Json): (r: Option<bool>)
    ensures v.JObj? ==> r == Some(HasKey(v.members, key))
    ensures v.JStr? ==> r == Some(Contains(v.s, key))
    ensures v.JArr? ==> r == Some(JStr(key) in v.items)
    ensures r.None? <==> !(v.JObj? || v.JStr? || v.JArr?)
  {
    match v
    case JObj(m) => Some(HasKey(m, key))
    case JStr(s) => Some(Contains(s, key))
    case JArr(items) => Some(JStr(key) in items)
    case _ => None
  }

  /** `str(v)` for the scalar kinds; containers are rendered the way Python's
      `repr` shows them, with strings in single quotes. */
  function Str(v: Json): string {
    match v
    case JStr(s) => s
    case _ => Repr(v)
  }

  function Repr(v: Json): string
    decreases v, 1
  {
    match v
    case JNull => "None"
    case JBool(b) => if b then "True" else "False"
    case JInt(i) => IntToString(i)
    case JFloat(t) => t
    case JStr(s) => "'" + s + "'"
    case JArr(items) => "[" + ReprItems(items, v) + "]"
    case JObj(members) => "{" + ReprMembers(members, v) + "}"
  }

  function ReprItems(items: seq<Json>, ghost parent: Json): string
    requires forall x :: x in items ==> x < parent
    decreases parent, 0, |items|
  {
    if |items| == 0 then ""
    else
      assert items[0] in items;
      assert forall x :: x in items[1..] ==> x in items;
      Repr(items[0]) + (if |items| == 1 then "" else ", " + ReprItems(items[1..], parent))
  }

  function ReprMembers(members: seq<(string, Json)>, ghost parent: Json): string
    requires forall i :: 0 <= i < |members| ==> members[i].1 < parent
    decreases parent, 0, |members|
  {
    if |members| == 0 then ""
    else
      assert forall i :: 0 <= i < |members| - 1 ==> members[1..][i] == members[i + 1];
      "'" + members[0].0 + "': " + Repr(members[0].1)
      + (if |members| == 1 then "" else ", " + ReprMembers(members[1..], parent))
  }
}

/** JSON values as Python sees them after decoding: objects keep the order
    of their keys, `null` is Python's `None`. */
module JsonValues {
  import opened Wrappers
  import opened Dicts
  import opened Text

  datatype Json =
    | JNull
    | JBool(b: bool)
    | JInt(i: int)
    | JStr(s: string)
    | JArr(items: seq<Json>)
    | JObj(members: Dict<Json>)

  function Sum(s: seq<nat>): nat
  {
    if s == [] then 0 else Sum(s[..|s| - 1]) + s[|s| - 1]
  }

  /** Number of nodes of a JSON tree: the measure that recursion over nested
      objects decreases. */
  function Size(j: Json): nat
  {
    match j
    case JArr(items) => 1 + Sum(seq(|items|, i requires 0 <= i < |items| => Size(items[i])))
    case JObj(ms) => 1 + Sum(seq(|ms|, i requires 0 <= i < |ms| => Size(ms[i].1)))
    case _ => 1
  }

  lemma {:induction false} SumElement(s: seq<nat>, i: nat)
    requires i < |s|
    ensures s[i] <= Sum(s)
  {
    if i < |s| - 1 {
      assert s[..|s| - 1][i] == s[i];
      SumElement(s[..|s| - 1], i);
    }
  }

  /** Every entry of an object is a strictly smaller tree than the object. */
  lemma EntrySmaller(ms: Dict<Json>, i: nat)
    requires i < |ms|
    ensures Size(ms[i].1) < Size(JObj(ms))
  {
    var sizes := seq(|ms|, i requires 0 <= i < |ms| => Size(ms[i].1));
    SumElement(sizes, i);
  }

  /** Every item of a list is a strictly smaller tree than the list. */
  lemma ItemSmaller(items: seq<Json>, i: nat)
    requires i < |items|
    ensures Size(items[i]) < Size(JArr(items))
  {
    var sizes := seq(|items|, i requires 0 <= i < |items| => Size(items[i]));
    SumElement(sizes, i);
  }

  /** A value stored in an object is a strictly smaller tree than the object. */
  lemma LookupSmaller(ms: Dict<Json>, k: string)
    requires Lookup(ms, k).Some?
    ensures Size(Lookup(ms, k).value) < Size(JObj(ms))
  {
    var v := Lookup(ms, k).value;
    var i :| 0 <= i < |ms| && ms[i] == (k, v);
    EntrySmaller(ms, i);
  }

  /** `dict.get(key)`: JSON `null` and an absent key both read as `None`. */
  function Get(ms: Dict<Json>, k: string): Json
  {
    Lookup(ms, k).GetOr(JNull)
  }

  /** `dict.get(key, default)`. */
  function GetOr(ms: Dict<Json>, k: string, default: Json): Json
  {
    Lookup(ms, k).GetOr(default)
  }

  /** Python truthiness of a decoded JSON value. */
  predicate Truthy(j: Json)
  {
    match j
    case JNull => false
    case JBool(b) => b
    case JInt(i) => i != 0
    case JStr(s) => s != []
    case JArr(items) => items != []
    case JObj(ms) => ms != []
  }

  predicate AllStrings(items: seq<Json>)
  {
    forall i :: 0 <= i < |items| ==> items[i].JStr?
  }

  function Strings(items: seq<Json>): (r: seq<string>)
    requires AllStrings(items)
  {
    seq(|items|, i requires 0 <= i < |items| && AllStrings(items) => items[i].s)
  }

  function FromStrings(ss: seq<string>): (r: seq<Json>)
  {
    seq(|ss|, i requires 0 <= i < |ss| => JStr(ss[i]))
  }

  /** `repr(v)` of a decoded JSON value; strings are quoted without escaping
      the quotes they may contain. */
  function Repr(j: Json): string
    decreases Size(j)
  {
    match j
    case JNull => "None"
    case JBool(b) => if b then "True" else "False"
    case JInt(i) => IntToString(i)
    case JStr(s) => "'" + s + "'"
    case JArr(items) =>
      "[" + Join(seq(|items|, i requires 0 <= i < |items| => ItemSmaller(items, i); Repr(items[i])), ", ") + "]"
    case JObj(ms) =>
      "{" + Join(seq(|ms|, i requires 0 <= i < |ms| => EntrySmaller(ms, i); "'" + ms[i].0 + "': " + Repr(ms[i].1)), ", ") + "}"
  }

  /** `str(v)`: a string is itself, anything else its `repr`. */
  function PyStr(j: Json): (r: string)
    ensures j.JStr? ==> r == j.s
  {
    if j.JStr? then j.s else Repr(j)
  }
}

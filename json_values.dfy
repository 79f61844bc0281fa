/** JSON documents as the result files hold them, and the Python coercions the
    readers apply to a looked-up value (`data.get(key, default)` followed by
    `int(...)`, `bool(...)`, `str(...)` or a list comprehension). Numbers are
    integers in this model. */
module JsonValues {
  import opened Common

  datatype Json =
    | JNull
    | JBool(b: bool)
    | JNum(n: int)
    | JStr(s: string)
    | JList(items: seq<Json>)
    | JObj(fields: map<string, Json>)

  /** Python truthiness of a decoded JSON value. */
  predicate Truthy(j: Json)
  {
    match j
    case JNull => false
    case JBool(b) => b
    case JNum(n) => n != 0
    case JStr(s) => s != []
    case JList(xs) => xs != []
    case JObj(m) => m != map[]
  }

  /** `data.get(key)`: an absent key reads as None. */
  function Get(o: map<string, Json>, key: string): (j: Json)
    ensures key !in o ==> j == JNull
  {
    if key in o then o[key] else JNull
  }

  /** `int(x)` for a number or a boolean; any other kind reads as 0 here. */
  function IntOf(j: Json): int
  {
    match j
    case JNum(n) => n
    case JBool(b) => if b then 1 else 0
    case _ => 0
  }

  /** `int(x or 0)`: a falsy value gives 0. */
  function AsInt(j: Json): (r: int)
    ensures !Truthy(j) ==> r == 0
    ensures j.JNum? ==> r == j.n
  {
    if Truthy(j) then IntOf(j) else 0
  }

  /** `int(data.get(key, 0) or 0)`: falsy or missing values give 0. */
  function GetInt(o: map<string, Json>, key: string): (r: int)
    ensures key !in o ==> r == 0
    ensures key in o ==> r == AsInt(o[key])
  {
    AsInt(Get(o, key))
  }

  /** Python's `str(x)` for the scalar kinds; lists and objects read as "" here. */
  function StrOf(j: Json): string
  {
    match j
    case JNull => "None"
    case JBool(b) => if b then "True" else "False"
    case JNum(n) => IntToDecimal(n)
    case JStr(s) => s
    case _ => ""
  }

  /** `str(data.get(key, ''))` (used for names: a missing key gives ""). */
  function GetName(o: map<string, Json>, key: string): (r: string)
    ensures key !in o ==> r == ""
    ensures Get(o, key).JStr? ==> r == Get(o, key).s
  {
    if key in o then StrOf(o[key]) else ""
  }

  /** `str(x or '')`: a falsy value gives "". */
  function AsStr(j: Json): (r: string)
    ensures !Truthy(j) ==> r == ""
    ensures j.JStr? ==> r == j.s
  {
    if Truthy(j) then StrOf(j) else ""
  }

  /** `data.get(key) or []` seen as a list: anything that is not a list reads as empty. */
  function GetList(o: map<string, Json>, key: string): (r: seq<Json>)
    ensures Get(o, key).JList? ==> r == Get(o, key).items
  {
    var j := Get(o, key);
    if j.JList? then j.items else []
  }

  /** `[float(x) for x in (data.get(key) or [])]` with integer samples. */
  function GetNumList(o: map<string, Json>, key: string): (r: seq<int>)
    ensures |r| == |GetList(o, key)|
    ensures forall i :: 0 <= i < |r| ==> r[i] == IntOf(GetList(o, key)[i])
  {
    var xs := GetList(o, key);
    seq(|xs|, i requires 0 <= i < |xs| => IntOf(xs[i]))
  }

  /** `[str(x) for x in (data.get(key) or [])]`. */
  function GetStrList(o: map<string, Json>, key: string): (r: seq<string>)
    ensures |r| == |GetList(o, key)|
    ensures forall i :: 0 <= i < |r| ==> r[i] == StrOf(GetList(o, key)[i])
  {
    var xs := GetList(o, key);
    seq(|xs|, i requires 0 <= i < |xs| => StrOf(xs[i]))
  }

  /** The encoders' list forms. */
  function NumList(xs: seq<int>): (j: Json)
    ensures j.JList? && |j.items| == |xs|
    ensures forall i :: 0 <= i < |xs| ==> j.items[i] == JNum(xs[i])
  {
    JList(seq(|xs|, i requires 0 <= i < |xs| => JNum(xs[i])))
  }

  function StrList(xs: seq<string>): (j: Json)
    ensures j.JList? && |j.items| == |xs|
    ensures forall i :: 0 <= i < |xs| ==> j.items[i] == JStr(xs[i])
  {
    JList(seq(|xs|, i requires 0 <= i < |xs| => JStr(xs[i])))
  }

  /** A list of numbers written by NumList reads back as the same samples. */
  lemma NumListRoundTrip(o: map<string, Json>, key: string, xs: seq<int>)
    requires key in o && o[key] == NumList(xs)
    ensures GetNumList(o, key) == xs
  {
    if xs != [] {
      assert Truthy(o[key]);
    }
  }

  /** A list of strings written by StrList reads back as the same strings. */
  lemma StrListRoundTrip(o: map<string, Json>, key: string, xs: seq<string>)
    requires key in o && o[key] == StrList(xs)
    ensures GetStrList(o, key) == xs
  {
  }
}

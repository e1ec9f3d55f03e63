/** JSON-shaped Python values as they travel between the middleware and the
    policy engine, with Python's truthiness (`bool(x)`) and `str(x)`. */
module Json {
  import opened Basics

  datatype Json =
    | JNull
    | JBool(b: bool)
    | JInt(i: int)
    | JStr(s: string)
    | JArr(items: seq<Json>)
    | JObj(fields: map<string, Json>)

  /** Python `bool(x)`: None, False, 0, "", [] and {} are falsy. */
  predicate Truthy(j: Json)
  {
    match j
    case JNull => false
    case JBool(b) => b
    case JInt(i) => i != 0
    case JStr(s) => s != ""
    case JArr(items) => items != []
    case JObj(fields) => fields != map[]
  }

  /** Python `str(x)` for None, booleans, integers and strings; lists and dicts
      are rendered by a placeholder (their text never decides anything here). */
  function PyStr(j: Json): string
  {
    match j
    case JNull => "None"
    case JBool(b) => if b then "True" else "False"
    case JInt(i) => IntToString(i)
    case JStr(s) => s
    case JArr(_) => "[...]"
    case JObj(_) => "{...}"
  }

  /** Python `d.get(key, default)`. */
  function Get(fields: map<string, Json>, key: string, default: Json): (r: Json)
    ensures key in fields ==> r == fields[key]
    ensures key !in fields ==> r == default
  {
    if key in fields then fields[key] else default
  }

  function OptStr(o: Option<string>): Json
  {
    match o
    case None => JNull
    case Some(s) => JStr(s)
  }

  function StrList(xs: seq<string>): (r: Json)
    ensures r.JArr? && |r.items| == |xs|
    ensures forall i :: 0 <= i < |xs| ==> r.items[i] == JStr(xs[i])
  {
    JArr(seq(|xs|, i requires 0 <= i < |xs| => JStr(xs[i])))
  }

  function StrMap(m: map<string, string>): (r: Json)
    ensures r.JObj? && r.fields.Keys == m.Keys
    ensures forall k :: k in m ==> r.fields[k] == JStr(m[k])
  {
    JObj(map k | k in m :: JStr(m[k]))
  }

  /** Reading back the encodings above. */
  function AsOptStr(j: Json): Option<Option<string>>
  {
    match j
    case JNull => Some(None)
    case JStr(s) => Some(Some(s))
    case _ => None
  }

  function AsStrList(j: Json): (r: Option<seq<string>>)
    ensures r.Some? ==> j.JArr? && |r.value| == |j.items|
  {
    if j.JArr? && forall i :: 0 <= i < |j.items| ==> j.items[i].JStr? then
      Some(seq(|j.items|, i requires 0 <= i < |j.items| => j.items[i].s))
    else None
  }

  function AsStrMap(j: Json): Option<map<string, string>>
  {
    if j.JObj? && forall k :: k in j.fields ==> j.fields[k].JStr? then
      Some(map k | k in j.fields :: j.fields[k].s)
    else None
  }

  lemma {:induction false} StrListRoundTrip(xs: seq<string>)
    ensures AsStrList(StrList(xs)) == Some(xs)
  {
    var r := StrList(xs);
    assert forall i :: 0 <= i < |r.items| ==> r.items[i].JStr?;
    assert seq(|r.items|, i requires 0 <= i < |r.items| => r.items[i].s) == xs;
  }

  lemma {:induction false} StrMapRoundTrip(m: map<string, string>)
    ensures AsStrMap(StrMap(m)) == Some(m)
  {
    var r := StrMap(m);
    assert forall k :: k in r.fields ==> r.fields[k].JStr?;
    assert (map k | k in r.fields :: r.fields[k].s) == m;
  }

  lemma OptStrRoundTrip(o: Option<string>)
    ensures AsOptStr(OptStr(o)) == Some(o)
  {
  }
}

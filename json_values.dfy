/** The JSON values a parsing template, a request body or a payload carries,
    and the few JavaScript operations the handlers apply to them: truthiness,
    `||`, property reads, `for...in` enumeration and `String(v)`. */
module JsonValues {
  import opened Outcomes
  import NumberText

  /** Numbers are integers in this model. An object keeps its members in
      the order they are enumerated. */
  datatype Json =
    | JNull
    | JBool(b: bool)
    | JNum(n: int)
    | JStr(s: string)
    | JArr(items: seq<Json>)
    | JObj(members: seq<(string, Json)>)

  /** JavaScript truthiness: `null`, `false`, `0` and `''` are falsy. */
  predicate Truthy(v: Json) {
    match v
    case JNull => false
    case JBool(b) => b
    case JNum(n) => n != 0
    case JStr(s) => s != ""
    case JArr(_) => true
    case JObj(_) => true
  }

  /** Objects as stored by the database have each member name once. */
  predicate UniqueKeys(members: seq<(string, Json)>) {
    forall i, j :: 0 <= i < j < |members| ==> members[i].0 != members[j].0
  }

  /** The value of the first member named `key`; `None` is `undefined`. */
  function Lookup(members: seq<(string, Json)>, key: string): (r: Option<Json>)
    ensures r.None? <==> forall i :: 0 <= i < |members| ==> members[i].0 != key
    ensures r.Some? ==> exists i :: 0 <= i < |members| && members[i] == (key, r.value)
                          && forall j :: 0 <= j < i ==> members[j].0 != key
  {
    if members == [] then None
    else if members[0].0 == key then Some(members[0].1)
    else
      var r := Lookup(members[1..], key);
      if r.Some? then
        ghost var i :| 0 <= i < |members[1..]| && members[1..][i] == (key, r.value)
                       && forall j :: 0 <= j < i ==> members[1..][j].0 != key;
        assert members[i + 1] == (key, r.value);
        r
      else r
  }

  /** `v[key]` on a value that is not `null`: only objects have the member
      names the handlers read (`sheetName`, `startRow`, `columns`, `key`,
      `updates`, `id`, `lease_fee`, `mission_fee`). */
  function Get(v: Json, key: string): Option<Json> {
    if v.JObj? then Lookup(v.members, key) else None
  }

  /** `a || b` where `a` may be `undefined`. */
  function Or(a: Option<Json>, b: Json): (r: Json)
    ensures a.Some? && Truthy(a.value) ==> r == a.value
    ensures !(a.Some? && Truthy(a.value)) ==> r == b
  {
    if a.Some? && Truthy(a.value) then a.value else b
  }

  /** The name/value pairs `for (const k in v)` visits, with `v[k]`: an
      object's members, an array's or a string's indices; numbers, booleans
      and `null` have none. */
  function ForInEntries(v: Json): (r: seq<(string, Json)>)
    ensures v.JObj? ==> r == v.members
    ensures v.JNull? || v.JBool? || v.JNum? ==> r == []
  {
    match v
    case JObj(members) => members
    case JArr(items) => seq(|items|, i requires 0 <= i < |items| => (NumberText.NatToDecimal(i), items[i]))
    case JStr(s) => seq(|s|, i requires 0 <= i < |s| => (NumberText.NatToDecimal(i), JStr([s[i]])))
    case _ => []
  }

  /** `for...in` never visits a property name twice: an object's names are
      distinct when its members are, and an array's or a string's indices
      are distinct decimal texts. */
  lemma ForInKeysDistinct(v: Json)
    requires v.JObj? ==> UniqueKeys(v.members)
    ensures UniqueKeys(ForInEntries(v))
  {
    var r := ForInEntries(v);
    if v.JArr? || v.JStr? {
      forall i, j | 0 <= i < j < |r|
        ensures r[i].0 != r[j].0
      {
        assert r[i].0 == NumberText.NatToDecimal(i) && r[j].0 == NumberText.NatToDecimal(j);
        NumberText.DecimalRoundTrip(i);
        NumberText.DecimalRoundTrip(j);
      }
    }
  }

  /** `String(v)`, as a template literal or a property key converts it. */
  function JsString(v: Json): string
    decreases v
  {
    match v
    case JNull => "null"
    case JBool(b) => if b then "true" else "false"
    case JNum(n) => NumberText.IntToDecimal(n)
    case JStr(s) => s
    case JObj(_) => "[object Object]"
    case JArr(items) =>
      Join(seq(|items|, i requires 0 <= i < |items| => if items[i].JNull? then "" else JsString(items[i])))
  }

  /** `Array.prototype.join` with the default separator. */
  function Join(parts: seq<string>): string {
    if parts == [] then ""
    else if |parts| == 1 then parts[0]
    else Join(parts[..|parts| - 1]) + "," + parts[|parts| - 1]
  }
}

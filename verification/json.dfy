/** Decoded JSON values, with the JavaScript readings the source applies to them:
    property access, truthiness and conversion inside a template literal. */
module Json {
  import opened Results
  import Strings

  /** A parsed JSON value. Numbers are restricted to integers. An object keeps its
      members in document order, duplicates included. */
  datatype Json =
    | JNull
    | JBool(b: bool)
    | JNum(n: int)
    | JStr(s: string)
    | JArr(items: seq<Json>)
    | JObj(members: seq<(string, Json)>)

  /** The value of the LAST member named `key` (the one `JSON.parse` keeps). */
  function Member(members: seq<(string, Json)>, key: string): (r: Option<Json>)
    ensures r.None? <==> forall k :: 0 <= k < |members| ==> members[k].0 != key
    ensures r.Some? ==> exists k :: 0 <= k < |members| && members[k] == (key, r.value) &&
                                    forall j :: k < j < |members| ==> members[j].0 != key
  {
    if |members| == 0 then None
    else
      var last := members[|members| - 1];
      if last.0 == key then
        assert members[|members| - 1] == (key, last.1);
        Some(last.1)
      else
        var init := members[..|members| - 1];
        var r := Member(init, key);
        if r.Some? then
          var k :| 0 <= k < |init| && init[k] == (key, r.value) &&
                   forall j :: k < j < |init| ==> init[j].0 != key;
          assert members[k] == (key, r.value);
          assert forall j :: k < j < |members| - 1 ==> members[j] == init[j];
          r
        else
          assert forall k :: 0 <= k < |init| ==> init[k] == members[k];
          r
  }

  /** `v.key` on a non-null value: only objects have members; on every other
      value the read gives `undefined`. */
  function Get(v: Json, key: string): Option<Json> {
    match v
    case JObj(members) => Member(members, key)
    case _ => None
  }

  /** JavaScript truthiness of a possibly-`undefined` JSON value. */
  predicate Truthy(v: Option<Json>) {
    match v
    case None => false
    case Some(JNull) => false
    case Some(JBool(b)) => b
    case Some(JNum(n)) => n != 0
    case Some(JStr(s)) => s != ""
    case Some(JArr(_)) => true
    case Some(JObj(_)) => true
  }

  predicate IsDigits(s: string) {
    forall k :: 0 <= k < |s| ==> '0' <= s[k] <= '9'
  }

  /** The number a string of decimal digits denotes, most significant first. */
  function DigitsValue(s: string): nat
    requires IsDigits(s)
  {
    if |s| == 0 then 0
    else DigitsValue(s[..|s| - 1]) * 10 + (s[|s| - 1] - '0') as nat
  }

  /** Decimal rendering of a natural number: digits only, no leading zero, and
      denoting `n`. */
  function NatToString(n: nat): (r: string)
    ensures |r| >= 1 && IsDigits(r)
    ensures |r| > 1 ==> r[0] != '0'
    ensures DigitsValue(r) == n
  {
    var d := [(n % 10) as char + '0'];
    if n < 10 then d
    else
      var prefix := NatToString(n / 10);
      assert (prefix + d)[..|prefix|] == prefix;
      prefix + d
  }

  function IntToString(n: int): string {
    if n < 0 then "-" + NatToString(-n) else NatToString(n)
  }

  /** `${v}` inside a template literal. Arrays render as their elements joined by
      commas, with `null` elements rendered empty; objects render as `[object Object]`. */
  function Display(v: Option<Json>): string {
    match v
    case None => "undefined"
    case Some(j) => DisplayValue(j)
  }

  function DisplayValue(j: Json): string
    decreases j
  {
    match j
    case JNull => "null"
    case JBool(b) => if b then "true" else "false"
    case JNum(n) => IntToString(n)
    case JStr(s) => s
    case JArr(items) =>
      Strings.JoinWith(seq(|items|, i requires 0 <= i < |items| =>
        if items[i] == JNull then "" else DisplayValue(items[i])), ",")
    case JObj(_) => "[object Object]"
  }
}

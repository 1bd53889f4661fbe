/**
  The JSON values a data preview can hold, with the two pieces of JavaScript
  behaviour the forms rely on: truthiness (of the raw and filtered documents)
  and `Object.keys`.
 */
module JsonValue {
  import Decimal

  /**
    A decoded JSON document. An object's members are listed in the order in which
    JavaScript enumerates its own properties.
   */
  datatype Json =
    | JNull
    | JBool(b: bool)
    | JNumber(n: real)
    | JString(s: string)
    | JArray(elems: seq<Json>)
    | JObject(members: seq<(string, Json)>)

  /** JavaScript truthiness of a JSON value: `null`, `false`, `0` and `""` are falsy. */
  function Truthy(v: Json): (b: bool)
    ensures b ==> v != JNull
    ensures v.JArray? || v.JObject? ==> b
    ensures v.JBool? ==> b == v.b
  {
    match v
    case JNull => false
    case JBool(b) => b
    case JNumber(n) => n != 0.0
    case JString(s) => s != ""
    case JArray(_) => true
    case JObject(_) => true
  }

  /** The keys `"0"`, `"1"`, … of an indexed value of length `n`. */
  function IndexKeys(n: nat): (keys: seq<string>)
    ensures |keys| == n
    ensures forall i | 0 <= i < n :: keys[i] == Decimal.DecimalString(i)
    ensures forall i | 0 <= i < n :: Decimal.AllDigits(keys[i]) && Decimal.ParseDecimal(keys[i]) == i
    ensures forall i | 0 <= i < n :: |keys[i]| > 1 ==> keys[i][0] != '0'
    decreases n
  {
    if n == 0 then [] else IndexKeys(n - 1) + [Decimal.DecimalString(n - 1)]
  }

  /** The names of a member list, in order. */
  function MemberNames(members: seq<(string, Json)>): (names: seq<string>)
    ensures |names| == |members|
    ensures forall i | 0 <= i < |names| :: names[i] == members[i].0
    decreases |members|
  {
    if members == [] then [] else [members[0].0] + MemberNames(members[1..])
  }

  /**
    `Object.keys(v)` for a non-null value: an object's member names in order,
    the index keys of an array or a string, and nothing for a number or a boolean.
   */
  function Keys(v: Json): (keys: seq<string>)
    requires v != JNull
    ensures v.JObject? ==> |keys| == |v.members| && forall i | 0 <= i < |keys| :: keys[i] == v.members[i].0
    ensures v.JArray? ==> |keys| == |v.elems| && forall i | 0 <= i < |keys| :: keys[i] == Decimal.DecimalString(i)
    ensures v.JString? ==> |keys| == |v.s| && forall i | 0 <= i < |keys| :: keys[i] == Decimal.DecimalString(i)
    ensures !Truthy(v) ==> keys == []
  {
    match v
    case JObject(m) => MemberNames(m)
    case JArray(e) => IndexKeys(|e|)
    case JString(s) => IndexKeys(|s|)
    case _ => []
  }

  /** The guard both forms' field derivation uses: the value is truthy and has at least one key. */
  predicate HasKeys(v: Json) {
    Truthy(v) && |Keys(v)| > 0
  }

  /** The truthiness half of the guard is redundant: a value has keys exactly when `Object.keys` finds some. */
  lemma HasKeysIffKeys(v: Json)
    requires v != JNull
    ensures HasKeys(v) <==> |Keys(v)| > 0
  {
  }
}

/** The JSON values that configurations, requests and saved parameters are made of. */
module Json {

  datatype Json =
    | JNull
    | JBool(b: bool)
    | JInt(i: int)
    | JStr(s: string)
    | JList(items: seq<Json>)
    | JObject(fields: map<string, Json>)

  /** Python truthiness of a decoded JSON value: None, False, 0, "", [] and {} are false. */
  predicate Truthy(v: Json) {
    match v
    case JNull => false
    case JBool(b) => b
    case JInt(i) => i != 0
    case JStr(s) => s != ""
    case JList(items) => items != []
    case JObject(fields) => fields != map[]
  }

  /** `d.get(key)` on a JSON object: a missing key reads as None, like an explicit null. */
  function Get(fields: map<string, Json>, key: string): Json {
    if key in fields then fields[key] else JNull
  }

  /** The integer value of a bool or int: in Python `True == 1` and `False == 0`. */
  function Number(v: Json): int
    requires v.JBool? || v.JInt?
  {
    if v.JBool? then (if v.b then 1 else 0) else v.i
  }

  /**
   * Python's `==` on decoded JSON values: bools and ints compare as
   * numbers, lists element by element, dicts by keys and values.
   */
  predicate PyEqual(a: Json, b: Json)
    decreases a
  {
    if (a.JBool? || a.JInt?) && (b.JBool? || b.JInt?) then Number(a) == Number(b)
    else match a
      case JNull => b.JNull?
      case JBool(_) => false
      case JInt(_) => false
      case JStr(s) => b.JStr? && b.s == s
      case JList(xs) => b.JList? && |xs| == |b.items| && forall k :: 0 <= k < |xs| ==> PyEqual(xs[k], b.items[k])
      case JObject(fs) => b.JObject? && fs.Keys == b.fields.Keys && forall k :: k in fs ==> PyEqual(fs[k], b.fields[k])
  }

  /** Every value equals itself. */
  lemma {:induction false} PyEqualReflexive(a: Json)
    ensures PyEqual(a, a)
  {
    match a
    case JList(xs) =>
      forall k | 0 <= k < |xs| ensures PyEqual(xs[k], xs[k]) {
        PyEqualReflexive(xs[k]);
      }
    case JObject(fs) =>
      forall k | k in fs ensures PyEqual(fs[k], fs[k]) {
        PyEqualReflexive(fs[k]);
      }
    case _ =>
  }

  /** A list of strings as JSON. */
  function Strings(ts: seq<string>): (j: Json)
    ensures j.JList? && |j.items| == |ts| && forall k :: 0 <= k < |ts| ==> j.items[k] == JStr(ts[k])
  {
    JList(seq(|ts|, k requires 0 <= k < |ts| => JStr(ts[k])))
  }

  /** Two string lists are equal as JSON exactly when they are the same list. */
  lemma PyEqualStrings(ts: seq<string>, us: seq<string>)
    ensures PyEqual(Strings(ts), Strings(us)) <==> ts == us
  {
    if PyEqual(Strings(ts), Strings(us)) {
      assert forall k :: 0 <= k < |ts| ==> ts[k] == us[k] by {
        forall k | 0 <= k < |ts| ensures ts[k] == us[k] {
          assert PyEqual(Strings(ts).items[k], Strings(us).items[k]);
        }
      }
    }
    if ts == us {
      PyEqualReflexive(Strings(ts));
    }
  }
}

/** A parsed Gson `JsonObject`: its members in insertion order, each a key and a value. */
module Json {
  import opened Common

  /** A Gson `JsonElement`. Nested objects are never looked inside and are all `JOther`;
      arrays keep their elements, which `getAsBoolean` reads. */
  datatype JVal = JNull | JStr(s: string) | JNum(n: real) | JBool(b: bool) | JArr(elems: seq<JVal>) | JOther

  /** `JsonObject.entrySet()` in iteration order. */
  type JObject = seq<(string, JVal)>

  /** Gson keeps one member per key. */
  predicate DistinctKeys(o: JObject) {
    forall i, j :: 0 <= i < j < |o| ==> o[i].0 != o[j].0
  }

  /** `JsonObject.has(key)`: exact, case-sensitive lookup. */
  predicate Has(o: JObject, key: string) {
    exists i :: 0 <= i < |o| && o[i].0 == key
  }

  /** `JsonObject.keySet()` as a set. */
  function KeySet(o: JObject): set<string> {
    set i | 0 <= i < |o| :: o[i].0
  }

  /** `JsonObject.get(key)`: the value stored under `key`, or Java null when absent. */
  function Get(o: JObject, key: string): (r: Option<JVal>)
    ensures r.Some? <==> Has(o, key)
    ensures r.Some? ==> exists i :: 0 <= i < |o| && o[i] == (key, r.value)
    decreases |o|
  {
    if |o| == 0 then None
    else if o[0].0 == key then Some(o[0].1)
    else
      var r := Get(o[1..], key);
      assert r.Some? ==> exists i :: 1 <= i < |o| && o[i] == (key, r.value) by {
        if r.Some? {
          var k :| 0 <= k < |o[1..]| && o[1..][k] == (key, r.value);
          assert o[k + 1] == (key, r.value);
        }
      }
      assert Has(o[1..], key) <==> Has(o, key) by {
        if Has(o, key) {
          var k :| 0 <= k < |o| && o[k].0 == key;
          assert k != 0;
          assert o[1..][k - 1].0 == key;
        }
        if Has(o[1..], key) {
          var k :| 0 <= k < |o[1..]| && o[1..][k].0 == key;
          assert o[k + 1].0 == key;
        }
      }
      r
  }

  /** `JsonElement.isJsonPrimitive()`: strings, numbers and booleans. */
  predicate IsPrimitive(v: JVal) {
    v.JStr? || v.JNum? || v.JBool?
  }

  /** `getAsString().isEmpty()` on a primitive: a number or a boolean always prints
      at least one character, so only the empty JSON string qualifies. */
  predicate PrimitiveStringEmpty(v: JVal)
    requires IsPrimitive(v)
  {
    v.JStr? && v.s == ""
  }
}

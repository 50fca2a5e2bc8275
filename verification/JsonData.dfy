/** Parsed JSON values as the remote bracket API returns them, and the
    field-level building blocks of the zod object schemas. */
module JsonData {

  /** A JSON value after `res.json()`. Numbers are kept as opaque reals;
      an object is a map because a parsed JavaScript object keeps one value
      per key. */
  datatype Json =
    | JNull
    | JBool(b: bool)
    | JNumber(n: real)
    | JString(s: string)
    | JArray(items: seq<Json>)
    | JObject(fields: map<string, Json>)

  type Fields = map<string, Json>

  /** Which values `z.coerce.date()` turns into a valid date. The date
      parsing of the JavaScript runtime is not part of this model, so every
      schema that coerces a date takes the rule as a parameter and every
      result holds for any rule. */
  type DateRule = Json -> bool

  // z.string(), z.number(), z.boolean() on a required key

  predicate HasString(o: Fields, k: string) {
    k in o && o[k].JString?
  }

  predicate HasNumber(o: Fields, k: string) {
    k in o && o[k].JNumber?
  }

  predicate HasBool(o: Fields, k: string) {
    k in o && o[k].JBool?
  }

  /** z.array(z.any()): an array whose elements are unconstrained. */
  predicate HasArray(o: Fields, k: string) {
    k in o && o[k].JArray?
  }

  /** z.array(z.string()) */
  predicate HasStringArray(o: Fields, k: string) {
    && k in o
    && o[k].JArray?
    && forall i | 0 <= i < |o[k].items| :: o[k].items[i].JString?
  }

  /** z.coerce.date() on a required key: an absent key is coerced from
      `undefined`, which never yields a valid date. */
  predicate HasDate(dr: DateRule, o: Fields, k: string) {
    k in o && dr(o[k])
  }

  // z.union([T, z.null()]).optional(): absent, null, or of type T

  predicate OptNullNumber(o: Fields, k: string) {
    k !in o || o[k].JNull? || o[k].JNumber?
  }

  predicate OptNullString(o: Fields, k: string) {
    k !in o || o[k].JNull? || o[k].JString?
  }

  predicate OptNullBool(o: Fields, k: string) {
    k !in o || o[k].JNull? || o[k].JBool?
  }

  predicate OptNullDate(dr: DateRule, o: Fields, k: string) {
    k !in o || o[k].JNull? || dr(o[k])
  }

  /** The object with key `k` removed. */
  function Without(j: Json, k: string): (r: Json)
    requires j.JObject?
    ensures r.JObject? && k !in r.fields
    ensures forall k' | k' in j.fields && k' != k :: k' in r.fields && r.fields[k'] == j.fields[k']
    ensures r.fields.Keys == j.fields.Keys - {k}
  {
    JObject(j.fields - {k})
  }

  /** The object with key `k` set to `v`. */
  function With(j: Json, k: string, v: Json): (r: Json)
    requires j.JObject?
    ensures r.JObject? && k in r.fields && r.fields[k] == v
    ensures forall k' | k' in j.fields && k' != k :: k' in r.fields && r.fields[k'] == j.fields[k']
    ensures r.fields.Keys == j.fields.Keys + {k}
  {
    JObject(j.fields[k := v])
  }
}

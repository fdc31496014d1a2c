/**
 * The `Json` wrapper of the configuration (src/config/json.rs): a JSON value
 * whose equality compares only the values' `as_str()` projections.
 */
module ConfigJson {
  import opened Wrappers

  /**
   * `serde_json::Value`. Numbers are kept as integers; object members are a
   * map from key to value, as serde_json's default (sorted) map holds them.
   */
  datatype Value =
    | Null
    | Bool(b: bool)
    | Number(n: int)
    | String(s: string)
    | Array(items: seq<Value>)
    | Object(members: map<string, Value>)

  /** `Value::as_str`: the text of a JSON string, nothing for any other value. */
  function AsStr(v: Value): (r: Option<string>)
    ensures r.Some? <==> v.String?
    ensures r.Some? ==> r.value == v.s
  {
    match v
    case String(s) => Some(s)
    case _ => None
  }

  /** The wrapper the configuration stores payloads in. */
  datatype Json = Json(value: Value)

  /**
   * `PartialEq for Json`: the two `as_str()` projections are compared, so two
   * strings are equal exactly when their texts are, a string never equals a
   * non-string, and all non-strings (objects, arrays, numbers, booleans, null)
   * are equal to each other whatever they contain.
   */
  function Eq(a: Json, b: Json): (r: bool)
    ensures a.value.String? && b.value.String? ==> (r <==> a.value.s == b.value.s)
    ensures a.value.String? != b.value.String? ==> !r
    ensures !a.value.String? && !b.value.String? ==> r
  {
    AsStr(a.value) == AsStr(b.value)
  }

  /** `Into<Json> for Value`: the value is wrapped unchanged. */
  function FromValue(v: Value): (j: Json)
    ensures j.value == v
    ensures Eq(j, Json(v))
  {
    Json(v)
  }

  /** `impl Eq for Json` is sound: the equality is reflexive, symmetric and transitive. */
  lemma EqIsEquivalence(a: Json, b: Json, c: Json)
    ensures Eq(a, a)
    ensures Eq(a, b) == Eq(b, a)
    ensures Eq(a, b) && Eq(b, c) ==> Eq(a, c)
  {
  }

  /** Objects with different members, and an object and `null`, compare equal. */
  lemma ContentIgnoredForNonStrings()
    ensures Eq(Json(Object(map["status" := String("a")])), Json(Object(map["status" := String("b")])))
    ensures Eq(Json(Number(1)), Json(Null))
    ensures Json(Number(1)) != Json(Null)
  {
  }
}

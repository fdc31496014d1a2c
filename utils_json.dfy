/**
 * The crate-private `Json` of src/utils/json.rs: a separate type whose
 * equality is written exactly as the configuration's.
 */
module UtilsJson {
  import ConfigJson

  datatype Json = Json(value: ConfigJson.Value)

  /** `PartialEq for Json`, by the `as_str()` projections; it agrees with the configuration's equality. */
  function Eq(a: Json, b: Json): (r: bool)
    ensures r == ConfigJson.Eq(ConfigJson.Json(a.value), ConfigJson.Json(b.value))
  {
    ConfigJson.AsStr(a.value) == ConfigJson.AsStr(b.value)
  }

  /** Strings compare by text, a string never equals a non-string, non-strings all compare equal. */
  lemma EqCases(a: Json, b: Json)
    ensures a.value.String? && b.value.String? ==> (Eq(a, b) <==> a.value.s == b.value.s)
    ensures a.value.String? != b.value.String? ==> !Eq(a, b)
    ensures !a.value.String? && !b.value.String? ==> Eq(a, b)
  {
  }

  /** `impl Eq for Json` is sound: the equality is an equivalence relation. */
  lemma EqIsEquivalence(a: Json, b: Json, c: Json)
    ensures Eq(a, a)
    ensures Eq(a, b) == Eq(b, a)
    ensures Eq(a, b) && Eq(b, c) ==> Eq(a, c)
  {
    ConfigJson.EqIsEquivalence(ConfigJson.Json(a.value), ConfigJson.Json(b.value), ConfigJson.Json(c.value));
  }
}

/** The fixed target schema: which level and fact fields are essential, and
    how a field mapping names the source key for a target field. */
module Schema {
  import opened Wrappers

  /** `ESSENTIAL_LEVEL_FIELDS`; `factCount` is computed, never mapped. */
  const EssentialLevelFields: seq<string> := ["id", "title", "facts"]

  /** `ESSENTIAL_FACT_FIELDS`, in the order they are checked and emitted. */
  const EssentialFactFields: seq<string> := ["index", "operands", "operator", "result", "expression"]

  /** The essential fact fields a fact is rejected for lacking; `operator`
      falls back instead. */
  const RequiredFactFields: seq<string> := ["index", "operands", "result", "expression"]

  /** `OPTIONAL_LEVEL_FIELDS` and `OPTIONAL_FACT_FIELDS`. */
  const OptionalLevelFields: seq<string> := ["objective", "standards", "mastery", "difficulty"]
  const OptionalFactFields: seq<string> := ["prompt", "asking_for", "type"]

  /** Whether a prompt or mapping is about level records or fact records. */
  datatype Scope = LevelScope | FactScope

  /** A field mapping: target field name to source key; `None` is the
      `operator` entry of a fact mapping whose sample fact had no operator. */
  type FieldMapping = map<string, Option<string>>

  /** `field_mapping.get(field, field)` */
  function MappedKey(m: FieldMapping, field: string): (k: Option<string>)
    ensures field !in m ==> k == Some(field)
  {
    if field in m then m[field] else Some(field)
  }

  /** Whether `key` is the source key of some mapped field
      (`key in field_mapping.values()`). */
  predicate IsMappedTo(m: FieldMapping, key: string) {
    Some(key) in m.Values
  }
}

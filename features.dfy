/**
 * The per-feature transform of `featuresToString`: every parsed element of a
 * collection's `features` array is reduced to `{type, geometry, properties}`.
 */
module Features {
  import opened Options

  /** A parsed JSON value. Numbers keep their literal text; nothing here inspects them. */
  datatype Json =
    | JNull
    | JBool(b: bool)
    | JNumber(literal: string)
    | JString(s: string)
    | JArray(items: seq<Json>)
    | JObject(members: map<string, Json>)

  /**
   * An element as it reaches the transform: the incremental parser never emits
   * a JSON `null`, so every element is some other value.
   */
  type Element = j: Json | !j.JNull? witness JBool(false)

  const KEPT_KEYS: set<string> := {"type", "geometry", "properties"}

  /**
   * The projected record. A field is `None` where the destructured property was
   * `undefined`; such a field is left out when the record is serialised.
   */
  datatype Feature = Feature(geoType: Option<Json>, geometry: Option<Json>, properties: Option<Json>)

  /**
   * Reading property `key` of a parsed element: only an object has own
   * properties; a string, number, boolean or array yields `undefined`.
   */
  function Property(e: Element, key: string): (v: Option<Json>)
    ensures v.Some? <==> e.JObject? && key in e.members
    ensures v.Some? ==> v.value == e.members[key]
  {
    match e
    case JObject(members) => if key in members then Some(members[key]) else None
    case _ => None
  }

  /** The field of a projected record that holds `key`, if `key` is one of the kept keys. */
  function FieldOf(f: Feature, key: string): Option<Json>
  {
    if key == "type" then f.geoType
    else if key == "geometry" then f.geometry
    else if key == "properties" then f.properties
    else None
  }

  /**
   * `({type, geometry, properties}) => ({type, geometry, properties})`: a kept
   * key is present in the result exactly when the element is an object that
   * has it, with the element's value; no other key is present.
   */
  function Project(e: Element): (f: Feature)
    ensures forall key ::
              FieldOf(f, key) == (if e.JObject? && key in e.members && key in KEPT_KEYS then Some(e.members[key]) else None)
  {
    Feature(Property(e, "type"), Property(e, "geometry"), Property(e, "properties"))
  }

  function Entry(key: string, v: Option<Json>): map<string, Json>
  {
    if v.Some? then map[key := v.value] else map[]
  }

  /**
   * The projected record as the JSON object that gets serialised; projecting
   * it again gives the same record back, so projection is idempotent.
   */
  function ToObject(f: Feature): (j: Element)
    ensures j.JObject? && j.members.Keys <= KEPT_KEYS
    ensures Project(j) == f
  {
    var members := Entry("type", f.geoType) + Entry("geometry", f.geometry) + Entry("properties", f.properties);
    assert "type" != "geometry" && "type" != "properties" && "geometry" != "properties";
    JObject(members)
  }

  /**
   * The output keeps exactly the kept keys the input has, with the input's
   * values, and nothing else.
   */
  lemma ProjectKeepsExactly(e: Element)
    ensures e.JObject? ==> ToObject(Project(e)).members == map k | k in e.members && k in KEPT_KEYS :: e.members[k]
    ensures !e.JObject? ==> ToObject(Project(e)).members == map[]
  {
  }
}

/**
 * The building-scheme records of the scheme service: parameters and
 * evaluations are attribute records with a fixed set of attribute names,
 * a scheme adds an id and its visualisation properties.
 */
module SchemeModels {
  import opened Wrappers
  import opened Values

  /** The attributes of a SchemeParameters record. */
  const PARAMETER_FIELDS: set<string> :=
    {"grid_spacing_x", "grid_spacing_y", "extents_x", "extents_y", "no_of_floors"}

  /** The attributes of a SchemeEvaluations record; all five are required to build one. */
  const EVALUATION_FIELDS: set<string> :=
    {"steel_tonnage", "column_size", "structural_depth", "concrete_tonnage", "total_emissions"}

  /** The visualisation properties an update may set, in the order they are applied. */
  const VISUAL_FIELDS: seq<string> :=
    ["position_x", "position_y", "position_z", "color", "width", "height", "depth"]

  /** A record's attributes by name. */
  type Fields = map<string, Value>

  /**
   * A scheme. Attribute values are stored as given: a setattr on the record
   * stores whatever value it is handed.
   */
  datatype Scheme = Scheme(
    id: int,
    parameters: Fields,
    evaluations: Option<Fields>,
    width: Value,
    height: Value,
    depth: Value,
    positionX: Value,
    positionY: Value,
    positionZ: Value,
    color: Value)

  /** Parameters carry exactly their five attributes, evaluations (when present) theirs. */
  predicate WellFormed(s: Scheme) {
    s.parameters.Keys == PARAMETER_FIELDS
    && (s.evaluations.Some? ==> s.evaluations.value.Keys == EVALUATION_FIELDS)
  }

  /** A scheme built with its positions left at their default 0. */
  function NewScheme(id: int, parameters: Fields, evaluations: Option<Fields>,
                     width: Value, depth: Value, height: Value, color: string): (s: Scheme)
    ensures s.positionX == s.positionY == s.positionZ == Int(0)
  {
    Scheme(id, parameters, evaluations, width, height, depth, Int(0), Int(0), Int(0), Str(color))
  }

  /** The visualisation property called `name`. */
  function Visual(s: Scheme, name: string): Value
    requires name in VISUAL_FIELDS
  {
    match name
    case "position_x" => s.positionX
    case "position_y" => s.positionY
    case "position_z" => s.positionZ
    case "color" => s.color
    case "width" => s.width
    case "height" => s.height
    case _ => s.depth
  }

  /** `setattr(s, name, v)` for a visualisation property. */
  function SetVisual(s: Scheme, name: string, v: Value): (r: Scheme)
    requires name in VISUAL_FIELDS
    ensures Visual(r, name) == v
    ensures forall other :: other in VISUAL_FIELDS && other != name ==> Visual(r, other) == Visual(s, other)
    ensures r.id == s.id && r.parameters == s.parameters && r.evaluations == s.evaluations
  {
    match name
    case "position_x" => s.(positionX := v)
    case "position_y" => s.(positionY := v)
    case "position_z" => s.(positionZ := v)
    case "color" => s.(color := v)
    case "width" => s.(width := v)
    case "height" => s.(height := v)
    case _ => s.(depth := v)
  }
}

/**
 * The closed vocabularies of the SDK (schemas/common.py) and the enums whose
 * declarations are not part of this model (DatasetType, DatasetStatus,
 * AnnotationFormat), which are kept as their wire strings.
 */
module Common {
  import opened Wrappers

  datatype AttributeType = Boolean | OptionType | Number | Text

  /** The wire value of an attribute type; with `use_enum_values` this string is what records store. */
  function AttributeTypeWire(t: AttributeType): string {
    match t
    case Boolean => "boolean"
    case OptionType => "option"
    case Number => "number"
    case Text => "text"
  }

  /** `AttributeType(s)`: the member whose value is `s`, if any. */
  function AttributeTypeFromWire(s: string): (r: Option<AttributeType>)
    ensures r.Some? ==> AttributeTypeWire(r.value) == s
    ensures r.None? ==> forall t :: AttributeTypeWire(t) != s
  {
    if s == "boolean" then Some(Boolean)
    else if s == "option" then Some(OptionType)
    else if s == "number" then Some(Number)
    else if s == "text" then Some(Text)
    else None
  }

  lemma AttributeTypeWireRoundTrip(t: AttributeType)
    ensures AttributeTypeFromWire(AttributeTypeWire(t)) == Some(t)
  {
  }

  /** Only the option type has the wire value "option": the string test in create_project picks out exactly that type. */
  lemma WireIsOption(t: AttributeType)
    ensures AttributeTypeWire(t) == "option" <==> t == OptionType
  {
  }

  datatype SensorType = Camera | Lidar

  function SensorTypeWire(t: SensorType): string {
    match t
    case Camera => "camera"
    case Lidar => "lidar"
  }

  datatype OntologyImageType =
    | BoundingBox2D | SemanticSegmentation | Classification | Point | Polygon | Polyline

  function OntologyImageTypeWire(t: OntologyImageType): string {
    match t
    case BoundingBox2D => "2d_bounding_box"
    case SemanticSegmentation => "semantic_segmentation"
    case Classification => "classification"
    case Point => "point"
    case Polygon => "polygon"
    case Polyline => "polyline"
  }

  datatype OntologyPcdType = Cuboid

  function OntologyPcdTypeWire(t: OntologyPcdType): string {
    match t
    case Cuboid => "cuboid"
  }

  /** Enums whose members are not part of this model: any wire string stands for a member. */
  datatype DatasetType = DatasetType(wire: string)
  datatype DatasetStatus = DatasetStatus(wire: string)
  datatype AnnotationFormat = AnnotationFormat(wire: string)
}
